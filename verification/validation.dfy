/**
 * The two validation schemas of the forms (`loginSchema` and `signupSchema`).
 *
 * Validation is exhaustive: every rule of every field is checked and each
 * failing rule contributes one violation, in the order the rules are
 * declared. The forms then fold the violations into an error record, last
 * message per field winning, so a field's entry is the message of the LAST
 * rule it fails.
 */
module ValidationSchemas {
  import opened Violations
  import opened JsString

  /** The named fields of the two forms. */
  datatype Field = Name | Username | Email | Phone | Password | ConfirmPassword

  const LoginFields: set<Field> := {Username, Password}

  /** The login form's record. */
  datatype LoginRecord = LoginRecord(username: string, password: string)
  {
    function Get(f: Field): string
      requires f in LoginFields
    {
      if f == Username then username else password
    }

    /** The record with field `f` set to `v` (`{ ...prev, [name]: value }`). */
    function With(f: Field, v: string): (r: LoginRecord)
      requires f in LoginFields
      ensures r.Get(f) == v
      ensures forall g :: g in LoginFields && g != f ==> r.Get(g) == Get(g)
    {
      if f == Username then this.(username := v) else this.(password := v)
    }
  }

  /** The signup form's record. */
  datatype SignupRecord = SignupRecord(
    name: string, username: string, email: string, phone: string,
    password: string, confirmPassword: string)
  {
    function Get(f: Field): string
    {
      match f
      case Name => name
      case Username => username
      case Email => email
      case Phone => phone
      case Password => password
      case ConfirmPassword => confirmPassword
    }

    /** The record with field `f` set to `v` (`{ ...prev, [name]: value }`). */
    function With(f: Field, v: string): (r: SignupRecord)
      ensures r.Get(f) == v
      ensures forall g :: g != f ==> r.Get(g) == Get(g)
    {
      match f
      case Name => this.(name := v)
      case Username => this.(username := v)
      case Email => this.(email := v)
      case Phone => this.(phone := v)
      case Password => this.(password := v)
      case ConfirmPassword => this.(confirmPassword := v)
    }
  }

  const UsernameRequired := "Username is required"
  const PasswordRequired := "Password is required"
  const NameRequired := "Name is required"
  const EmailRequired := "Email is required"
  const PhoneRequired := "Phone is required"
  const ConfirmRequired := "Confirm your password"
  const AtLeast2 := "Must be at least 2 characters"
  const AtLeast3 := "Must be at least 3 characters"
  const AtLeast6 := "Must be at least 6 characters"
  const InvalidEmail := "Invalid email address"
  const PhoneFormat := "Phone must include country code (e.g. +919876543210)"
  const SameAsUsername := "Password cannot be the same as username"
  const Mismatch := "Passwords do not match"

  /** `errors[name]` is truthy: present and non-empty. */
  predicate HasError(errors: map<Field, string>, f: Field)
  {
    f in errors && errors[f] != ""
  }

  /** One rule: no violation when it holds, otherwise its message on `f`. */
  function Rule(f: Field, holds: bool, message: string): seq<Violation<Field>>
  {
    if holds then [] else [Violation(f, message)]
  }

  /** `.required(requiredMessage).min(n, minMessage)` on a string: the
      required test fails on the empty string and the length test is not
      skipped for it. */
  function RequiredMin(f: Field, v: string, n: nat, requiredMessage: string, minMessage: string): seq<Violation<Field>>
  {
    Rule(f, v != "", requiredMessage) + Rule(f, |v| >= n, minMessage)
  }

  lemma ErrorMapRule(f: Field, holds: bool, message: string)
    ensures ErrorMap(Rule(f, holds, message)) == if holds then map[] else map[f := message]
  {
    if !holds {
      assert Rule(f, holds, message)[..0] == [];
    }
  }

  /** A required-and-minimum-length field reports the length message whenever
      it is too short, the empty string included. */
  lemma {:induction false} ErrorMapRequiredMin(f: Field, v: string, n: nat, requiredMessage: string, minMessage: string)
    requires n > 0
    ensures ErrorMap(RequiredMin(f, v, n, requiredMessage, minMessage))
         == if |v| >= n then map[] else map[f := minMessage]
  {
    ErrorMapAppend(Rule(f, v != "", requiredMessage), Rule(f, |v| >= n, minMessage));
    ErrorMapRule(f, v != "", requiredMessage);
    ErrorMapRule(f, |v| >= n, minMessage);
  }

  // ---------------------------------------------------------------------
  // Login schema
  // ---------------------------------------------------------------------

  /** The violations of `loginSchema`. The username is trimmed before its
      tests run (`.trim()` is a transform, applied before any test). */
  function LoginViolations(r: LoginRecord): seq<Violation<Field>>
  {
    LoginRules(Trim(r.username), r.password)
  }

  /** The login rules on the trimmed username and the password. */
  function LoginRules(username: string, password: string): seq<Violation<Field>>
  {
    RequiredMin(Username, username, 3, UsernameRequired, AtLeast3)
    + RequiredMin(Password, password, 6, PasswordRequired, AtLeast6)
  }

  /** The folded record of two required-and-minimum-length fields. */
  lemma {:induction false} TwoLengthFieldErrors(
    f: Field, v: string, n: nat, requiredF: string, minF: string,
    g: Field, w: string, m: nat, requiredG: string, minG: string)
    requires f != g && n > 0 && m > 0
    ensures var e := ErrorMap(RequiredMin(f, v, n, requiredF, minF) + RequiredMin(g, w, m, requiredG, minG));
      && e.Keys <= {f, g}
      && (f in e <==> |v| < n) && (f in e ==> e[f] == minF)
      && (g in e <==> |w| < m) && (g in e ==> e[g] == minG)
  {
    var a := RequiredMin(f, v, n, requiredF, minF);
    var b := RequiredMin(g, w, m, requiredG, minG);
    ErrorMapAppend(a, b);
    ErrorMapRequiredMin(f, v, n, requiredF, minF);
    ErrorMapRequiredMin(g, w, m, requiredG, minG);
    UnionOfTwoFields(ErrorMap(a), ErrorMap(b), f, |v| >= n, minF, g, |w| >= m, minG);
  }

  /** The union of two records, each empty or holding one entry for its own
      field. */
  lemma UnionOfTwoFields(ma: map<Field, string>, mb: map<Field, string>,
                         f: Field, okF: bool, msgF: string, g: Field, okG: bool, msgG: string)
    requires f != g
    requires ma == if okF then map[] else map[f := msgF]
    requires mb == if okG then map[] else map[g := msgG]
    ensures (ma + mb).Keys <= {f, g}
    ensures (f in ma + mb <==> !okF) && (f in ma + mb ==> (ma + mb)[f] == msgF)
    ensures (g in ma + mb <==> !okG) && (g in ma + mb ==> (ma + mb)[g] == msgG)
  {
  }

  /** Every login rule holds. */
  predicate LoginValid(r: LoginRecord)
  {
    |Trim(r.username)| >= 3 && |r.password| >= 6
  }

  /** Validation of the login form as the form sees it: the folded record. */
  function ValidateLogin(r: LoginRecord): (e: map<Field, string>)
    ensures e.Keys <= LoginFields
    ensures Username in e <==> |Trim(r.username)| < 3
    ensures Username in e ==> e[Username] == AtLeast3
    ensures Password in e <==> |r.password| < 6
    ensures Password in e ==> e[Password] == AtLeast6
    ensures e == map[] <==> LoginValid(r)
    ensures e == map[] <==> LoginViolations(r) == []
  {
    TwoLengthFieldErrors(Username, Trim(r.username), 3, UsernameRequired, AtLeast3,
                         Password, r.password, 6, PasswordRequired, AtLeast6);
    ErrorMapEmpty(LoginViolations(r));
    ErrorMap(LoginViolations(r))
  }

  /** The login schema resolves exactly when every login rule holds. */
  lemma LoginValidIffNoViolations(r: LoginRecord)
    ensures LoginViolations(r) == [] <==> LoginValid(r)
  {
    assert ValidateLogin(r) == ErrorMap(LoginViolations(r));
  }

  /** Whitespace around the username does not change the login violations,
      and so not the record either: the username is judged by its trimmed
      value. */
  lemma LoginPaddingIgnored(a: string, u: string, b: string, password: string)
    requires AllWhitespace(a) && AllWhitespace(b) && Unpadded(u)
    ensures LoginViolations(LoginRecord(a + u + b, password)) == LoginViolations(LoginRecord(u, password))
  {
    TrimPadded(a, u, b);
    TrimUnpadded(u);
  }

  /** So `"  ab  "` is rejected although it has six characters. */
  lemma LoginPaddedUsernameRejected()
    ensures Username in ValidateLogin(LoginRecord("  ab  ", "secret"))
  {
    assert "  ab  " == "  " + "ab" + "  ";
    TrimPadded("  ", "ab", "  ");
  }

  /** An empty login username is reported, and the message the form shows for
      it is the length message: the required message is overwritten. */
  lemma LoginEmptyUsernameMessage(password: string)
    ensures ValidateLogin(LoginRecord("", password))[Username] == AtLeast3
  {
    assert TrimStart("") == "";
  }

  // ---------------------------------------------------------------------
  // Phone pattern /^\+\d{10,15}$/
  // ---------------------------------------------------------------------

  /** The reference reading of the pattern: a `+` followed by 10 to 15 ASCII
      digits and nothing else. */
  predicate IsPhoneNumber(s: string)
  {
    && 11 <= |s| <= 16
    && s[0] == '+'
    && forall i :: 1 <= i < |s| ==> IsAsciiDigit(s[i])
  }

  /** Matching `\d{10,15}$` after `seen` digits have been consumed: take
      digits while fewer than 15 have been seen, and accept at the end of
      input once at least 10 have been. */
  predicate DigitsToEnd(s: string, seen: nat)
    decreases |s|
  {
    if s == [] then 10 <= seen <= 15
    else seen < 15 && IsAsciiDigit(s[0]) && DigitsToEnd(s[1..], seen + 1)
  }

  /** The anchored pattern, matched left to right. */
  predicate PhoneMatches(s: string)
  {
    s != [] && s[0] == '+' && DigitsToEnd(s[1..], 0)
  }

  lemma {:induction false} DigitsToEndSpec(s: string, seen: nat)
    requires seen <= 15
    ensures DigitsToEnd(s, seen)
        <==> (10 <= seen + |s| <= 15 && forall i :: 0 <= i < |s| ==> IsAsciiDigit(s[i]))
    decreases |s|
  {
    if s != [] && seen < 15 {
      DigitsToEndSpec(s[1..], seen + 1);
      assert forall i :: 1 <= i < |s| ==> s[i] == s[1..][i - 1];
    }
  }

  /** The matcher accepts exactly the reference phone numbers. */
  lemma PhoneMatchesSpec(s: string)
    ensures PhoneMatches(s) <==> IsPhoneNumber(s)
  {
    if s != [] {
      DigitsToEndSpec(s[1..], 0);
      assert forall i :: 1 <= i < |s| ==> s[i] == s[1..][i - 1];
    }
  }

  // ---------------------------------------------------------------------
  // Signup schema
  // ---------------------------------------------------------------------

  function NameRules(r: SignupRecord): seq<Violation<Field>>
  {
    RequiredMin(Name, r.name, 2, NameRequired, AtLeast2)
  }

  function UsernameRules(r: SignupRecord): seq<Violation<Field>>
  {
    RequiredMin(Username, r.username, 3, UsernameRequired, AtLeast3)
  }

  /** The email test skips the empty string; `isEmail` stands for the
      validation library's email grammar. */
  function EmailRules(r: SignupRecord, isEmail: string -> bool): seq<Violation<Field>>
  {
    Rule(Email, r.email != "", EmailRequired)
    + Rule(Email, r.email == "" || isEmail(r.email), InvalidEmail)
  }

  /** The pattern test does not skip the empty string. */
  function PhoneRules(r: SignupRecord): seq<Violation<Field>>
  {
    Rule(Phone, r.phone != "", PhoneRequired) + Rule(Phone, PhoneMatches(r.phone), PhoneFormat)
  }

  function PasswordRules(r: SignupRecord): seq<Violation<Field>>
  {
    RequiredMin(Password, r.password, 6, PasswordRequired, AtLeast6)
    + Rule(Password, r.password != r.username, SameAsUsername)
  }

  function ConfirmRules(r: SignupRecord): seq<Violation<Field>>
  {
    Rule(ConfirmPassword, r.confirmPassword != "", ConfirmRequired)
    + Rule(ConfirmPassword, r.confirmPassword == r.password, Mismatch)
  }

  /** The violations of `signupSchema`, field by field in declared order. */
  function SignupViolations(r: SignupRecord, isEmail: string -> bool): seq<Violation<Field>>
  {
    NameRules(r) + UsernameRules(r) + EmailRules(r, isEmail)
    + PhoneRules(r) + PasswordRules(r) + ConfirmRules(r)
  }

  /** The folded record is the union of the per-field records. */
  lemma SignupErrorsByField(r: SignupRecord, isEmail: string -> bool)
    ensures ErrorMap(SignupViolations(r, isEmail))
         == ErrorMap(NameRules(r)) + ErrorMap(UsernameRules(r)) + ErrorMap(EmailRules(r, isEmail))
          + ErrorMap(PhoneRules(r)) + ErrorMap(PasswordRules(r)) + ErrorMap(ConfirmRules(r))
  {
    var a := NameRules(r);
    var b := UsernameRules(r);
    var c := EmailRules(r, isEmail);
    var d := PhoneRules(r);
    var p := PasswordRules(r);
    var q := ConfirmRules(r);
    ErrorMapAppend(a, b);
    ErrorMapAppend(a + b, c);
    ErrorMapAppend(a + b + c, d);
    ErrorMapAppend(a + b + c + d, p);
    ErrorMapAppend(a + b + c + d + p, q);
  }

  /** Two rules on one field: the entry is the message of the last rule
      that fails. */
  lemma ErrorMapTwoRules(f: Field, holds1: bool, message1: string, holds2: bool, message2: string)
    ensures ErrorMap(Rule(f, holds1, message1) + Rule(f, holds2, message2))
         == if !holds2 then map[f := message2] else if !holds1 then map[f := message1] else map[]
  {
    ErrorMapAppend(Rule(f, holds1, message1), Rule(f, holds2, message2));
    ErrorMapRule(f, holds1, message1);
    ErrorMapRule(f, holds2, message2);
  }

  lemma EmailFieldErrors(r: SignupRecord, isEmail: string -> bool)
    ensures ErrorMap(EmailRules(r, isEmail)) == EmailErrors(r, isEmail)
  {
    ErrorMapTwoRules(Email, r.email != "", EmailRequired, r.email == "" || isEmail(r.email), InvalidEmail);
  }

  lemma PhoneFieldErrors(r: SignupRecord)
    ensures ErrorMap(PhoneRules(r)) == PhoneErrors(r)
  {
    ErrorMapTwoRules(Phone, r.phone != "", PhoneRequired, PhoneMatches(r.phone), PhoneFormat);
    PhoneMatchesSpec(r.phone);
  }

  /** Three rules on one field: the entry is the message of the last rule
      that fails. */
  lemma ErrorMapThreeRules(f: Field, holds1: bool, message1: string, holds2: bool, message2: string,
                           holds3: bool, message3: string)
    ensures ErrorMap(Rule(f, holds1, message1) + Rule(f, holds2, message2) + Rule(f, holds3, message3))
         == if !holds3 then map[f := message3] else if !holds2 then map[f := message2]
            else if !holds1 then map[f := message1] else map[]
  {
    ErrorMapAppend(Rule(f, holds1, message1) + Rule(f, holds2, message2), Rule(f, holds3, message3));
    ErrorMapTwoRules(f, holds1, message1, holds2, message2);
    ErrorMapRule(f, holds3, message3);
  }

  lemma PasswordFieldErrors(r: SignupRecord)
    ensures ErrorMap(PasswordRules(r)) == PasswordErrors(r)
  {
    ErrorMapThreeRules(Password, r.password != "", PasswordRequired, |r.password| >= 6, AtLeast6,
                       r.password != r.username, SameAsUsername);
  }

  lemma ConfirmFieldErrors(r: SignupRecord)
    ensures ErrorMap(ConfirmRules(r)) == ConfirmErrors(r)
  {
    ErrorMapTwoRules(ConfirmPassword, r.confirmPassword != "", ConfirmRequired, r.confirmPassword == r.password, Mismatch);
  }

  /** Every signup rule holds. */
  predicate SignupValid(r: SignupRecord, isEmail: string -> bool)
  {
    && |r.name| >= 2
    && |r.username| >= 3
    && r.email != "" && isEmail(r.email)
    && IsPhoneNumber(r.phone)
    && |r.password| >= 6 && r.password != r.username
    && r.confirmPassword == r.password
  }

  // The signup error record stated field by field, independently of the
  // fold: each field that breaks a rule gets the message the form shows for it.

  function NameErrors(r: SignupRecord): map<Field, string>
  {
    if |r.name| >= 2 then map[] else map[Name := AtLeast2]
  }

  function UsernameErrors(r: SignupRecord): map<Field, string>
  {
    if |r.username| >= 3 then map[] else map[Username := AtLeast3]
  }

  function EmailErrors(r: SignupRecord, isEmail: string -> bool): map<Field, string>
  {
    if r.email == "" then map[Email := EmailRequired]
    else if isEmail(r.email) then map[] else map[Email := InvalidEmail]
  }

  function PhoneErrors(r: SignupRecord): map<Field, string>
  {
    if IsPhoneNumber(r.phone) then map[] else map[Phone := PhoneFormat]
  }

  function PasswordErrors(r: SignupRecord): map<Field, string>
  {
    if r.password == r.username then map[Password := SameAsUsername]
    else if |r.password| >= 6 then map[] else map[Password := AtLeast6]
  }

  function ConfirmErrors(r: SignupRecord): map<Field, string>
  {
    if r.confirmPassword != r.password then map[ConfirmPassword := Mismatch]
    else if r.confirmPassword == "" then map[ConfirmPassword := ConfirmRequired] else map[]
  }

  function SignupReference(r: SignupRecord, isEmail: string -> bool): map<Field, string>
  {
    NameErrors(r) + UsernameErrors(r) + EmailErrors(r, isEmail)
    + PhoneErrors(r) + PasswordErrors(r) + ConfirmErrors(r)
  }

  /** Six records, each with entries only for its own field. */
  predicate SixFieldParts(name: map<Field, string>, username: map<Field, string>,
                          email: map<Field, string>, phone: map<Field, string>,
                          password: map<Field, string>, confirm: map<Field, string>)
  {
    && name.Keys <= {Name} && username.Keys <= {Username} && email.Keys <= {Email}
    && phone.Keys <= {Phone} && password.Keys <= {Password} && confirm.Keys <= {ConfirmPassword}
  }

  // The union of such records holds, for each field, that field's record's
  // entry; it is empty iff every part is.

  lemma UnionNameFields(u: map<Field, string>, name: map<Field, string>, username: map<Field, string>,
                        email: map<Field, string>, phone: map<Field, string>,
                        password: map<Field, string>, confirm: map<Field, string>)
    requires u == name + username + email + phone + password + confirm
    requires SixFieldParts(name, username, email, phone, password, confirm)
    ensures (Name in u <==> Name in name) && (Name in u ==> u[Name] == name[Name])
    ensures (Username in u <==> Username in username) && (Username in u ==> u[Username] == username[Username])
  {
  }

  lemma UnionContactFields(u: map<Field, string>, name: map<Field, string>, username: map<Field, string>,
                           email: map<Field, string>, phone: map<Field, string>,
                           password: map<Field, string>, confirm: map<Field, string>)
    requires u == name + username + email + phone + password + confirm
    requires SixFieldParts(name, username, email, phone, password, confirm)
    ensures (Email in u <==> Email in email) && (Email in u ==> u[Email] == email[Email])
    ensures (Phone in u <==> Phone in phone) && (Phone in u ==> u[Phone] == phone[Phone])
  {
  }

  lemma UnionPasswordFields(u: map<Field, string>, name: map<Field, string>, username: map<Field, string>,
                            email: map<Field, string>, phone: map<Field, string>,
                            password: map<Field, string>, confirm: map<Field, string>)
    requires u == name + username + email + phone + password + confirm
    requires SixFieldParts(name, username, email, phone, password, confirm)
    ensures (Password in u <==> Password in password) && (Password in u ==> u[Password] == password[Password])
    ensures (ConfirmPassword in u <==> ConfirmPassword in confirm)
         && (ConfirmPassword in u ==> u[ConfirmPassword] == confirm[ConfirmPassword])
  {
  }

  lemma UnionEmpty(u: map<Field, string>, name: map<Field, string>, username: map<Field, string>,
                   email: map<Field, string>, phone: map<Field, string>,
                   password: map<Field, string>, confirm: map<Field, string>)
    requires u == name + username + email + phone + password + confirm
    ensures u == map[] <==> name == username == email == phone == password == confirm == map[]
  {
    assert u.Keys == name.Keys + username.Keys + email.Keys + phone.Keys + password.Keys + confirm.Keys;
  }

  /** The fold of the exhaustive violation list is the field-by-field record. */
  lemma SignupMatchesReference(r: SignupRecord, isEmail: string -> bool)
    ensures ErrorMap(SignupViolations(r, isEmail)) == SignupReference(r, isEmail)
  {
    SignupFieldsMatch(r, isEmail);
    SignupErrorsByField(r, isEmail);
  }

  /** Each field's folded rules give that field's reference record. */
  lemma SignupFieldsMatch(r: SignupRecord, isEmail: string -> bool)
    ensures ErrorMap(NameRules(r)) == NameErrors(r)
    ensures ErrorMap(UsernameRules(r)) == UsernameErrors(r)
    ensures ErrorMap(EmailRules(r, isEmail)) == EmailErrors(r, isEmail)
    ensures ErrorMap(PhoneRules(r)) == PhoneErrors(r)
    ensures ErrorMap(PasswordRules(r)) == PasswordErrors(r)
    ensures ErrorMap(ConfirmRules(r)) == ConfirmErrors(r)
  {
    ErrorMapRequiredMin(Name, r.name, 2, NameRequired, AtLeast2);
    ErrorMapRequiredMin(Username, r.username, 3, UsernameRequired, AtLeast3);
    EmailFieldErrors(r, isEmail);
    PhoneFieldErrors(r);
    PasswordFieldErrors(r);
    ConfirmFieldErrors(r);
  }

  // The reference record, field by field.

  lemma SignupReferenceNames(r: SignupRecord, isEmail: string -> bool, e: map<Field, string>)
    requires e == SignupReference(r, isEmail)
    ensures Name in e <==> |r.name| < 2
    ensures Name in e ==> e[Name] == AtLeast2
    ensures Username in e <==> |r.username| < 3
    ensures Username in e ==> e[Username] == AtLeast3
  {
    UnionNameFields(e, NameErrors(r), UsernameErrors(r), EmailErrors(r, isEmail), PhoneErrors(r), PasswordErrors(r), ConfirmErrors(r));
  }

  lemma SignupReferenceContacts(r: SignupRecord, isEmail: string -> bool, e: map<Field, string>)
    requires e == SignupReference(r, isEmail)
    ensures Email in e <==> r.email == "" || !isEmail(r.email)
    ensures Email in e ==> e[Email] == if r.email == "" then EmailRequired else InvalidEmail
    ensures Phone in e <==> !IsPhoneNumber(r.phone)
    ensures Phone in e ==> e[Phone] == PhoneFormat
  {
    UnionContactFields(e, NameErrors(r), UsernameErrors(r), EmailErrors(r, isEmail), PhoneErrors(r), PasswordErrors(r), ConfirmErrors(r));
  }

  lemma SignupReferencePasswords(r: SignupRecord, isEmail: string -> bool, e: map<Field, string>)
    requires e == SignupReference(r, isEmail)
    ensures Password in e <==> |r.password| < 6 || r.password == r.username
    ensures Password in e ==> e[Password] == if r.password == r.username then SameAsUsername else AtLeast6
    ensures ConfirmPassword in e <==> r.confirmPassword == "" || r.confirmPassword != r.password
    ensures ConfirmPassword in e ==> e[ConfirmPassword] == if r.confirmPassword != r.password then Mismatch else ConfirmRequired
  {
    UnionPasswordFields(e, NameErrors(r), UsernameErrors(r), EmailErrors(r, isEmail), PhoneErrors(r), PasswordErrors(r), ConfirmErrors(r));
  }

  lemma SignupReferenceEmpty(r: SignupRecord, isEmail: string -> bool, e: map<Field, string>)
    requires e == SignupReference(r, isEmail)
    ensures e == map[] <==> SignupValid(r, isEmail)
  {
    if !SignupValid(r, isEmail) {
      assert || Name in NameErrors(r) || Username in UsernameErrors(r) || Email in EmailErrors(r, isEmail)
             || Phone in PhoneErrors(r) || Password in PasswordErrors(r) || ConfirmPassword in ConfirmErrors(r);
    }
    UnionEmpty(e, NameErrors(r), UsernameErrors(r), EmailErrors(r, isEmail), PhoneErrors(r), PasswordErrors(r), ConfirmErrors(r));
  }

  /** Validation of the signup form as the form sees it: the folded record,
      field by field. */
  function ValidateSignup(r: SignupRecord, isEmail: string -> bool): (e: map<Field, string>)
    ensures Name in e <==> |r.name| < 2
    ensures Name in e ==> e[Name] == AtLeast2
    ensures Username in e <==> |r.username| < 3
    ensures Username in e ==> e[Username] == AtLeast3
    ensures Email in e <==> r.email == "" || !isEmail(r.email)
    ensures Email in e ==> e[Email] == if r.email == "" then EmailRequired else InvalidEmail
    ensures Phone in e <==> !IsPhoneNumber(r.phone)
    ensures Phone in e ==> e[Phone] == PhoneFormat
    ensures Password in e <==> |r.password| < 6 || r.password == r.username
    ensures Password in e ==> e[Password] == if r.password == r.username then SameAsUsername else AtLeast6
    ensures ConfirmPassword in e <==> r.confirmPassword == "" || r.confirmPassword != r.password
    ensures ConfirmPassword in e ==> e[ConfirmPassword] == if r.confirmPassword != r.password then Mismatch else ConfirmRequired
    ensures e == map[] <==> SignupValid(r, isEmail)
    ensures e == map[] <==> SignupViolations(r, isEmail) == []
  {
    SignupMatchesReference(r, isEmail);
    var e := ErrorMap(SignupViolations(r, isEmail));
    SignupReferenceNames(r, isEmail, e);
    SignupReferenceContacts(r, isEmail, e);
    SignupReferencePasswords(r, isEmail, e);
    SignupReferenceEmpty(r, isEmail, e);
    ErrorMapEmpty(SignupViolations(r, isEmail));
    e
  }

  /** The signup schema resolves exactly when every signup rule holds. */
  lemma SignupValidIffNoViolations(r: SignupRecord, isEmail: string -> bool)
    ensures SignupViolations(r, isEmail) == [] <==> SignupValid(r, isEmail)
  {
    assert ValidateSignup(r, isEmail) == ErrorMap(SignupViolations(r, isEmail));
  }

  /** The phone examples of the form's hint: `+919876543210` passes the phone
      rules; `9876543210` (no country code) and `+1234` (too few digits) are
      reported with the country-code message. */
  lemma PhoneExamples(r: SignupRecord, isEmail: string -> bool)
    ensures r.phone == "+919876543210" ==> Phone !in ValidateSignup(r, isEmail)
    ensures r.phone == "9876543210"
            ==> (Phone in ValidateSignup(r, isEmail) && ValidateSignup(r, isEmail)[Phone] == PhoneFormat)
    ensures r.phone == "+1234"
            ==> (Phone in ValidateSignup(r, isEmail) && ValidateSignup(r, isEmail)[Phone] == PhoneFormat)
  {
    if r.phone == "+919876543210" {
      assert IsPhoneNumber(r.phone);
    }
  }

  /** Because a later message for a field overwrites an earlier one and the
      length and pattern tests also fail on the empty string, the required
      messages of name, username, phone and password are never shown; those
      of email and confirmPassword are. */
  lemma RequiredMessagesShadowed(l: LoginRecord, r: SignupRecord, isEmail: string -> bool)
    ensures Username in ValidateLogin(l) ==> ValidateLogin(l)[Username] != UsernameRequired
    ensures Password in ValidateLogin(l) ==> ValidateLogin(l)[Password] != PasswordRequired
    ensures var e := ValidateSignup(r, isEmail);
            && (Name in e ==> e[Name] != NameRequired)
            && (Username in e ==> e[Username] != UsernameRequired)
            && (Phone in e ==> e[Phone] != PhoneRequired)
            && (Password in e ==> e[Password] != PasswordRequired)
    ensures r.email == "" ==> ValidateSignup(r, isEmail)[Email] == EmailRequired
    ensures r.confirmPassword == "" && r.password == "" ==> ValidateSignup(r, isEmail)[ConfirmPassword] == ConfirmRequired
  {
  }

  /** The validation library checks `oneOf` / `notOneOf` before a field's
      other tests and, when they fail, reports them alone. This is the
      signup violation list in that evaluation order. */
  function SignupViolationsAsEvaluated(r: SignupRecord, isEmail: string -> bool): seq<Violation<Field>>
  {
    var passwordGate := Rule(Password, r.password != r.username, SameAsUsername);
    var confirmGate := Rule(ConfirmPassword, r.confirmPassword == r.password, Mismatch);
    NameRules(r) + UsernameRules(r) + EmailRules(r, isEmail) + PhoneRules(r)
    + (if passwordGate != [] then passwordGate else RequiredMin(Password, r.password, 6, PasswordRequired, AtLeast6))
    + (if confirmGate != [] then confirmGate else Rule(ConfirmPassword, r.confirmPassword != "", ConfirmRequired))
  }

  /** Because the cross-field rules are the last declared for their fields,
      evaluating them first and alone produces the same error record. */
  lemma SignupEvaluationOrderIrrelevant(r: SignupRecord, isEmail: string -> bool)
    ensures ErrorMap(SignupViolationsAsEvaluated(r, isEmail)) == ValidateSignup(r, isEmail)
  {
    var a := NameRules(r);
    var b := UsernameRules(r);
    var c := EmailRules(r, isEmail);
    var d := PhoneRules(r);
    var passwordGate := Rule(Password, r.password != r.username, SameAsUsername);
    var confirmGate := Rule(ConfirmPassword, r.confirmPassword == r.password, Mismatch);
    var p := if passwordGate != [] then passwordGate else RequiredMin(Password, r.password, 6, PasswordRequired, AtLeast6);
    var q := if confirmGate != [] then confirmGate else Rule(ConfirmPassword, r.confirmPassword != "", ConfirmRequired);
    ErrorMapAppend(a, b);
    ErrorMapAppend(a + b, c);
    ErrorMapAppend(a + b + c, d);
    ErrorMapAppend(a + b + c + d, p);
    ErrorMapAppend(a + b + c + d + p, q);
    ErrorMapRule(Password, r.password != r.username, SameAsUsername);
    ErrorMapRule(ConfirmPassword, r.confirmPassword == r.password, Mismatch);
    ErrorMapRule(ConfirmPassword, r.confirmPassword != "", ConfirmRequired);
    ErrorMapRequiredMin(Password, r.password, 6, PasswordRequired, AtLeast6);
    SignupErrorsByField(r, isEmail);
    PasswordFieldErrors(r);
    ConfirmFieldErrors(r);
  }
}
