/**
 * The auth service: normalisation of the remote `register` and `login`
 * outcomes into one result shape, and the session kept in the browser's
 * key/value storage under the keys `token` and `user`.
 *
 * The remote call is not made here: its outcome is an input. It either
 * resolves with a reply body or rejects with an error whose
 * `response.data` may or may not be present.
 */
module AuthService {
  import opened Wrappers
  import opened Violations

  /** The body of a resolved reply: `{success, data, message}`. */
  datatype Reply<D> = Reply(success: bool, data: Option<D>, message: Option<string>)

  /** The body of a rejected call's response (`error.response.data`):
      `{errors: [{path, msg}], message}`. Each server error is a violation
      whose message is its `msg`. */
  datatype ErrorBody = ErrorBody(errors: Option<seq<Violation<string>>>, message: Option<string>)

  /** How the remote call ended. `Rejected(None)` is an error without a
      response body: a network failure, or an exception thrown by the
      service's own code. */
  datatype Outcome<D> = Resolved(reply: Reply<D>) | Rejected(body: Option<ErrorBody>)

  /** The normalised result: `{success: true, data}`, `{success: false, message}`
      or `{success: false, validationErrors}`. */
  datatype AuthResult<D> =
    | Succeeded(data: Option<D>)
    | Failed(message: Option<string>)
    | FieldErrors(validationErrors: map<string, string>)

  const RegisterFallback := "Registration failed. Please try again."
  const LoginFallback := "Login failed. Please try again."

  /** The server's message when it is present and non-empty
      (`error.response?.data?.message` being truthy). */
  function ServerMessage(body: Option<ErrorBody>): Option<string>
  {
    if body.Some? && body.value.message.Some? && body.value.message.value != ""
    then body.value.message
    else None
  }

  /** The shared `catch` branch: a present `errors` list (even an empty one)
      becomes a path-to-message record; otherwise the server's message, or
      the fallback when there is none. */
  function FromRejection<D>(body: Option<ErrorBody>, fallback: string): (r: AuthResult<D>)
    ensures r.FieldErrors? <==> body.Some? && body.value.errors.Some?
    ensures r.FieldErrors? ==> IsLastWinsRecord(r.validationErrors, body.value.errors.value)
    ensures r.Failed? ==> r.message == Some(if ServerMessage(body).Some? then ServerMessage(body).value else fallback)
    ensures !r.Succeeded?
  {
    if body.Some? && body.value.errors.Some? then
      var errors := body.value.errors.value;
      ErrorMapIsLastWins(errors);
      FieldErrors(ErrorMap(errors))
    else
      Failed(Some(if ServerMessage(body).Some? then ServerMessage(body).value else fallback))
  }

  /** `AuthService.register`. It takes no store: registering never touches
      the session. */
  function Register<D>(outcome: Outcome<D>): (r: AuthResult<D>)
    ensures r.Succeeded? <==> outcome.Resolved? && outcome.reply.success
    ensures r.Succeeded? ==> r.data == outcome.reply.data
    ensures outcome.Resolved? && !outcome.reply.success ==> r == Failed(outcome.reply.message)
    ensures outcome.Rejected? ==> r == FromRejection(outcome.body, RegisterFallback)
  {
    match outcome
    case Resolved(reply) =>
      if reply.success then Succeeded(reply.data) else Failed(reply.message)
    case Rejected(body) => FromRejection(body, RegisterFallback)
  }

  // ---------------------------------------------------------------------
  // Session store
  // ---------------------------------------------------------------------

  /** The browser's key/value storage. */
  type Store = map<string, string>

  const TokenKey := "token"
  const UserKey := "user"

  /** The JSON text of an object: what `JSON.stringify` makes of a user
      profile. A profile is represented by this text. */
  predicate IsObjectText(s: string)
  {
    |s| >= 2 && s[0] == '{' && s[|s| - 1] == '}'
  }

  type Profile = s: string | IsObjectText(s) witness "{}"

  /** The payload of a successful login reply: `{token, user}`. */
  datatype Session = Session(token: Option<string>, user: Option<Profile>)

  /** The text `setItem` stores for a value: its string form, which for an
      absent value (`undefined`, also what `JSON.stringify(undefined)`
      returns) is `"undefined"`. */
  function StorageText(v: Option<string>): string
  {
    match v
    case Some(s) => s
    case None => "undefined"
  }

  /** The result of a login: the normalised result and the store after it. */
  datatype LoginStep = LoginStep(result: AuthResult<Session>, store: Store)

  /** `AuthService.login`. A successful reply stores the token and the
      serialised user; a successful reply without `data` makes the
      destructuring throw, which the `catch` turns into the fallback
      message. */
  function Login(outcome: Outcome<Session>, store: Store): (r: LoginStep)
    ensures r.result.Succeeded? <==> outcome.Resolved? && outcome.reply.success && outcome.reply.data.Some?
    ensures r.result.Succeeded? ==>
      var session := outcome.reply.data.value;
      && r.result.data == Some(session)
      && TokenKey in r.store && r.store[TokenKey] == StorageText(session.token)
      && UserKey in r.store && r.store[UserKey] == StorageText(session.user)
      && forall k :: k != TokenKey && k != UserKey ==>
           (k in r.store <==> k in store) && (k in store ==> r.store[k] == store[k])
    ensures !r.result.Succeeded? ==> r.store == store
    ensures outcome.Resolved? && !outcome.reply.success ==> r.result == Failed(outcome.reply.message)
    ensures outcome.Resolved? && outcome.reply.success && outcome.reply.data.None? ==> r.result == Failed(Some(LoginFallback))
    ensures outcome.Rejected? ==> r.result == FromRejection(outcome.body, LoginFallback)
  {
    match outcome
    case Resolved(reply) =>
      if reply.success then
        match reply.data
        case Some(session) =>
          var stored := store[TokenKey := StorageText(session.token)][UserKey := StorageText(session.user)];
          LoginStep(Succeeded(reply.data), stored)
        case None => LoginStep(FromRejection(None, LoginFallback), store)
      else LoginStep(Failed(reply.message), store)
    case Rejected(body) => LoginStep(FromRejection(body, LoginFallback), store)
  }

  /** `AuthService.getToken`: the stored token, or null. */
  function GetToken(store: Store): (t: Option<string>)
    ensures t.Some? <==> TokenKey in store
    ensures t.Some? ==> t.value == store[TokenKey]
  {
    if TokenKey in store then Some(store[TokenKey]) else None
  }

  /** `AuthService.isAuthenticated`: whether the stored token is truthy. */
  function IsAuthenticated(store: Store): (b: bool)
    ensures b <==> GetToken(store).Some? && GetToken(store).value != ""
  {
    TokenKey in store && store[TokenKey] != ""
  }

  /** What `getCurrentUser` gives back: null, the parsed profile, or the
      exception `JSON.parse` throws on text that is not an object. */
  datatype CurrentUser = NoUser | User(profile: Profile) | ParseError

  /** `AuthService.getCurrentUser`: null when no truthy text is stored,
      otherwise the parse of the stored text. */
  function GetCurrentUser(store: Store): (u: CurrentUser)
    ensures u.NoUser? <==> UserKey !in store || store[UserKey] == ""
    ensures u.User? ==> store[UserKey] == u.profile
    ensures u.ParseError? ==> UserKey in store && !IsObjectText(store[UserKey])
  {
    if UserKey !in store || store[UserKey] == "" then NoUser
    else if IsObjectText(store[UserKey]) then User(store[UserKey])
    else ParseError
  }

  /** `AuthService.logout` on the store: both session keys are removed and
      nothing else changes, so the session is over. */
  function Logout(store: Store): (s: Store)
    ensures TokenKey !in s && UserKey !in s
    ensures forall k :: k != TokenKey && k != UserKey ==>
              (k in s <==> k in store) && (k in store ==> s[k] == store[k])
    ensures !IsAuthenticated(s) && GetToken(s) == None && GetCurrentUser(s) == NoUser
  {
    store - {TokenKey, UserKey}
  }

  /** After a successful login the session reads back what the server sent:
      the token, whether it authenticates, and the user profile. */
  lemma LoginSessionRoundTrip(outcome: Outcome<Session>, store: Store)
    requires outcome.Resolved? && outcome.reply.success && outcome.reply.data.Some?
    ensures var session := outcome.reply.data.value;
            var after := Login(outcome, store).store;
            && GetToken(after) == Some(StorageText(session.token))
            && (IsAuthenticated(after) <==> session.token != Some(""))
            && (session.user.Some? ==> GetCurrentUser(after) == User(session.user.value))
  {
    var session := outcome.reply.data.value;
    if session.user.Some? {
      assert IsObjectText(session.user.value);
    }
  }

  /** A successful login whose payload has no `user` stores the text
      `"undefined"`, on which `getCurrentUser` throws. */
  lemma LoginWithoutUserBreaksCurrentUser(outcome: Outcome<Session>, store: Store)
    requires outcome.Resolved? && outcome.reply.success && outcome.reply.data.Some?
    requires outcome.reply.data.value.user.None?
    ensures GetCurrentUser(Login(outcome, store).store) == ParseError
  {
    assert !IsObjectText("undefined");
  }

  /** Logging in and then out leaves no session, and every other stored key
      as it was before the login. */
  lemma LoginThenLogout(outcome: Outcome<Session>, store: Store)
    ensures var after := Logout(Login(outcome, store).store);
            && !IsAuthenticated(after)
            && GetCurrentUser(after) == NoUser
            && after == Logout(store)
  {
    var after := Logout(Login(outcome, store).store);
    assert after.Keys == Logout(store).Keys;
  }
}
