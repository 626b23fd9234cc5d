/**
 * Violations and error records.
 *
 * Both forms and the auth service turn a list of `(path, message)` pairs into
 * an error record with a `forEach` that assigns `record[path] = message`, so a
 * later entry for the same path overwrites an earlier one. This module defines
 * that fold once and proves what it computes.
 */
module Violations {

  /** One failed rule: the path it is reported under and its message. */
  datatype Violation<K> = Violation(path: K, message: string)

  /** The paths that occur in a list of violations. */
  function Paths<K>(vs: seq<Violation<K>>): set<K>
  {
    set i | 0 <= i < |vs| :: vs[i].path
  }

  /** The error record built by visiting `vs` in order and assigning each
      message to its path. */
  function ErrorMap<K>(vs: seq<Violation<K>>): map<K, string>
  {
    if vs == [] then map[]
    else ErrorMap(vs[..|vs| - 1])[vs[|vs| - 1].path := vs[|vs| - 1].message]
  }

  /** An error record has an entry exactly for the paths that were violated. */
  lemma {:induction false} ErrorMapKeys<K>(vs: seq<Violation<K>>)
    ensures ErrorMap(vs).Keys == Paths(vs)
  {
    if vs != [] {
      var init := vs[..|vs| - 1];
      ErrorMapKeys(init);
      assert forall i :: 0 <= i < |init| ==> init[i] == vs[i];
      assert Paths(vs) == Paths(init) + {vs[|vs| - 1].path};
    }
  }

  /** No violations gives the empty record, and only then. */
  lemma ErrorMapEmpty<K>(vs: seq<Violation<K>>)
    ensures ErrorMap(vs) == map[] <==> vs == []
  {
    ErrorMapKeys(vs);
    if vs != [] {
      assert vs[0].path in Paths(vs);
    }
  }

  /** Folding a concatenation is folding the first part and then letting the
      second part's entries win. */
  lemma {:induction false} ErrorMapAppend<K>(a: seq<Violation<K>>, b: seq<Violation<K>>)
    ensures ErrorMap(a + b) == ErrorMap(a) + ErrorMap(b)
  {
    if b == [] {
      assert a + b == a;
    } else {
      var b' := b[..|b| - 1];
      assert (a + b)[..|a + b| - 1] == a + b';
      assert (a + b)[|a + b| - 1] == b[|b| - 1];
      ErrorMapAppend(a, b');
    }
  }

  /** Violation `i` is the last one carrying its path. */
  ghost predicate IsLastFor<K>(vs: seq<Violation<K>>, i: nat)
    requires i < |vs|
  {
    forall j :: i < j < |vs| ==> vs[j].path != vs[i].path
  }

  /** `m` is the last-wins record of `vs`: one entry per violated path,
      holding the message of that path's last violation. */
  ghost predicate IsLastWinsRecord<K>(m: map<K, string>, vs: seq<Violation<K>>)
  {
    && m.Keys == Paths(vs)
    && forall i :: 0 <= i < |vs| && IsLastFor(vs, i) ==> m[vs[i].path] == vs[i].message
  }

  /** Last-wins: the entry for a path is the message of the last violation
      that carries that path. */
  lemma {:induction false} ErrorMapLastWins<K>(vs: seq<Violation<K>>, i: nat)
    requires i < |vs|
    requires IsLastFor(vs, i)
    ensures vs[i].path in ErrorMap(vs) && ErrorMap(vs)[vs[i].path] == vs[i].message
  {
    if i < |vs| - 1 {
      var init := vs[..|vs| - 1];
      assert forall j :: i < j < |init| ==> init[j] == vs[j];
      ErrorMapLastWins(init, i);
    }
  }

  /** The fold is the last-wins record of its input. */
  lemma ErrorMapIsLastWins<K>(vs: seq<Violation<K>>)
    ensures IsLastWinsRecord(ErrorMap(vs), vs)
  {
    ErrorMapKeys(vs);
    forall i | 0 <= i < |vs| && IsLastFor(vs, i)
      ensures ErrorMap(vs)[vs[i].path] == vs[i].message
    {
      ErrorMapLastWins(vs, i);
    }
  }
}
