/** The absent-or-present value that parseLine returns (`undefined` or a token), and keeping the present ones. */
module Wrappers {

  datatype Option<+T> = None | Some(value: T)

  /** `f` applied to every element of `s`, keeping the present results, in order. */
  function Defined<A, B>(f: A -> Option<B>, s: seq<A>): (r: seq<B>)
    ensures |r| <= |s|
    ensures forall j :: 0 <= j < |r| ==> exists i :: 0 <= i < |s| && f(s[i]) == Some(r[j])
  {
    if s == [] then []
    else
      var init, last := s[..|s| - 1], f(s[|s| - 1]);
      var r := Defined(f, init) + (if last.Some? then [last.value] else []);
      assert forall i :: 0 <= i < |init| ==> init[i] == s[i];
      r
  }

  /** Keeping the present results of two stretches one after the other keeps those of each, one after the other. */
  lemma {:induction false} DefinedAppend<A, B>(f: A -> Option<B>, a: seq<A>, b: seq<A>)
    ensures Defined(f, a + b) == Defined(f, a) + Defined(f, b)
  {
    if b == [] {
      assert a + b == a;
    } else {
      var ab, b' := a + b, b[..|b| - 1];
      assert ab[|ab| - 1] == b[|b| - 1] && ab[..|ab| - 1] == a + b';
      DefinedAppend(f, a, b');
    }
  }

  /** The present results of the first i + 1 elements: those of the first i, then the result for element i if present. */
  lemma DefinedStep<A, B>(f: A -> Option<B>, s: seq<A>, i: nat)
    requires i < |s|
    ensures Defined(f, s[..i + 1]) == Defined(f, s[..i]) + (if f(s[i]).Some? then [f(s[i]).value] else [])
  {
    assert s[..i + 1][..i] == s[..i];
  }

  /** Nothing is kept from elements whose results are all absent. */
  lemma {:induction false} DefinedNone<A, B>(f: A -> Option<B>, s: seq<A>)
    requires forall k :: 0 <= k < |s| ==> f(s[k]).None?
    ensures Defined(f, s) == []
  {
    if s != [] {
      DefinedNone(f, s[..|s| - 1]);
    }
  }
}
