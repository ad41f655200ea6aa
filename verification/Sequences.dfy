/** Folds over sequences, defined from the last element so that loops can extend them by one. */
module Sequences {
  import opened Wrappers

  /** The concatenation of f over s. */
  function FlatMap<A, B>(f: A -> seq<B>, s: seq<A>): seq<B> {
    if s == [] then [] else FlatMap(f, s[..|s| - 1]) + f(s[|s| - 1])
  }

  /** The last present value of f over s. */
  function LastSome<A, B>(f: A -> Option<B>, s: seq<A>): Option<B> {
    if s == [] then None else f(s[|s| - 1]).OrElse(LastSome(f, s[..|s| - 1]))
  }

  lemma {:induction false} FlatMapSnoc<A, B>(f: A -> seq<B>, s: seq<A>, x: A)
    ensures FlatMap(f, s + [x]) == FlatMap(f, s) + f(x)
  {
    assert (s + [x])[..|s|] == s;
  }

  lemma {:induction false} Regroup<A>(a: seq<A>, b: seq<A>, c: seq<A>)
    ensures (a + b) + c == a + (b + c)
  {}

  lemma {:induction false} FlatMapAppend<A, B>(f: A -> seq<B>, s: seq<A>, t: seq<A>)
    ensures FlatMap(f, s + t) == FlatMap(f, s) + FlatMap(f, t)
    decreases |t|
  {
    if t == [] {
      assert s + t == s;
    } else {
      var init, x := t[..|t| - 1], t[|t| - 1];
      FlatMapAppend(f, s, init);
      FlatMapSnoc(f, s + init, x);
      assert t == init + [x];
      Regroup(s, init, [x]);
      Regroup(FlatMap(f, s), FlatMap(f, init), f(x));
    }
  }

  lemma {:induction false} FlatMapCons<A, B>(f: A -> seq<B>, x: A, t: seq<A>)
    ensures FlatMap(f, [x] + t) == f(x) + FlatMap(f, t)
  {
    FlatMapAppend(f, [x], t);
    FlatMapSnoc(f, [], x);
    assert [] + [x] == [x];
  }

  lemma {:induction false} LastSomeSnoc<A, B>(f: A -> Option<B>, s: seq<A>, x: A)
    ensures LastSome(f, s + [x]) == f(x).OrElse(LastSome(f, s))
  {
    assert (s + [x])[..|s|] == s;
  }

  /** The last present value, wherever it stands. */
  lemma {:induction false} LastSomeAt<A, B>(f: A -> Option<B>, s: seq<A>, k: nat)
    requires k < |s| && f(s[k]).Some? && forall j :: k < j < |s| ==> f(s[j]).None?
    ensures LastSome(f, s) == f(s[k])
    decreases |s|
  {
    if k < |s| - 1 {
      LastSomeAt(f, s[..|s| - 1], k);
    }
  }

  lemma {:induction false} LastSomeNone<A, B>(f: A -> Option<B>, s: seq<A>)
    requires forall j :: 0 <= j < |s| ==> f(s[j]).None?
    ensures LastSome(f, s) == None
  {
    if s != [] {
      LastSomeNone(f, s[..|s| - 1]);
    }
  }

  /** When every present value is v, the last one is v exactly when there is one. */
  lemma {:induction false} LastSomeUniform<A, B>(f: A -> Option<B>, s: seq<A>, v: B)
    requires forall x :: x in s && f(x).Some? ==> f(x).value == v
    ensures LastSome(f, s) == if exists x :: x in s && f(x).Some? then Some(v) else None
  {
    if s != [] {
      var init, x := s[..|s| - 1], s[|s| - 1];
      assert s == init + [x];
      LastSomeUniform(f, init, v);
      if y :| y in s && f(y).Some? && y != x {
        assert y in init;
      }
    }
  }

  /** A concatenation of empty pieces is empty. */
  lemma {:induction false} FlatMapNothing<A, B>(f: A -> seq<B>, s: seq<A>)
    requires forall x :: x in s ==> f(x) == []
    ensures FlatMap(f, s) == []
  {
    if s != [] {
      FlatMapNothing(f, s[..|s| - 1]);
    }
  }

  /** A member of a concatenation comes from one of the pieces. */
  lemma {:induction false} FlatMapMember<A, B>(f: A -> seq<B>, s: seq<A>, y: B)
    requires y in FlatMap(f, s)
    ensures exists x :: x in s && y in f(x)
  {
    if s != [] {
      var init, x := s[..|s| - 1], s[|s| - 1];
      assert s == init + [x];
      if y in FlatMap(f, init) {
        FlatMapMember(f, init, y);
      }
    }
  }
}
