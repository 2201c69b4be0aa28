/** A datatype for results that may be absent, and facts about sequences. */
module Wrappers {
  datatype Option<+T> = None | Some(value: T) {
    function GetOr(default: T): T { if Some? then value else default }
  }

  lemma ConcatAssociates<T>(a: seq<T>, b: seq<T>, c: seq<T>)
    ensures a + (b + c) == (a + b) + c
  {
  }

  lemma HeadAndTail<T>(s: seq<T>)
    requires s != []
    ensures [s[0]] + s[1..] == s
  {
  }

  /** What each element contributes, in order. */
  function Gathered<S, T>(f: S -> seq<T>, s: seq<S>): seq<T> {
    if s == [] then [] else f(s[0]) + Gathered(f, s[1..])
  }

  lemma {:induction false} GatheredConcat<S, T>(f: S -> seq<T>, a: seq<S>, b: seq<S>)
    ensures Gathered(f, a + b) == Gathered(f, a) + Gathered(f, b)
    decreases |a|
  {
    if a == [] {
      assert a + b == b;
    } else {
      assert (a + b)[1..] == a[1..] + b && (a + b)[0] == a[0];
      GatheredConcat(f, a[1..], b);
      ConcatAssociates(f(a[0]), Gathered(f, a[1..]), Gathered(f, b));
    }
  }

  lemma GatheredOne<S, T>(f: S -> seq<T>, s: seq<S>, e: S)
    ensures Gathered(f, s + [e]) == Gathered(f, s) + f(e)
  {
    GatheredConcat(f, s, [e]);
    assert [e][1..] == [] && f(e) + [] == f(e);
  }

  /** The elements to keep, in order. */
  function Filtered<T>(keep: T -> bool, s: seq<T>): seq<T> {
    if s == [] then [] else (if keep(s[0]) then [s[0]] else []) + Filtered(keep, s[1..])
  }

  lemma {:induction false} FilteredConcat<T>(keep: T -> bool, a: seq<T>, b: seq<T>)
    ensures Filtered(keep, a + b) == Filtered(keep, a) + Filtered(keep, b)
    decreases |a|
  {
    if a == [] {
      assert a + b == b;
    } else {
      assert (a + b)[1..] == a[1..] + b && (a + b)[0] == a[0];
      FilteredConcat(keep, a[1..], b);
      ConcatAssociates(if keep(a[0]) then [a[0]] else [], Filtered(keep, a[1..]), Filtered(keep, b));
    }
  }

  lemma {:induction false} FilteredCount<T>(keep: T -> bool, s: seq<T>, x: T)
    ensures multiset(Filtered(keep, s))[x] == if keep(x) then multiset(s)[x] else 0
  {
    if s != [] {
      FilteredCount(keep, s[1..], x);
      assert s == [s[0]] + s[1..];
    }
  }
}
