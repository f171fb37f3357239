/** `Array.prototype.filter` (and Python's list filtering), with the facts the
    stores rely on: order is kept, nothing is invented, the kept elements are
    exactly those that pass; and a map whose steps may raise. */
module Seqs {
  import opened Wrappers

  /** `s.filter(p)`. */
  function Filter<T>(s: seq<T>, p: T -> bool): (r: seq<T>)
    ensures |r| <= |s|
    ensures forall i :: 0 <= i < |r| ==> r[i] in s && p(r[i])
    ensures forall i :: 0 <= i < |s| && p(s[i]) ==> s[i] in r
  {
    if s == [] then []
    else (if p(s[0]) then [s[0]] else []) + Filter(s[1..], p)
  }

  /** Filtering distributes over concatenation: the kept elements stay in their
      original relative order. */
  lemma {:induction false} FilterAppend<T>(a: seq<T>, b: seq<T>, p: T -> bool)
    ensures Filter(a + b, p) == Filter(a, p) + Filter(b, p)
  {
    if a != [] {
      var head := if p(a[0]) then [a[0]] else [];
      assert (a + b)[0] == a[0];
      assert (a + b)[1..] == a[1..] + b;
      FilterAppend(a[1..], b, p);
      assert Filter(a + b, p) == head + Filter(a[1..] + b, p);
      assert Filter(a, p) == head + Filter(a[1..], p);
    } else {
      assert a + b == b;
    }
  }

  /** When every element passes, filtering changes nothing. */
  lemma {:induction false} FilterAllPass<T>(s: seq<T>, p: T -> bool)
    requires forall i :: 0 <= i < |s| ==> p(s[i])
    ensures Filter(s, p) == s
  {
    if s != [] {
      FilterAllPass(s[1..], p);
    }
  }

  /** When no element passes, the result is empty. */
  lemma {:induction false} FilterNonePass<T>(s: seq<T>, p: T -> bool)
    requires forall i :: 0 <= i < |s| ==> !p(s[i])
    ensures Filter(s, p) == []
  {
    if s != [] {
      FilterNonePass(s[1..], p);
    }
  }

  /** `s.map(f)` where each step may raise: the results in order, or `None`
      as soon as one step fails. */
  function TryMap<A, B>(s: seq<A>, f: A -> Option<B>): (r: Option<seq<B>>)
    ensures r.Some? ==> |r.value| == |s|
  {
    if s == [] then Some([])
    else
      var first := f(s[0]);
      var rest := TryMap(s[1..], f);
      if first.None? || rest.None? then None else Some([first.value] + rest.value)
  }

  /** Mapping one more element: the earlier results extended by its result, or
      a failure if either fails. */
  lemma {:induction false} TryMapSnoc<A, B>(s: seq<A>, x: A, f: A -> Option<B>)
    ensures TryMap(s + [x], f) ==
      if TryMap(s, f).Some? && f(x).Some? then Some(TryMap(s, f).value + [f(x).value]) else None
  {
    if s == [] {
      assert s + [x] == [x];
      assert [x][1..] == [];
      assert TryMap([x][1..], f) == Some([]);
      if f(x).Some? {
        assert [f(x).value] + [] == [] + [f(x).value];
      }
    } else {
      assert (s + [x])[0] == s[0];
      assert (s + [x])[1..] == s[1..] + [x];
      TryMapSnoc(s[1..], x, f);
      var rest := TryMap(s[1..], f);
      if f(s[0]).Some? && rest.Some? && f(x).Some? {
        assert [f(s[0]).value] + (rest.value + [f(x).value]) == ([f(s[0]).value] + rest.value) + [f(x).value];
      }
    }
  }

  /** The mapping succeeds exactly when every step does, and then holds every
      step's result at its position. */
  lemma {:induction false} TryMapMeaning<A, B>(s: seq<A>, f: A -> Option<B>)
    ensures TryMap(s, f).Some? <==> forall i :: 0 <= i < |s| ==> f(s[i]).Some?
    ensures TryMap(s, f).Some? ==> forall i :: 0 <= i < |s| ==> Some(TryMap(s, f).value[i]) == f(s[i])
  {
    if s != [] {
      TryMapMeaning(s[1..], f);
      assert forall i :: 1 <= i < |s| ==> s[i] == s[1..][i - 1];
    }
  }

  /** A failure on a prefix is a failure of the whole mapping. */
  lemma TryMapFailsFromPrefix<A, B>(s: seq<A>, k: nat, f: A -> Option<B>)
    requires k <= |s| && TryMap(s[..k], f).None?
    ensures TryMap(s, f).None?
  {
    TryMapMeaning(s[..k], f);
    TryMapMeaning(s, f);
    var i :| 0 <= i < k && f(s[..k][i]).None?;
    assert s[..k][i] == s[i];
  }
}
