/** Sequence helpers with the meaning of the Python list idioms the scrapers use:
    filtering comprehensions, `dict.fromkeys` de-duplication, subsequences, and the
    append loops that build one list from another. */
module Seqs {
  import opened Wrappers

  predicate NoDup<T(==)>(s: seq<T>) {
    forall i, j :: 0 <= i < j < |s| ==> s[i] != s[j]
  }

  /** `a` is `b` with some elements left out, order kept. */
  predicate IsSubseq<T(==)>(a: seq<T>, b: seq<T>)
    decreases |b|
  {
    a == [] ||
    (b != [] &&
     ((a[|a| - 1] == b[|b| - 1] && IsSubseq(a[..|a| - 1], b[..|b| - 1])) ||
      IsSubseq(a, b[..|b| - 1])))
  }

  /** `[x for x in s if keep(x)]` */
  function Filter<T(!new)>(s: seq<T>, keep: T -> bool): (r: seq<T>)
    ensures |r| <= |s|
    ensures forall x :: x in r <==> x in s && keep(x)
    decreases |s|
  {
    if s == [] then []
    else
      var init := s[..|s| - 1];
      assert s == init + [s[|s| - 1]];
      Filter(init, keep) + (if keep(s[|s| - 1]) then [s[|s| - 1]] else [])
  }

  lemma {:induction false} FilterIsSubseq<T(!new)>(s: seq<T>, keep: T -> bool)
    ensures IsSubseq(Filter(s, keep), s)
    decreases |s|
  {
    if s != [] {
      var init := s[..|s| - 1];
      FilterIsSubseq(init, keep);
      var r := Filter(s, keep);
      if keep(s[|s| - 1]) {
        assert r[..|r| - 1] == Filter(init, keep);
      } else {
        assert r == Filter(init, keep);
        if r != [] {
          SubseqOfPrefix(r, init, s);
        }
      }
    }
  }

  lemma {:induction false} SubseqOfPrefix<T>(a: seq<T>, b: seq<T>, c: seq<T>)
    requires IsSubseq(a, b) && |c| == |b| + 1 && c[..|b|] == b
    ensures IsSubseq(a, c)
  {
    if a != [] {
      assert c[..|c| - 1] == b;
    }
  }

  /** `s[k]` is kept and no element before it is. */
  predicate FirstKept<T>(s: seq<T>, keep: T -> bool, k: nat) {
    k < |s| && keep(s[k]) && forall j :: 0 <= j < k ==> !keep(s[j])
  }

  /** The first element of a filtered sequence is the earliest element that is kept. */
  lemma {:induction false} FilterHead<T(!new)>(s: seq<T>, keep: T -> bool)
    requires Filter(s, keep) != []
    ensures exists k: nat :: FirstKept(s, keep, k) && s[k] == Filter(s, keep)[0]
    decreases |s|
  {
    var init := s[..|s| - 1];
    var f := Filter(init, keep);
    var tail := if keep(s[|s| - 1]) then [s[|s| - 1]] else [];
    assert Filter(s, keep) == f + tail;
    if f != [] {
      FilterHead(init, keep);
      var k: nat :| FirstKept(init, keep, k) && init[k] == f[0];
      FirstKeptExtend(s, keep, k);
      assert (f + tail)[0] == f[0];
      assert s[k] == Filter(s, keep)[0];
    } else {
      FirstKeptLast(s, keep);
      assert Filter(s, keep) == [s[|s| - 1]];
      assert s[|s| - 1] == Filter(s, keep)[0];
    }
  }

  lemma FirstKeptExtend<T>(s: seq<T>, keep: T -> bool, k: nat)
    requires s != [] && FirstKept(s[..|s| - 1], keep, k)
    ensures FirstKept(s, keep, k) && s[k] == s[..|s| - 1][k]
  {
    var init := s[..|s| - 1];
    assert forall j :: 0 <= j < k ==> s[j] == init[j];
  }

  lemma FirstKeptLast<T(!new)>(s: seq<T>, keep: T -> bool)
    requires s != [] && Filter(s[..|s| - 1], keep) == [] && keep(s[|s| - 1])
    ensures FirstKept(s, keep, |s| - 1)
  {
    var init := s[..|s| - 1];
    forall j | 0 <= j < |s| - 1 ensures !keep(s[j]) {
      assert s[j] == init[j] && init[j] in init;
    }
  }

  /** The position of the first `x` in `s`. */
  function FirstIndex<T(==)>(s: seq<T>, x: T): (k: nat)
    requires x in s
    ensures k < |s| && s[k] == x
    ensures forall j :: 0 <= j < k ==> s[j] != x
  {
    if s[0] == x then 0 else 1 + FirstIndex(s[1..], x)
  }

  lemma {:induction false} FirstIndexInPrefix<T>(t: seq<T>, s: seq<T>, x: T)
    requires x in t && t <= s
    ensures FirstIndex(s, x) == FirstIndex(t, x)
  {
    var k := FirstIndex(t, x);
    var m := FirstIndex(s, x);
    assert s[k] == x;
  }

  /** `list(dict.fromkeys(s))`: every element once, at its first occurrence. */
  function Dedup<T(==,!new)>(s: seq<T>): (r: seq<T>)
    ensures forall x :: x in r <==> x in s
    ensures NoDup(r)
    decreases |s|
  {
    if s == [] then []
    else
      var init := s[..|s| - 1];
      assert s == init + [s[|s| - 1]];
      var d := Dedup(init);
      if s[|s| - 1] in d then d else d + [s[|s| - 1]]
  }

  /** De-duplication lists the elements in the order of their first occurrences. */
  lemma {:induction false} DedupKeepsFirstOccurrences<T(!new)>(s: seq<T>)
    ensures forall i, j :: 0 <= i < j < |Dedup(s)| ==>
              FirstIndex(s, Dedup(s)[i]) < FirstIndex(s, Dedup(s)[j])
    decreases |s|
  {
    if s != [] {
      var init := s[..|s| - 1];
      var last := s[|s| - 1];
      var d := Dedup(init);
      DedupKeepsFirstOccurrences(init);
      assert init <= s;
      forall x | x in init ensures FirstIndex(s, x) == FirstIndex(init, x) {
        FirstIndexInPrefix(init, s, x);
      }
      if last !in d {
        assert last !in init;
        assert FirstIndex(s, last) == |s| - 1;
        var r := Dedup(s);
        forall i, j | 0 <= i < j < |r|
          ensures FirstIndex(s, r[i]) < FirstIndex(s, r[j])
        {
          assert r[i] == d[i] && r[i] in init;
          if j < |d| {
            assert r[j] == d[j] && r[j] in init;
          }
        }
      }
    }
  }

  lemma HeadIsMember<T>(s: seq<T>)
    requires s != []
    ensures s[0] in s
  {
  }

  /** Filtering one more element at the end. */
  lemma FilterSnoc<T(!new)>(s: seq<T>, x: T, keep: T -> bool)
    ensures Filter(s + [x], keep) == Filter(s, keep) + (if keep(x) then [x] else [])
  {
    assert (s + [x])[..|s|] == s;
  }

  lemma AppendAssoc<T>(a: seq<T>, b: seq<T>, c: seq<T>)
    ensures (a + b) + c == a + (b + c)
  {
  }

  /** `[f(x) for x in s]` */
  function Map<A, B>(s: seq<A>, f: A -> B): (r: seq<B>)
    ensures |r| == |s|
    ensures forall k :: 0 <= k < |s| ==> r[k] == f(s[k])
  {
    if s == [] then [] else Map(s[..|s| - 1], f) + [f(s[|s| - 1])]
  }

  lemma MapSnoc<A, B>(s: seq<A>, x: A, f: A -> B)
    ensures Map(s + [x], f) == Map(s, f) + [f(x)]
  {
    assert (s + [x])[..|s|] == s;
  }

  /** The loop that appends `f(x)` for each `x` of `s` whenever it is not `None`. */
  function FilterMap<A, B>(s: seq<A>, f: A -> Option<B>): seq<B> {
    if s == [] then []
    else
      var y := f(s[|s| - 1]);
      FilterMap(s[..|s| - 1], f) + (if y.Some? then [y.value] else [])
  }

  lemma FilterMapSnoc<A, B>(s: seq<A>, x: A, f: A -> Option<B>)
    ensures FilterMap(s + [x], f) == FilterMap(s, f) + (if f(x).Some? then [f(x).value] else [])
  {
    assert (s + [x])[..|s|] == s;
  }

  /** Each collected element is the value of `f` at an element of `s`, every value is
      collected, and there are at most as many as elements of `s`. */
  lemma {:induction false} FilterMapSpec<A, B>(s: seq<A>, f: A -> Option<B>, y: B)
    ensures |FilterMap(s, f)| <= |s|
    ensures y in FilterMap(s, f) <==> exists k :: 0 <= k < |s| && f(s[k]) == Some(y)
  {
    if s != [] {
      var init := s[..|s| - 1];
      FilterMapSpec(init, f, y);
      assert forall k :: 0 <= k < |init| ==> init[k] == s[k];
      if f(s[|s| - 1]) == Some(y) {
        assert y in FilterMap(s, f);
      }
    }
  }

  /** The loop that extends the result by `f(x)` for each `x` of `s`. */
  function FlatMap<A, B>(s: seq<A>, f: A -> seq<B>): seq<B> {
    if s == [] then [] else FlatMap(s[..|s| - 1], f) + f(s[|s| - 1])
  }

  lemma FlatMapSnoc<A, B>(s: seq<A>, x: A, f: A -> seq<B>)
    ensures FlatMap(s + [x], f) == FlatMap(s, f) + f(x)
  {
    assert (s + [x])[..|s|] == s;
  }

  /** An element of the result comes from the part of some element of `s`, and every
      such element is in the result. */
  lemma {:induction false} FlatMapSpec<A, B>(s: seq<A>, f: A -> seq<B>, y: B)
    ensures y in FlatMap(s, f) <==> exists k :: 0 <= k < |s| && y in f(s[k])
  {
    if s != [] {
      var init := s[..|s| - 1];
      FlatMapSpec(init, f, y);
      assert forall k :: 0 <= k < |init| ==> init[k] == s[k];
      if y in f(s[|s| - 1]) {
        assert y in FlatMap(s, f);
      }
    }
  }

  /** Flattening what `f` picks out, part by part, is flattening the parts of the
      picked elements: `h` maps an element to the part of its pick, or to nothing. */
  lemma {:induction false} FlatMapOfFilterMap<A, B, C>(s: seq<A>, f: A -> Option<B>, g: B -> seq<C>, h: A -> seq<C>)
    requires forall x :: h(x) == (if f(x).Some? then g(f(x).value) else [])
    ensures FlatMap(s, h) == FlatMap(FilterMap(s, f), g)
  {
    if s != [] {
      var init, x := s[..|s| - 1], s[|s| - 1];
      FlatMapOfFilterMap(init, f, g, h);
      assert FlatMap(s, h) == FlatMap(init, h) + h(x);
      assert FilterMap(s, f) == FilterMap(init, f) + (if f(x).Some? then [f(x).value] else []);
      if f(x).Some? {
        FlatMapSnoc(FilterMap(init, f), f(x).value, g);
      } else {
        assert h(x) == [];
        assert FilterMap(s, f) == FilterMap(init, f);
      }
    }
  }

  /** A prefix one longer is the shorter prefix and the next element. */
  lemma PrefixSnoc<T>(s: seq<T>, k: nat)
    requires k < |s|
    ensures s[..k + 1] == s[..k] + [s[k]]
  {
  }
}
