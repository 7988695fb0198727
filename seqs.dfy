/** Searching and filtering lists, the two things the backend's queries do to a table. */
module Seqs {
  import opened Wrappers

  /** Position of the first element satisfying `p`, or -1 (`query.filter(p).first()`). */
  function IndexOf<T>(s: seq<T>, p: T -> bool): (k: int)
    ensures -1 <= k < |s|
    ensures k == -1 <==> forall i :: 0 <= i < |s| ==> !p(s[i])
    ensures k >= 0 ==> p(s[k]) && forall i :: 0 <= i < k ==> !p(s[i])
  {
    if |s| == 0 then -1
    else if p(s[0]) then 0
    else
      var k := IndexOf(s[1..], p);
      if k < 0 then -1 else k + 1
  }

  /** The elements satisfying `p`, in their original order (`query.filter(p).all()`).
      Defined from the end, so that a loop over a prefix extends it one element at a time. */
  function Filter<T(!new)>(s: seq<T>, p: T -> bool): (r: seq<T>)
    ensures |r| <= |s|
    ensures forall x :: x in r <==> x in s && p(x)
  {
    if |s| == 0 then []
    else
      var init := s[..|s| - 1];
      assert forall x :: x in s <==> x in init || x == s[|s| - 1];
      Filter(init, p) + (if p(s[|s| - 1]) then [s[|s| - 1]] else [])
  }

  /** Filtering with a condition that holds of every element changes nothing. */
  lemma {:induction false} FilterAll<T(!new)>(s: seq<T>, p: T -> bool)
    requires forall i :: 0 <= i < |s| ==> p(s[i])
    ensures Filter(s, p) == s
  {
    if |s| > 0 {
      FilterAll(s[..|s| - 1], p);
    }
  }

  /** Filtering with a condition that fails for every element leaves nothing. */
  lemma {:induction false} FilterNone<T(!new)>(s: seq<T>, p: T -> bool)
    requires forall i :: 0 <= i < |s| ==> !p(s[i])
    ensures Filter(s, p) == []
  {
    if |s| > 0 {
      FilterNone(s[..|s| - 1], p);
    }
  }

  /** Filtering keeps the elements in their original relative order. */
  lemma {:induction false} FilterOrdered<T(!new)>(s: seq<T>, p: T -> bool, lt: (T, T) -> bool)
    requires forall i, j :: 0 <= i < j < |s| ==> lt(s[i], s[j])
    ensures forall i, j :: 0 <= i < j < |Filter(s, p)| ==> lt(Filter(s, p)[i], Filter(s, p)[j])
  {
    if |s| > 0 {
      var init := s[..|s| - 1];
      FilterOrdered(init, p, lt);
      var f := Filter(init, p);
      var r := Filter(s, p);
      forall i, j | 0 <= i < j < |r|
        ensures lt(r[i], r[j])
      {
        assert r[i] == f[i] && f[i] in init;
        if j < |f| {
          assert r[j] == f[j];
        } else {
          assert r[j] == s[|s| - 1];
          var m :| 0 <= m < |init| && init[m] == f[i];
          assert init[m] == s[m];
          assert lt(s[m], s[|s| - 1]);
        }
      }
    }
  }

  /** `f` applied to each element, in order. */
  function MapSeq<A, B>(s: seq<A>, f: A -> B): (r: seq<B>)
    ensures |r| == |s|
    ensures forall k :: 0 <= k < |s| ==> r[k] == f(s[k])
  {
    seq(|s|, k requires 0 <= k < |s| => f(s[k]))
  }

  /** Mapping one more element appends its image. */
  lemma MapSeqSnoc<A, B>(s: seq<A>, j: int, f: A -> B)
    requires 0 <= j < |s|
    ensures MapSeq(s[..j + 1], f) == MapSeq(s[..j], f) + [f(s[j])]
  {
    var l, r := MapSeq(s[..j + 1], f), MapSeq(s[..j], f) + [f(s[j])];
    forall k | 0 <= k < |l|
      ensures l[k] == r[k]
    {
      assert s[..j + 1][k] == s[k];
    }
  }

  /** `rows` without its `k`-th element. */
  function RemoveAt<T>(rows: seq<T>, k: int): (r: seq<T>)
    requires 0 <= k < |rows|
    ensures |r| == |rows| - 1
    ensures forall i :: 0 <= i < |r| ==> r[i] == if i < k then rows[i] else rows[i + 1]
  {
    rows[..k] + rows[k + 1..]
  }

  /** Removing an element keeps a relation that held between every earlier and later element. */
  lemma RemoveKeepsPairs<T>(rows: seq<T>, k: int, rel: (T, T) -> bool)
    requires 0 <= k < |rows|
    requires forall i, j :: 0 <= i < j < |rows| ==> rel(rows[i], rows[j])
    ensures forall i, j :: 0 <= i < j < |RemoveAt(rows, k)| ==> rel(RemoveAt(rows, k)[i], RemoveAt(rows, k)[j])
  {
    var r := RemoveAt(rows, k);
    forall i, j | 0 <= i < j < |r|
      ensures rel(r[i], r[j])
    {
      var i', j' := if i < k then i else i + 1, if j < k then j else j + 1;
      assert r[i] == rows[i'] && r[j] == rows[j'];
    }
  }

  /** Converts every element in order, as a loop that builds a response list does; the
      first element that fails to convert fails the whole list. */
  method ConvertAll<T, U>(xs: seq<T>, f: T -> Result<U>) returns (res: Result<seq<U>>)
    ensures res.Ok? <==> forall k :: 0 <= k < |xs| ==> f(xs[k]).Ok?
    ensures res.Ok? ==> |res.value| == |xs| && forall k :: 0 <= k < |xs| ==> res.value[k] == f(xs[k]).value
    ensures res.Err? ==> exists k :: 0 <= k < |xs| && f(xs[k]) == Err(res.error)
                                     && forall j :: 0 <= j < k ==> f(xs[j]).Ok?
  {
    var out: seq<U> := [];
    var i := 0;
    while i < |xs|
      invariant 0 <= i <= |xs|
      invariant forall k :: 0 <= k < i ==> f(xs[k]).Ok?
      invariant |out| == i && forall k :: 0 <= k < i ==> out[k] == f(xs[k]).value
    {
      var r := f(xs[i]);
      if r.Err? {
        return Err(r.error);
      }
      out := out + [r.value];
      i := i + 1;
    }
    res := Ok(out);
  }
}
