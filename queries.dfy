// `WHERE` and `ORDER BY` for the repository reads: a filter that keeps row
// order, and an insertion sort under a total preorder, specified by
// "a permutation of the input, in order".

module Queries {
  import opened Domain

  ghost predicate TotalPreorder<T(!new)>(le: (T, T) -> bool) {
    && (forall a, b :: le(a, b) || le(b, a))
    && (forall a, b, c :: le(a, b) && le(b, c) ==> le(a, c))
  }

  predicate SortedBy<T>(s: seq<T>, le: (T, T) -> bool) {
    forall i, j :: 0 <= i < j < |s| ==> le(s[i], s[j])
  }

  function Insert<T>(x: T, s: seq<T>, le: (T, T) -> bool): (r: seq<T>)
    ensures multiset(r) == multiset(s) + multiset{x}
    ensures |r| == |s| + 1
  {
    if s == [] then [x]
    else if le(x, s[0]) then [x] + s
    else
      assert s == [s[0]] + s[1..];
      [s[0]] + Insert(x, s[1..], le)
  }

  function SortBy<T>(s: seq<T>, le: (T, T) -> bool): (r: seq<T>)
    ensures multiset(r) == multiset(s)
    ensures |r| == |s|
  {
    if s == [] then []
    else
      assert s == [s[0]] + s[1..];
      Insert(s[0], SortBy(s[1..], le), le)
  }

  lemma {:induction false} InsertSorted<T(!new)>(x: T, s: seq<T>, le: (T, T) -> bool)
    requires TotalPreorder(le) && SortedBy(s, le)
    ensures SortedBy(Insert(x, s, le), le)
    decreases |s|
  {
    if s != [] && !le(x, s[0]) {
      var t := s[1..];
      assert SortedBy(t, le);
      InsertSorted(x, t, le);
      var r := Insert(x, t, le);
      assert le(s[0], x);
      forall y | y in multiset(r) ensures le(s[0], y) {
        assert y in multiset(t) + multiset{x};
        if y in multiset(t) {
          var k :| 0 <= k < |t| && t[k] == y;
          assert s[k + 1] == y;
        }
      }
      forall j | 0 <= j < |r| ensures le(s[0], r[j]) {
        assert r[j] in multiset(r);
      }
    }
  }

  /** `ORDER BY`: the rows in order, and nothing added or lost. */
  lemma {:induction false} SortBySorted<T(!new)>(s: seq<T>, le: (T, T) -> bool)
    requires TotalPreorder(le)
    ensures SortedBy(SortBy(s, le), le)
    ensures multiset(SortBy(s, le)) == multiset(s)
    decreases |s|
  {
    if s != [] {
      SortBySorted(s[1..], le);
      InsertSorted(s[0], SortBy(s[1..], le), le);
    }
  }

  /** Keeping the rows that satisfy `p`, in order (`WHERE`). */
  function Filter<T>(s: seq<T>, p: T -> bool): (r: seq<T>)
    ensures |r| <= |s|
    ensures forall i :: 0 <= i < |r| ==> p(r[i])
    ensures multiset(r) <= multiset(s)
    ensures forall i :: 0 <= i < |s| && p(s[i]) ==> s[i] in r
  {
    if s == [] then []
    else
      assert s == [s[0]] + s[1..];
      (if p(s[0]) then [s[0]] else []) + Filter(s[1..], p)
  }

  /** Membership in a filter: the rows of `s` that satisfy `p`. */
  lemma FilterMembers<T>(s: seq<T>, p: T -> bool, x: T)
    ensures x in Filter(s, p) <==> x in s && p(x)
  {
    var r := Filter(s, p);
    if x in r {
      var i :| 0 <= i < |r| && r[i] == x;
      assert x in multiset(s);
    }
    if x in s && p(x) {
      var i :| 0 <= i < |s| && s[i] == x;
    }
  }

  lemma FilterCons<T>(x: T, s: seq<T>, p: T -> bool)
    ensures Filter([x] + s, p) == (if p(x) then [x] else []) + Filter(s, p)
  {
    assert ([x] + s)[1..] == s;
  }

  /** Conditions that agree on every row filter alike. */
  lemma {:induction false} FilterSame<T>(s: seq<T>, p: T -> bool, q: T -> bool)
    requires forall i :: 0 <= i < |s| ==> p(s[i]) == q(s[i])
    ensures Filter(s, p) == Filter(s, q)
    decreases |s|
  {
    if s != [] {
      FilterSame(s[1..], p, q);
    }
  }

  lemma {:induction false} FilterAll<T>(s: seq<T>, p: T -> bool)
    requires forall i :: 0 <= i < |s| ==> p(s[i])
    ensures Filter(s, p) == s
    decreases |s|
  {
    if s != [] {
      FilterAll(s[1..], p);
      assert s == [s[0]] + s[1..];
    }
  }

  lemma {:induction false} FilterAppend<T>(s: seq<T>, t: seq<T>, p: T -> bool)
    ensures Filter(s + t, p) == Filter(s, p) + Filter(t, p)
    decreases |s|
  {
    if s != [] {
      assert (s + t)[0] == s[0] && (s + t)[1..] == s[1..] + t;
      FilterAppend(s[1..], t, p);
      assert Filter(s + t, p) == (if p(s[0]) then [s[0]] else []) + Filter(s[1..] + t, p);
    } else {
      assert s + t == t;
    }
  }

  lemma {:induction false} FilterNone<T>(s: seq<T>, p: T -> bool)
    requires forall i :: 0 <= i < |s| ==> !p(s[i])
    ensures Filter(s, p) == []
    decreases |s|
  {
    if s != [] {
      FilterNone(s[1..], p);
    }
  }

  /** Filtering twice, where the second condition implies the first, is filtering once. */
  lemma {:induction false} FilterFilter<T>(s: seq<T>, p: T -> bool, q: T -> bool)
    requires forall i :: 0 <= i < |s| && q(s[i]) ==> p(s[i])
    ensures Filter(Filter(s, p), q) == Filter(s, q)
    decreases |s|
  {
    if s != [] {
      FilterFilter(s[1..], p, q);
      var fp := Filter(s, p);
      if p(s[0]) {
        assert fp == [s[0]] + Filter(s[1..], p);
        assert fp[0] == s[0] && fp[1..] == Filter(s[1..], p);
      } else {
        assert fp == Filter(s[1..], p);
      }
    }
  }

  /** The present values of `s`, in order: a loop that appends only when it has a value. */
  /**
   * A loop over steps that may raise: the values of all steps when none
   * raised, otherwise the exception of the first step that did.
   */
  function AllOk<T>(s: seq<Result<T>>): (r: Result<seq<T>>)
    ensures r.Ok? <==> forall k :: 0 <= k < |s| ==> s[k].Ok?
    ensures r.Ok? ==> |r.value| == |s| && forall k :: 0 <= k < |s| ==> r.value[k] == s[k].value
    ensures r.Err? ==>
      exists k :: 0 <= k < |s| && s[k].Err? && r.error == s[k].error && forall j :: 0 <= j < k ==> s[j].Ok?
    decreases |s|
  {
    if s == [] then Ok([])
    else
      var n := |s| - 1;
      match AllOk(s[..n])
      case Err(e) => Err(e)
      case Ok(vs) => if s[n].Err? then Err(s[n].error) else Ok(vs + [s[n].value])
  }

  /** One more step: the run so far, then that step. */
  lemma AllOkSnoc<T>(s: seq<Result<T>>, n: nat)
    requires n < |s| && AllOk(s[..n]).Ok?
    ensures AllOk(s[..n + 1]) ==
      if s[n].Err? then Err(s[n].error) else Ok(AllOk(s[..n]).value + [s[n].value])
  {
    assert s[..n + 1][..n] == s[..n];
  }

  /** A step that raises after steps that did not decides the whole run. */
  lemma AllOkFirstErr<T>(s: seq<Result<T>>, n: nat)
    requires n < |s| && AllOk(s[..n]).Ok? && s[n].Err?
    ensures AllOk(s) == Err(s[n].error)
  {
    assert forall j :: 0 <= j < n ==> s[j] == s[..n][j];
  }

  /** A loop that keeps, skips or raises per item: the kept values in order, or the first exception. */
  function Gathered<T>(s: seq<Result<Option<T>>>): Result<seq<T>> {
    match AllOk(s)
    case Ok(os) => Ok(Present(os))
    case Err(e) => Err(e)
  }

  /**
   * `Gathered` fails exactly when some entry raised, with the first such
   * error; otherwise it keeps at most one value per entry, and exactly the
   * values of the entries that kept one.
   */
  lemma GatheredMembers<T>(s: seq<Result<Option<T>>>)
    ensures Gathered(s).Ok? <==> forall i :: 0 <= i < |s| ==> s[i].Ok?
    ensures Gathered(s).Err? ==> exists k :: 0 <= k < |s| && s[k].Err? && Gathered(s).error == s[k].error
    ensures Gathered(s).Ok? ==> |Gathered(s).value| <= |s|
    ensures Gathered(s).Ok? ==> forall x :: x in Gathered(s).value <==> exists i :: 0 <= i < |s| && s[i] == Ok(Some(x))
  {
    var all := AllOk(s);
    if all.Ok? {
      var os := all.value;
      PresentMembers(os);
      forall x | Some(x) in os
        ensures exists i :: 0 <= i < |s| && s[i] == Ok(Some(x))
      {
        var i :| 0 <= i < |os| && os[i] == Some(x);
        assert s[i] == Ok(Some(x));
      }
      forall x | exists i :: 0 <= i < |s| && s[i] == Ok(Some(x))
        ensures Some(x) in os
      {
        var i :| 0 <= i < |s| && s[i] == Ok(Some(x));
        assert os[i] == Some(x);
      }
    }
  }

  /** `Present` of one more entry. */
  lemma PresentSnocOne<T>(s: seq<Option<T>>, x: Option<T>)
    ensures Present(s + [x]) == Present(s) + (if x.Some? then [x.value] else [])
  {
    assert (s + [x])[..|s|] == s;
  }

  function Present<T>(s: seq<Option<T>>): seq<T>
    decreases |s|
  {
    if s == [] then []
    else
      var n := |s| - 1;
      Present(s[..n]) + (if s[n].Some? then [s[n].value] else [])
  }

  lemma {:induction false} PresentMembers<T>(s: seq<Option<T>>)
    ensures |Present(s)| <= |s|
    ensures forall x :: x in Present(s) <==> Some(x) in s
    decreases |s|
  {
    if s != [] {
      var n := |s| - 1;
      PresentMembers(s[..n]);
      assert s == s[..n] + [s[n]];
    }
  }

  lemma PresentSnoc<T>(s: seq<Option<T>>, n: nat)
    requires n < |s|
    ensures Present(s[..n + 1]) == Present(s[..n]) + (if s[n].Some? then [s[n].value] else [])
  {
    assert s[..n + 1][..n] == s[..n];
  }

  /** A property every present value has holds at every position of `Present(s)`. */
  lemma {:induction false} PresentAll<T>(s: seq<Option<T>>, P: T -> bool)
    requires forall i :: 0 <= i < |s| && s[i].Some? ==> P(s[i].value)
    ensures forall k :: 0 <= k < |Present(s)| ==> P(Present(s)[k])
    decreases |s|
  {
    if s != [] {
      var n := |s| - 1;
      PresentAll(s[..n], P);
    }
  }
}
