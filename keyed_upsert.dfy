// The keyed upsert that the comp, field-validation and assumption repositories
// share: for each input, select the rows with the input's key, and then
//   - overwrite the single matching row (`merge`), or
//   - insert the input when nothing matches, or
//   - fail like `scalar_one_or_none()` when several rows match.
// The repositories differ only in the key and in what `merge` keeps.

module KeyedUpsert {
  import opened Domain
  import opened Queries

  /** What `scalar_one_or_none()` sees for a key. */
  datatype Match = Absent | At(index: nat) | Ambiguous

  /** Rows pairwise distinct on `key` (a unique constraint). */
  ghost predicate UniqueKeys<R, K>(rows: seq<R>, key: R -> K) {
    forall i, j :: 0 <= i < j < |rows| ==> key(rows[i]) != key(rows[j])
  }

  /** `merge(existing, input)` keeps the existing row's key columns. */
  ghost predicate KeepsKey<R(!new), K>(key: R -> K, merge: (R, R) -> R) {
    forall e, x :: key(merge(e, x)) == key(e)
  }

  predicate HasKey<R, K(==)>(rows: seq<R>, key: R -> K, k: K) {
    exists i :: 0 <= i < |rows| && key(rows[i]) == k
  }

  /** The lookup of one key, as `select ... where <key> == k` then `scalar_one_or_none()`. */
  function Lookup<R, K(==)>(rows: seq<R>, key: R -> K, k: K): (m: Match)
    ensures m.Absent? <==> !HasKey(rows, key, k)
    ensures m.At? ==> m.index < |rows| && key(rows[m.index]) == k
    ensures m.At? ==> forall j :: 0 <= j < |rows| && j != m.index ==> key(rows[j]) != k
    ensures m.Ambiguous? ==> !UniqueKeys(rows, key)
  {
    if rows == [] then Absent
    else
      var init := rows[..|rows| - 1];
      var m := Lookup(init, key, k);
      assert forall j :: 0 <= j < |init| ==> init[j] == rows[j];
      if key(rows[|rows| - 1]) != k then m
      else if m.Absent? then At(|rows| - 1)
      else Ambiguous
  }

  /** `scalar_one_or_none()` on a key that is unique in the table: the row, or None. */
  function Find<R, K(==)>(rows: seq<R>, key: R -> K, k: K): (r: Option<R>)
    ensures r.Some? ==> r.value in rows && key(r.value) == k
    ensures UniqueKeys(rows, key) ==> (r.None? <==> !HasKey(rows, key, k))
  {
    match Lookup(rows, key, k)
    case At(i) => Some(rows[i])
    case _ => None
  }

  /** One iteration of the upsert loop: the new rows and the row handed back. */
  function UpsertOne<R, K(==)>(rows: seq<R>, x: R, key: R -> K, merge: (R, R) -> R)
    : Result<(seq<R>, R)>
  {
    match Lookup(rows, key, key(x))
    case Absent => Ok((rows + [x], x))
    case At(i) => var u := merge(rows[i], x); Ok((rows[i := u], u))
    case Ambiguous => Err(MultipleResultsFound)
  }

  /** The whole loop over `xs`: the final rows and the `results` list, or the first failure. */
  function UpsertAll<R, K(==)>(rows: seq<R>, xs: seq<R>, key: R -> K, merge: (R, R) -> R)
    : Result<(seq<R>, seq<R>)>
    decreases |xs|
  {
    if xs == [] then Ok((rows, []))
    else
      match UpsertAll(rows, xs[..|xs| - 1], key, merge)
      case Err(e) => Err(e)
      case Ok(acc) =>
        match UpsertOne(acc.0, xs[|xs| - 1], key, merge)
        case Err(e) => Err(e)
        case Ok(step) => Ok((step.0, acc.1 + [step.1]))
  }

  lemma UniqueNotAmbiguous<R, K>(rows: seq<R>, key: R -> K, k: K)
    requires UniqueKeys(rows, key)
    ensures !Lookup(rows, key, k).Ambiguous?
  {
  }

  /** One step keeps the key constraint and the keys of the rows already present. */
  lemma UpsertOneFacts<R(!new), K>(rows: seq<R>, x: R, key: R -> K, merge: (R, R) -> R)
    requires UniqueKeys(rows, key) && KeepsKey(key, merge)
    ensures UpsertOne(rows, x, key, merge).Ok?
    ensures var (nrows, u) := UpsertOne(rows, x, key, merge).value;
      && UniqueKeys(nrows, key)
      && key(u) == key(x)
      && |rows| <= |nrows| <= |rows| + 1
      && (forall i :: 0 <= i < |rows| ==> key(nrows[i]) == key(rows[i]))
      && (forall i :: 0 <= i < |rows| && key(rows[i]) != key(x) ==> nrows[i] == rows[i])
      && (forall i :: |rows| <= i < |nrows| ==> nrows[i] == x)
      && Lookup(nrows, key, key(x)).At? && nrows[Lookup(nrows, key, key(x)).index] == u
  {
    UniqueNotAmbiguous(rows, key, key(x));
    var nrows := UpsertOne(rows, x, key, merge).value.0;
    var u := UpsertOne(rows, x, key, merge).value.1;
    match Lookup(rows, key, key(x))
    case Absent =>
      assert nrows == rows + [x];
      assert key(nrows[|rows|]) == key(x);
    case At(i) =>
      assert nrows == rows[i := merge(rows[i], x)];
      assert key(nrows[i]) == key(x);
  }

  /**
   * The loop over `xs` never fails on a table that satisfies the key constraint,
   * keeps the constraint, hands back one row per input carrying that input's key,
   * never moves an existing row and never touches a row whose key is not input.
   */
  lemma {:induction false} UpsertAllFacts<R(!new), K>(
    rows: seq<R>, xs: seq<R>, key: R -> K, merge: (R, R) -> R)
    requires UniqueKeys(rows, key) && KeepsKey(key, merge)
    ensures UpsertAll(rows, xs, key, merge).Ok?
    ensures var (nrows, out) := UpsertAll(rows, xs, key, merge).value;
      && UniqueKeys(nrows, key)
      && |out| == |xs|
      && |rows| <= |nrows|
      && (forall k :: 0 <= k < |xs| ==> key(out[k]) == key(xs[k]))
      && (forall i :: 0 <= i < |rows| ==> key(nrows[i]) == key(rows[i]))
      && (forall i :: 0 <= i < |rows| && !HasKey(xs, key, key(rows[i])) ==> nrows[i] == rows[i])
    decreases |xs|
  {
    if xs != [] {
      var init := xs[..|xs| - 1];
      var x := xs[|xs| - 1];
      UpsertAllFacts(rows, init, key, merge);
      var acc := UpsertAll(rows, init, key, merge).value;
      UpsertOneFacts(acc.0, x, key, merge);
      var (nrows, out) := UpsertAll(rows, xs, key, merge).value;
      forall i | 0 <= i < |rows| && !HasKey(xs, key, key(rows[i]))
        ensures nrows[i] == rows[i]
      {
        assert forall j :: 0 <= j < |init| ==> init[j] == xs[j];
        assert key(x) != key(rows[i]) by { assert xs[|xs| - 1] == x; }
      }
    }
  }

  /**
   * After the loop, the row stored under an input's key is the row handed back
   * for the LAST input with that key: a later input overwrites an earlier one.
   */
  lemma {:induction false} UpsertAllLastWins<R(!new), K>(
    rows: seq<R>, xs: seq<R>, key: R -> K, merge: (R, R) -> R, k: nat)
    requires UniqueKeys(rows, key) && KeepsKey(key, merge)
    requires k < |xs|
    requires forall j :: k < j < |xs| ==> key(xs[j]) != key(xs[k])
    ensures UpsertAll(rows, xs, key, merge).Ok?
    ensures var (nrows, out) := UpsertAll(rows, xs, key, merge).value;
      |out| == |xs| && Lookup(nrows, key, key(xs[k])).At?
      && nrows[Lookup(nrows, key, key(xs[k])).index] == out[k]
    decreases |xs|
  {
    UpsertAllFacts(rows, xs, key, merge);
    var init := xs[..|xs| - 1];
    var x := xs[|xs| - 1];
    UpsertAllFacts(rows, init, key, merge);
    var acc := UpsertAll(rows, init, key, merge).value;
    UpsertOneFacts(acc.0, x, key, merge);
    var (nrows, out) := UpsertAll(rows, xs, key, merge).value;
    if k < |xs| - 1 {
      assert xs[k] == init[k];
      forall j | k < j < |init| ensures key(init[j]) != key(init[k]) {
        assert init[j] == xs[j];
      }
      UpsertAllLastWins(rows, init, key, merge, k);
      var i := Lookup(acc.0, key, key(xs[k])).index;
      assert key(x) != key(xs[k]);
      assert nrows[i] == acc.0[i];
      assert out[k] == acc.1[k];
    }
  }

  /**
   * Each row handed back relates to its input by `agrees` when `merge` makes
   * every overwritten row agree with an input of the same key (and an inserted
   * input agrees with itself): the attributes the store copies are the input's.
   */
  lemma {:induction false} UpsertAllAgrees<R(!new), K>(
    rows: seq<R>, xs: seq<R>, key: R -> K, merge: (R, R) -> R, agrees: (R, R) -> bool)
    requires UniqueKeys(rows, key) && KeepsKey(key, merge)
    requires forall e, x :: key(e) == key(x) ==> agrees(merge(e, x), x)
    requires forall x :: agrees(x, x)
    ensures UpsertAll(rows, xs, key, merge).Ok?
    ensures var out := UpsertAll(rows, xs, key, merge).value.1;
      |out| == |xs| && forall k :: 0 <= k < |xs| ==> agrees(out[k], xs[k])
    decreases |xs|
  {
    UpsertAllFacts(rows, xs, key, merge);
    if xs != [] {
      var init := xs[..|xs| - 1];
      UpsertAllFacts(rows, init, key, merge);
      UpsertAllAgrees(rows, init, key, merge, agrees);
      var acc := UpsertAll(rows, init, key, merge).value;
      UpsertOneFacts(acc.0, xs[|xs| - 1], key, merge);
      var out := UpsertAll(rows, xs, key, merge).value.1;
      forall k | 0 <= k < |xs| ensures agrees(out[k], xs[k]) {
        if k < |init| {
          assert out[k] == acc.1[k] && xs[k] == init[k];
        }
      }
    }
  }

  /**
   * Each existing row keeps what `keeps` relates when every overwrite keeps it
   * (its identity columns: id, key columns, creation time).
   */
  lemma {:induction false} UpsertAllKeeps<R(!new), K>(
    rows: seq<R>, xs: seq<R>, key: R -> K, merge: (R, R) -> R, keeps: (R, R) -> bool)
    requires UniqueKeys(rows, key) && KeepsKey(key, merge)
    requires forall e, x :: keeps(merge(e, x), e)
    requires forall e :: keeps(e, e)
    requires forall a, b, c :: keeps(a, b) && keeps(b, c) ==> keeps(a, c)
    ensures UpsertAll(rows, xs, key, merge).Ok?
    ensures var nrows := UpsertAll(rows, xs, key, merge).value.0;
      |rows| <= |nrows| && forall i :: 0 <= i < |rows| ==> keeps(nrows[i], rows[i])
    decreases |xs|
  {
    UpsertAllFacts(rows, xs, key, merge);
    if xs != [] {
      var init := xs[..|xs| - 1];
      UpsertAllFacts(rows, init, key, merge);
      UpsertAllKeeps(rows, init, key, merge, keeps);
      var acc := UpsertAll(rows, init, key, merge).value;
      UpsertOneFacts(acc.0, xs[|xs| - 1], key, merge);
      var nrows := UpsertAll(rows, xs, key, merge).value.0;
      forall i | 0 <= i < |rows| ensures keeps(nrows[i], rows[i]) {
        assert keeps(nrows[i], acc.0[i]) by {
          match Lookup(acc.0, key, key(xs[|xs| - 1]))
          case Absent =>
          case At(j) =>
        }
      }
    }
  }

  /** The keys present after the loop are exactly the old keys and the input keys. */
  lemma {:induction false} UpsertAllKeySet<R(!new), K>(
    rows: seq<R>, xs: seq<R>, key: R -> K, merge: (R, R) -> R, k: K)
    requires UniqueKeys(rows, key) && KeepsKey(key, merge)
    ensures UpsertAll(rows, xs, key, merge).Ok?
    ensures HasKey(UpsertAll(rows, xs, key, merge).value.0, key, k)
        <==> HasKey(rows, key, k) || HasKey(xs, key, k)
    decreases |xs|
  {
    UpsertAllFacts(rows, xs, key, merge);
    if xs != [] {
      var init := xs[..|xs| - 1];
      var x := xs[|xs| - 1];
      UpsertAllFacts(rows, init, key, merge);
      UpsertAllKeySet(rows, init, key, merge, k);
      var acc := UpsertAll(rows, init, key, merge).value;
      UpsertOneFacts(acc.0, x, key, merge);
      UpsertOneKeySet(acc.0, x, key, merge, k);
      assert HasKey(xs, key, k) <==> HasKey(init, key, k) || key(x) == k by {
        assert forall j :: 0 <= j < |init| ==> init[j] == xs[j];
        if HasKey(xs, key, k) {
          var j :| 0 <= j < |xs| && key(xs[j]) == k;
          if j < |init| { assert key(init[j]) == k; }
        }
      }
    }
  }

  lemma UpsertOneKeySet<R(!new), K>(rows: seq<R>, x: R, key: R -> K, merge: (R, R) -> R, k: K)
    requires UniqueKeys(rows, key) && KeepsKey(key, merge)
    ensures UpsertOne(rows, x, key, merge).Ok?
    ensures HasKey(UpsertOne(rows, x, key, merge).value.0, key, k)
        <==> HasKey(rows, key, k) || key(x) == k
  {
    UpsertOneFacts(rows, x, key, merge);
    var nrows := UpsertOne(rows, x, key, merge).value.0;
    if HasKey(nrows, key, k) {
      var j :| 0 <= j < |nrows| && key(nrows[j]) == k;
      if j < |rows| { assert key(rows[j]) == k; }
    }
    if HasKey(rows, key, k) {
      var j :| 0 <= j < |rows| && key(rows[j]) == k;
      assert key(nrows[j]) == k;
    }
  }

  /** Dropping rows (`DELETE ... WHERE`) keeps a key constraint. */
  lemma {:induction false} FilterKeepsUnique<R, K>(rows: seq<R>, key: R -> K, p: R -> bool)
    requires UniqueKeys(rows, key)
    ensures UniqueKeys(Filter(rows, p), key)
    decreases |rows|
  {
    if rows != [] {
      var t := rows[1..];
      assert forall j :: 0 <= j < |t| ==> t[j] == rows[j + 1];
      FilterKeepsUnique(t, key, p);
      var ft := Filter(t, p);
      if p(rows[0]) {
        forall j | 0 <= j < |ft| ensures key(ft[j]) != key(rows[0]) {
          assert ft[j] in multiset(t);
          var k :| 0 <= k < |t| && t[k] == ft[j];
          assert rows[k + 1] == t[k];
        }
        assert Filter(rows, p) == [rows[0]] + ft;
      }
    }
  }

  lemma FreshAfter<R, K>(rows: seq<R>, init: seq<R>, key: R -> K, x: R)
    requires !HasKey(rows, key, key(x))
    requires forall i :: 0 <= i < |init| ==> key(init[i]) != key(x)
    ensures !HasKey(rows + init, key, key(x))
  {
    forall j | 0 <= j < |rows + init| ensures key((rows + init)[j]) != key(x) {
      if j < |rows| {
        assert (rows + init)[j] == rows[j];
      } else {
        assert (rows + init)[j] == init[j - |rows|];
      }
    }
  }

  lemma FreshStep<R, K>(rows: seq<R>, xs: seq<R>, key: R -> K, merge: (R, R) -> R)
    requires xs != []
    requires UpsertAll(rows, xs[..|xs| - 1], key, merge) == Ok((rows + xs[..|xs| - 1], xs[..|xs| - 1]))
    requires !HasKey(rows + xs[..|xs| - 1], key, key(xs[|xs| - 1]))
    ensures UpsertAll(rows, xs, key, merge) == Ok((rows + xs, xs))
  {
    var n := |xs| - 1;
    var acc := (rows + xs[..n], xs[..n]);
    UpsertAllStep(rows, xs, key, merge, n, acc);
    assert Lookup(acc.0, key, key(xs[n])) == Absent;
    assert UpsertOne(acc.0, xs[n], key, merge) == Ok((acc.0 + [xs[n]], xs[n]));
    LastSplit(rows, xs);
  }

  lemma LastSplit<R>(rows: seq<R>, xs: seq<R>)
    requires xs != []
    ensures xs[..|xs|] == xs
    ensures xs[..|xs| - 1] + [xs[|xs| - 1]] == xs
    ensures rows + xs[..|xs| - 1] + [xs[|xs| - 1]] == rows + xs
  {
  }

  /** Inputs whose keys are new and pairwise distinct are all appended, as given. */
  lemma {:induction false} UpsertAllFresh<R, K>(rows: seq<R>, xs: seq<R>, key: R -> K, merge: (R, R) -> R)
    requires forall i :: 0 <= i < |xs| ==> !HasKey(rows, key, key(xs[i]))
    requires UniqueKeys(xs, key)
    ensures UpsertAll(rows, xs, key, merge) == Ok((rows + xs, xs))
    decreases |xs|
  {
    if xs != [] {
      var n := |xs| - 1;
      var init := xs[..n];
      var x := xs[n];
      assert forall i :: 0 <= i < n ==> init[i] == xs[i];
      UpsertAllFresh(rows, init, key, merge);
      FreshAfter(rows, init, key, x);
      FreshStep(rows, xs, key, merge);
    } else {
      assert rows + xs == rows;
    }
  }

  /**
   * With no key constraint, two stored rows that share the first input's key
   * make `scalar_one_or_none()` raise, and the whole loop fails.
   */
  lemma {:induction false} UpsertAllDuplicateFails<R, K>(
      rows: seq<R>, xs: seq<R>, key: R -> K, merge: (R, R) -> R, i: nat, j: nat)
    requires xs != [] && i < j < |rows|
    requires key(rows[i]) == key(xs[0]) && key(rows[j]) == key(xs[0])
    ensures UpsertAll(rows, xs, key, merge) == Err(MultipleResultsFound)
    decreases |xs|
  {
    var n := |xs| - 1;
    if n == 0 {
      assert UpsertAll(rows, xs[..n], key, merge) == Ok((rows, []));
      assert Lookup(rows, key, key(xs[0])).Ambiguous?;
    } else {
      assert xs[..n][0] == xs[0];
      UpsertAllDuplicateFails(rows, xs[..n], key, merge, i, j);
    }
  }

  /** A failure part-way through the inputs is the failure of the whole loop. */
  lemma {:induction false} UpsertAllErrSticks<R, K>(
      rows: seq<R>, xs: seq<R>, key: R -> K, merge: (R, R) -> R, n: nat)
    requires n <= |xs| && UpsertAll(rows, xs[..n], key, merge).Err?
    ensures UpsertAll(rows, xs, key, merge) == UpsertAll(rows, xs[..n], key, merge)
    decreases |xs| - n
  {
    if n < |xs| {
      var m := |xs[..n + 1]| - 1;
      assert xs[..n + 1][..m] == xs[..n];
      UpsertAllErrSticks(rows, xs, key, merge, n + 1);
    } else {
      assert xs[..n] == xs;
    }
  }

  /** The loop after one more input: the next `UpsertOne` on the rows so far. */
  lemma UpsertAllStep<R, K>(rows: seq<R>, xs: seq<R>, key: R -> K, merge: (R, R) -> R, n: nat,
                            acc: (seq<R>, seq<R>))
    requires n < |xs| && UpsertAll(rows, xs[..n], key, merge) == Ok(acc)
    ensures UpsertAll(rows, xs[..n + 1], key, merge) ==
              match UpsertOne(acc.0, xs[n], key, merge)
              case Err(e) => Err(e)
              case Ok(step) => Ok((step.0, acc.1 + [step.1]))
  {
    assert xs[..n + 1][..n] == xs[..n] && xs[..n + 1][n] == xs[n];
  }
}
