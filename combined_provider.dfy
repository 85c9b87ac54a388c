// `CombinedCompsProvider.search_comps`: the Rentcast list, then the Tavily
// list, with a provider that raised left out, deduplicated on the normalised
// address `address.lower().strip()` with the first occurrence kept.

module CombinedProvider {
  import opened Domain
  import opened Text

  /** What `gather(..., return_exceptions=True)` hands back for one provider. */
  datatype Outcome = Listed(comps: seq<Comp>) | Raised(message: string)

  /** The comps a provider contributes: its list, or nothing when it raised. */
  function Contributed(o: Outcome): seq<Comp> {
    if o.Listed? then o.comps else []
  }

  /** The dedup key. */
  function AddressKey(c: Comp): string {
    Strip(Lower(c.address))
  }

  // The dedup loop is stated for any key function; `search_comps` uses `AddressKey`.

  /** The keys of `s`, collected front to back. */
  function Keys(s: seq<Comp>, key: Comp -> string): (ks: set<string>)
    ensures forall i :: 0 <= i < |s| ==> key(s[i]) in ks
    decreases |s|
  {
    if s == [] then {} else Keys(s[..|s| - 1], key) + {key(s[|s| - 1])}
  }

  lemma KeysIndex(s: seq<Comp>, key: Comp -> string, k: string)
    requires k in Keys(s, key)
    ensures exists i :: 0 <= i < |s| && key(s[i]) == k
    decreases |s|
  {
    var n := |s| - 1;
    if key(s[n]) != k {
      KeysIndex(s[..n], key, k);
      var i :| 0 <= i < n && key(s[..n][i]) == k;
      assert s[..n][i] == s[i];
    }
  }

  lemma KeysSnoc(s: seq<Comp>, key: Comp -> string, c: Comp)
    ensures Keys(s + [c], key) == Keys(s, key) + {key(c)}
  {
    assert (s + [c])[..|s|] == s;
  }

  /** One iteration of the dedup loop. */
  lemma DedupSnoc(s: seq<Comp>, key: Comp -> string, n: nat)
    requires n < |s|
    ensures Dedup(s[..n + 1], key) ==
      if key(s[n]) in Keys(Dedup(s[..n], key), key) then Dedup(s[..n], key)
      else Dedup(s[..n], key) + [s[n]]
  {
    assert s[..n + 1][..n] == s[..n];
  }

  /** A last element whose key is new is the first with its key. */
  lemma FirstWithKeyLast(s: seq<Comp>, key: Comp -> string)
    requires s != [] && key(s[|s| - 1]) !in Keys(s[..|s| - 1], key)
    ensures key(s[|s| - 1]) in Keys(s, key) && FirstWithKey(s, key, key(s[|s| - 1])) == |s| - 1
  {
    var n := |s| - 1;
    forall j | 0 <= j < n ensures key(s[j]) != key(s[n]) {
      assert s[..n][j] == s[j];
    }
  }

  predicate DistinctKeys(s: seq<Comp>, key: Comp -> string) {
    forall i, j :: 0 <= i < j < |s| ==> key(s[i]) != key(s[j])
  }

  /** The dedup loop's result on `s`, one element at a time. */
  function Dedup(s: seq<Comp>, key: Comp -> string): seq<Comp>
    decreases |s|
  {
    if s == [] then []
    else
      var r := Dedup(s[..|s| - 1], key);
      if key(s[|s| - 1]) in Keys(r, key) then r else r + [s[|s| - 1]]
  }

  /** The index of the first element of `s` with key `k`. */
  function FirstWithKey(s: seq<Comp>, key: Comp -> string, k: string): (i: nat)
    requires k in Keys(s, key)
    ensures i < |s| && key(s[i]) == k
    ensures forall j :: 0 <= j < i ==> key(s[j]) != k
  {
    KeysIndex(s, key, k);
    if key(s[0]) == k then 0
    else
      var j :| 0 <= j < |s| && key(s[j]) == k;
      assert key(s[1..][j - 1]) == k;
      1 + FirstWithKey(s[1..], key, k)
  }

  lemma FirstWithKeyPrefix(s: seq<Comp>, key: Comp -> string, n: nat, k: string)
    requires n <= |s| && k in Keys(s[..n], key)
    ensures k in Keys(s, key) && FirstWithKey(s[..n], key, k) == FirstWithKey(s, key, k)
  {
    var i := FirstWithKey(s[..n], key, k);
    assert s[..n][i] == s[i];
    assert forall j :: 0 <= j < i ==> s[..n][j] == s[j];
  }

  lemma FirstInPrefix(s: seq<Comp>, key: Comp -> string, n: nat, x: Comp)
    requires n <= |s| && key(x) in Keys(s[..n], key)
    requires x == s[..n][FirstWithKey(s[..n], key, key(x))]
    ensures key(x) in Keys(s, key) && x == s[FirstWithKey(s, key, key(x))]
  {
    FirstWithKeyPrefix(s, key, n, key(x));
    var f := FirstWithKey(s[..n], key, key(x));
    assert s[..n][f] == s[f];
  }

  /** The dedup result is no longer than its input and has exactly the input's keys. */
  lemma {:induction false} DedupKeySet(s: seq<Comp>, key: Comp -> string)
    ensures |Dedup(s, key)| <= |s| && Keys(Dedup(s, key), key) == Keys(s, key)
    decreases |s|
  {
    if s != [] {
      var n := |s| - 1;
      DedupKeySet(s[..n], key);
      var r0 := Dedup(s[..n], key);
      if key(s[n]) !in Keys(r0, key) {
        KeysSnoc(r0, key, s[n]);
      }
    }
  }

  /** The dedup result is no longer than its input, has no two comps with the same key, and has exactly the input's keys. */
  lemma {:induction false} DedupKeys(s: seq<Comp>, key: Comp -> string)
    ensures var r := Dedup(s, key);
      |r| <= |s| && DistinctKeys(r, key) && Keys(r, key) == Keys(s, key)
    decreases |s|
  {
    DedupKeySet(s, key);
    if s != [] {
      var n := |s| - 1;
      var init := s[..n];
      var c := s[n];
      DedupKeys(init, key);
      var r0 := Dedup(init, key);
      if key(c) !in Keys(r0, key) {
        assert Dedup(s, key) == r0 + [c];
        forall i | 0 <= i < |r0| ensures key(r0[i]) != key(c) {
        }
      }
    }
  }

  /** Each comp of the dedup result is the FIRST comp of the input with its key. */
  lemma DedupFirstOccurrences(s: seq<Comp>, key: Comp -> string)
    ensures var r := Dedup(s, key);
      && Keys(r, key) == Keys(s, key)
      && (forall i :: 0 <= i < |r| ==> r[i] == s[FirstWithKey(s, key, key(r[i]))])
  {
    DedupKeySet(s, key);
    var r := Dedup(s, key);
    forall i | 0 <= i < |r| ensures r[i] == s[FirstWithKey(s, key, key(r[i]))] {
      DedupFirstAt(s, key, i);
    }
  }

  lemma {:induction false} DedupFirstAt(s: seq<Comp>, key: Comp -> string, i: nat)
    requires i < |Dedup(s, key)|
    ensures key(Dedup(s, key)[i]) in Keys(s, key)
    ensures Dedup(s, key)[i] == s[FirstWithKey(s, key, key(Dedup(s, key)[i]))]
    decreases |s|
  {
    var n := |s| - 1;
    var init := s[..n];
    var r0 := Dedup(init, key);
    DedupKeySet(init, key);
    if i < |r0| {
      DedupFirstAt(init, key, i);
      FirstInPrefix(s, key, n, r0[i]);
    } else {
      assert Dedup(s, key) == r0 + [s[n]];
      FirstWithKeyLast(s, key);
    }
  }

  /** The comps of the dedup result keep their input order. */
  lemma {:induction false} DedupOrder(s: seq<Comp>, key: Comp -> string)
    ensures var r := Dedup(s, key);
      && Keys(r, key) == Keys(s, key)
      && (forall i, j :: 0 <= i < j < |r| ==>
            FirstWithKey(s, key, key(r[i])) < FirstWithKey(s, key, key(r[j])))
    decreases |s|
  {
    DedupKeys(s, key);
    if s != [] {
      var n := |s| - 1;
      var init := s[..n];
      var c := s[n];
      DedupKeys(init, key);
      DedupOrder(init, key);
      var r0 := Dedup(init, key);
      var r := Dedup(s, key);
      forall i | 0 <= i < |r0|
        ensures FirstWithKey(init, key, key(r0[i])) == FirstWithKey(s, key, key(r0[i]))
      {
        FirstWithKeyPrefix(s, key, n, key(r0[i]));
      }
      forall i, j | 0 <= i < j < |r|
        ensures FirstWithKey(s, key, key(r[i])) < FirstWithKey(s, key, key(r[j]))
      {
        if j < |r0| {
          assert r[i] == r0[i] && r[j] == r0[j];
        } else {
          assert r == r0 + [c] && r[i] == r0[i] && r[j] == c;
          FirstWithKeyLast(s, key);
        }
      }
    }
  }

  /** Both facts about the dedup result together. */
  lemma DedupSpec(s: seq<Comp>, key: Comp -> string)
    ensures var r := Dedup(s, key);
      && |r| <= |s|
      && DistinctKeys(r, key)
      && Keys(r, key) == Keys(s, key)
      && (forall i :: 0 <= i < |r| ==> r[i] == s[FirstWithKey(s, key, key(r[i]))])
      && (forall i, j :: 0 <= i < j < |r| ==>
            FirstWithKey(s, key, key(r[i])) < FirstWithKey(s, key, key(r[j])))
  {
    DedupKeys(s, key);
    DedupFirstOccurrences(s, key);
    DedupOrder(s, key);
  }

  /** On a list whose keys are already distinct, the dedup loop changes nothing. */
  lemma {:induction false} DedupDistinct(s: seq<Comp>, key: Comp -> string)
    requires DistinctKeys(s, key)
    ensures Dedup(s, key) == s
    decreases |s|
  {
    if s != [] {
      var n := |s| - 1;
      var init := s[..n];
      assert DistinctKeys(init, key);
      DedupDistinct(init, key);
      assert key(s[n]) !in Keys(init, key) by {
        if key(s[n]) in Keys(init, key) {
          KeysIndex(init, key, key(s[n]));
        }
      }
      assert s == init + [s[n]];
    }
  }

  /** Running the dedup loop again on its own output returns the same list. */
  lemma DedupIdempotent(s: seq<Comp>, key: Comp -> string)
    ensures Dedup(Dedup(s, key), key) == Dedup(s, key)
  {
    DedupSpec(s, key);
    DedupDistinct(Dedup(s, key), key);
  }

  /** The combined result: the successful lists, Rentcast first, deduplicated. */
  function Combined(rentcast: Outcome, tavily: Outcome): seq<Comp> {
    Dedup(Contributed(rentcast) + Contributed(tavily), AddressKey)
  }

  /**
   * A provider that raised contributes nothing while the other's comps are
   * still used; when both raise the result is empty; the result is never
   * longer than the successful lists together; and a key Rentcast returned is
   * carried by a Rentcast comp.
   */
  lemma CombinedSpec(rentcast: Outcome, tavily: Outcome)
    ensures rentcast.Raised? ==> Combined(rentcast, tavily) == Dedup(Contributed(tavily), AddressKey)
    ensures tavily.Raised? ==> Combined(rentcast, tavily) == Dedup(Contributed(rentcast), AddressKey)
    ensures rentcast.Raised? && tavily.Raised? ==> Combined(rentcast, tavily) == []
    ensures |Combined(rentcast, tavily)| <= |Contributed(rentcast)| + |Contributed(tavily)|
    ensures forall c :: (c in Combined(rentcast, tavily) && AddressKey(c) in Keys(Contributed(rentcast), AddressKey))
                        ==> c in Contributed(rentcast)
  {
    var all := Contributed(rentcast) + Contributed(tavily);
    assert rentcast.Raised? ==> all == Contributed(tavily);
    assert tavily.Raised? ==> all == Contributed(rentcast);
    DedupKeys(all, AddressKey);
    DedupFront(Contributed(rentcast), Contributed(tavily), AddressKey);
  }

  /** A kept comp whose key occurs in the front part of the input comes from that front part. */
  lemma DedupFront(front: seq<Comp>, back: seq<Comp>, key: Comp -> string)
    ensures forall c :: (c in Dedup(front + back, key) && key(c) in Keys(front, key)) ==> c in front
  {
    var all := front + back;
    DedupFirstOccurrences(all, key);
    var r := Dedup(all, key);
    assert front == all[..|front|];
    forall c | c in r && key(c) in Keys(front, key) ensures c in front {
      var i :| 0 <= i < |r| && r[i] == c;
      FirstWithKeyPrefix(all, key, |front|, key(c));
      var f := FirstWithKey(all, key, key(c));
      assert all[f] == front[f];
    }
  }

  /** The loop of `search_comps`, given the two providers' outcomes. */
  method SearchComps(rentcast: Outcome, tavily: Outcome) returns (unique: seq<Comp>)
    ensures unique == Combined(rentcast, tavily)
  {
    var all: seq<Comp> := [];
    if rentcast.Listed? {
      all := all + rentcast.comps;
    }
    if tavily.Listed? {
      all := all + tavily.comps;
    }
    assert all == Contributed(rentcast) + Contributed(tavily);
    var seen: set<string> := {};
    unique := [];
    for i := 0 to |all|
      invariant unique == Dedup(all[..i], AddressKey)
      invariant seen == Keys(unique, AddressKey)
    {
      var comp := all[i];
      var key := AddressKey(comp);
      DedupSnoc(all, AddressKey, i);
      if key !in seen {
        KeysSnoc(unique, AddressKey, comp);
        seen := seen + {key};
        unique := unique + [comp];
      }
    }
    assert all[..|all|] == all;
  }
}
