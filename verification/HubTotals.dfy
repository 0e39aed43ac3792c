/** The account total: the sum of the known totals of all stored rows (`LifetimeTokens`). */
module HubTotals {
  import opened Wrappers
  import opened Events
  import opened HubTable

  function TotalOf(r: Row): int {
    OrZero(r.tokens.total)
  }

  ghost function LifetimeTokens(t: Table): int {
    if t == map[] then 0
    else
      var id :| id in t;
      TotalOf(t[id]) + LifetimeTokens(t - {id})
  }

  lemma {:induction false} LifetimeSplit(t: Table, id: EventId)
    requires id in t
    ensures LifetimeTokens(t) == TotalOf(t[id]) + LifetimeTokens(t - {id})
    decreases |t|
  {
    var picked :| picked in t && LifetimeTokens(t) == TotalOf(t[picked]) + LifetimeTokens(t - {picked});
    if picked != id {
      LifetimeSplit(t - {picked}, id);
      LifetimeSplit(t - {id}, picked);
      assert t - {picked} - {id} == t - {id} - {picked};
    }
  }

  /** Storing a row that displaces nothing adds exactly its total. */
  lemma LifetimeAdds(t: Table, r: Row)
    requires r.id !in t
    ensures LifetimeTokens(t[r.id := r]) == LifetimeTokens(t) + TotalOf(r)
  {
    LifetimeSplit(t[r.id := r], r.id);
    assert t[r.id := r] - {r.id} == t;
  }

  function SumTotals(rs: seq<Row>): int {
    if rs == [] then 0 else SumTotals(rs[..|rs| - 1]) + TotalOf(rs[|rs| - 1])
  }

  /** Rows that neither conflict with each other nor interact through Codex aggregates. */
  predicate Independent(rs: seq<Row>) {
    (forall i :: 0 <= i < |rs| ==> !Aggregate(rs[i])) &&
    (forall i, j :: 0 <= i < j < |rs| ==> rs[i].id != rs[j].id && !SameKey(rs[i], rs[j]))
  }

  /** The table holds exactly these rows. */
  ghost predicate HoldsExactly(t: Table, rs: seq<Row>) {
    (forall r :: r in rs ==> r.id in t && t[r.id] == r) &&
    (forall id :: id in t ==> t[id] in rs && t[id].id == id)
  }

  lemma AcceptIndependent(t: Table, rs: seq<Row>, r: Row)
    requires HoldsExactly(t, rs) && !Aggregate(r)
    requires forall x :: x in rs ==> !Aggregate(x) && x.id != r.id && !SameKey(x, r)
    ensures r.id !in t && Accept(t, r) == t[r.id := r] && HoldsExactly(t[r.id := r], rs + [r])
  {
    assert forall id :: id in t ==> !Displaces(r, t[id]);
    assert forall x :: x in rs + [r] <==> x in rs || x == r;
  }

  /** Independent rows are all stored, and nothing else is; the account total is the sum of theirs. */
  lemma {:induction false} IndependentRows(rs: seq<Row>)
    requires Independent(rs)
    ensures HoldsExactly(AcceptAll(map[], rs), rs)
    ensures LifetimeTokens(AcceptAll(map[], rs)) == SumTotals(rs)
  {
    if rs == [] {
    } else {
      var n := |rs| - 1;
      var init, last := rs[..n], rs[n];
      assert init + [last] == rs;
      IndependentRows(init);
      AcceptIndependent(AcceptAll(map[], init), init, last);
      LifetimeAdds(AcceptAll(map[], init), last);
    }
  }

  // ----- One total for every index entry -----

  ghost function SumOfKeys(keys: set<UsageKey>): int {
    if keys == {} then 0
    else
      var k :| k in keys;
      OrZero(k.tokens.total) + SumOfKeys(keys - {k})
  }

  lemma {:induction false} SumOfKeysSplit(keys: set<UsageKey>, k: UsageKey)
    requires k in keys
    ensures SumOfKeys(keys) == OrZero(k.tokens.total) + SumOfKeys(keys - {k})
    decreases |keys|
  {
    var picked :| picked in keys && SumOfKeys(keys) == OrZero(picked.tokens.total) + SumOfKeys(keys - {picked});
    if picked != k {
      SumOfKeysSplit(keys - {picked}, k);
      SumOfKeysSplit(keys - {k}, picked);
      assert keys - {picked} - {k} == keys - {k} - {picked};
    }
  }

  predicate CountsUp(keys: set<UsageKey>) {
    forall k :: k in keys ==> OrZero(k.tokens.total) >= 0
  }

  /** More entries never sum to less, and to the same exactly when the new ones bring nothing. */
  lemma {:induction false} SumOfKeysGrows(some: set<UsageKey>, all: set<UsageKey>)
    requires some <= all && CountsUp(all)
    ensures SumOfKeys(some) <= SumOfKeys(all)
    ensures SumOfKeys(some) == SumOfKeys(all) <==> forall k :: k in all - some ==> OrZero(k.tokens.total) == 0
    decreases |all|
  {
    if all - some == {} {
      assert some == all;
    } else {
      var k :| k in all - some;
      SumOfKeysGrows(some, all - {k});
      SumOfKeysSplit(all, k);
    }
  }

  function IndexKeys(rs: seq<Row>): set<UsageKey> {
    set r | r in rs && KeyOf(r).Some? :: KeyOf(r).value
  }

  function KeySet(r: Row): set<UsageKey> {
    if KeyOf(r).Some? then {KeyOf(r).value} else {}
  }

  /** A detailed row, without an index entry only for want of a total. */
  predicate DetailedRow(r: Row) {
    !Aggregate(r) && (KeyOf(r).None? ==> TotalOf(r) == 0)
  }

  predicate Entries(rs: seq<Row>) {
    (forall r :: r in rs ==> DetailedRow(r)) && (forall i, j :: 0 <= i < j < |rs| ==> rs[i].id != rs[j].id)
  }

  /** `keys` are the index entries of a table without aggregates. */
  ghost predicate HoldsKeys(t: Table, keys: set<UsageKey>) {
    && Constraints(t) && (forall id :: id in t ==> !Aggregate(t[id]) && KeySet(t[id]) <= keys)
    && forall k :: k in keys ==> exists id :: id in t && KeyOf(t[id]) == Some(k)
  }

  lemma AcceptOverEntry(t: Table, keys: set<UsageKey>, r: Row, replaced: EventId)
    requires HoldsKeys(t, keys) && DetailedRow(r) && r.id !in t
    requires replaced in t && KeyOf(r).Some? && KeyOf(t[replaced]) == KeyOf(r)
    ensures Accept(t, r) == (t - {replaced})[r.id := r]
  {
    assert forall id :: id in t && id != replaced ==> !Displaces(r, t[id]);
  }

  lemma AcceptBesideEntries(t: Table, keys: set<UsageKey>, r: Row)
    requires HoldsKeys(t, keys) && DetailedRow(r) && r.id !in t && (KeyOf(r).None? || KeyOf(r).value !in keys)
    ensures Accept(t, r) == t[r.id := r]
  {
    assert forall id :: id in t ==> !Displaces(r, t[id]);
  }

  /** A row under a new ID changes the account exactly by the total of an index entry that was not held before. */
  lemma AcceptEntry(t: Table, keys: set<UsageKey>, r: Row)
    requires HoldsKeys(t, keys) && DetailedRow(r) && r.id !in t
    ensures HoldsKeys(Accept(t, r), keys + KeySet(r))
    ensures LifetimeTokens(Accept(t, r)) == LifetimeTokens(t) + (if KeySet(r) <= keys then 0 else TotalOf(r))
  {
    AcceptKeepsConstraints(t, r);
    if KeyOf(r).Some? && KeyOf(r).value in keys {
      var replaced :| replaced in t && KeyOf(t[replaced]) == KeyOf(r);
      AcceptOverEntry(t, keys, r, replaced);
      LifetimeSplit(t, replaced);
      LifetimeAdds(t - {replaced}, r);
      EntryReplaced(t, keys, r, replaced);
    } else {
      AcceptBesideEntries(t, keys, r);
      LifetimeAdds(t, r);
      EntryAdded(t, keys, r);
    }
  }

  lemma EntryReplaced(t: Table, keys: set<UsageKey>, r: Row, replaced: EventId)
    requires HoldsKeys(t, keys) && DetailedRow(r) && r.id !in t
    requires replaced in t && KeyOf(t[replaced]) == KeyOf(r) && KeyOf(r).Some?
    requires Constraints((t - {replaced})[r.id := r])
    ensures HoldsKeys((t - {replaced})[r.id := r], keys + KeySet(r))
  {
    var after := (t - {replaced})[r.id := r];
    forall k | k in keys + KeySet(r) ensures exists id :: id in after && KeyOf(after[id]) == Some(k) {
      if Some(k) == KeyOf(r) {
        assert after[r.id] == r;
      } else {
        var id :| id in t && KeyOf(t[id]) == Some(k);
        assert after[id] == t[id];
      }
    }
  }

  lemma EntryAdded(t: Table, keys: set<UsageKey>, r: Row)
    requires HoldsKeys(t, keys) && DetailedRow(r) && r.id !in t && Constraints(t[r.id := r])
    ensures HoldsKeys(t[r.id := r], keys + KeySet(r))
  {
    var after := t[r.id := r];
    forall k | k in keys + KeySet(r) ensures exists id :: id in after && KeyOf(after[id]) == Some(k) {
      if Some(k) == KeyOf(r) {
        assert after[r.id] == r;
      } else {
        var id :| id in t && KeyOf(t[id]) == Some(k);
        assert after[id] == t[id];
      }
    }
  }

  lemma OneMoreKey(rs: seq<Row>, r: Row)
    ensures IndexKeys(rs + [r]) == IndexKeys(rs) + KeySet(r)
  {
    assert forall x :: x in rs + [r] <==> x in rs || x == r;
  }

  /** A table holds no ID that was never ingested. */
  lemma {:induction false} OnlyIngestedIds(rs: seq<Row>, id: EventId)
    requires id in AcceptAll(map[], rs)
    ensures exists r :: r in rs && r.id == id
  {
    var init, last := rs[..|rs| - 1], rs[|rs| - 1];
    if id != last.id {
      OnlyIngestedIds(init, id);
      var r :| r in init && r.id == id;
      assert r in rs;
    }
  }

  lemma NewSum(keys: set<UsageKey>, r: Row)
    ensures SumOfKeys(keys + KeySet(r)) == SumOfKeys(keys) + (if KeySet(r) <= keys then 0 else TotalOf(r))
  {
    if KeySet(r) <= keys {
      assert keys + KeySet(r) == keys;
    } else {
      SumOfKeysSplit(keys + KeySet(r), KeyOf(r).value);
      assert keys + KeySet(r) - {KeyOf(r).value} == keys;
    }
  }

  /** However many rows share an entry, the account counts each entry once. */
  lemma {:induction false} AccountOfEntries(rs: seq<Row>)
    requires Entries(rs)
    ensures HoldsKeys(AcceptAll(map[], rs), IndexKeys(rs))
    ensures LifetimeTokens(AcceptAll(map[], rs)) == SumOfKeys(IndexKeys(rs))
  {
    if rs == [] {
    } else {
      var init, last := rs[..|rs| - 1], rs[|rs| - 1];
      assert init + [last] == rs;
      AccountOfEntries(init);
      OneMoreKey(init, last);
      var t := AcceptAll(map[], init);
      if last.id in t {
        OnlyIngestedIds(init, last.id);
        assert false;
      }
      AcceptEntry(t, IndexKeys(init), last);
      NewSum(IndexKeys(init), last);
    }
  }
}
