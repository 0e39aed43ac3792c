/** `Store.Ingest` and `refreshUsageEvent` (internal/database/database.go), statement by statement. */
module HubIngest {
  import opened Wrappers
  import opened Events
  import opened HubTable

  // ----- The SQL statements, as the engine executes them under both uniqueness constraints -----

  datatype Affected = Affected(table: Table, rows: nat)

  /** Some row other than `target` already holds the ID or the index entry of `r`. */
  predicate Conflicts(t: Table, target: Option<EventId>, r: Row) {
    exists id :: id in t && Some(id) != target && (id == r.id || SameKey(t[id], r))
  }

  function InsertOrIgnore(t: Table, r: Row): Affected {
    if Conflicts(t, None, r) then Affected(t, 0) else Affected(t[r.id := r], 1)
  }

  /** UPDATE OR IGNORE ... WHERE event_id = target: a conflicting update skips the row. */
  function UpdateOrIgnore(t: Table, target: EventId, r: Row): Affected {
    if target !in t || Conflicts(t, Some(target), r) then Affected(t, 0)
    else Affected((t - {target})[r.id := r], 1)
  }

  /** A plain UPDATE: a conflict is an error that aborts the statement. */
  function Update(t: Table, target: EventId, r: Row): Result<Affected, string> {
    if target !in t then Ok(Affected(t, 0))
    else if Conflicts(t, Some(target), r) then Err("UNIQUE constraint failed")
    else Ok(Affected((t - {target})[r.id := r], 1))
  }

  function DeleteAggregates(t: Table, machine: string, session: string): Table {
    map id | id in t && !(Aggregate(t[id]) && CodexSession(t[id], machine, session)) :: t[id]
  }

  // ----- refreshUsageEvent -----

  predicate DetailedCodex(e: Event) {
    e.adapter == "codex" && e.tokens.AllSet()
  }

  /** The WHERE clause of findDetailedCodexDuplicate; unlike the index, `IS` makes two NULL sessions equal. */
  predicate MatchesDetails(x: Row, e: Event) {
    var r := RowOf(e);
    x.adapter == "codex" && x.machine == r.machine && x.session == r.session && x.instant == r.instant &&
    x.provider == r.provider && x.model == r.model && x.tool == r.tool && x.tokens == r.tokens
  }

  method FindDetailedCodexDuplicate(t: Table, e: Event) returns (found: Option<EventId>)
    ensures found.Some? ==> found.value in t && MatchesDetails(t[found.value], e)
    ensures found.None? ==> forall id :: id in t ==> !MatchesDetails(t[id], e)
  {
    if exists id :: id in t && MatchesDetails(t[id], e) {
      var id :| id in t && MatchesDetails(t[id], e);
      found := Some(id);
    } else {
      found := None;
    }
  }

  /** When an insert was ignored, the refresh always finds a row, never breaks a constraint, and leaves exactly one
      row for the event: every row that shared its ID or its index entry is gone. */
  method RefreshUsageEvent(t: Table, e: Event) returns (result: Result<Affected, string>)
    requires Constraints(t)
    ensures Conflicts(t, None, RowOf(e)) ==>
      && result.Ok? && result.value.rows > 0
      && result.value.table ==
        (map id | id in t && !(id == e.id || SameKey(t[id], RowOf(e))) :: t[id])[e.id := RowOf(e)]
    ensures !Conflicts(t, None, RowOf(e)) && !DetailedCodex(e) ==> result == Ok(Affected(t, 0))
  {
    var r := RowOf(e);
    var updated := UpdateOrIgnore(t, e.id, r);
    if updated.rows > 0 {
      return Ok(updated);
    }
    result := Ok(Affected(t, if e.id in t then 1 else 0));
    if !DetailedCodex(e) {
      return;
    }
    var found := FindDetailedCodexDuplicate(t, e);
    if found.None? || found.value == e.id {
      return;
    }
    result := Update(t - {e.id}, found.value, r);
    assert Conflicts(t, None, r) ==> SameKey(t[found.value], r);
  }

  // ----- Store.Ingest -----

  /** Neither the ID nor the index entry of `r` is held by a row that `r` does not supersede. */
  predicate Fresh(t: Table, r: Row) {
    !Suppressed(t, r) &&
    forall id :: id in t && (id == r.id || SameKey(t[id], r)) ==>
      Superseding(r) && Aggregate(t[id]) && CodexSession(t[id], r.machine, r.session.value)
  }

  function FreshCount(t: Table, rs: seq<Row>): nat {
    if rs == [] then 0
    else
      var init := rs[..|rs| - 1];
      FreshCount(t, init) + if Fresh(AcceptAll(t, init), rs[|rs| - 1]) then 1 else 0
  }

  datatype IngestResult = IngestResult(accepted: nat, duplicates: nat, rejected: nat)

  lemma SupersededThenStored(t: Table, tx: Table, r: Row)
    requires PrimaryKey(t) && !Suppressed(t, r)
    requires tx == if Superseding(r) then DeleteAggregates(t, r.machine, r.session.value) else t
    ensures Accept(t, r) == (map id | id in tx && !(id == r.id || SameKey(tx[id], r)) :: tx[id])[r.id := r]
    ensures Conflicts(tx, None, r) <==> !Fresh(t, r)
    ensures !Conflicts(tx, None, r) ==> Accept(t, r) == tx[r.id := r]
  {
    if Conflicts(tx, None, r) {
      var id :| id in tx && (id == r.id || SameKey(tx[id], r));
      assert id in t && t[id] == tx[id];
    }
    if !Fresh(t, r) {
      var id :| id in t && (id == r.id || SameKey(t[id], r)) &&
        !(Superseding(r) && Aggregate(t[id]) && CodexSession(t[id], r.machine, r.session.value));
      assert id in tx && tx[id] == t[id];
    }
  }

  /** The statements one valid event executes inside the transaction. */
  method IngestRow(t: Table, e: Event) returns (result: Result<Affected, string>)
    requires Constraints(t)
    ensures result == Ok(Affected(Accept(t, RowOf(e)), if Fresh(t, RowOf(e)) then 1 else 0))
  {
    var r := RowOf(e);
    if Aggregate(r) && e.session != "" && HasDetail(t, e.machine, e.session) {
      return Ok(Affected(t, 0));
    }
    var tx := t;
    if e.adapter == "codex" && e.session != "" && e.tokens.input.Some? && e.tokens.total.Some? {
      tx := DeleteAggregates(tx, e.machine, e.session);
    }
    assert !Suppressed(t, r);
    assert Constraints(tx);
    SupersededThenStored(t, tx, r);
    var inserted := InsertOrIgnore(tx, r);
    if inserted.rows > 0 {
      return Ok(inserted);
    }
    var refreshed := RefreshUsageEvent(tx, e);
    if refreshed.Err? {
      return refreshed;
    }
    if refreshed.value.rows == 0 {
      return Err("usage event was ignored without a matching stored row");
    }
    result := Ok(Affected(refreshed.value.table, 0));
  }

  ghost predicate Applied(rows: Table, es: seq<Event>, now: int, tx: Table, counts: IngestResult) {
    var valid := ValidRows(es, now);
    && tx == AcceptAll(rows, valid)
    && counts.accepted == FreshCount(rows, valid)
    && counts.accepted + counts.duplicates == |valid|
    && counts.rejected == |es| - |valid|
  }

  lemma AppliedInvalid(rows: Table, es: seq<Event>, e: Event, now: int, tx: Table, counts: IngestResult)
    requires Applied(rows, es, now, tx, counts) && !Valid(e, now)
    ensures Applied(rows, es + [e], now, tx, counts.(rejected := counts.rejected + 1))
  {
    assert (es + [e])[..|es|] == es;
  }

  lemma AppliedValid(rows: Table, es: seq<Event>, e: Event, now: int, tx: Table, counts: IngestResult, added: bool)
    requires Applied(rows, es, now, tx, counts) && Valid(e, now)
    requires added == Fresh(tx, RowOf(e))
    ensures Applied(rows, es + [e], now, Accept(tx, RowOf(e)),
      if added then counts.(accepted := counts.accepted + 1) else counts.(duplicates := counts.duplicates + 1))
  {
    assert (es + [e])[..|es|] == es;
    var init := ValidRows(es, now);
    assert (init + [RowOf(e)])[..|init|] == init;
  }

  /** One turn of the event loop; `fails` is an engine error in one of the statements. */
  method IngestEvent(
    ghost rows: Table, ghost es: seq<Event>, tx: Table, counts: IngestResult, e: Event, now: int, fails: bool)
    returns (result: Result<(Table, IngestResult), string>)
    requires Constraints(rows) && Applied(rows, es, now, tx, counts)
    ensures result.Err? <==> fails && Valid(e, now)
    ensures result.Ok? ==> Applied(rows, es + [e], now, result.value.0, result.value.1)
  {
    if !Valid(e, now) {
      AppliedInvalid(rows, es, e, now, tx, counts);
      return Ok((tx, counts.(rejected := counts.rejected + 1)));
    }
    if fails {
      return Err("statement failed");
    }
    AcceptAllKeepsConstraints(rows, ValidRows(es, now));
    var stored := IngestRow(tx, e);
    AppliedValid(rows, es, e, now, tx, counts, Fresh(tx, RowOf(e)));
    if stored.value.rows == 0 {
      result := Ok((stored.value.table, counts.(duplicates := counts.duplicates + 1)));
    } else {
      result := Ok((stored.value.table, counts.(accepted := counts.accepted + 1)));
    }
  }

  /** `fault` is the event whose statements the engine fails, or |events| for a failing commit. */
  predicate Aborts(events: seq<Event>, now: int, fault: Option<nat>) {
    fault.Some? && (fault.value == |events| || (fault.value < |events| && Valid(events[fault.value], now)))
  }

  /** The event loop between BEGIN and COMMIT. */
  method RunTransaction(rows: Table, events: seq<Event>, now: int, fault: Option<nat>)
    returns (result: Result<(Table, IngestResult), string>)
    requires Constraints(rows)
    ensures result.Err? <==> Aborts(events, now, fault)
    ensures result.Ok? ==> Applied(rows, events, now, result.value.0, result.value.1)
  {
    var tx := rows;
    var counts := IngestResult(0, 0, 0);
    for index := 0 to |events|
      invariant fault.Some? && fault.value < index ==> !Valid(events[fault.value], now)
      invariant Applied(rows, events[..index], now, tx, counts)
    {
      var stored := IngestEvent(rows, events[..index], tx, counts, events[index], now, fault == Some(index));
      if stored.Err? {
        return stored;
      }
      assert events[..index] + [events[index]] == events[..index + 1];
      tx, counts := stored.value.0, stored.value.1;
    }
    assert events[..|events|] == events;
    if fault == Some(|events|) {
      return Err("commit failed");
    }
    result := Ok((tx, counts));
  }

  class Store {
    var rows: Table

    constructor ()
      ensures rows == map[]
    {
      rows := map[];
    }

    ghost predicate Valid()
      reads this
    {
      Constraints(rows) && CountedOnce(rows)
    }

    /** All of a batch is ingested, or none of it. An error means none, except that the total is read once more after
        the commit: when that read fails, the batch is stored and the caller is told that it is not. */
    method Ingest(events: seq<Event>, now: int, fault: Option<nat>, before: bool, after: bool)
      returns (result: Result<IngestResult, string>)
      requires Valid()
      modifies this
      ensures Valid()
      ensures result.Ok? <==> !before && !Aborts(events, now, fault) && !after
      ensures rows ==
        if before || Aborts(events, now, fault) then old(rows) else AcceptAll(old(rows), ValidRows(events, now))
      ensures result.Ok? ==> result.value.accepted == FreshCount(old(rows), ValidRows(events, now))
      ensures result.Ok? ==> result.value.accepted + result.value.duplicates == |ValidRows(events, now)|
      ensures result.Ok? ==> result.value.rejected == |events| - |ValidRows(events, now)|
    {
      if before {
        return Err("the total could not be read");
      }
      var outcome := RunTransaction(rows, events, now, fault);
      if outcome.Err? {
        return Err(outcome.error);
      }
      AcceptAllKeepsConstraints(rows, ValidRows(events, now));
      SessionsCountedOnce(rows, ValidRows(events, now));
      rows := outcome.value.0;
      if after {
        return Err("the total could not be read");
      }
      result := Ok(outcome.value.1);
    }
  }
}
