/** The agent's committed state: source cursors and event fingerprints (internal/agent/state.go). */
module AgentState {
  import opened Wrappers
  import opened Events
  import opened Paths
  import opened CodexLog

  datatype Machine = Machine(name: string)

  datatype SourceKey = SourceKey(adapter: string, path: Path)

  /** A fingerprint is a digest of the whole event, so it is modelled by the event. */
  type Fingerprint = Event

  datatype SourceReport = SourceReport(key: SourceKey, sourceIdentity: string, cursor: Cursor, failed: bool)

  type CursorTable = map<(Machine, SourceKey), Cursor>
  type PrintTable = map<(Machine, EventId), Fingerprint>

  const BLANK_ID := Opaque("")
  const LOOKUP_CHUNK_SIZE: nat := 500

  function CursorsOf(cursors: CursorTable, machine: Machine): map<SourceKey, Cursor> {
    map row | row in cursors && row.0 == machine :: row.1 := cursors[row]
  }

  predicate Known(prints: PrintTable, machine: Machine, e: Event) {
    (machine, e.id) in prints && prints[(machine, e.id)] == e
  }

  /** The events whose fingerprint was not committed. */
  function Unsent(prints: PrintTable, machine: Machine, events: seq<Event>): seq<Event> {
    if events == [] then []
    else
      var init, last := events[..|events| - 1], events[|events| - 1];
      Unsent(prints, machine, init) + if Known(prints, machine, last) then [] else [last]
  }

  /** The identity stored for a report: the cursor's, the source's, or a digest of adapter and path. */
  function StoredCursor(report: SourceReport): Cursor {
    report.cursor.(identity :=
      if report.cursor.identity != "" then report.cursor.identity
      else if report.sourceIdentity != "" then report.sourceIdentity
      else HashIdentity(report.key.adapter + ":" + report.key.path.name))
  }

  /** One upsert per successful report; unchanged cursors are not rewritten. */
  function SavedCursors(
    cursors: CursorTable, machine: Machine, committed: map<SourceKey, Cursor>,
    reports: seq<SourceReport>): CursorTable {
    if reports == [] then cursors
    else
      var before := SavedCursors(cursors, machine, committed, reports[..|reports| - 1]);
      var report := reports[|reports| - 1];
      if report.failed || (report.key in committed && committed[report.key] == StoredCursor(report)) then before
      else before[(machine, report.key) := StoredCursor(report)]
  }

  function SavedPrints(prints: PrintTable, machine: Machine, events: seq<Event>): PrintTable {
    if events == [] then prints
    else
      var init, last := events[..|events| - 1], events[|events| - 1];
      SavedPrints(prints, machine, init)[(machine, last.id) := last]
  }

  class StateStore {
    var cursors: CursorTable
    var prints: PrintTable

    constructor ()
      ensures cursors == map[] && prints == map[]
    {
      cursors, prints := map[], map[];
    }

    /** `fault` is an engine error while the rows are read. */
    method Snapshot(machine: Machine, fault: bool) returns (result: Result<map<SourceKey, Cursor>, string>)
      ensures result.Err? <==> fault
      ensures result.Ok? ==> forall key :: key in result.value <==> (machine, key) in cursors
      ensures result.Ok? ==> forall key :: key in result.value ==> result.value[key] == cursors[(machine, key)]
    {
      if fault {
        return Err("read agent cursors");
      }
      var snapshot: map<SourceKey, Cursor> := map[];
      var rows := cursors.Keys;
      while rows != {}
        invariant rows <= cursors.Keys
        invariant forall key :: key in snapshot <==> (machine, key) in cursors && (machine, key) !in rows
        invariant forall key :: key in snapshot ==> snapshot[key] == cursors[(machine, key)]
        decreases |rows|
      {
        var row :| row in rows;
        rows := rows - {row};
        if row.0 == machine {
          snapshot := snapshot[row.1 := cursors[row]];
        }
      }
      result := Ok(snapshot);
    }

    /** Fingerprints are looked up chunk by chunk; without events nothing is read. */
    method Pending(machine: Machine, events: seq<Event>, fault: bool) returns (result: Result<seq<Event>, string>)
      ensures result.Err? <==> fault && events != []
      ensures result.Ok? ==> result.value == Unsent(prints, machine, events)
    {
      if |events| == 0 {
        return Ok([]);
      }
      if fault {
        return Err("read agent event state");
      }
      var known: map<EventId, Fingerprint> := map[];
      var start := 0;
      while start < |events|
        invariant 0 <= start
        invariant forall id :: id in known ==> (machine, id) in prints && known[id] == prints[(machine, id)]
        invariant forall i :: 0 <= i < |events| && i < start && (machine, events[i].id) in prints ==>
          events[i].id in known
        decreases |events| - start
      {
        var end := Min(start + LOOKUP_CHUNK_SIZE, |events|);
        var ids := set i | start <= i < end :: events[i].id;
        var found := map id | id in ids && (machine, id) in prints :: prints[(machine, id)];
        forall i | start <= i < end && (machine, events[i].id) in prints ensures events[i].id in found {
          assert events[i].id in ids;
        }
        known := known + found;
        start := start + LOOKUP_CHUNK_SIZE;
      }
      var pending: seq<Event> := [];
      for i := 0 to |events|
        invariant pending == Unsent(prints, machine, events[..i])
      {
        var event := events[i];
        assert events[..i + 1][..i] == events[..i];
        if event.id in known && known[event.id] == event {
          continue;
        }
        pending := pending + [event];
      }
      assert events[..|events|] == events;
      result := Ok(pending);
    }

    /** One transaction: all cursors and fingerprints are saved, or none is. `fault` is an engine error. */
    method Commit(
      machine: Machine, committed: map<SourceKey, Cursor>, reports: seq<SourceReport>, events: seq<Event>, fault: bool)
      returns (ok: bool)
      modifies this
      ensures ok <==> !fault && machine.name != "" && forall i :: 0 <= i < |events| ==> events[i].id != BLANK_ID
      ensures ok ==> cursors == SavedCursors(old(cursors), machine, committed, reports)
      ensures ok ==> prints == SavedPrints(old(prints), machine, events)
      ensures !ok ==> cursors == old(cursors) && prints == old(prints)
    {
      if machine.name == "" {
        return false;
      }
      var txCursors, txPrints := cursors, prints;
      for i := 0 to |reports|
        invariant txCursors == SavedCursors(cursors, machine, committed, reports[..i])
      {
        var report := reports[i];
        assert reports[..i + 1][..i] == reports[..i];
        if report.failed {
          continue;
        }
        var cursor := StoredCursor(report);
        if report.key in committed && committed[report.key] == cursor {
          continue;
        }
        txCursors := txCursors[(machine, report.key) := cursor];
      }
      assert reports[..|reports|] == reports;
      for i := 0 to |events|
        invariant txPrints == SavedPrints(prints, machine, events[..i])
        invariant forall j :: 0 <= j < i ==> events[j].id != BLANK_ID
      {
        assert events[..i + 1][..i] == events[..i];
        if events[i].id == BLANK_ID {
          return false;
        }
        txPrints := txPrints[(machine, events[i].id) := events[i]];
      }
      assert events[..|events|] == events;
      if fault {
        return false;
      }
      cursors, prints := txCursors, txPrints;
      ok := true;
    }
  }

  // ----- What a commit saves, and what it leaves alone -----

  lemma {:induction false} OtherRowsStay(
    cursors: CursorTable, machine: Machine, committed: map<SourceKey, Cursor>, reports: seq<SourceReport>,
    row: (Machine, SourceKey))
    requires forall i :: 0 <= i < |reports| ==> reports[i].failed || row != (machine, reports[i].key)
    ensures var saved := SavedCursors(cursors, machine, committed, reports);
      (row in saved <==> row in cursors) && (row in cursors ==> saved[row] == cursors[row])
  {
    if reports != [] {
      OtherRowsStay(cursors, machine, committed, reports[..|reports| - 1], row);
    }
  }

  /** Against the current snapshot, every successful report of a source that is reported once has its row afterwards,
      new or not: the reported cursor, with an empty identity filled in from the source, else from adapter and path. */
  lemma {:induction false} CommitSavesReports(
    cursors: CursorTable, machine: Machine, reports: seq<SourceReport>, k: nat)
    requires k < |reports| && !reports[k].failed
    requires forall i :: 0 <= i < |reports| && i != k ==> reports[i].key != reports[k].key
    ensures
      var saved := SavedCursors(cursors, machine, CursorsOf(cursors, machine), reports);
      var row, cursor := (machine, reports[k].key), reports[k].cursor;
      && row in saved && saved[row].(identity := cursor.identity) == cursor
      && (cursor.identity != "" ==> saved[row].identity == cursor.identity)
      && (cursor.identity == "" && reports[k].sourceIdentity != "" ==> saved[row].identity == reports[k].sourceIdentity)
      && (cursor.identity == "" && reports[k].sourceIdentity == "" ==>
            saved[row].identity == HashIdentity(reports[k].key.adapter + ":" + reports[k].key.path.name))
    decreases |reports|
  {
    var n := |reports| - 1;
    if k < n {
      CommitSavesReports(cursors, machine, reports[..n], k);
    } else {
      OtherRowsStay(cursors, machine, CursorsOf(cursors, machine), reports[..n], (machine, reports[k].key));
    }
  }

  /** Reports of what is already committed save nothing. */
  lemma {:induction false} NothingToSave(
    cursors: CursorTable, machine: Machine, committed: map<SourceKey, Cursor>, reports: seq<SourceReport>)
    requires forall i :: 0 <= i < |reports| ==>
      reports[i].key in committed && committed[reports[i].key] == StoredCursor(reports[i])
    ensures SavedCursors(cursors, machine, committed, reports) == cursors
  {
    if reports != [] {
      NothingToSave(cursors, machine, committed, reports[..|reports| - 1]);
    }
  }

  /** Leaving unchanged rows alone saves what rewriting all of them would save, as long as the snapshot is current and
      no source is reported twice. */
  lemma {:induction false} SkippingIsSaving(cursors: CursorTable, machine: Machine, reports: seq<SourceReport>)
    requires forall i, j :: 0 <= i < j < |reports| ==> reports[i].key != reports[j].key
    ensures SavedCursors(cursors, machine, CursorsOf(cursors, machine), reports) ==
      SavedCursors(cursors, machine, map[], reports)
  {
    if reports != [] {
      var init, last := reports[..|reports| - 1], reports[|reports| - 1];
      SkippingIsSaving(cursors, machine, init);
      OtherRowsStay(cursors, machine, map[], init, (machine, last.key));
    }
  }

  /** A fingerprint is only ever saved for an event that was passed to a commit. */
  lemma {:induction false} PrintsComeFromCommits(
    prints: PrintTable, machine: Machine, events: seq<Event>, row: (Machine, EventId))
    requires row in SavedPrints(prints, machine, events)
    ensures (row in prints && SavedPrints(prints, machine, events)[row] == prints[row]) ||
      exists i :: 0 <= i < |events| && row == (machine, events[i].id) &&
        SavedPrints(prints, machine, events)[row] == events[i]
  {
    if events != [] {
      var n := |events| - 1;
      if row != (machine, events[n].id) {
        PrintsComeFromCommits(prints, machine, events[..n], row);
      }
    }
  }

  /** A committed event's row holds the last event of its ID. */
  lemma {:induction false} CommitSavesPrints(prints: PrintTable, machine: Machine, events: seq<Event>, k: nat)
    requires k < |events| && forall i :: k < i < |events| ==> events[i].id != events[k].id
    ensures
      var saved := SavedPrints(prints, machine, events);
      (machine, events[k].id) in saved && saved[(machine, events[k].id)] == events[k]
    decreases |events|
  {
    if k < |events| - 1 {
      CommitSavesPrints(prints, machine, events[..|events| - 1], k);
    }
  }

  lemma {:induction false} OtherPrintsStay(
    prints: PrintTable, machine: Machine, events: seq<Event>, row: (Machine, EventId))
    requires forall i :: 0 <= i < |events| ==> row != (machine, events[i].id)
    ensures var saved := SavedPrints(prints, machine, events);
      (row in saved <==> row in prints) && (row in prints ==> saved[row] == prints[row])
  {
    if events != [] {
      OtherPrintsStay(prints, machine, events[..|events| - 1], row);
    }
  }

  // ----- What is pending -----

  /** An event is pending, as often as it was collected, unless its row holds the same event. */
  lemma {:induction false} PendingIff(prints: PrintTable, machine: Machine, events: seq<Event>, e: Event)
    ensures multiset(Unsent(prints, machine, events))[e] ==
      if (machine, e.id) in prints && prints[(machine, e.id)] == e then 0 else multiset(events)[e]
  {
    if events != [] {
      var init, last := events[..|events| - 1], events[|events| - 1];
      assert events == init + [last];
      PendingIff(prints, machine, init, e);
    }
  }

  /** The order is kept. */
  lemma {:induction false} PendingInOrder(prints: PrintTable, machine: Machine, events: seq<Event>, more: seq<Event>)
    ensures Unsent(prints, machine, events + more) == Unsent(prints, machine, events) + Unsent(prints, machine, more)
    decreases |more|
  {
    if more == [] {
      assert events + more == events;
    } else {
      assert (events + more)[..|events + more| - 1] == events + more[..|more| - 1];
      PendingInOrder(prints, machine, events, more[..|more| - 1]);
    }
  }

  lemma {:induction false} CommittedIsKnown(prints: PrintTable, machine: Machine, events: seq<Event>, e: Event)
    requires e in events && forall f :: f in events && f.id == e.id ==> f == e
    ensures Known(SavedPrints(prints, machine, events), machine, e)
  {
    var n := |events| - 1;
    if events[n].id != e.id {
      CommittedIsKnown(prints, machine, events[..n], e);
    }
  }

  /** Committed events are not pending again, as long as an ID stands for one event. */
  lemma {:induction false} CommittedAreNotPending(
    prints: PrintTable, machine: Machine, events: seq<Event>, again: seq<Event>)
    requires forall e, f :: e in events && f in events && e.id == f.id ==> e == f
    requires forall e :: e in again ==> e in events
    ensures Unsent(SavedPrints(prints, machine, events), machine, again) == []
  {
    if again != [] {
      CommittedAreNotPending(prints, machine, events, again[..|again| - 1]);
      CommittedIsKnown(prints, machine, events, again[|again| - 1]);
    }
  }
}
