/** At-least-once delivery has an exactly-once effect: every run of the agent keeps the invariant of `AgentPass`, and a
    committed pass leaves the hub at the upsert fold of a full parse of every log. */
module ExactlyOnce {
  import opened Wrappers
  import opened Events
  import opened Paths
  import opened RecordReader
  import opened CodexLog
  import opened CodexResume
  import opened CodexCommitted
  import opened HubTable
  import opened HubReplay
  import opened AgentState
  import opened AgentPass

  // ----- Growing logs and a growing hub -----

  predicate LogsGrow(before: Logs, after: Logs) {
    forall p :: p in before ==> p in after && before[p] <= after[p]
  }

  ghost predicate HubGrows(before: Table, after: Table) {
    forall x :: Stored(before, x) ==> Stored(after, x)
  }

  lemma EventsOfPrefix(env: Env, log: seq<byte>, longer: seq<byte>)
    requires log <= longer
    ensures FullParse(env, log).events <= FullParse(env, longer).events
  {
    assert log + longer[|log|..] == longer;
    EventsGrow(env, log, longer[|log|..]);
  }

  lemma EmittedGrows(a: Agent, before: Logs, after: Logs, e: Event)
    requires LogsGrow(before, after) && Emitted(a, before, e)
    ensures Emitted(a, after, e)
  {
    var p, m :| p in before && m in FullParse(a.envs(p), before[p]).events && m.event == e;
    EventsOfPrefix(a.envs(p), before[p], after[p]);
    assert m in FullParse(a.envs(p), after[p]).events;
  }

  lemma AllEmittedGrows(a: Agent, before: Logs, after: Logs, es: seq<Event>)
    requires LogsGrow(before, after) && AllEmitted(a, before, es)
    ensures AllEmitted(a, after, es)
  {
    forall e | e in es ensures Emitted(a, after, e) {
      EmittedGrows(a, before, after, e);
    }
  }

  lemma HubSoundGrows(a: Agent, before: Logs, after: Logs, hub: Table)
    requires LogsGrow(before, after) && HubSound(a, before, hub)
    ensures HubSound(a, after, hub)
  {
    forall id | id in hub ensures exists e :: Emitted(a, after, e) && hub[id] == Uploaded(e) {
      var e :| Emitted(a, before, e) && hub[id] == Uploaded(e);
      EmittedGrows(a, before, after, e);
    }
  }

  lemma CursorsSoundGrow(
    a: Agent, before: Logs, after: Logs, hub: Table, fuller: Table, snapshot: map<SourceKey, Cursor>)
    requires LogsGrow(before, after) && HubGrows(hub, fuller) && CursorsSound(a, before, hub, snapshot)
    ensures CursorsSound(a, after, fuller, snapshot)
  {
    forall p | Key(p) in snapshot ensures CursorSound(a, after, fuller, p, snapshot[Key(p)]) {
      var cursor := snapshot[Key(p)];
      assert CursorSound(a, before, hub, p, cursor);
      assert before[p][..cursor.offset] == after[p][..cursor.offset];
    }
  }

  lemma ReportsSoundGrow(
    a: Agent, before: Logs, after: Logs, hub: Table, fuller: Table, collected: seq<Collected>, rest: seq<Event>)
    requires LogsGrow(before, after) && HubGrows(hub, fuller) && ReportsSound(a, before, hub, collected, rest)
    ensures ReportsSound(a, after, fuller, collected, rest)
  {
    forall c | c in collected ensures ReportSound(a, after, fuller, c, rest) {
      assert ReportSound(a, before, hub, c, rest);
    }
  }

  // ----- Events of the parser at the hub -----

  lemma EmittedIsDetailed(a: Agent, logs: Logs, e: Event)
    requires Emitted(a, logs, e)
    ensures Detailed(e) && !Aggregate(Uploaded(e))
  {
    var p, m :| p in logs && m in FullParse(a.envs(p), logs[p]).events && m.event == e;
    EventsAreDetailed(a.envs(p), logs[p], Start(a.envs(p)));
  }

  /** The counters of an uploaded event never make the hub refuse it: only its texts, machine and time can. */
  lemma EmittedIsValidIff(a: Agent, logs: Logs, e: Event, now: int)
    requires Emitted(a, logs, e)
    ensures Valid(SanitizeOutbound(e), now) <==> e.textOk && e.machine != "" && 0 <= e.instant <= now + DAY_NANOSECONDS
  {
    EmittedIsDetailed(a, logs, e);
  }

  /** Accepting a row that displaces at most itself only adds it. */
  lemma AcceptAdds(t: Table, r: Row)
    requires PrimaryKey(t) && !Aggregate(r)
    requires forall id :: id in t && Displaces(r, t[id]) ==> t[id] == r
    ensures PrimaryKey(Accept(t, r)) && HubGrows(t, Accept(t, r)) && Stored(Accept(t, r), r)
    ensures forall x :: Stored(Accept(t, r), x) ==> x == r || Stored(t, x)
  {
  }

  /** Two uploaded events of the logs never displace one another. */
  lemma OthersStay(a: Agent, logs: Logs, e: Event, f: Event)
    requires Unambiguous(a, logs) && Emitted(a, logs, e) && Emitted(a, logs, f) && e != f
    ensures !Displaces(Uploaded(e), Uploaded(f))
  {
    EmittedIsDetailed(a, logs, f);
    assert Apart(e, f);
  }

  /** `after` is `hub` with `es` delivered to it. */
  ghost predicate Absorbs(a: Agent, logs: Logs, hub: Table, after: Table, es: seq<Event>) {
    HubSound(a, logs, after) && HubGrows(hub, after) && forall e :: e in es ==> Delivered(after, e)
  }

  lemma AbsorbsMore(a: Agent, logs: Logs, hub: Table, mid: Table, after: Table, es: seq<Event>, more: seq<Event>)
    requires Absorbs(a, logs, hub, mid, es) && Absorbs(a, logs, mid, after, more)
    ensures Absorbs(a, logs, hub, after, es + more)
  {
    assert forall e :: e in es ==> Stored(mid, Uploaded(e));
  }

  lemma DisplacesAtMostItself(a: Agent, logs: Logs, hub: Table, e: Event)
    requires Unambiguous(a, logs) && HubSound(a, logs, hub) && Emitted(a, logs, e)
    ensures forall id :: id in hub && Displaces(Uploaded(e), hub[id]) ==> hub[id] == Uploaded(e)
  {
    forall id | id in hub && Displaces(Uploaded(e), hub[id]) ensures hub[id] == Uploaded(e) {
      var f :| Emitted(a, logs, f) && hub[id] == Uploaded(f);
      if e != f {
        OthersStay(a, logs, e, f);
      }
    }
  }

  lemma AddingKeepsHubSound(a: Agent, logs: Logs, hub: Table, after: Table, e: Event)
    requires HubSound(a, logs, hub) && Emitted(a, logs, e) && PrimaryKey(after)
    requires forall x :: Stored(after, x) ==> x == Uploaded(e) || Stored(hub, x)
    ensures HubSound(a, logs, after)
  {
    forall id | id in after ensures exists f :: Emitted(a, logs, f) && after[id] == Uploaded(f) {
      assert Stored(after, after[id]);
    }
  }

  lemma AcceptDelivers(a: Agent, logs: Logs, hub: Table, e: Event)
    requires Unambiguous(a, logs) && HubSound(a, logs, hub) && Emitted(a, logs, e)
    ensures Absorbs(a, logs, hub, Accept(hub, Uploaded(e)), [e])
  {
    EmittedIsDetailed(a, logs, e);
    DisplacesAtMostItself(a, logs, hub, e);
    AcceptAdds(hub, Uploaded(e));
    AddingKeepsHubSound(a, logs, hub, Accept(hub, Uploaded(e)), e);
  }

  lemma {:induction false} AcceptAllDelivers(a: Agent, logs: Logs, hub: Table, es: seq<Event>)
    requires Unambiguous(a, logs) && HubSound(a, logs, hub) && AllEmitted(a, logs, es)
    ensures Absorbs(a, logs, hub, AcceptAll(hub, UploadedRows(es)), es)
  {
    if es == [] {
    } else {
      var init, last := es[..|es| - 1], es[|es| - 1];
      assert es == init + [last];
      AcceptAllDelivers(a, logs, hub, init);
      var mid := AcceptAll(hub, UploadedRows(init));
      AcceptDelivers(a, logs, mid, last);
      AbsorbsMore(a, logs, hub, mid, Accept(mid, Uploaded(last)), init, [last]);
      OneMoreRow(hub, init, last);
    }
  }

  lemma OneMoreRow(hub: Table, es: seq<Event>, e: Event)
    ensures AcceptAll(hub, UploadedRows(es + [e])) == Accept(AcceptAll(hub, UploadedRows(es)), Uploaded(e))
  {
    assert UploadedRows(es + [e])[..|es|] == UploadedRows(es);
  }

  lemma IngestDelivers(a: Agent, logs: Logs, hub: Table, batch: seq<Event>, now: int)
    requires Unambiguous(a, logs) && HubSound(a, logs, hub) && AllEmitted(a, logs, batch) && Uploadable(batch, now)
    ensures Absorbs(a, logs, hub, Ingested(hub, batch, now), batch)
  {
    ValidRowsOfValid(Sanitized(batch), now);
    assert RowsOf(Sanitized(batch)) == UploadedRows(batch);
    AcceptAllDelivers(a, logs, hub, batch);
  }

  // ----- Collecting -----

  /** Whatever the cache identity, a parse that starts from a sound cursor, or from none, reports every event that is
      not delivered yet. */
  lemma CollectReportsTheRest(
    a: Agent, logs: Logs, hub: Table, snapshot: map<SourceKey, Cursor>, path: Path, identity: string)
    requires NothingRepeated(a, logs) && CursorsSound(a, logs, hub, snapshot) && path in logs
    requires ParseOf(a, logs, snapshot, path, identity).Ok?
    ensures
      var r := ParseOf(a, logs, snapshot, path, identity).value;
      && AllEmitted(a, logs, EventsIn(r.events))
      && ReportSound(a, logs, hub, Collected(path, logs[path], identity, r.cursor), EventsIn(r.events))
  {
    var env, log, cursor := a.envs(path), logs[path], RequestCursor(snapshot, path);
    var r := ParseOf(a, logs, snapshot, path, identity).value;
    var covered: seq<Emission> := [];
    if Key(path) in snapshot {
      assert CursorSound(a, logs, hub, path, cursor);
      CollectsTheRest(env, identity, log, cursor);
      if GoesOn(cursor, identity) {
        covered := Covered(env, log, cursor);
      }
    } else {
      FirstPollCollectsAll(env, identity, log);
    }
    assert covered + r.events == FullParse(env, log).events;
    RestIsSound(a, logs, hub, Collected(path, log, identity, r.cursor), covered, r.events);
  }

  lemma RestIsSound(a: Agent, logs: Logs, hub: Table, c: Collected, covered: seq<Emission>, rest: seq<Emission>)
    requires c.path in logs && c.content == logs[c.path]
    requires c.cursor == CursorOf(Under(a.envs(c.path), c.identity), FullParse(a.envs(c.path), c.content))
    requires covered + rest == FullParse(a.envs(c.path), c.content).events
    requires forall m :: m in covered ==> Delivered(hub, m.event)
    ensures AllEmitted(a, logs, EventsIn(rest)) && ReportSound(a, logs, hub, c, EventsIn(rest))
  {
    var all := FullParse(a.envs(c.path), c.content).events;
    forall e | e in EventsIn(rest) ensures Emitted(a, logs, e) {
      var i :| 0 <= i < |rest| && e == rest[i].event;
      assert all[|covered| + i] == rest[i];
    }
    forall m | m in all ensures Delivered(hub, m.event) || m.event in EventsIn(rest) {
      if m !in covered {
        var i :| 0 <= i < |all| && m == all[i];
        assert EventsIn(rest)[i - |covered|] == m.event;
      }
    }
  }

  lemma {:induction false} UnsentSplits(prints: PrintTable, machine: Machine, events: seq<Event>)
    ensures forall e :: e in events ==> e in Unsent(prints, machine, events) || Known(prints, machine, e)
    ensures forall e :: e in Unsent(prints, machine, events) ==> e in events
  {
    if events == [] {
    } else {
      var n := |events| - 1;
      UnsentSplits(prints, machine, events[..n]);
      assert forall e :: e in events <==> e in events[..n] || e == events[n];
    }
  }

  // ----- Committing -----

  lemma {:induction false} CursorsComeFromReports(
    cursors: CursorTable, machine: Machine, committed: map<SourceKey, Cursor>, reports: seq<SourceReport>,
    row: (Machine, SourceKey))
    requires row in SavedCursors(cursors, machine, committed, reports)
    ensures var saved := SavedCursors(cursors, machine, committed, reports);
      || (row in cursors && saved[row] == cursors[row])
      || exists i :: 0 <= i < |reports| && row == (machine, reports[i].key) && saved[row] == StoredCursor(reports[i])
  {
    if reports != [] {
      var n := |reports| - 1;
      if row in SavedCursors(cursors, machine, committed, reports[..n]) {
        CursorsComeFromReports(cursors, machine, committed, reports[..n], row);
      }
    }
  }

  lemma ReportCursorSound(a: Agent, logs: Logs, hub: Table, c: Collected)
    requires ReportSound(a, logs, hub, c, [])
    ensures StoredCursor(ReportOf(c)) == c.cursor && CursorSound(a, logs, hub, c.path, c.cursor)
  {
    var more := logs[c.path][|c.content|..];
    assert c.content + more == logs[c.path];
    CursorStandsForRecords(a.envs(c.path), c.identity, c.content, more);
    assert HashIdentity(a.envs(c.path).path)[0] == 's';
  }

  lemma CommitKeepsCursorsSound(
    a: Agent, logs: Logs, hub: Table, cursors: CursorTable, committed: map<SourceKey, Cursor>,
    collected: seq<Collected>)
    requires CursorsSound(a, logs, hub, CursorsOf(cursors, a.machine)) && ReportsSound(a, logs, hub, collected, [])
    ensures CursorsSound(
      a, logs, hub, CursorsOf(SavedCursors(cursors, a.machine, committed, Reports(collected)), a.machine))
  {
    var saved := SavedCursors(cursors, a.machine, committed, Reports(collected));
    forall p | (a.machine, Key(p)) in saved ensures CursorSound(a, logs, hub, p, saved[(a.machine, Key(p))]) {
      var row := (a.machine, Key(p));
      CursorsComeFromReports(cursors, a.machine, committed, Reports(collected), row);
      if row in cursors && saved[row] == cursors[row] {
        assert Key(p) in CursorsOf(cursors, a.machine);
      } else {
        var i :| 0 <= i < |collected| && row == (a.machine, Reports(collected)[i].key) &&
          saved[row] == StoredCursor(Reports(collected)[i]);
        assert collected[i] in collected;
        ReportCursorSound(a, logs, hub, collected[i]);
      }
    }
    CursorsOfLookup(saved, a.machine);
  }

  lemma CursorsOfLookup(cursors: CursorTable, machine: Machine)
    ensures forall key :: key in CursorsOf(cursors, machine) ==>
      (machine, key) in cursors && CursorsOf(cursors, machine)[key] == cursors[(machine, key)]
    ensures forall key :: (machine, key) in cursors ==> key in CursorsOf(cursors, machine)
  {
  }

  lemma CommitKeepsPrintsSound(machine: Machine, hub: Table, prints: PrintTable, events: seq<Event>)
    requires PrintsSound(machine, hub, prints) && forall e :: e in events ==> Delivered(hub, e)
    ensures PrintsSound(machine, hub, SavedPrints(prints, machine, events))
  {
    var saved := SavedPrints(prints, machine, events);
    forall row | row in saved && row.0 == machine ensures saved[row].id == row.1 && Delivered(hub, saved[row]) {
      PrintsComeFromCommits(prints, machine, events, row);
    }
  }

  // ----- Every step keeps the invariant -----

  lemma PassSoundGrows(a: Agent, w: System, after: Logs)
    requires LogsGrow(w.logs, after) && PassSound(a, w)
    ensures PassSound(a, w.(logs := after))
  {
    match w.pass {
      case Idle =>
      case Collecting(_, events, collected) =>
        AllEmittedGrows(a, w.logs, after, events);
        ReportsSoundGrow(a, w.logs, after, w.hub, w.hub, collected, events);
      case Uploading(_, collected, pending, sent) =>
        AllEmittedGrows(a, w.logs, after, pending);
        ReportsSoundGrow(a, w.logs, after, w.hub, w.hub, collected, pending[sent..]);
    }
  }

  lemma AppendKeepsInv(a: Agent, w: System, path: Path, bytes: seq<byte>)
    requires Inv(a, w)
    ensures Inv(a, After(a, w, Append(path, bytes)))
  {
    var after := Appended(w.logs, path, bytes);
    assert After(a, w, Append(path, bytes)) == w.(logs := after) && LogsGrow(w.logs, after);
    HubSoundGrows(a, w.logs, after, w.hub);
    CursorsSoundGrow(a, w.logs, after, w.hub, w.hub, CursorsOf(w.cursors, a.machine));
    PassSoundGrows(a, w, after);
  }

  lemma CollectKeepsInv(a: Agent, w: System, path: Path, identity: string)
    requires Wellformed(a, w.logs) && Inv(a, w) && Enabled(w, Collect(path, identity))
    ensures Inv(a, After(a, w, Collect(path, identity)))
  {
    var snapshot, events, collected := w.pass.snapshot, w.pass.events, w.pass.collected;
    var parsed := ParseOf(a, w.logs, snapshot, path, identity);
    if parsed.Ok? {
      var r := parsed.value;
      CollectReportsTheRest(a, w.logs, w.hub, snapshot, path, identity);
      var c := Collected(path, w.logs[path], identity, r.cursor);
      var all := events + EventsIn(r.events);
      assert AllEmitted(a, w.logs, all);
      forall x | x in collected + [c] ensures ReportSound(a, w.logs, w.hub, x, all) {
        if x in collected {
          assert ReportSound(a, w.logs, w.hub, x, events);
        } else {
          assert x == c;
        }
      }
      assert ReportsSound(a, w.logs, w.hub, collected + [c], all);
    }
  }

  lemma FilterKeepsInv(a: Agent, w: System)
    requires Inv(a, w) && Enabled(w, Filter)
    ensures Inv(a, After(a, w, Filter))
  {
    var events, collected := w.pass.events, w.pass.collected;
    var pending := Unsent(w.prints, a.machine, events);
    UnsentSplits(w.prints, a.machine, events);
    assert pending[0..] == pending;
    forall c | c in collected ensures ReportSound(a, w.logs, w.hub, c, pending) {
      assert ReportSound(a, w.logs, w.hub, c, events);
      forall m | m in FullParse(a.envs(c.path), c.content).events
        ensures Delivered(w.hub, m.event) || m.event in pending
      {
        if Known(w.prints, a.machine, m.event) {
          assert (a.machine, m.event.id) in w.prints;
        }
      }
    }
  }

  lemma BatchDelivers(a: Agent, w: System, count: nat, now: int)
    requires Wellformed(a, w.logs) && Inv(a, w) && CanSend(w.pass, count, now)
    ensures Absorbs(a, w.logs, w.hub, Ingested(w.hub, Batch(w.pass, count), now), Batch(w.pass, count))
  {
    assert AllEmitted(a, w.logs, Batch(w.pass, count));
    IngestDelivers(a, w.logs, w.hub, Batch(w.pass, count), now);
  }

  /** A fuller hub keeps committed state sound, whatever becomes of the pass. */
  lemma FullerHubKeepsInv(a: Agent, w: System, hub: Table, pass: Pass, batch: seq<Event>)
    requires Inv(a, w) && Absorbs(a, w.logs, w.hub, hub, batch) && PassSound(a, w.(hub := hub, pass := pass))
    ensures Inv(a, w.(hub := hub, pass := pass))
  {
    CursorsSoundGrow(a, w.logs, w.logs, w.hub, hub, CursorsOf(w.cursors, a.machine));
    forall row | row in w.prints && row.0 == a.machine ensures Delivered(hub, w.prints[row]) {
      assert Stored(w.hub, Uploaded(w.prints[row]));
    }
  }

  lemma ReportsSoundAfterBatch(
    a: Agent, logs: Logs, hub: Table, fuller: Table, collected: seq<Collected>, batch: seq<Event>, rest: seq<Event>)
    requires HubGrows(hub, fuller) && forall e :: e in batch ==> Delivered(fuller, e)
    requires ReportsSound(a, logs, hub, collected, batch + rest)
    ensures ReportsSound(a, logs, fuller, collected, rest)
  {
    forall c | c in collected ensures ReportSound(a, logs, fuller, c, rest) {
      assert ReportSound(a, logs, hub, c, batch + rest);
    }
  }

  lemma UploadKeepsPassSound(a: Agent, w: System, hub: Table, count: nat)
    requires PassSound(a, w) && w.pass.Uploading? && w.pass.sent + count <= |w.pass.pending|
    requires Absorbs(a, w.logs, w.hub, hub, Batch(w.pass, count))
    ensures PassSound(a, w.(hub := hub, pass := w.pass.(sent := w.pass.sent + count)))
  {
    var pending, sent, batch := w.pass.pending, w.pass.sent, Batch(w.pass, count);
    assert pending[sent..] == batch + pending[sent + count..];
    ReportsSoundAfterBatch(a, w.logs, w.hub, hub, w.pass.collected, batch, pending[sent + count..]);
    forall i | 0 <= i < sent + count ensures Delivered(hub, pending[i]) {
      if i >= sent {
        assert pending[i] == batch[i - sent];
      } else {
        assert Stored(w.hub, Uploaded(pending[i]));
      }
    }
  }

  lemma DeliveredBatchKeepsInv(a: Agent, w: System, hub: Table, count: nat)
    requires Inv(a, w) && w.pass.Uploading? && w.pass.sent + count <= |w.pass.pending|
    requires Absorbs(a, w.logs, w.hub, hub, Batch(w.pass, count))
    ensures Inv(a, w.(hub := hub, pass := w.pass.(sent := w.pass.sent + count)))
  {
    UploadKeepsPassSound(a, w, hub, count);
    FullerHubKeepsInv(a, w, hub, w.pass.(sent := w.pass.sent + count), Batch(w.pass, count));
  }

  lemma UploadKeepsInv(a: Agent, w: System, count: nat, now: int)
    requires Wellformed(a, w.logs) && Inv(a, w) && CanSend(w.pass, count, now)
    ensures Inv(a, After(a, w, Upload(count, now)))
  {
    var hub := Ingested(w.hub, Batch(w.pass, count), now);
    assert After(a, w, Upload(count, now)) == w.(hub := hub, pass := w.pass.(sent := w.pass.sent + count));
    BatchDelivers(a, w, count, now);
    DeliveredBatchKeepsInv(a, w, hub, count);
  }

  lemma LoseReplyKeepsInv(a: Agent, w: System, count: nat, now: int)
    requires Wellformed(a, w.logs) && Inv(a, w) && CanSend(w.pass, count, now)
    ensures Inv(a, After(a, w, LoseReply(count, now)))
  {
    var hub := Ingested(w.hub, Batch(w.pass, count), now);
    assert After(a, w, LoseReply(count, now)) == w.(hub := hub, pass := Idle);
    BatchDelivers(a, w, count, now);
    FullerHubKeepsInv(a, w, hub, Idle, Batch(w.pass, count));
  }

  lemma CommitKeepsInv(a: Agent, w: System)
    requires Inv(a, w) && Enabled(w, Commit)
    ensures Inv(a, After(a, w, Commit))
  {
    var pending := w.pass.pending;
    assert pending[w.pass.sent..] == [];
    CommitKeepsCursorsSound(a, w.logs, w.hub, w.cursors, w.pass.snapshot, w.pass.collected);
    CommitKeepsPrintsSound(a.machine, w.hub, w.prints, pending);
  }

  /** Every step of the agent, in any state of the hub it may have reached, keeps the invariant. */
  lemma StepKeepsInv(a: Agent, w: System, s: Action)
    requires Wellformed(a, w.logs) && Inv(a, w) && Enabled(w, s)
    ensures Inv(a, After(a, w, s))
  {
    match s
    case Append(path, bytes) => AppendKeepsInv(a, w, path, bytes);
    case BeginPass =>
    case Collect(path, identity) => CollectKeepsInv(a, w, path, identity);
    case Filter => FilterKeepsInv(a, w);
    case Upload(count, now) => UploadKeepsInv(a, w, count, now);
    case LoseReply(count, now) => LoseReplyKeepsInv(a, w, count, now);
    case Abandon =>
    case Commit => CommitKeepsInv(a, w);
  }

  lemma {:induction false} LogsOnlyGrow(a: Agent, w: System, steps: seq<Action>)
    requires Runs(a, w, steps)
    ensures LogsGrow(w.logs, RunFrom(a, w, steps).logs)
    decreases |steps|
  {
    if steps != [] {
      var next := After(a, w, steps[0]);
      assert LogsGrow(w.logs, next.logs);
      LogsOnlyGrow(a, next, steps[1..]);
    }
  }

  /** Logs that are well formed now were so before they grew. */
  lemma WellformedEarlier(a: Agent, before: Logs, after: Logs)
    requires LogsGrow(before, after) && Wellformed(a, after)
    ensures Wellformed(a, before)
  {
    forall p | p in before ensures RepeatFree(a.envs(p), before[p]) {
      assert before[p] + after[p][|before[p]|..] == after[p];
      RepeatFreePrefix(a.envs(p), before[p], after[p][|before[p]|..]);
    }
    forall e, f | Emitted(a, before, e) && Emitted(a, before, f) && e != f ensures Apart(e, f) {
      EmittedGrows(a, before, after, e);
      EmittedGrows(a, before, after, f);
    }
  }

  lemma {:induction false} RunKeepsInv(a: Agent, w: System, steps: seq<Action>)
    requires Inv(a, w) && Runs(a, w, steps) && Wellformed(a, RunFrom(a, w, steps).logs)
    ensures Inv(a, RunFrom(a, w, steps))
    decreases |steps|
  {
    if steps == [] {
    } else {
      LogsOnlyGrow(a, w, steps);
      WellformedEarlier(a, w.logs, RunFrom(a, w, steps).logs);
      StepKeepsInv(a, w, steps[0]);
      RunKeepsInv(a, After(a, w, steps[0]), steps[1..]);
    }
  }

  lemma InitialIsSound(a: Agent)
    ensures Inv(a, Initial())
  {
  }

  // ----- Safety over whole runs -----

  /** After any run, a committed cursor is the end of a full parse of a prefix of its log, and the hub holds every event
      of that prefix. */
  lemma NoCursorCoversALostEvent(a: Agent, steps: seq<Action>, path: Path)
    requires Runs(a, Initial(), steps) && Wellformed(a, RunFrom(a, Initial(), steps).logs)
    requires (a.machine, Key(path)) in RunFrom(a, Initial(), steps).cursors
    ensures
      var w := RunFrom(a, Initial(), steps);
      var cursor := w.cursors[(a.machine, Key(path))];
      && path in w.logs && CursorAt(a.envs(path), w.logs[path], cursor)
      && forall m :: m in FullParse(a.envs(path), w.logs[path][..cursor.offset]).events ==> Delivered(w.hub, m.event)
  {
    InitialIsSound(a);
    RunKeepsInv(a, Initial(), steps);
    CommittedCursorIsSound(a, RunFrom(a, Initial(), steps), path);
  }

  lemma CommittedCursorIsSound(a: Agent, w: System, path: Path)
    requires Inv(a, w) && (a.machine, Key(path)) in w.cursors
    ensures CursorSound(a, w.logs, w.hub, path, w.cursors[(a.machine, Key(path))])
  {
    assert Key(path) in CursorsOf(w.cursors, a.machine);
  }

  /** Whatever was redelivered, the hub never holds a row that is not an event of some log. */
  lemma NothingIsInvented(a: Agent, steps: seq<Action>, x: Row)
    requires Runs(a, Initial(), steps) && Wellformed(a, RunFrom(a, Initial(), steps).logs)
    requires Stored(RunFrom(a, Initial(), steps).hub, x)
    ensures exists e :: Emitted(a, RunFrom(a, Initial(), steps).logs, e) && x == Uploaded(e)
  {
    InitialIsSound(a);
    RunKeepsInv(a, Initial(), steps);
    var hub := RunFrom(a, Initial(), steps).hub;
    assert hub[x.id] == x;
  }

  /** The pass collected every log as it is now. */
  predicate UpToDate(w: System) {
    w.pass.Uploading? && forall p :: p in w.logs ==>
      exists c :: c in w.pass.collected && c.path == p && c.content == w.logs[p]
  }

  lemma CommittablePassDelivered(a: Agent, w: System, c: Collected)
    requires Inv(a, w) && Enabled(w, Commit) && c in w.pass.collected
    ensures forall m :: m in FullParse(a.envs(c.path), c.content).events ==> Delivered(w.hub, m.event)
  {
    assert w.pass.pending[w.pass.sent..] == [];
    assert ReportSound(a, w.logs, w.hub, c, []);
  }

  lemma EverythingDelivered(a: Agent, w: System)
    requires Inv(a, w) && Enabled(w, Commit) && UpToDate(w)
    ensures forall x :: Stored(w.hub, x) <==> exists e :: Emitted(a, w.logs, e) && x == Uploaded(e)
  {
    forall e | Emitted(a, w.logs, e) ensures Delivered(w.hub, e) {
      var p, m :| p in w.logs && m in FullParse(a.envs(p), w.logs[p]).events && m.event == e;
      var c :| c in w.pass.collected && c.path == p && c.content == w.logs[p];
      CommittablePassDelivered(a, w, c);
    }
    forall x | Stored(w.hub, x) ensures exists e :: Emitted(a, w.logs, e) && x == Uploaded(e) {
      assert w.hub[x.id] == x;
    }
  }

  lemma FoldHoldsTheEvents(a: Agent, logs: Logs, es: seq<Event>)
    requires Unambiguous(a, logs) && forall e :: e in es <==> Emitted(a, logs, e)
    ensures var t := AcceptAll(map[], UploadedRows(es));
      PrimaryKey(t) && forall x :: Stored(t, x) <==> exists e :: Emitted(a, logs, e) && x == Uploaded(e)
  {
    var t := AcceptAll(map[], UploadedRows(es));
    AcceptAllDelivers(a, logs, map[], es);
    forall x | Stored(t, x) ensures exists e :: Emitted(a, logs, e) && x == Uploaded(e) {
      assert t[x.id] == x;
    }
  }

  /** Exactly once: after any run that ends with a committed pass over all logs as they are, however often it crashed or
      lost replies on the way, the hub is what one undisturbed upsert of a full parse of every log leaves, in
      any order. */
  lemma CommittedHubIsTheFold(a: Agent, steps: seq<Action>, es: seq<Event>)
    requires Runs(a, Initial(), steps) && Wellformed(a, RunFrom(a, Initial(), steps).logs)
    requires Enabled(RunFrom(a, Initial(), steps), Commit) && UpToDate(RunFrom(a, Initial(), steps))
    requires forall e :: e in es <==> Emitted(a, RunFrom(a, Initial(), steps).logs, e)
    ensures After(a, RunFrom(a, Initial(), steps), Commit).hub == AcceptAll(map[], UploadedRows(es))
  {
    InitialIsSound(a);
    RunKeepsInv(a, Initial(), steps);
    var w := RunFrom(a, Initial(), steps);
    EverythingDelivered(a, w);
    FoldHoldsTheEvents(a, w.logs, es);
    SameRowsSameTable(w.hub, AcceptAll(map[], UploadedRows(es)));
  }
}
