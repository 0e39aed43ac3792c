/** One call of the `pass` closure of `runAgent` (cmd/tokemon/main.go), over the real state store, client and hub. */
module AgentRunner {
  import opened Wrappers
  import opened Events
  import opened Paths
  import opened RecordReader
  import opened CodexLog
  import opened CodexResume
  import opened HubTable
  import opened HubReplay
  import opened HubIngest
  import opened AgentState
  import opened ClientIngest
  import opened AgentPass
  import opened CodexCommitted
  import opened ExactlyOnce

  /** What the outside world does to a pass. */
  datatype Weather = Weather(
    healthy: bool, snapshotFails: bool, pendingFails: bool, deliveries: nat -> Delivery, now: int, commitFails: bool)

  datatype Outcome = Aborted | Committed(sourceErrors: nat)

  /** A discovered log and the cache identity its parse is asked under. */
  datatype Source = Source(path: Path, identity: string)

  function FailedReport(path: Path): SourceReport {
    SourceReport(Key(path), "", NO_CURSOR, true)
  }

  ghost function SystemOf(logs: Logs, hub: Store, state: StateStore): System
    reads hub, state
  {
    System(logs, hub.rows, state.cursors, state.prints, Idle)
  }

  /** The successful reports among `reports` are those of `collected`, in order. */
  predicate Succeeded(reports: seq<SourceReport>, collected: seq<Collected>) {
    if reports == [] then collected == []
    else
      var init, last := reports[..|reports| - 1], reports[|reports| - 1];
      if last.failed then Succeeded(init, collected)
      else
        && collected != [] && last == ReportOf(collected[|collected| - 1])
        && Succeeded(init, collected[..|collected| - 1])
  }

  /** Failed reports leave their cursors alone. */
  lemma {:induction false} FailuresSaveNothing(
    cursors: CursorTable, machine: Machine, committed: map<SourceKey, Cursor>, reports: seq<SourceReport>,
    collected: seq<Collected>)
    requires Succeeded(reports, collected)
    ensures SavedCursors(cursors, machine, committed, reports) ==
      SavedCursors(cursors, machine, committed, Reports(collected))
  {
    if reports == [] {
    } else if reports[|reports| - 1].failed {
      FailuresSaveNothing(cursors, machine, committed, reports[..|reports| - 1], collected);
    } else {
      var n := |collected| - 1;
      FailuresSaveNothing(cursors, machine, committed, reports[..|reports| - 1], collected[..n]);
      assert Reports(collected)[..n] == Reports(collected[..n]);
    }
  }

  // ----- Collecting -----

  /** Sources are parsed one after the other; a broken one does not hide the others. */
  function CollectAll(a: Agent, logs: Logs, pass: Pass, sources: seq<Source>): (r: Pass)
    requires pass.Collecting?
    ensures r.Collecting? && r.snapshot == pass.snapshot
  {
    if sources == [] then pass
    else
      var before := CollectAll(a, logs, pass, sources[..|sources| - 1]);
      var source := sources[|sources| - 1];
      if source.path in logs then AfterCollect(a, logs, before, source.path, source.identity) else before
  }

  /** What discovery finds, adapter by adapter; None is a failed discovery. */
  type Discovery = seq<Option<seq<Source>>>

  function AllSources(found: Discovery): seq<Source> {
    if found == [] then []
    else AllSources(found[..|found| - 1]) +
         (if found[|found| - 1].Some? then found[|found| - 1].value else [])
  }

  function FailedDiscoveries(found: Discovery): nat {
    if found == [] then 0
    else FailedDiscoveries(found[..|found| - 1]) + (if found[|found| - 1].Some? then 0 else 1)
  }

  /** What the loop has so far, after the discoveries `found` and the first sources of the next one. */
  ghost predicate CollectedSoFar(
    a: Agent, logs: Logs, snapshot: map<SourceKey, Cursor>, sources: seq<Source>, broken: nat, events: seq<Event>,
    reports: seq<SourceReport>, failures: nat) {
    var pass := CollectAll(a, logs, Collecting(snapshot, [], []), sources);
    && events == pass.events && Succeeded(reports, pass.collected)
    && failures + |pass.collected| == |reports| == |sources| + broken
  }

  lemma OneMoreSource(
    a: Agent, logs: Logs, snapshot: map<SourceKey, Cursor>, sources: seq<Source>, broken: nat, events: seq<Event>,
    reports: seq<SourceReport>, failures: nat, source: Source)
    requires CollectedSoFar(a, logs, snapshot, sources, broken, events, reports, failures)
    ensures
      if source.path in logs && ParseOf(a, logs, snapshot, source.path, source.identity).Ok? then
        var r := ParseOf(a, logs, snapshot, source.path, source.identity).value;
        CollectedSoFar(a, logs, snapshot, sources + [source], broken, events + EventsIn(r.events),
                       reports + [SourceReport(Key(source.path), "", r.cursor, false)], failures)
      else
        CollectedSoFar(a, logs, snapshot, sources + [source], broken, events,
                       reports + [FailedReport(source.path)], failures + 1)
  {
    assert (sources + [source])[..|sources|] == sources;
  }

  lemma OneMoreBroken(
    a: Agent, logs: Logs, snapshot: map<SourceKey, Cursor>, sources: seq<Source>, broken: nat, events: seq<Event>,
    reports: seq<SourceReport>, failures: nat)
    requires CollectedSoFar(a, logs, snapshot, sources, broken, events, reports, failures)
    ensures CollectedSoFar(a, logs, snapshot, sources, broken + 1, events,
                           reports + [FailedReport(Path(""))], failures + 1)
  {
  }

  method ParseSource(a: Agent, logs: Logs, source: Source, snapshot: map<SourceKey, Cursor>)
    returns (parsed: Result<ParseResult, string>)
    ensures parsed.Ok? <==>
      source.path in logs && ParseOf(a, logs, snapshot, source.path, source.identity).Ok?
    ensures parsed.Ok? ==> parsed == ParseOf(a, logs, snapshot, source.path, source.identity)
  {
    if source.path !in logs {
      return Err("no such file");
    }
    parsed := ParseLogUncached(
      Under(a.envs(source.path), source.identity), logs[source.path], RequestCursor(snapshot, source.path));
  }

  /** The sources of one adapter. */
  method CollectSources(
    a: Agent, logs: Logs, sources: seq<Source>, snapshot: map<SourceKey, Cursor>, events0: seq<Event>,
    reports0: seq<SourceReport>, failures0: nat, ghost done: seq<Source>, ghost broken: nat)
    returns (events: seq<Event>, reports: seq<SourceReport>, failures: nat)
    requires CollectedSoFar(a, logs, snapshot, done, broken, events0, reports0, failures0)
    ensures CollectedSoFar(a, logs, snapshot, done + sources, broken, events, reports, failures)
  {
    events, reports, failures := events0, reports0, failures0;
    assert done + sources[..0] == done;
    for k := 0 to |sources|
      invariant CollectedSoFar(a, logs, snapshot, done + sources[..k], broken, events, reports, failures)
    {
      var source := sources[k];
      OneMoreSource(a, logs, snapshot, done + sources[..k], broken, events, reports, failures, source);
      assert done + sources[..k] + [source] == done + sources[..k + 1];
      var parsed := ParseSource(a, logs, source, snapshot);
      if parsed.Err? {
        reports := reports + [FailedReport(source.path)];
        failures := failures + 1;
      } else {
        reports := reports + [SourceReport(Key(source.path), "", parsed.value.cursor, false)];
        events := events + EventsIn(parsed.value.events);
      }
    }
    assert sources[..|sources|] == sources;
  }

  /** Every source has one report, and every failed discovery one without a path. */
  method CollectWithCursors(a: Agent, logs: Logs, found: Discovery, snapshot: map<SourceKey, Cursor>)
    returns (events: seq<Event>, reports: seq<SourceReport>, failures: nat)
    ensures CollectedSoFar(a, logs, snapshot, AllSources(found), FailedDiscoveries(found), events, reports, failures)
  {
    events, reports, failures := [], [], 0;
    for i := 0 to |found|
      invariant CollectedSoFar(
        a, logs, snapshot, AllSources(found[..i]), FailedDiscoveries(found[..i]), events, reports, failures)
    {
      ghost var done, broken := AllSources(found[..i]), FailedDiscoveries(found[..i]);
      assert found[..i + 1][..i] == found[..i];
      if found[i].None? {
        OneMoreBroken(a, logs, snapshot, done, broken, events, reports, failures);
        assert done + [] == done;
        reports := reports + [FailedReport(Path(""))];
        failures := failures + 1;
        continue;
      }
      events, reports, failures :=
        CollectSources(a, logs, found[i].value, snapshot, events, reports, failures, done, broken);
    }
    assert found[..|found|] == found;
  }

  // ----- A whole pass -----

  function CollectedBy(a: Agent, w: System, sources: seq<Source>): (r: Pass)
    ensures r.Collecting?
  {
    CollectAll(a, w.logs, Collecting(CursorsOf(w.cursors, a.machine), [], []), sources)
  }

  function PendingOf(a: Agent, w: System, sources: seq<Source>): seq<Event> {
    Unsent(w.prints, a.machine, CollectedBy(a, w, sources).events)
  }

  /** The pass stopped after the hub ingested the first `sent` pending events. */
  function Stopped(a: Agent, w: System, sources: seq<Source>, sent: nat): System
    requires sent <= |PendingOf(a, w, sources)|
  {
    w.(hub := AcceptAll(w.hub, UploadedRows(PendingOf(a, w, sources)[..sent])), pass := Idle)
  }

  function Completed(a: Agent, w: System, sources: seq<Source>): System {
    var collected, pending := CollectedBy(a, w, sources).collected, PendingOf(a, w, sources);
    System(w.logs, AcceptAll(w.hub, UploadedRows(pending)),
           SavedCursors(w.cursors, a.machine, CursorsOf(w.cursors, a.machine), Reports(collected)),
           SavedPrints(w.prints, a.machine, pending), Idle)
  }

  ghost predicate FairUpload(client: Client, weather: Weather, pending: seq<Event>) {
    pending != [] ==> Sendable(client, pending) && Smooth(client, pending, weather.now, weather.deliveries)
  }

  /** Nothing the pass meets stops it. */
  ghost predicate Fair(client: Client, weather: Weather, machine: Machine, pending: seq<Event>) {
    && weather.healthy && !weather.snapshotFails && !weather.pendingFails && !weather.commitFails &&
      machine.name != "" && FairUpload(client, weather, pending)
    && forall i :: 0 <= i < |pending| ==> pending[i].id != BLANK_ID
  }

  lemma FirstRowsAreUploaded(client: Client, events: seq<Event>, n: nat)
    requires n <= |events|
    ensures FirstRows(Outbound(client, events), n) == UploadedRows(events[..n])
  {
  }

  /** An upload is skipped when nothing is pending. */
  method UploadPending(client: Client, hub: Store, pending: seq<Event>, weather: Weather)
    returns (ok: bool, ghost sent: nat)
    requires hub.Valid()
    modifies hub
    ensures hub.Valid()
    ensures sent <= |pending| && hub.rows == AcceptAll(old(hub.rows), UploadedRows(pending[..sent]))
    ensures ok ==> sent == |pending|
    ensures FairUpload(client, weather, pending) ==> ok
  {
    if |pending| == 0 {
      assert UploadedRows(pending[..0]) == [];
      return true, 0;
    }
    // An accepted upload has no rejected events, so the source's check for them never fires.
    var result: Result<IngestResult, string>;
    result, sent := Ingest(client, hub, pending, weather.now, weather.deliveries);
    FirstRowsAreUploaded(client, pending, sent);
    ok := result.Ok?;
  }

  /** Upload, then commit: committed state changes only together with a hub that holds everything pending. */
  method Deliver(
    machine: Machine, client: Client, hub: Store, state: StateStore, snapshot: map<SourceKey, Cursor>,
    reports: seq<SourceReport>, pending: seq<Event>, weather: Weather) returns (ok: bool, ghost sent: nat)
    requires hub.Valid()
    modifies hub, state
    ensures hub.Valid()
    ensures sent <= |pending| && hub.rows == AcceptAll(old(hub.rows), UploadedRows(pending[..sent]))
    ensures ok ==> sent == |pending|
    ensures state.cursors ==
      if ok then SavedCursors(old(state.cursors), machine, snapshot, reports) else old(state.cursors)
    ensures state.prints == if ok then SavedPrints(old(state.prints), machine, pending) else old(state.prints)
    ensures Fair(client, weather, machine, pending) ==> ok
  {
    ok, sent := UploadPending(client, hub, pending, weather);
    if ok {
      ok := state.Commit(machine, snapshot, reports, pending, weather.commitFails);
    }
  }

  /** A pass that commits has done everything; one that stops changed nothing but the hub, by a prefix of what was
      pending; and one that nothing stops commits. */
  ghost predicate PassEffect(
    a: Agent, before: System, after: System, found: Discovery, client: Client, weather: Weather, outcome: Outcome,
    sent: nat) {
    var sources := AllSources(found);
    var pending := PendingOf(a, before, sources);
    && sent <= |pending|
    && (outcome.Aborted? ==> after == Stopped(a, before, sources, sent))
    && (outcome.Committed? ==>
          after == Completed(a, before, sources) &&
          outcome.sourceErrors ==
            FailedDiscoveries(found) + |sources| - |CollectedBy(a, before, sources).collected|)
    && (!weather.healthy || weather.snapshotFails ==> outcome.Aborted? && sent == 0)
    && (Fair(client, weather, a.machine, pending) ==> outcome.Committed?)
  }

  datatype Gathered = Gathered(
    snapshot: map<SourceKey, Cursor>, reports: seq<SourceReport>, failures: nat, pending: seq<Event>)

  /** What is known before the upload. */
  ghost predicate GatheredFor(a: Agent, w: System, found: Discovery, g: Gathered) {
    var collected := CollectedBy(a, w, AllSources(found)).collected;
    && g.snapshot == CursorsOf(w.cursors, a.machine) && g.pending == PendingOf(a, w, AllSources(found))
    && Succeeded(g.reports, collected)
    && g.failures == FailedDiscoveries(found) + |AllSources(found)| - |collected|
  }

  /** Everything before the upload; nothing is changed yet. */
  method Gather(a: Agent, logs: Logs, found: Discovery, ghost hub: Store, state: StateStore, weather: Weather)
    returns (gathered: Result<Gathered, string>)
    ensures gathered.Err? ==> weather.snapshotFails || weather.pendingFails
    ensures weather.snapshotFails ==> gathered.Err?
    ensures gathered.Ok? ==> GatheredFor(a, SystemOf(logs, hub, state), found, gathered.value)
  {
    var snapshot := state.Snapshot(a.machine, weather.snapshotFails);
    if snapshot.Err? {
      return Err(snapshot.error);
    }
    assert snapshot.value == CursorsOf(state.cursors, a.machine);
    var events, reports, failures := CollectWithCursors(a, logs, found, snapshot.value);
    var pending := state.Pending(a.machine, events, weather.pendingFails);
    if pending.Err? {
      return Err(pending.error);
    }
    gathered := Ok(Gathered(snapshot.value, reports, failures, pending.value));
  }

  lemma CommittedIsCompleted(a: Agent, w: System, found: Discovery, g: Gathered, hub: Table)
    requires GatheredFor(a, w, found, g) && hub == AcceptAll(w.hub, UploadedRows(g.pending[..|g.pending|]))
    ensures
      System(w.logs, hub, SavedCursors(w.cursors, a.machine, g.snapshot, g.reports),
             SavedPrints(w.prints, a.machine, g.pending), Idle) == Completed(a, w, AllSources(found))
  {
    assert g.pending[..|g.pending|] == g.pending;
    FailuresSaveNothing(w.cursors, a.machine, g.snapshot, g.reports, CollectedBy(a, w, AllSources(found)).collected);
  }

  method Pass(a: Agent, logs: Logs, found: Discovery, client: Client, hub: Store, state: StateStore, weather: Weather)
    returns (outcome: Outcome, ghost sent: nat)
    requires hub.Valid()
    modifies hub, state
    ensures hub.Valid()
    ensures PassEffect(
      a, old(SystemOf(logs, hub, state)), SystemOf(logs, hub, state), found, client, weather, outcome, sent)
  {
    ghost var w := SystemOf(logs, hub, state);
    NothingSent(a, w, AllSources(found));
    if !weather.healthy {
      return Aborted, 0;
    }
    var gathered := Gather(a, logs, found, hub, state, weather);
    if gathered.Err? {
      return Aborted, 0;
    }
    var g := gathered.value;
    var ok;
    ok, sent := Deliver(a.machine, client, hub, state, g.snapshot, g.reports, g.pending, weather);
    if !ok {
      return Aborted, sent;
    }
    CommittedIsCompleted(a, w, found, g, hub.rows);
    return Committed(g.failures), sent;
  }

  lemma NothingSent(a: Agent, w: System, sources: seq<Source>)
    requires w.pass.Idle?
    ensures Stopped(a, w, sources, 0) == w
  {
    assert UploadedRows(PendingOf(a, w, sources)[..0]) == [];
  }

  // ----- What it keeps and what it achieves -----

  lemma {:induction false} CollectAllKeepsInv(a: Agent, w: System, sources: seq<Source>)
    requires Wellformed(a, w.logs) && Inv(a, w) && w.pass.Collecting?
    ensures Inv(a, w.(pass := CollectAll(a, w.logs, w.pass, sources)))
  {
    if sources == [] {
    } else {
      var init, source := sources[..|sources| - 1], sources[|sources| - 1];
      CollectAllKeepsInv(a, w, init);
      var before := w.(pass := CollectAll(a, w.logs, w.pass, init));
      if source.path in w.logs {
        var collect := Collect(source.path, source.identity);
        StepKeepsInv(a, before, collect);
        assert After(a, before, collect) == w.(pass := CollectAll(a, w.logs, w.pass, sources));
      }
    }
  }

  /** The pass after filtering. */
  function Filtered(a: Agent, w: System, sources: seq<Source>): System {
    w.(pass := Uploading(
      CursorsOf(w.cursors, a.machine), CollectedBy(a, w, sources).collected, PendingOf(a, w, sources), 0))
  }

  lemma FilteredIsSound(a: Agent, w: System, sources: seq<Source>)
    requires Wellformed(a, w.logs) && Inv(a, w) && w.pass.Idle?
    ensures Inv(a, Filtered(a, w, sources))
  {
    var begun := After(a, w, BeginPass);
    CollectAllKeepsInv(a, begun, sources);
    var collected := begun.(pass := CollectAll(a, w.logs, begun.pass, sources));
    FilterKeepsInv(a, collected);
    assert After(a, collected, Filter) == Filtered(a, w, sources);
  }

  /** Ingesting the first pending events, valid or not, delivers them. */
  lemma FirstAreDelivered(a: Agent, w: System, sources: seq<Source>, sent: nat)
    requires Wellformed(a, w.logs) && Inv(a, w) && w.pass.Idle? && sent <= |PendingOf(a, w, sources)|
    ensures Absorbs(a, w.logs, w.hub, Stopped(a, w, sources, sent).hub, PendingOf(a, w, sources)[..sent])
  {
    FilteredIsSound(a, w, sources);
    var first := PendingOf(a, w, sources)[..sent];
    assert AllEmitted(a, w.logs, first);
    AcceptAllDelivers(a, w.logs, w.hub, first);
  }

  /** A pass that stops anywhere leaves a sound system. */
  lemma StoppedIsSound(a: Agent, w: System, sources: seq<Source>, sent: nat)
    requires Wellformed(a, w.logs) && Inv(a, w) && w.pass.Idle? && sent <= |PendingOf(a, w, sources)|
    ensures Inv(a, Stopped(a, w, sources, sent))
  {
    FirstAreDelivered(a, w, sources, sent);
    FullerHubKeepsInv(a, w, Stopped(a, w, sources, sent).hub, Idle, PendingOf(a, w, sources)[..sent]);
  }

  /** The state just before the commit: everything pending is uploaded. */
  function AtCommit(a: Agent, w: System, sources: seq<Source>): System {
    var pending := PendingOf(a, w, sources);
    w.(hub := AcceptAll(w.hub, UploadedRows(pending)),
       pass := Uploading(CursorsOf(w.cursors, a.machine), CollectedBy(a, w, sources).collected, pending, |pending|))
  }

  lemma AtCommitIsSound(a: Agent, w: System, sources: seq<Source>)
    requires Wellformed(a, w.logs) && Inv(a, w) && w.pass.Idle?
    ensures Inv(a, AtCommit(a, w, sources))
  {
    var pending := PendingOf(a, w, sources);
    assert pending[..|pending|] == pending == pending[0..0 + |pending|];
    FilteredIsSound(a, w, sources);
    FirstAreDelivered(a, w, sources, |pending|);
    DeliveredBatchKeepsInv(a, Filtered(a, w, sources), AcceptAll(w.hub, UploadedRows(pending)), |pending|);
  }

  lemma CompletedIsSound(a: Agent, w: System, sources: seq<Source>)
    requires Wellformed(a, w.logs) && Inv(a, w) && w.pass.Idle?
    ensures Inv(a, Completed(a, w, sources))
  {
    AtCommitIsSound(a, w, sources);
    CommitKeepsInv(a, AtCommit(a, w, sources));
    assert After(a, AtCommit(a, w, sources), Commit) == Completed(a, w, sources);
  }

  /** Some report saw the log as it is. */
  ghost predicate Sees(collected: seq<Collected>, logs: Logs, path: Path)
    requires path in logs
  {
    exists c :: c in collected && c.path == path && c.content == logs[path]
  }

  /** Every listed source that can be parsed is among the collected ones, with its present content. */
  lemma {:induction false} CollectsParsable(a: Agent, logs: Logs, pass: Pass, sources: seq<Source>, source: Source)
    requires pass.Collecting? && source in sources && source.path in logs
    requires ParseOf(a, logs, pass.snapshot, source.path, source.identity).Ok?
    ensures Sees(CollectAll(a, logs, pass, sources).collected, logs, source.path)
  {
    var path := source.path;
    var before := CollectAll(a, logs, pass, sources[..|sources| - 1]);
    if source == sources[|sources| - 1] {
      var r := ParseOf(a, logs, before.snapshot, path, source.identity).value;
      assert Collected(path, logs[path], source.identity, r.cursor) in
        AfterCollect(a, logs, before, path, source.identity).collected;
    } else {
      CollectsParsable(a, logs, pass, sources[..|sources| - 1], source);
      var c :| c in before.collected && c.path == path && c.content == logs[path];
      assert c in CollectAll(a, logs, pass, sources).collected;
    }
  }

  predicate Readable(a: Agent, w: System, source: Source) {
    source.path in w.logs &&
    ParseOf(a, w.logs, CursorsOf(w.cursors, a.machine), source.path, source.identity).Ok?
  }

  /** The pass finds every log and can read it. */
  ghost predicate ReadsAll(a: Agent, w: System, sources: seq<Source>) {
    forall p :: p in w.logs ==> exists s :: s in sources && s.path == p && Readable(a, w, s)
  }

  /** One completed pass from any sound state, however it was reached, makes the hub the upsert fold of a full parse of
      every log, provided it finds and can read them all. */
  lemma CompletedPassCatchesUp(a: Agent, w: System, sources: seq<Source>, es: seq<Event>)
    requires Wellformed(a, w.logs) && Inv(a, w) && w.pass.Idle? && ReadsAll(a, w, sources)
    requires forall e :: e in es <==> Emitted(a, w.logs, e)
    ensures Completed(a, w, sources).hub == AcceptAll(map[], UploadedRows(es))
  {
    var u := AtCommit(a, w, sources);
    AtCommitIsSound(a, w, sources);
    forall p | p in w.logs ensures Sees(u.pass.collected, w.logs, p) {
      var s :| s in sources && s.path == p && Readable(a, w, s);
      CollectsParsable(a, w.logs, Collecting(CursorsOf(w.cursors, a.machine), [], []), sources, s);
    }
    EverythingDelivered(a, u);
    FoldHoldsTheEvents(a, w.logs, es);
    SameRowsSameTable(u.hub, AcceptAll(map[], UploadedRows(es)));
  }
}
