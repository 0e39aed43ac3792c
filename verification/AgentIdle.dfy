/** After a completed pass the agent is at rest: over unchanged logs another one finds nothing and changes nothing. */
module AgentIdle {
  import opened Wrappers
  import opened Events
  import opened Paths
  import opened RecordReader
  import opened CodexLog
  import opened CodexResume
  import opened CodexCommitted
  import opened HubTable
  import opened AgentState
  import opened ClientIngest
  import opened AgentPass
  import opened AgentRunner

  predicate DistinctPaths(sources: seq<Source>) {
    forall i, j :: 0 <= i < j < |sources| ==> sources[i].path != sources[j].path
  }

  /** A log that is there and whose parse from the snapshot succeeds. */
  predicate Parsable(a: Agent, logs: Logs, snapshot: map<SourceKey, Cursor>, source: Source) {
    source.path in logs && ParseOf(a, logs, snapshot, source.path, source.identity).Ok?
  }

  function Collect(a: Agent, logs: Logs, snapshot: map<SourceKey, Cursor>, sources: seq<Source>): Pass {
    CollectAll(a, logs, Collecting(snapshot, [], []), sources)
  }

  /** `c` is the report of `source`. */
  predicate IsReportOf(
    a: Agent, logs: Logs, snapshot: map<SourceKey, Cursor>, source: Source, c: Collected) {
    && Parsable(a, logs, snapshot, source) && c.path == source.path
    && c.cursor == ParseOf(a, logs, snapshot, source.path, source.identity).value.cursor
  }

  // ----- What the first pass collects -----

  /** Every report is one of a listed source, and none is made twice. */
  lemma {:induction false} ReportsAreOfSources(
    a: Agent, logs: Logs, snapshot: map<SourceKey, Cursor>, sources: seq<Source>)
    requires DistinctPaths(sources)
    ensures
      var collected := Collect(a, logs, snapshot, sources).collected;
      && (forall c :: c in collected ==> exists s :: s in sources && IsReportOf(a, logs, snapshot, s, c))
      && (forall i, j :: 0 <= i < j < |collected| ==> collected[i].path != collected[j].path)
  {
    if sources != [] {
      var init, last := sources[..|sources| - 1], sources[|sources| - 1];
      ReportsAreOfSources(a, logs, snapshot, init);
      var before, after := Collect(a, logs, snapshot, init).collected, Collect(a, logs, snapshot, sources).collected;
      forall c | c in before ensures c.path != last.path &&
        exists s :: s in sources && IsReportOf(a, logs, snapshot, s, c) {
        var s :| s in init && IsReportOf(a, logs, snapshot, s, c);
        assert s in sources;
      }
      if Parsable(a, logs, snapshot, last) {
        assert after[..|before|] == before && IsReportOf(a, logs, snapshot, last, after[|before|]);
        assert forall c :: c in after <==> c in before || c == after[|before|];
      } else {
        assert after == before;
      }
    }
  }

  lemma {:induction false} ParsableIsReported(
    a: Agent, logs: Logs, snapshot: map<SourceKey, Cursor>, sources: seq<Source>, source: Source)
    returns (k: nat)
    requires source in sources && Parsable(a, logs, snapshot, source)
    ensures
      var collected := Collect(a, logs, snapshot, sources).collected;
      k < |collected| && IsReportOf(a, logs, snapshot, source, collected[k])
  {
    var init, last := sources[..|sources| - 1], sources[|sources| - 1];
    if source == last {
      k := |Collect(a, logs, snapshot, init).collected|;
    } else {
      k := ParsableIsReported(a, logs, snapshot, init, source);
    }
  }

  function SavedBy(a: Agent, w: System, sources: seq<Source>): CursorTable {
    Completed(a, w, sources).cursors
  }

  /** What is committed for a source is the cursor its parse returned, or what was there if it could not be parsed. */
  lemma CommittedCursor(a: Agent, w: System, sources: seq<Source>, source: Source)
    requires DistinctPaths(sources) && source in sources
    ensures
      var before, after := CursorsOf(w.cursors, a.machine), CursorsOf(SavedBy(a, w, sources), a.machine);
      if Parsable(a, w.logs, before, source) then
        Key(source.path) in after &&
        after[Key(source.path)] == ParseOf(a, w.logs, before, source.path, source.identity).value.cursor
      else RequestCursor(after, source.path) == RequestCursor(before, source.path)
  {
    var before := CursorsOf(w.cursors, a.machine);
    var collected := CollectedBy(a, w, sources).collected;
    var row := (a.machine, Key(source.path));
    ReportsAreOfSources(a, w.logs, before, sources);
    if Parsable(a, w.logs, before, source) {
      var k := ParsableIsReported(a, w.logs, before, sources, source);
      forall i | 0 <= i < |collected| && i != k ensures Reports(collected)[i].key != Reports(collected)[k].key {
        assert collected[i].path != collected[k].path;
      }
      CommitSavesReports(w.cursors, a.machine, Reports(collected), k);
    } else {
      forall i | 0 <= i < |collected| ensures row != (a.machine, Reports(collected)[i].key) {
        assert collected[i] in Collect(a, w.logs, before, sources).collected;
        var s :| s in sources && IsReportOf(a, w.logs, before, s, collected[i]);
        var m, n :| 0 <= m < |sources| && 0 <= n < |sources| && sources[m] == s && sources[n] == source;
        assert m != n;
      }
      OtherRowsStay(w.cursors, a.machine, before, Reports(collected), row);
    }
  }

  // ----- The second pass -----

  /** A source whose parse reports nothing and leaves the committed cursor. */
  predicate Quiet(a: Agent, logs: Logs, snapshot: map<SourceKey, Cursor>, source: Source) {
    Parsable(a, logs, snapshot, source) ==>
      Key(source.path) in snapshot &&
      ParseOf(a, logs, snapshot, source.path, source.identity).value == ParseResult([], snapshot[Key(source.path)])
  }

  lemma CommittedIsQuiet(a: Agent, w: System, sources: seq<Source>, source: Source)
    requires DistinctPaths(sources) && source in sources
    ensures Quiet(a, w.logs, CursorsOf(SavedBy(a, w, sources), a.machine), source)
  {
    CommittedCursor(a, w, sources, source);
    var before := CursorsOf(w.cursors, a.machine);
    if Parsable(a, w.logs, before, source) {
      ReparseIsIdle(
        Under(a.envs(source.path), source.identity), w.logs[source.path], RequestCursor(before, source.path));
    }
  }

  lemma {:induction false} QuietSourcesCollectNothing(
    a: Agent, logs: Logs, snapshot: map<SourceKey, Cursor>, sources: seq<Source>)
    requires forall s :: s in sources ==> Quiet(a, logs, snapshot, s)
    ensures
      var pass := Collect(a, logs, snapshot, sources);
      && pass.events == []
      && forall c :: c in pass.collected ==>
           Key(c.path) in snapshot && c.cursor == snapshot[Key(c.path)] && c.cursor.identity != ""
  {
    if sources != [] {
      var init, last := sources[..|sources| - 1], sources[|sources| - 1];
      QuietSourcesCollectNothing(a, logs, snapshot, init);
      assert Quiet(a, logs, snapshot, last);
      if Parsable(a, logs, snapshot, last) {
        assert HashIdentity(a.envs(last.path).path)[0] == 's';
      }
    }
  }

  /** A pass over quiet sources changes nothing. */
  lemma QuietPassIsIdle(a: Agent, w: System, sources: seq<Source>)
    requires w.pass.Idle? && forall s :: s in sources ==> Quiet(a, w.logs, CursorsOf(w.cursors, a.machine), s)
    ensures CollectedBy(a, w, sources).events == []
    ensures Completed(a, w, sources) == w
  {
    var snapshot := CursorsOf(w.cursors, a.machine);
    var pass := Collect(a, w.logs, snapshot, sources);
    QuietSourcesCollectNothing(a, w.logs, snapshot, sources);
    assert CollectedBy(a, w, sources) == pass;
    forall i | 0 <= i < |pass.collected|
      ensures var report := Reports(pass.collected)[i];
        report.key in snapshot && snapshot[report.key] == StoredCursor(report) {
      assert pass.collected[i] in pass.collected;
    }
    NothingToSave(w.cursors, a.machine, snapshot, Reports(pass.collected));
    assert UploadedRows([]) == [];
  }

  /** After a completed pass, whatever it met, a second one over the same logs under the same identities collects no
      event, and completing it changes nothing at all. */
  lemma SecondPassIsIdle(a: Agent, w: System, sources: seq<Source>)
    requires DistinctPaths(sources)
    ensures
      var done := Completed(a, w, sources);
      CollectedBy(a, done, sources).events == [] && Completed(a, done, sources) == done
  {
    var done := Completed(a, w, sources);
    forall s | s in sources ensures Quiet(a, done.logs, CursorsOf(done.cursors, a.machine), s) {
      CommittedIsQuiet(a, w, sources, s);
    }
    QuietPassIsIdle(a, done, sources);
  }

  /** So a pass that follows a completed one leaves logs, hub, cursors and fingerprints alone, whether or not it
      commits. */
  lemma SecondPassHasNoEffect(
    a: Agent, w: System, after: System, found: Discovery, client: Client, weather: Weather, outcome: Outcome, sent: nat)
    requires DistinctPaths(AllSources(found))
    requires PassEffect(a, Completed(a, w, AllSources(found)), after, found, client, weather, outcome, sent)
    ensures after == Completed(a, w, AllSources(found)) && sent == 0
  {
    var done := Completed(a, w, AllSources(found));
    SecondPassIsIdle(a, w, AllSources(found));
    assert PendingOf(a, done, AllSources(found)) == [];
    NothingSent(a, done, AllSources(found));
  }
}
