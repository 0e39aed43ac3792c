/** The account total the hub shows is what the counters in the agent's logs account for. */
module AccountTotal {
  import opened Wrappers
  import opened Events
  import opened Paths
  import opened RecordReader
  import opened CodexLog
  import opened CodexResume
  import opened HubTable
  import opened HubTotals
  import opened AgentPass
  import opened ExactlyOnce
  import opened CodexLeaps
  import Accounting = CodexAccounting

  // ----- The events of all logs, once each -----

  /** `paths` lists the logs, each once. */
  ghost predicate Lists(paths: seq<Path>, logs: Logs) {
    (forall p :: p in paths <==> p in logs) && Once(paths)
  }

  predicate Once<T(==)>(xs: seq<T>) {
    forall i, j :: 0 <= i < j < |xs| ==> xs[i] != xs[j]
  }

  function EventsOfLog(a: Agent, logs: Logs, path: Path): seq<Event>
    requires path in logs
  {
    EventsIn(FullParse(a.envs(path), logs[path]).events)
  }

  function EventsOfAll(a: Agent, logs: Logs, paths: seq<Path>): seq<Event>
    requires forall p :: p in paths ==> p in logs
  {
    if paths == [] then []
    else EventsOfAll(a, logs, paths[..|paths| - 1]) + EventsOfLog(a, logs, paths[|paths| - 1])
  }

  /** Different logs report different events. */
  ghost predicate Separate(a: Agent, logs: Logs) {
    forall p, q, e :: p in logs && q in logs && p != q && e in EventsOfLog(a, logs, p) ==> e !in EventsOfLog(a, logs, q)
  }

  lemma {:induction false} EventsOfAllAre(a: Agent, logs: Logs, paths: seq<Path>)
    requires forall p :: p in paths ==> p in logs
    ensures forall e :: e in EventsOfAll(a, logs, paths) <==> exists p :: p in paths && e in EventsOfLog(a, logs, p)
  {
    if paths == [] {
    } else {
      var init, last := paths[..|paths| - 1], paths[|paths| - 1];
      EventsOfAllAre(a, logs, init);
      assert forall p :: p in paths <==> p in init || p == last;
    }
  }

  lemma EventsOfAllAreEmitted(a: Agent, logs: Logs, paths: seq<Path>)
    requires Lists(paths, logs)
    ensures forall e :: e in EventsOfAll(a, logs, paths) <==> Emitted(a, logs, e)
  {
    EventsOfAllAre(a, logs, paths);
    forall e ensures (exists p :: p in paths && e in EventsOfLog(a, logs, p)) <==> Emitted(a, logs, e) {
      if Emitted(a, logs, e) {
        var p, m :| p in logs && m in FullParse(a.envs(p), logs[p]).events && m.event == e;
        var i :| 0 <= i < |FullParse(a.envs(p), logs[p]).events| && m == FullParse(a.envs(p), logs[p]).events[i];
        assert EventsOfLog(a, logs, p)[i] == e;
      }
      if p :| p in paths && e in EventsOfLog(a, logs, p) {
        var i :| 0 <= i < |EventsOfLog(a, logs, p)| && e == EventsOfLog(a, logs, p)[i];
        assert FullParse(a.envs(p), logs[p]).events[i] in FullParse(a.envs(p), logs[p]).events;
      }
    }
  }

  lemma OnceInOneLog(a: Agent, logs: Logs, path: Path)
    requires path in logs
    ensures Once(EventsOfLog(a, logs, path))
  {
    var es := FullParse(a.envs(path), logs[path]).events;
    forall i, j | 0 <= i < j < |es| ensures es[i].event != es[j].event {
      EventIdsAreDistinct(a.envs(path), logs[path], i, j);
    }
  }

  lemma OnceAppended<T>(xs: seq<T>, ys: seq<T>)
    requires Once(xs) && Once(ys) && forall x :: x in xs ==> x !in ys
    ensures Once(xs + ys)
  {
    var all := xs + ys;
    forall i, j | 0 <= i < j < |all| ensures all[i] != all[j] {
      if i < |xs| <= j {
        assert all[i] in xs && all[j] in ys;
      }
    }
  }

  lemma {:induction false} OnceInAll(a: Agent, logs: Logs, paths: seq<Path>)
    requires Once(paths) && Separate(a, logs) && forall p :: p in paths ==> p in logs
    ensures Once(EventsOfAll(a, logs, paths))
  {
    if paths == [] {
    } else {
      var init, last := paths[..|paths| - 1], paths[|paths| - 1];
      OnceInAll(a, logs, init);
      OnceInOneLog(a, logs, last);
      EventsOfAllAre(a, logs, init);
      assert forall p :: p in init ==> p != last;
      OnceAppended(EventsOfAll(a, logs, init), EventsOfLog(a, logs, last));
    }
  }

  lemma UploadedAreIndependent(a: Agent, logs: Logs, es: seq<Event>)
    requires Unambiguous(a, logs) && AllEmitted(a, logs, es) && Once(es)
    ensures Independent(UploadedRows(es))
  {
    forall i | 0 <= i < |es| ensures !Aggregate(Uploaded(es[i])) {
      EmittedIsDetailed(a, logs, es[i]);
    }
    forall i, j | 0 <= i < j < |es|
      ensures Uploaded(es[i]).id != Uploaded(es[j]).id && !SameKey(Uploaded(es[i]), Uploaded(es[j])) {
      assert Apart(es[i], es[j]);
    }
  }

  // ----- Their tokens -----

  lemma {:induction false} SumTotalsAppend(xs: seq<Row>, ys: seq<Row>)
    ensures SumTotals(xs + ys) == SumTotals(xs) + SumTotals(ys)
    decreases |ys|
  {
    if ys == [] {
      assert xs + ys == xs;
    } else {
      assert (xs + ys)[..|xs + ys| - 1] == xs + ys[..|ys| - 1];
      SumTotalsAppend(xs, ys[..|ys| - 1]);
    }
  }

  lemma {:induction false} UploadedTotal(es: seq<Emission>)
    ensures SumTotals(UploadedRows(EventsIn(es))) == SumColumn(KnownTotal, es)
  {
    if es == [] {
    } else {
      var first, rest := es[0].event, es[1..];
      UploadedTotal(rest);
      assert UploadedRows(EventsIn(es)) == [Uploaded(first)] + UploadedRows(EventsIn(rest));
      SumTotalsAppend([Uploaded(first)], UploadedRows(EventsIn(rest)));
      assert SumTotals([Uploaded(first)]) == TotalOf(Uploaded(first));
    }
  }

  lemma {:induction false} TotalColumn(es: seq<Emission>)
    ensures SumColumn(Total, es) == Accounting.TotalTokens(es)
  {
    if es != [] {
      TotalColumn(es[1..]);
    }
  }

  lemma {:induction false} KnownRises(leaps: seq<Leap>)
    ensures SumOf(KnownRise, leaps) == SumOf(TotalRise, leaps) - SumOf(DroppedRise, leaps)
  {
    if leaps != [] {
      KnownRises(leaps[1..]);
    }
  }

  /** What the counters of a log account for, less the rises of the total that input, output and cache writes
      outgrow. */
  function AccountedBy(a: Agent, logs: Logs, path: Path): int
    requires path in logs
  {
    var env, log := a.envs(path), logs[path];
    Accounting.Accounted(env, log) - SumOf(DroppedRise, LogLeaps(env, log))
  }

  /** Both sides are read off the records of the log; nothing else is dropped. */
  lemma KnownTotalsAddUp(env: Env, log: seq<byte>)
    requires Accounting.AccountableLog(env, log)
    ensures SumColumn(KnownTotal, FullParse(env, log).events) ==
      Accounting.Accounted(env, log) - SumOf(DroppedRise, LogLeaps(env, log))
  {
    LogComponentsAddUp(env, log);
    Accounting.LogAddsUp(env, log);
    TotalColumn(FullParse(env, log).events);
    KnownRises(LogLeaps(env, log));
  }

  function AccountedByAll(a: Agent, logs: Logs, paths: seq<Path>): int
    requires forall p :: p in paths ==> p in logs
  {
    if paths == [] then 0
    else AccountedByAll(a, logs, paths[..|paths| - 1]) + AccountedBy(a, logs, paths[|paths| - 1])
  }

  lemma TotalOfLog(a: Agent, logs: Logs, path: Path)
    requires path in logs && Accounting.AccountableLog(a.envs(path), logs[path])
    ensures SumTotals(UploadedRows(EventsOfLog(a, logs, path))) == AccountedBy(a, logs, path)
  {
    UploadedTotal(FullParse(a.envs(path), logs[path]).events);
    KnownTotalsAddUp(a.envs(path), logs[path]);
  }

  lemma TotalsAppend(es: seq<Event>, more: seq<Event>)
    ensures SumTotals(UploadedRows(es + more)) == SumTotals(UploadedRows(es)) + SumTotals(UploadedRows(more))
  {
    assert UploadedRows(es + more) == UploadedRows(es) + UploadedRows(more);
    SumTotalsAppend(UploadedRows(es), UploadedRows(more));
  }

  lemma {:induction false} TotalsOfAll(a: Agent, logs: Logs, paths: seq<Path>)
    requires forall p :: p in paths ==> p in logs && Accounting.AccountableLog(a.envs(p), logs[p])
    ensures SumTotals(UploadedRows(EventsOfAll(a, logs, paths))) == AccountedByAll(a, logs, paths)
  {
    if paths == [] {
    } else {
      var init, last := paths[..|paths| - 1], paths[|paths| - 1];
      TotalsOfAll(a, logs, init);
      TotalOfLog(a, logs, last);
      TotalsAppend(EventsOfAll(a, logs, init), EventsOfLog(a, logs, last));
    }
  }

  /** The upsert fold of a full parse of every log holds the tokens the logs account for. */
  lemma FoldTotal(a: Agent, logs: Logs, paths: seq<Path>)
    requires Unambiguous(a, logs) && Separate(a, logs) && Lists(paths, logs)
    requires forall p :: p in logs ==> Accounting.AccountableLog(a.envs(p), logs[p])
    ensures LifetimeTokens(AcceptAll(map[], UploadedRows(EventsOfAll(a, logs, paths)))) ==
      AccountedByAll(a, logs, paths)
  {
    var es := EventsOfAll(a, logs, paths);
    EventsOfAllAreEmitted(a, logs, paths);
    OnceInAll(a, logs, paths);
    UploadedAreIndependent(a, logs, es);
    IndependentRows(UploadedRows(es));
    TotalsOfAll(a, logs, paths);
  }

  /** End to end: after any run that ends with a committed pass over all logs as they are, the account total is the sum
      over the logs of what their cumulative counters account for, less the rises of a total that the rises of input,
      output and cache writes outgrow. Nothing else is lost and nothing is counted twice. */
  lemma AccountTotalIsAccounted(a: Agent, steps: seq<Action>, paths: seq<Path>)
    requires Runs(a, Initial(), steps)
    requires Enabled(RunFrom(a, Initial(), steps), Commit) && UpToDate(RunFrom(a, Initial(), steps))
    requires
      var logs := RunFrom(a, Initial(), steps).logs;
      Wellformed(a, logs) && Separate(a, logs) && Lists(paths, logs) &&
      forall p :: p in logs ==> Accounting.AccountableLog(a.envs(p), logs[p])
    ensures
      LifetimeTokens(After(a, RunFrom(a, Initial(), steps), Commit).hub) ==
      AccountedByAll(a, RunFrom(a, Initial(), steps).logs, paths)
  {
    var logs := RunFrom(a, Initial(), steps).logs;
    EventsOfAllAreEmitted(a, logs, paths);
    CommittedHubIsTheFold(a, steps, EventsOfAll(a, logs, paths));
    FoldTotal(a, logs, paths);
  }
}
