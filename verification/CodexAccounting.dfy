/** What the events of a cumulative log add up to. */
module CodexAccounting {
  import opened Wrappers
  import opened Events
  import opened RecordReader
  import opened CodexUsage
  import opened CodexLog
  import opened CodexResume

  /** What one record does, given the state before it and its line number. */
  type Take = (ParseState, nat, Record) -> (ParseState, Option<Emission>)

  function TakeOf(env: Env): Take {
    (s: ParseState, line: nat, record: Record) => TakeRecord(env, s, line, record)
  }

  /** The events of a sequence of records, from a given state and line number. */
  function EmissionsOf(take: Take, s: ParseState, line: nat, records: seq<Record>): seq<Emission>
    decreases |records|
  {
    if records == [] then []
    else
      var taken := take(s, line + 1, records[0]);
      AsSeq(taken.1) + EmissionsOf(take, taken.0, line + 1, records[1..])
  }

  function EmittedTotal(emission: Option<Emission>): int {
    if emission.Some? then OrZero(emission.value.event.tokens.total) else 0
  }

  function TotalTokens(es: seq<Emission>): int {
    if es == [] then 0 else OrZero(es[0].event.tokens.total) + TotalTokens(es[1..])
  }

  lemma TotalTokensAppend(a: seq<Emission>, b: seq<Emission>)
    ensures TotalTokens(a + b) == TotalTokens(a) + TotalTokens(b)
  {
    if a == [] {
      assert a + b == b;
    } else {
      assert (a + b)[1..] == a[1..] + b;
    }
  }

  /** The cumulative totals a log reports, in order. */
  function Snapshots(records: seq<Record>): (xs: seq<int>)
    ensures forall i :: 0 <= i < |xs| ==> xs[i] >= 0
  {
    if records == [] then [] else SnapshotOf(records[0]) + Snapshots(records[1..])
  }

  function SnapshotOf(record: Record): (xs: seq<int>)
    ensures forall i :: 0 <= i < |xs| ==> xs[i] >= 0
  {
    if record.TokenCount? && record.total.Some? then [NormalizeTokenUsage(record.total.value).total] else []
  }

  /** The sum of the last total of every segment; a segment ends where the next total is smaller. */
  function SegmentSum(xs: seq<int>): int {
    if xs == [] then 0
    else if |xs| == 1 then xs[0]
    else (if xs[1] < xs[0] then xs[0] else 0) + SegmentSum(xs[1..])
  }

  /** The totals from the first one above the baseline on. */
  function PastBaseline(xs: seq<int>, baseline: int): seq<int> {
    if xs == [] then [] else if xs[0] > baseline then xs else PastBaseline(xs[1..], baseline)
  }

  /** Every token record is cumulative and has a readable time, and no record brings a new fork baseline. */
  predicate Accountable(env: Env, resolved: bool, records: seq<Record>) {
    forall record :: record in records ==>
      && Cumulative(record)
      && (record.TokenCount? ==> env.parseTime(record.timestamp).Some?)
      && (record.SessionMeta? ==>
        resolved ||
        ResolveForkBaseline(
          env, record.meta.(timestamp := FirstNonEmpty([record.meta.timestamp, record.recordTimestamp]))).None?)
  }

  predicate Counting(s: ParseState) {
    s.previous.NonNegative() && (!s.hasPrevious ==> s.previous == ZERO) && s.baseline.NonNegative()
  }

  /** What the state still owes or is owed: outside the copied prefix, segments go on from the previous total. */
  function Expected(s: ParseState, xs: seq<int>): int {
    if s.prefixPending then
      var past := PastBaseline(xs, s.baseline.total);
      if past == [] then 0 else SegmentSum(past) - s.baseline.total
    else SegmentSum([s.previous.total] + xs) - s.previous.total
  }

  /** What a snapshot of total `x` contributes. */
  function Contribution(s: ParseState, x: int): int {
    if s.prefixPending then Monus(x, s.baseline.total)
    else if x < s.previous.total then x
    else x - s.previous.total
  }

  lemma RecordKeepsCounting(env: Env, s: ParseState, line: nat, record: Record)
    requires Counting(s) && Accountable(env, s.forkResolved, [record])
    requires !(record.TokenCount? && record.total.Some?)
    ensures var (after, emitted) := TakeRecord(env, s, line, record);
      && emitted.None? && after.prefixPending == s.prefixPending && after.previous == s.previous
      && after.hasPrevious == s.hasPrevious && after.baseline == s.baseline && after.forkResolved == s.forkResolved
  {
    assert record in [record];
  }

  lemma SnapshotCounted(env: Env, s: ParseState, line: nat, record: Record)
    requires Counting(s) && record.TokenCount? && record.total.Some? && env.parseTime(record.timestamp).Some?
    ensures
      var (after, emitted) := TakeRecord(env, s, line, record);
      var x := NormalizeTokenUsage(record.total.value).total;
      && Counting(after) && after.baseline == s.baseline && after.forkResolved == s.forkResolved
      && after.prefixPending == (s.prefixPending && x <= s.baseline.total)
      && (after.prefixPending ==> after == s)
      && (!after.prefixPending ==> after.previous.total == x)
      && EmittedTotal(emitted) == Contribution(s, x)
  {
  }

  /** The totals of the events are the segment sums, less the fork baseline once it is passed. */
  lemma {:induction false} EventsAddUp(env: Env, s: ParseState, line: nat, records: seq<Record>)
    requires Counting(s) && Accountable(env, s.forkResolved, records)
    ensures TotalTokens(EmissionsOf(TakeOf(env), s, line, records)) == Expected(s, Snapshots(records))
    decreases |records|
  {
    if records == [] {
    } else {
      var record, rest := records[0], records[1..];
      var taken := TakeOf(env)(s, line + 1, record);
      assert record in records && forall r :: r in rest ==> r in records;
      RecordAddsUp(env, s, line + 1, record, Snapshots(rest));
      EventsAddUp(env, taken.0, line + 1, rest);
      EmittedThen(taken.1, EmissionsOf(TakeOf(env), taken.0, line + 1, rest));
    }
  }

  lemma EmittedThen(emission: Option<Emission>, es: seq<Emission>)
    ensures TotalTokens(AsSeq(emission) + es) == EmittedTotal(emission) + TotalTokens(es)
  {
    TotalTokensAppend(AsSeq(emission), es);
  }

  /** One record contributes exactly the difference it makes to the expectation. */
  lemma RecordAddsUp(env: Env, s: ParseState, line: nat, record: Record, xs: seq<int>)
    requires Counting(s) && Accountable(env, s.forkResolved, [record])
    ensures
      var taken := TakeOf(env)(s, line, record);
      && Counting(taken.0) && taken.0.forkResolved == s.forkResolved
      && Expected(s, SnapshotOf(record) + xs) == EmittedTotal(taken.1) + Expected(taken.0, xs)
  {
    assert record in [record];
    if record.TokenCount? && record.total.Some? {
      SnapshotCounted(env, s, line, record);
      ExpectedStep(s, TakeRecord(env, s, line, record).0, NormalizeTokenUsage(record.total.value).total, xs);
    } else {
      RecordKeepsCounting(env, s, line, record);
      assert SnapshotOf(record) + xs == xs;
    }
  }

  lemma ExpectedStep(s: ParseState, after: ParseState, x: int, xs: seq<int>)
    requires after.baseline == s.baseline && after.prefixPending == (s.prefixPending && x <= s.baseline.total)
    requires !after.prefixPending ==> after.previous.total == x
    ensures Expected(s, [x] + xs) == Contribution(s, x) + Expected(after, xs)
  {
    assert ([x] + xs)[1..] == xs;
    if !s.prefixPending {
      assert ([s.previous.total] + ([x] + xs))[1..] == [x] + xs;
    }
  }

  // ----- A whole log -----

  lemma {:induction false} RawIsEmissionsOf(env: Env, log: seq<byte>, offset: nat, line: nat, state: ParseState)
    requires offset <= |log|
    ensures EmissionsFrom(StepOf(env), log, offset, line, state) ==
      EmissionsOf(TakeOf(env), state, line, RecordsFrom(env, log, offset))
    decreases |log| - offset
  {
    if Terminated(log, offset) {
      var end := LineEnd(log, offset);
      var record := env.decode(log[offset..end]);
      var taken := TakeOf(env)(state, line + 1, record);
      RawIsEmissionsOf(env, log, end, line + 1, taken.0);
      FirstEmission(TakeOf(env), state, line, record, RecordsFrom(env, log, end));
      EmissionsStep(StepOf(env), log, offset, line, state);
    }
  }

  lemma FirstEmission(take: Take, s: ParseState, line: nat, record: Record, rest: seq<Record>)
    ensures
      var taken := take(s, line + 1, record);
      EmissionsOf(take, s, line, [record] + rest) == AsSeq(taken.1) + EmissionsOf(take, taken.0, line + 1, rest)
  {
    assert ([record] + rest)[1..] == rest;
  }

  /** In a log without repeats every record's emission is an event. */
  lemma EventsAreEmissions(env: Env, log: seq<byte>)
    requires RepeatFree(env, log)
    ensures FullParse(env, log).events == EmissionsOf(TakeOf(env), Start(env).state, 0, RecordsFrom(env, log, 0))
  {
    FullParseIsRaw(env, log);
    RawIsEmissionsOf(env, log, 0, 0, Start(env).state);
  }

  /** The segment sums, less the parent's total at the fork for a forked log; nothing until the fork is passed. */
  function Accounted(env: Env, log: seq<byte>): int {
    var xs := Snapshots(RecordsFrom(env, log, 0));
    match ResolveForkBaseline(env, env.sourceMetadata)
    case None => SegmentSum(xs)
    case Some(baseline) =>
      var past := PastBaseline(xs, baseline.total);
      if past == [] then 0 else SegmentSum(past) - baseline.total
  }

  predicate AccountableLog(env: Env, log: seq<byte>) {
    Accountable(env, ResolveForkBaseline(env, env.sourceMetadata).Some?, RecordsFrom(env, log, 0))
  }

  /** The tokens of a whole log are the ones its counters account for. */
  lemma LogAddsUp(env: Env, log: seq<byte>)
    requires AccountableLog(env, log)
    ensures TotalTokens(FullParse(env, log).events) == Accounted(env, log)
  {
    var records := RecordsFrom(env, log, 0);
    StartCounts(env, Snapshots(records));
    CumulativeIsRepeatFree(env, log);
    EventsAreEmissions(env, log);
    EventsAddUp(env, Start(env).state, 0, records);
  }

  /** What a parse that has read nothing expects. */
  lemma StartCounts(env: Env, xs: seq<int>)
    requires forall i :: 0 <= i < |xs| ==> xs[i] >= 0
    ensures Counting(Start(env).state)
    ensures Start(env).state.forkResolved == ResolveForkBaseline(env, env.sourceMetadata).Some?
    ensures
      Expected(Start(env).state, xs) ==
        match ResolveForkBaseline(env, env.sourceMetadata)
        case None => SegmentSum(xs)
        case Some(baseline) =>
          if PastBaseline(xs, baseline.total) == [] then 0
          else SegmentSum(PastBaseline(xs, baseline.total)) - baseline.total
  {
    LatestSnapshotNonNegative(env);
    FromZero(xs);
  }

  lemma LatestSnapshotNonNegative(env: Env)
    ensures ResolveForkBaseline(env, env.sourceMetadata).Some? ==>
      ResolveForkBaseline(env, env.sourceMetadata).value.NonNegative()
  {
    var meta := env.sourceMetadata;
    if ResolveForkBaseline(env, meta).Some? {
      SnapshotNonNegative(
        env, env.parentLogs[env.sessionFiles[ForkParentId(meta)]].records, env.parseTime(meta.timestamp).value);
    }
  }

  lemma {:induction false} SnapshotNonNegative(env: Env, records: seq<Record>, forkAt: int)
    ensures LatestSnapshot(env, records, forkAt).Some? ==> LatestSnapshot(env, records, forkAt).value.NonNegative()
  {
    if records != [] {
      SnapshotNonNegative(env, records[..|records| - 1], forkAt);
    }
  }

  // ----- Logs without resets -----

  predicate ResetFree(xs: seq<int>) {
    forall i, j :: 0 <= i <= j < |xs| ==> xs[i] <= xs[j]
  }

  lemma {:induction false} ResetFreeSum(xs: seq<int>)
    requires xs != [] && ResetFree(xs)
    ensures SegmentSum(xs) == xs[|xs| - 1]
  {
    if |xs| > 1 {
      ResetFreeSum(xs[1..]);
    }
  }

  lemma {:induction false} PastBaselineEnds(xs: seq<int>, baseline: int)
    requires xs != [] && ResetFree(xs) && xs[|xs| - 1] > baseline
    ensures
      var past := PastBaseline(xs, baseline);
      past != [] && ResetFree(past) && past[|past| - 1] == xs[|xs| - 1]
  {
    if xs[0] <= baseline {
      PastBaselineEnds(xs[1..], baseline);
    }
  }

  lemma {:induction false} SnapshotsAppend(a: seq<Record>, b: seq<Record>)
    ensures Snapshots(a + b) == Snapshots(a) + Snapshots(b)
  {
    if a == [] {
      assert a + b == b;
    } else {
      assert (a + b)[1..] == a[1..] + b;
      SnapshotsAppend(a[1..], b);
    }
  }

  /** The position of the snapshot a fork baseline comes from. */
  lemma {:induction false} LatestSnapshotAt(env: Env, records: seq<Record>, forkAt: int) returns (k: nat)
    requires LatestSnapshot(env, records, forkAt).Some?
    ensures k < |records| && SnapshotBy(env, records[k], forkAt)
    ensures forall j :: k < j < |records| ==> !SnapshotBy(env, records[j], forkAt)
    ensures LatestSnapshot(env, records, forkAt) == Some(NormalizeTokenUsage(records[k].total.value))
  {
    k := |records| - 1;
    if !SnapshotBy(env, records[k], forkAt) {
      k := LatestSnapshotAt(env, records[..k], forkAt);
    }
  }

  /** A fork counts every token once. The parent's records up to the snapshot the baseline came from, and the whole
      child, together report the child's final cumulative total. */
  lemma ParentPlusChild(parentEnv: Env, parent: seq<Record>, childEnv: Env, childLog: seq<byte>, forkAt: int)
    returns (k: nat)
    requires ResolveForkBaseline(childEnv, childEnv.sourceMetadata) == LatestSnapshot(childEnv, parent, forkAt)
    requires LatestSnapshot(childEnv, parent, forkAt).Some?
    requires ResolveForkBaseline(parentEnv, parentEnv.sourceMetadata).None? && Accountable(parentEnv, false, parent)
    requires Accountable(childEnv, true, RecordsFrom(childEnv, childLog, 0))
    requires ResetFree(Snapshots(parent))
    requires
      var cs := Snapshots(RecordsFrom(childEnv, childLog, 0));
      ResetFree(cs) && cs != [] && cs[|cs| - 1] > LatestSnapshot(childEnv, parent, forkAt).value.total
    ensures k < |parent| && SnapshotBy(childEnv, parent[k], forkAt)
    ensures forall j :: k < j < |parent| ==> !SnapshotBy(childEnv, parent[j], forkAt)
    ensures
      var cs := Snapshots(RecordsFrom(childEnv, childLog, 0));
      TotalTokens(EmissionsOf(TakeOf(parentEnv), Start(parentEnv).state, 0, parent[..k + 1])) +
      TotalTokens(FullParse(childEnv, childLog).events) == cs[|cs| - 1]
  {
    k := LatestSnapshotAt(childEnv, parent, forkAt);
    var baseline := LatestSnapshot(childEnv, parent, forkAt).value;
    ParentUpTo(parentEnv, parent, k);
    var cs := Snapshots(RecordsFrom(childEnv, childLog, 0));
    LogAddsUp(childEnv, childLog);
    PastBaselineEnds(cs, baseline.total);
    ResetFreeSum(PastBaseline(cs, baseline.total));
  }

  lemma SnapshotsUpTo(records: seq<Record>, k: nat)
    requires k < |records| && records[k].TokenCount? && records[k].total.Some?
    requires ResetFree(Snapshots(records))
    ensures
      var xs := Snapshots(records[..k + 1]);
      ResetFree(xs) && xs != [] && xs[|xs| - 1] == NormalizeTokenUsage(records[k].total.value).total
  {
    assert records[..k + 1] + records[k + 1..] == records;
    SnapshotsAppend(records[..k + 1], records[k + 1..]);
    assert records[..k] + [records[k]] == records[..k + 1];
    SnapshotsAppend(records[..k], [records[k]]);
    assert Snapshots([records[k]]) == SnapshotOf(records[k]);
    var xs := Snapshots(records[..k + 1]);
    assert forall i :: 0 <= i < |xs| ==> xs[i] == Snapshots(records)[i];
  }

  lemma ParentUpTo(env: Env, records: seq<Record>, k: nat)
    requires k < |records| && records[k].TokenCount? && records[k].total.Some?
    requires ResolveForkBaseline(env, env.sourceMetadata).None? && Accountable(env, false, records)
    requires ResetFree(Snapshots(records))
    ensures TotalTokens(EmissionsOf(TakeOf(env), Start(env).state, 0, records[..k + 1])) ==
      NormalizeTokenUsage(records[k].total.value).total
  {
    var upTo := records[..k + 1];
    SnapshotsUpTo(records, k);
    StartCounts(env, Snapshots(upTo));
    EventsAddUp(env, Start(env).state, 0, upTo);
    ResetFreeSum(Snapshots(upTo));
  }

  lemma FromZero(xs: seq<int>)
    requires forall i :: 0 <= i < |xs| ==> xs[i] >= 0
    ensures SegmentSum([0] + xs) == SegmentSum(xs)
  {
    assert xs != [] ==> ([0] + xs)[1..] == xs;
  }
}
