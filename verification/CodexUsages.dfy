/** What the events of a log of single usages add up to, column by column. */
module CodexUsages {
  import opened Wrappers
  import opened Events
  import opened RecordReader
  import opened CodexUsage
  import opened CodexLog
  import opened CodexResume
  import opened CodexAccounting
  import opened CodexLeaps

  /** The single usages a log reports, in order. */
  function Usages(records: seq<Record>): (us: seq<Usage>)
    ensures forall i :: 0 <= i < |us| ==> us[i].NonNegative()
  {
    if records == [] then [] else UsageOf(records[0]) + Usages(records[1..])
  }

  function UsageOf(record: Record): (us: seq<Usage>)
    ensures forall i :: 0 <= i < |us| ==> us[i].NonNegative()
  {
    if record.TokenCount? && record.last.Some? then [NormalizeTokenUsage(record.last.value)] else []
  }

  /** No record carries cumulative counters, every token record has a readable time, and no record brings a new fork
      baseline. */
  predicate SingleUsages(env: Env, resolved: bool, records: seq<Record>) {
    forall record :: record in records ==>
      && (record.TokenCount? ==> record.total.None? && env.parseTime(record.timestamp).Some?)
      && (record.SessionMeta? ==>
        resolved ||
        ResolveForkBaseline(
          env, record.meta.(timestamp := FirstNonEmpty([record.meta.timestamp, record.recordTimestamp]))).None?)
  }

  /** What is still to be taken out of the usages: nothing without a fork. */
  function Owed(s: ParseState): Usage {
    if s.forkResolved then s.remainingPrefix else ZERO
  }

  /** The whole counters; cached input and reasoning are parts of others. */
  datatype Whole = Inputs | Outputs | CacheWrites | Totals

  function ValueIn(whole: Whole, u: Usage): (value: int)
    ensures u.NonNegative() ==> value >= 0
  {
    match whole
    case Inputs => u.input
    case Outputs => u.output
    case CacheWrites => u.cacheWrite
    case Totals => u.total
  }

  function ColumnOf(whole: Whole): Column {
    match whole
    case Inputs => AllInput
    case Outputs => Output
    case CacheWrites => CacheWrite
    case Totals => Total
  }

  function Owes(whole: Whole, s: ParseState): int {
    ValueIn(whole, Owed(s))
  }

  /** One usage is reported less what is owed, which is less by the usage afterwards. */
  lemma LastCounted(s: ParseState, u: Usage, whole: Whole)
    requires Owed(s).NonNegative() && u.NonNegative()
    ensures
      var counted, value := CountLast(s, u), ValueIn(whole, u);
      && counted.state.forkResolved == s.forkResolved && Owed(counted.state).NonNegative()
      && Owes(whole, counted.state) == Monus(Owes(whole, s), value)
      && (if counted.skip then 0 else ColumnOf(whole)(TokensOf(counted.tokens))) == Monus(value, Owes(whole, s))
  {
  }

  lemma RecordCounted(env: Env, s: ParseState, line: nat, record: Record, whole: Whole)
    requires Owed(s).NonNegative() && record.TokenCount? && record.total.None? && record.last.Some?
    requires env.parseTime(record.timestamp).Some?
    ensures
      var (after, emitted) := TakeRecord(env, s, line, record);
      var value := ValueIn(whole, NormalizeTokenUsage(record.last.value));
      && after.forkResolved == s.forkResolved && Owed(after).NonNegative()
      && Owes(whole, after) == Monus(Owes(whole, s), value)
      && Worth(ColumnOf(whole), emitted) == Monus(value, Owes(whole, s))
  {
    LastCounted(s, NormalizeTokenUsage(record.last.value), whole);
  }

  // ----- Sums of one counter -----

  function Values(whole: Whole, us: seq<Usage>): (values: seq<int>)
    requires forall i :: 0 <= i < |us| ==> us[i].NonNegative()
    ensures |values| == |us| && forall i :: 0 <= i < |us| ==> values[i] >= 0
  {
    seq(|us|, i requires 0 <= i < |us| => ValueIn(whole, us[i]))
  }

  function SumInts(values: seq<int>): int {
    if values == [] then 0 else values[0] + SumInts(values[1..])
  }

  /** Each value less what is still owed. */
  function Beyond(values: seq<int>, owed: int): int {
    if values == [] then 0 else Monus(values[0], owed) + Beyond(values[1..], Monus(owed, values[0]))
  }

  lemma {:induction false} BeyondOnce(values: seq<int>, owed: int)
    requires owed >= 0 && forall i :: 0 <= i < |values| ==> values[i] >= 0
    ensures SumInts(values) >= 0 && Beyond(values, owed) == Monus(SumInts(values), owed)
  {
    if values != [] {
      BeyondOnce(values[1..], Monus(owed, values[0]));
      ClippedInTwoSteps(values[0], SumInts(values[1..]), owed);
    }
  }

  lemma {:induction false} UsagesAddUp(env: Env, s: ParseState, line: nat, records: seq<Record>, whole: Whole)
    requires Owed(s).NonNegative() && SingleUsages(env, s.forkResolved, records)
    ensures SumColumn(ColumnOf(whole), EmissionsOf(TakeOf(env), s, line, records)) ==
      Beyond(Values(whole, Usages(records)), Owes(whole, s))
    decreases |records|
  {
    if records == [] {
    } else {
      var record, rest := records[0], records[1..];
      var taken := TakeOf(env)(s, line + 1, record);
      assert record in records && forall r :: r in rest ==> r in records;
      FirstUsage(env, s, line + 1, record, Usages(rest), whole);
      UsagesAddUp(env, taken.0, line + 1, rest, whole);
      SumColumnThen(ColumnOf(whole), taken.1, EmissionsOf(TakeOf(env), taken.0, line + 1, rest));
    }
  }

  lemma FirstUsage(env: Env, s: ParseState, line: nat, record: Record, us: seq<Usage>, whole: Whole)
    requires Owed(s).NonNegative() && SingleUsages(env, s.forkResolved, [record])
    requires forall i :: 0 <= i < |us| ==> us[i].NonNegative()
    ensures
      var (after, emitted) := TakeRecord(env, s, line, record);
      && after.forkResolved == s.forkResolved && Owed(after).NonNegative()
      && Beyond(Values(whole, UsageOf(record) + us), Owes(whole, s)) ==
           Worth(ColumnOf(whole), emitted) + Beyond(Values(whole, us), Owes(whole, after))
  {
    assert record in [record];
    if record.TokenCount? && record.last.Some? {
      RecordCounted(env, s, line, record, whole);
      assert Values(whole, UsageOf(record) + us)[1..] == Values(whole, us);
    } else {
      assert UsageOf(record) + us == us;
    }
  }

  /** The parent's counters at the fork, or zero. */
  function Inherited(env: Env): Usage {
    var fork := ResolveForkBaseline(env, env.sourceMetadata);
    if fork.Some? then fork.value else ZERO
  }

  /** The events of a log of single usages without repeats sum, in every whole counter, to what the log reports beyond
      the parent's counter at the fork: the inherited prefix is taken out exactly once, however it is spread over the
      records, and nothing is taken out of a log without a fork. */
  lemma SingleUsagesAddUp(env: Env, log: seq<byte>, whole: Whole)
    requires RepeatFree(env, log)
    requires SingleUsages(env, ResolveForkBaseline(env, env.sourceMetadata).Some?, RecordsFrom(env, log, 0))
    ensures
      var reported := SumInts(Values(whole, Usages(RecordsFrom(env, log, 0))));
      SumColumn(ColumnOf(whole), FullParse(env, log).events) == Monus(reported, ValueIn(whole, Inherited(env)))
  {
    var records, s := RecordsFrom(env, log, 0), Start(env).state;
    LatestSnapshotNonNegative(env);
    EventsAreEmissions(env, log);
    assert Owed(s) == Inherited(env);
    UsagesAddUp(env, s, 0, records, whole);
    BeyondOnce(Values(whole, Usages(records)), Owes(whole, s));
  }
}
