/** What the events of a cumulative log say, counter by counter, in terms of the snapshots the log holds. */
module CodexLeaps {
  import opened Wrappers
  import opened Events
  import opened RecordReader
  import opened CodexUsage
  import opened CodexLog
  import opened CodexResume
  import opened CodexAccounting

  // ----- Snapshots and what they are counted from -----

  /** A snapshot and the one it is counted from. */
  datatype Leap = Leap(from: Usage, to: Usage)

  function InputRise(l: Leap): int { Monus(l.to.input, l.from.input) }
  function OutputRise(l: Leap): int { Monus(l.to.output, l.from.output) }
  function CacheWriteRise(l: Leap): int { Monus(l.to.cacheWrite, l.from.cacheWrite) }
  function TotalRise(l: Leap): int { Monus(l.to.total, l.from.total) }

  /** A part rises by no more than the counter it is a part of. */
  function CachedRise(l: Leap): int { Min(InputRise(l), Monus(l.to.cached, l.from.cached)) }
  function ReasoningRise(l: Leap): int { Min(OutputRise(l), Monus(l.to.reasoning, l.from.reasoning)) }

  /** Input, output and cache writes rise by more than the total. */
  predicate Contradictory(l: Leap) {
    InputRise(l) + OutputRise(l) + CacheWriteRise(l) > TotalRise(l)
  }

  function DroppedRise(l: Leap): int {
    if Contradictory(l) then TotalRise(l) else 0
  }

  function SumOf(rise: Leap -> int, leaps: seq<Leap>): int {
    if leaps == [] then 0 else rise(leaps[0]) + SumOf(rise, leaps[1..])
  }

  /** The cumulative snapshots of a log, in order. */
  function Cumulatives(records: seq<Record>): seq<Usage> {
    if records == [] then [] else CumulativeOf(records[0]) + Cumulatives(records[1..])
  }

  function CumulativeOf(record: Record): seq<Usage> {
    if record.TokenCount? && record.total.Some? then [NormalizeTokenUsage(record.total.value)] else []
  }

  /** Each snapshot is counted from the one before it; one with a smaller total restarts at zero. */
  function Leaps(previous: Usage, us: seq<Usage>): seq<Leap>
    decreases |us|
  {
    if us == [] then []
    else [Leap(if us[0].total < previous.total then ZERO else previous, us[0])] + Leaps(us[0], us[1..])
  }

  /** The snapshots from the first one past the fork on; those before it are copies of the parent's. */
  function PastFork(us: seq<Usage>, baseline: Usage): seq<Usage> {
    if us == [] then [] else if us[0].total > baseline.total then us else PastFork(us[1..], baseline)
  }

  /** What a log counts: from zero, or for a forked log from the parent's counters at the fork. */
  function LeapsOf(fork: Option<Usage>, us: seq<Usage>): seq<Leap> {
    match fork
    case None => Leaps(ZERO, us)
    case Some(baseline) => Leaps(baseline, PastFork(us, baseline))
  }

  function LogLeaps(env: Env, log: seq<byte>): seq<Leap> {
    LeapsOf(ResolveForkBaseline(env, env.sourceMetadata), Cumulatives(RecordsFrom(env, log, 0)))
  }

  /** What is still to be counted in a state of the parser. */
  function LeapsFrom(s: ParseState, us: seq<Usage>): seq<Leap> {
    if s.prefixPending then Leaps(s.baseline, PastFork(us, s.baseline)) else Leaps(s.previous, us)
  }

  // ----- One record -----

  /** The columns of an event that counts a leap; cached input is a column of its own. */
  function LeapTokens(l: Leap): Tokens {
    Tokens(Some(InputRise(l) - CachedRise(l)), Some(OutputRise(l)), Some(CachedRise(l)), Some(CacheWriteRise(l)),
           Some(ReasoningRise(l)), Some(TotalRise(l)))
  }

  /** The snapshot a given one is counted from. */
  function CountedFrom(s: ParseState, u: Usage): Usage {
    if s.prefixPending then s.baseline else if u.total < s.previous.total then ZERO else s.previous
  }

  predicate Copied(s: ParseState, u: Usage) {
    s.prefixPending && u.total <= s.baseline.total
  }

  /** Counting a delta is counting the leap, column by column. */
  lemma DeltaIsLeap(from: Usage, u: Usage)
    requires u.NonNegative() && from.NonNegative()
    ensures TokensOf(u.Delta(from)) == LeapTokens(Leap(from, u))
    ensures u.Delta(from).IsZero() <==> LeapTokens(Leap(from, u)) == TokensOf(ZERO)
  {
  }

  lemma CumulativeLeaps(s: ParseState, u: Usage)
    requires Counting(s) && u.NonNegative() && !Copied(s, u)
    ensures
      var counted := CountCumulative(s, u);
      && counted.tokens == u.Delta(CountedFrom(s, u))
      && counted.state == s.(previous := u, hasPrevious := true, prefixPending := false)
      && (counted.skip ==> counted.tokens.IsZero())
  {
  }

  /** A snapshot of the copied prefix counts nothing and changes nothing; any other counts its leap. */
  lemma SnapshotLeaps(env: Env, s: ParseState, line: nat, record: Record)
    requires Counting(s) && record.TokenCount? && record.total.Some? && env.parseTime(record.timestamp).Some?
    ensures
      var (after, emitted) := TakeRecord(env, s, line, record);
      var u := NormalizeTokenUsage(record.total.value);
      && Counting(after) && after.baseline == s.baseline && after.forkResolved == s.forkResolved
      && if Copied(s, u) then after == s && emitted.Some? && emitted.value.event.tokens == TokensOf(ZERO)
         else
           var tokens := LeapTokens(Leap(CountedFrom(s, u), u));
           && !after.prefixPending && after.previous == u
           && if emitted.Some? then emitted.value.event.tokens == tokens else tokens == TokensOf(ZERO)
  {
    var u := NormalizeTokenUsage(record.total.value);
    if !Copied(s, u) {
      CumulativeLeaps(s, u);
      DeltaIsLeap(CountedFrom(s, u), u);
    }
  }

  /** The event of a cumulative record is contradictory, and so loses its total on the way, if and only if input, output
      and cache writes rise by more than the total. */
  lemma ContradictoryIff(env: Env, s: ParseState, line: nat, record: Record)
    requires Counting(s) && record.TokenCount? && record.total.Some?
    requires TakeRecord(env, s, line, record).1.Some?
    ensures
      var u := NormalizeTokenUsage(record.total.value);
      !TotalsConsistent(TakeRecord(env, s, line, record).1.value.event.tokens) <==>
        !Copied(s, u) && Contradictory(Leap(CountedFrom(s, u), u))
  {
    assert env.parseTime(record.timestamp).Some?;
    SnapshotLeaps(env, s, line, record);
  }

  // ----- Whole logs -----

  /** Something an event's tokens are worth. */
  type Column = Tokens -> int

  function Worth(column: Column, emission: Option<Emission>): int {
    if emission.Some? then column(emission.value.event.tokens) else 0
  }

  function SumColumn(column: Column, es: seq<Emission>): int {
    if es == [] then 0 else column(es[0].event.tokens) + SumColumn(column, es[1..])
  }

  /** The column is worth what the rise says, and events without tokens are worth nothing. */
  ghost predicate Measures(column: Column, rise: Leap -> int) {
    column(TokensOf(ZERO)) == 0 && forall l :: column(LeapTokens(l)) == rise(l)
  }

  lemma FirstLeap(s: ParseState, after: ParseState, u: Usage, us: seq<Usage>, rise: Leap -> int)
    requires after.baseline == s.baseline
    requires if Copied(s, u) then after == s else !after.prefixPending && after.previous == u
    ensures
      SumOf(rise, LeapsFrom(s, [u] + us)) ==
        (if Copied(s, u) then 0 else rise(Leap(CountedFrom(s, u), u))) + SumOf(rise, LeapsFrom(after, us))
  {
    assert ([u] + us)[1..] == us;
    if !Copied(s, u) {
      assert LeapsFrom(s, [u] + us) == [Leap(CountedFrom(s, u), u)] + Leaps(u, us);
    }
  }

  lemma RecordIsMeasured(
    env: Env, s: ParseState, line: nat, record: Record, us: seq<Usage>, column: Column, rise: Leap -> int)
    requires Counting(s) && Accountable(env, s.forkResolved, [record]) && Measures(column, rise)
    ensures
      var (after, emitted) := TakeRecord(env, s, line, record);
      && Counting(after) && after.forkResolved == s.forkResolved
      && SumOf(rise, LeapsFrom(s, CumulativeOf(record) + us)) ==
           Worth(column, emitted) + SumOf(rise, LeapsFrom(after, us))
  {
    assert record in [record];
    var (after, emitted) := TakeRecord(env, s, line, record);
    if record.TokenCount? && record.total.Some? {
      SnapshotLeaps(env, s, line, record);
      FirstLeap(s, after, NormalizeTokenUsage(record.total.value), us, rise);
    } else {
      RecordKeepsCounting(env, s, line, record);
      assert CumulativeOf(record) + us == us;
    }
  }

  lemma SumColumnThen(column: Column, emission: Option<Emission>, es: seq<Emission>)
    ensures SumColumn(column, AsSeq(emission) + es) == Worth(column, emission) + SumColumn(column, es)
  {
    if emission.Some? {
      assert (AsSeq(emission) + es)[1..] == es;
    } else {
      assert AsSeq(emission) + es == es;
    }
  }

  /** From any state of the parser, whatever is measured by the leaps adds up over the events. */
  lemma {:induction false} ColumnAddsUp(
    env: Env, s: ParseState, line: nat, records: seq<Record>, column: Column, rise: Leap -> int)
    requires Counting(s) && Accountable(env, s.forkResolved, records) && Measures(column, rise)
    ensures SumColumn(column, EmissionsOf(TakeOf(env), s, line, records)) ==
      SumOf(rise, LeapsFrom(s, Cumulatives(records)))
    decreases |records|
  {
    if records == [] {
    } else {
      var record, rest := records[0], records[1..];
      var taken := TakeOf(env)(s, line + 1, record);
      assert record in records && forall r :: r in rest ==> r in records;
      RecordIsMeasured(env, s, line + 1, record, Cumulatives(rest), column, rise);
      ColumnAddsUp(env, taken.0, line + 1, rest, column, rise);
      SumColumnThen(column, taken.1, EmissionsOf(TakeOf(env), taken.0, line + 1, rest));
    }
  }

  function AllInput(t: Tokens): int { OrZero(t.input) + OrZero(t.cacheRead) }
  function CacheRead(t: Tokens): int { OrZero(t.cacheRead) }
  function Output(t: Tokens): int { OrZero(t.output) }
  function CacheWrite(t: Tokens): int { OrZero(t.cacheWrite) }
  function Reasoning(t: Tokens): int { OrZero(t.reasoning) }
  function Total(t: Tokens): int { OrZero(t.total) }

  /** The total of the event as it is uploaded: none if it is contradictory. */
  function KnownTotal(t: Tokens): int {
    if TotalsConsistent(t) then OrZero(t.total) else 0
  }

  function KnownRise(l: Leap): int {
    TotalRise(l) - DroppedRise(l)
  }

  /** From any state of the parser, the columns of the events of a cumulative log sum to what its counters rise by,
      restarting at every reset and counting from the baseline after a fork. */
  lemma ComponentsAddUp(env: Env, s: ParseState, line: nat, records: seq<Record>)
    requires Counting(s) && Accountable(env, s.forkResolved, records)
    ensures
      var es, leaps := EmissionsOf(TakeOf(env), s, line, records), LeapsFrom(s, Cumulatives(records));
      && SumColumn(AllInput, es) == SumOf(InputRise, leaps) && SumColumn(CacheRead, es) == SumOf(CachedRise, leaps)
      && SumColumn(Output, es) == SumOf(OutputRise, leaps) && SumColumn(Reasoning, es) == SumOf(ReasoningRise, leaps)
      && SumColumn(CacheWrite, es) == SumOf(CacheWriteRise, leaps) && SumColumn(Total, es) == SumOf(TotalRise, leaps)
      && SumColumn(KnownTotal, es) == SumOf(KnownRise, leaps)
  {
    ColumnAddsUp(env, s, line, records, AllInput, InputRise);
    ColumnAddsUp(env, s, line, records, CacheRead, CachedRise);
    ColumnAddsUp(env, s, line, records, Output, OutputRise);
    ColumnAddsUp(env, s, line, records, Reasoning, ReasoningRise);
    ColumnAddsUp(env, s, line, records, CacheWrite, CacheWriteRise);
    ColumnAddsUp(env, s, line, records, Total, TotalRise);
    ColumnAddsUp(env, s, line, records, KnownTotal, KnownRise);
  }

  /** The same for a whole log. */
  lemma LogComponentsAddUp(env: Env, log: seq<byte>)
    requires AccountableLog(env, log)
    ensures
      var es, leaps := FullParse(env, log).events, LogLeaps(env, log);
      && SumColumn(AllInput, es) == SumOf(InputRise, leaps) && SumColumn(CacheRead, es) == SumOf(CachedRise, leaps)
      && SumColumn(Output, es) == SumOf(OutputRise, leaps) && SumColumn(Reasoning, es) == SumOf(ReasoningRise, leaps)
      && SumColumn(CacheWrite, es) == SumOf(CacheWriteRise, leaps) && SumColumn(Total, es) == SumOf(TotalRise, leaps)
      && SumColumn(KnownTotal, es) == SumOf(KnownRise, leaps)
  {
    var records := RecordsFrom(env, log, 0);
    CumulativeIsRepeatFree(env, log);
    EventsAreEmissions(env, log);
    StartCounts(env, []);
    ComponentsAddUp(env, Start(env).state, 0, records);
  }

  // ----- Runs without a reset -----

  /** While no total shrinks, each leap goes on where the one before it ended. */
  lemma {:induction false} LeapsAreGrowth(previous: Usage, us: seq<Usage>)
    requires NeverShrinks(TotalIn, previous, us)
    ensures SumOf(InputRise, Leaps(previous, us)) == SumOfGrowth(InputIn, previous, us)
    ensures SumOf(OutputRise, Leaps(previous, us)) == SumOfGrowth(OutputIn, previous, us)
    ensures SumOf(CacheWriteRise, Leaps(previous, us)) == SumOfGrowth(CacheWriteIn, previous, us)
    ensures SumOf(TotalRise, Leaps(previous, us)) == SumOfGrowth(TotalIn, previous, us)
    decreases |us|
  {
    if us != [] {
      assert Leaps(previous, us)[1..] == Leaps(us[0], us[1..]);
      LeapsAreGrowth(us[0], us[1..]);
    }
  }

  /** Without a reset the events report each whole counter exactly, last value less first, if and only if it never
      shrinks. */
  lemma RunTelescopesIff(previous: Usage, us: seq<Usage>)
    requires us != [] && NeverShrinks(TotalIn, previous, us)
    ensures
      var leaps, last := Leaps(previous, us), us[|us| - 1];
      && (SumOf(InputRise, leaps) == last.input - previous.input <==> NeverShrinks(InputIn, previous, us))
      && (SumOf(OutputRise, leaps) == last.output - previous.output <==> NeverShrinks(OutputIn, previous, us))
      && (SumOf(CacheWriteRise, leaps) == last.cacheWrite - previous.cacheWrite <==>
            NeverShrinks(CacheWriteIn, previous, us))
      && SumOf(TotalRise, leaps) == last.total - previous.total
  {
    LeapsAreGrowth(previous, us);
    GrowthTelescopesIff(InputIn, previous, us);
    GrowthTelescopesIff(OutputIn, previous, us);
    GrowthTelescopesIff(CacheWriteIn, previous, us);
    GrowthTelescopesIff(TotalIn, previous, us);
  }

  /** The parts telescope too as long as none outgrows its whole. */
  lemma {:induction false} PartsTelescope(previous: Usage, us: seq<Usage>)
    requires us != [] && GrowsThrough(previous, us)
    ensures
      var leaps, last := Leaps(previous, us), us[|us| - 1];
      && SumOf(CachedRise, leaps) == last.cached - previous.cached
      && SumOf(ReasoningRise, leaps) == last.reasoning - previous.reasoning
    decreases |us|
  {
    assert Leaps(previous, us)[1..] == Leaps(us[0], us[1..]);
    if |us| == 1 {
      assert Leaps(us[0], []) == [];
    } else {
      PartsTelescope(us[0], us[1..]);
    }
  }

  /** A reset starts over: the leaps of two runs are those of the first and, from zero, those of the second. */
  lemma {:induction false} ResetStartsOver(previous: Usage, us: seq<Usage>, more: seq<Usage>)
    requires us != [] && more != [] && more[0].total < us[|us| - 1].total
    ensures Leaps(previous, us + more) == Leaps(previous, us) + Leaps(ZERO, more)
    decreases |us|
  {
    if |us| == 1 {
      assert us + more == [us[0]] + more && (us + more)[1..] == more;
      assert Leaps(us[0], us[1..]) == [];
    } else {
      assert (us + more)[1..] == us[1..] + more;
      ResetStartsOver(us[0], us[1..], more);
    }
  }
}
