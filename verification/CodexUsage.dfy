/** Token counters of Codex log records (internal/adapters/codex/codex.go). */
module CodexUsage {
  import opened Wrappers

  const MAX_INT64: int := 0x7fff_ffff_ffff_ffff

  predicate Int64(x: int) {
    -MAX_INT64 - 1 <= x <= MAX_INT64
  }

  /** The counters as the provider wrote them. */
  datatype RawUsage = RawUsage(
    input: int, cachedInput: int, cacheReadInput: int, cacheWriteInput: int, output: int, reasoning: int, total: int)
  {
    predicate InRange() {
      Int64(input) && Int64(cachedInput) && Int64(cacheReadInput) && Int64(cacheWriteInput) &&
      Int64(output) && Int64(reasoning) && Int64(total)
    }
  }

  datatype Usage = Usage(input: int, cached: int, cacheWrite: int, output: int, reasoning: int, total: int)
  {
    predicate IsZero() {
      this == ZERO
    }

    predicate NonNegative() {
      input >= 0 && cached >= 0 && cacheWrite >= 0 && output >= 0 && reasoning >= 0 && total >= 0
    }

    predicate InRange() {
      Int64(input) && Int64(cached) && Int64(cacheWrite) && Int64(output) && Int64(reasoning) && Int64(total)
    }

    function Delta(previous: Usage): Usage {
      var newInput := Max(0, input - previous.input);
      var newCached := Min(newInput, Max(0, cached - previous.cached));
      var newOutput := Max(0, output - previous.output);
      var newReasoning := Min(newOutput, Max(0, reasoning - previous.reasoning));
      Usage(newInput - newCached, newCached, Max(0, cacheWrite - previous.cacheWrite), newOutput, newReasoning,
            Max(0, total - previous.total))
    }

    function Plus(other: Usage): Usage {
      Usage(input + other.input, cached + other.cached, cacheWrite + other.cacheWrite, output + other.output,
            reasoning + other.reasoning, total + other.total)
    }

    /** Componentwise subtraction that stops at zero. */
    function Minus(other: Usage): Usage {
      Usage(Monus(input, other.input), Monus(cached, other.cached), Monus(cacheWrite, other.cacheWrite),
            Monus(output, other.output), Monus(reasoning, other.reasoning), Monus(total, other.total))
    }
  }

  function Monus(a: int, b: int): int {
    Max(0, a - b)
  }

  const ZERO := Usage(0, 0, 0, 0, 0, 0)

  function NormalizeTokenUsage(tokens: RawUsage): (r: Usage)
    ensures r.NonNegative() && r.cached <= r.input && r.reasoning <= r.output
  {
    var input := Max(0, tokens.input);
    var direct := Max(0, tokens.cachedInput);
    var cached := if direct == 0 then Max(0, tokens.cacheReadInput) else direct;
    var output := Max(0, tokens.output);
    var total := Max(0, tokens.total);
    Usage(input, Min(cached, input), Max(0, tokens.cacheWriteInput), output, Min(Max(0, tokens.reasoning), output),
          if total == 0 && (input > 0 || output > 0) then input + output else total)
  }

  /** Counters that make sense are read as they are, with cached input under either of its names, and a missing total is
      input and output together. */
  lemma NormalizeKeepsUsage(u: Usage, cached: int, cacheRead: int, total: int)
    requires u.NonNegative() && u.cached <= u.input && u.reasoning <= u.output
    requires cached == u.cached || (cached <= 0 && cacheRead == u.cached)
    requires cached == 0 ==> cacheRead == u.cached
    requires total == u.total > 0 || (total <= 0 && u.total == u.input + u.output)
    ensures NormalizeTokenUsage(RawUsage(u.input, cached, cacheRead, u.cacheWrite, u.output, u.reasoning, total)) == u
  {
  }

  /** Negative counters count as zero, and a part larger than its whole as the whole. */
  lemma NormalizeBounds(tokens: RawUsage)
    ensures
      var u := NormalizeTokenUsage(tokens);
      && (tokens.input <= 0 ==> u.input == 0 && u.cached == 0) && (tokens.input > 0 ==> u.input == tokens.input)
      && (tokens.output <= 0 ==> u.output == 0 && u.reasoning == 0) && (tokens.output > 0 ==> u.output == tokens.output)
      && (tokens.cacheWriteInput <= 0 ==> u.cacheWrite == 0)
      && (tokens.cacheWriteInput > 0 ==> u.cacheWrite == tokens.cacheWriteInput)
      && (tokens.cachedInput > u.input ==> u.cached == u.input)
      && (tokens.reasoning > u.output ==> u.reasoning == u.output) && (tokens.reasoning <= 0 ==> u.reasoning == 0)
  {
  }

  /** The unbounded arithmetic above is the 64-bit arithmetic of the program exactly when the reconstructed total
      fits. */
  lemma NormalizeFitsInt64(tokens: RawUsage)
    requires tokens.InRange()
    ensures NormalizeTokenUsage(tokens).InRange() <==>
      (tokens.total <= 0 ==> Max(0, tokens.input) + Max(0, tokens.output) <= MAX_INT64)
  {
  }

  function EventTokenUsage(value: Usage): (r: Usage)
    ensures r.NonNegative()
  {
    var cached := Min(Max(0, value.cached), Max(0, value.input));
    Usage(Max(0, value.input) - cached, cached, Max(0, value.cacheWrite), Max(0, value.output),
          Min(Max(0, value.reasoning), Max(0, value.output)), Max(0, value.total))
  }

  /** Counting from zero is what a record without a predecessor reports. */
  lemma DeltaFromZero(value: Usage)
    requires value.NonNegative()
    ensures value.Delta(ZERO) == EventTokenUsage(value)
  {
  }

  // ----- A run of cumulative snapshots without a reset -----

  /** No counter shrinks, and no part grows by more than the counter it is a part of. */
  predicate Grows(a: Usage, b: Usage) {
    && a.input <= b.input && a.output <= b.output && a.total <= b.total && a.cacheWrite <= b.cacheWrite
    && 0 <= b.cached - a.cached <= b.input - a.input
    && 0 <= b.reasoning - a.reasoning <= b.output - a.output
  }

  function SumOfDeltas(previous: Usage, snapshots: seq<Usage>): Usage
    decreases |snapshots|
  {
    if snapshots == [] then ZERO else snapshots[0].Delta(previous).Plus(SumOfDeltas(snapshots[0], snapshots[1..]))
  }

  predicate GrowsThrough(previous: Usage, snapshots: seq<Usage>)
    decreases |snapshots|
  {
    snapshots == [] || (Grows(previous, snapshots[0]) && GrowsThrough(snapshots[0], snapshots[1..]))
  }

  /** Every counter telescopes; cached input is counted apart from the rest of the input. */
  lemma {:induction false} DeltasTelescope(previous: Usage, snapshots: seq<Usage>)
    requires snapshots != [] && GrowsThrough(previous, snapshots)
    ensures
      var sum, last := SumOfDeltas(previous, snapshots), snapshots[|snapshots| - 1];
      && sum.input + sum.cached == last.input - previous.input
      && sum.cached == last.cached - previous.cached
      && sum.cacheWrite == last.cacheWrite - previous.cacheWrite
      && sum.output == last.output - previous.output
      && sum.reasoning == last.reasoning - previous.reasoning
      && sum.total == last.total - previous.total
    decreases |snapshots|
  {
    if |snapshots| == 1 {
      assert SumOfDeltas(snapshots[0], []) == ZERO;
    } else {
      DeltasTelescope(snapshots[0], snapshots[1..]);
    }
  }

  /** A counter whose deltas are its growth, never negative. */
  type Counter = Usage -> int

  function SumOfGrowth(counter: Counter, previous: Usage, snapshots: seq<Usage>): int
    decreases |snapshots|
  {
    if snapshots == [] then 0
    else Monus(counter(snapshots[0]), counter(previous)) + SumOfGrowth(counter, snapshots[0], snapshots[1..])
  }

  predicate NeverShrinks(counter: Counter, previous: Usage, snapshots: seq<Usage>)
    decreases |snapshots|
  {
    snapshots == [] ||
    (counter(previous) <= counter(snapshots[0]) && NeverShrinks(counter, snapshots[0], snapshots[1..]))
  }

  lemma {:induction false} GrowthTelescopesIff(counter: Counter, previous: Usage, snapshots: seq<Usage>)
    requires snapshots != []
    ensures SumOfGrowth(counter, previous, snapshots) >= counter(snapshots[|snapshots| - 1]) - counter(previous)
    ensures SumOfGrowth(counter, previous, snapshots) == counter(snapshots[|snapshots| - 1]) - counter(previous) <==>
      NeverShrinks(counter, previous, snapshots)
    decreases |snapshots|
  {
    if |snapshots| == 1 {
      assert SumOfGrowth(counter, snapshots[0], []) == 0 && NeverShrinks(counter, snapshots[0], []);
    } else {
      GrowthTelescopesIff(counter, snapshots[0], snapshots[1..]);
    }
  }

  function InputIn(u: Usage): int { u.input }
  function OutputIn(u: Usage): int { u.output }
  function CacheWriteIn(u: Usage): int { u.cacheWrite }
  function TotalIn(u: Usage): int { u.total }

  lemma {:induction false} DeltasAreGrowth(previous: Usage, snapshots: seq<Usage>)
    ensures
      var sum := SumOfDeltas(previous, snapshots);
      && sum.input + sum.cached == SumOfGrowth(InputIn, previous, snapshots)
      && sum.output == SumOfGrowth(OutputIn, previous, snapshots)
      && sum.cacheWrite == SumOfGrowth(CacheWriteIn, previous, snapshots)
      && sum.total == SumOfGrowth(TotalIn, previous, snapshots)
    decreases |snapshots|
  {
    if snapshots != [] {
      DeltasAreGrowth(snapshots[0], snapshots[1..]);
    }
  }

  /** For any snapshots, each whole counter is reported exactly if and only if it never shrinks, and is over-reported
      otherwise: only a smaller total counts as a reset. */
  lemma DeltasTelescopeIff(previous: Usage, snapshots: seq<Usage>)
    requires snapshots != []
    ensures
      var sum, last := SumOfDeltas(previous, snapshots), snapshots[|snapshots| - 1];
      && sum.input + sum.cached >= last.input - previous.input && sum.output >= last.output - previous.output
      && sum.cacheWrite >= last.cacheWrite - previous.cacheWrite && sum.total >= last.total - previous.total
      && (sum.input + sum.cached == last.input - previous.input <==> NeverShrinks(InputIn, previous, snapshots))
      && (sum.output == last.output - previous.output <==> NeverShrinks(OutputIn, previous, snapshots))
      && (sum.cacheWrite == last.cacheWrite - previous.cacheWrite <==> NeverShrinks(CacheWriteIn, previous, snapshots))
      && (sum.total == last.total - previous.total <==> NeverShrinks(TotalIn, previous, snapshots))
  {
    DeltasAreGrowth(previous, snapshots);
    GrowthTelescopesIff(InputIn, previous, snapshots);
    GrowthTelescopesIff(OutputIn, previous, snapshots);
    GrowthTelescopesIff(CacheWriteIn, previous, snapshots);
    GrowthTelescopesIff(TotalIn, previous, snapshots);
  }

  // ----- The inherited prefix of a forked log -----

  class PrefixCell {
    var remaining: Usage

    constructor (baseline: Usage)
      ensures remaining == baseline
    {
      remaining := baseline;
    }

    /** Takes as much of the inherited prefix out of `value` as both hold. */
    method SubtractInheritedPrefix(value: Usage) returns (adjusted: Usage)
      modifies this
      ensures adjusted == value.Minus(old(remaining)) && remaining == old(remaining).Minus(value)
      ensures value.NonNegative() && old(remaining).NonNegative() ==>
        adjusted.Plus(old(remaining)) == value.Plus(remaining)
    {
      adjusted := Usage(
        Max(0, value.input - remaining.input), Max(0, value.cached - remaining.cached),
        Max(0, value.cacheWrite - remaining.cacheWrite), Max(0, value.output - remaining.output),
        Max(0, value.reasoning - remaining.reasoning), Max(0, value.total - remaining.total));
      remaining := Usage(
        Max(0, remaining.input - value.input), Max(0, remaining.cached - value.cached),
        Max(0, remaining.cacheWrite - value.cacheWrite), Max(0, remaining.output - value.output),
        Max(0, remaining.reasoning - value.reasoning), Max(0, remaining.total - value.total));
    }
  }

  function Sum(values: seq<Usage>): Usage {
    if values == [] then ZERO else values[0].Plus(Sum(values[1..]))
  }

  function AdjustedAll(values: seq<Usage>, remaining: Usage): seq<Usage> {
    if values == [] then []
    else [values[0].Minus(remaining)] + AdjustedAll(values[1..], remaining.Minus(values[0]))
  }

  function RemainingAfter(values: seq<Usage>, remaining: Usage): Usage {
    if values == [] then remaining else RemainingAfter(values[1..], remaining.Minus(values[0]))
  }

  /** One counter: what is left after taking `v` out of `b` is taken out of the later sum `s`. */
  lemma ClippedInTwoSteps(v: int, s: int, b: int)
    requires v >= 0 && s >= 0 && b >= 0
    ensures Monus(v, b) + Monus(s, Monus(b, v)) == Monus(v + s, b)
    ensures Monus(Monus(b, v), s) == Monus(b, v + s)
  {
  }

  lemma MinusInTwoSteps(v: Usage, s: Usage, b: Usage)
    requires v.NonNegative() && s.NonNegative() && b.NonNegative()
    ensures v.Minus(b).Plus(s.Minus(b.Minus(v))) == v.Plus(s).Minus(b)
    ensures b.Minus(v).Minus(s) == b.Minus(v.Plus(s))
  {
    var l, r := v.Minus(b).Plus(s.Minus(b.Minus(v))), b.Minus(v).Minus(s);
    assert l.input == Monus(v.input + s.input, b.input) && r.input == Monus(b.input, v.input + s.input) by {
      ClippedInTwoSteps(v.input, s.input, b.input);
    }
    assert l.cached == Monus(v.cached + s.cached, b.cached) && r.cached == Monus(b.cached, v.cached + s.cached) by {
      ClippedInTwoSteps(v.cached, s.cached, b.cached);
    }
    assert l.cacheWrite == Monus(v.cacheWrite + s.cacheWrite, b.cacheWrite) &&
      r.cacheWrite == Monus(b.cacheWrite, v.cacheWrite + s.cacheWrite) by {
      ClippedInTwoSteps(v.cacheWrite, s.cacheWrite, b.cacheWrite);
    }
    assert l.output == Monus(v.output + s.output, b.output) && r.output == Monus(b.output, v.output + s.output) by {
      ClippedInTwoSteps(v.output, s.output, b.output);
    }
    assert l.reasoning == Monus(v.reasoning + s.reasoning, b.reasoning) &&
      r.reasoning == Monus(b.reasoning, v.reasoning + s.reasoning) by {
      ClippedInTwoSteps(v.reasoning, s.reasoning, b.reasoning);
    }
    assert l.total == Monus(v.total + s.total, b.total) && r.total == Monus(b.total, v.total + s.total) by {
      ClippedInTwoSteps(v.total, s.total, b.total);
    }
  }

  /** However the raw usage is split into records, exactly the baseline is taken out, once. */
  lemma {:induction false} PrefixSubtractedOnce(values: seq<Usage>, baseline: Usage)
    requires baseline.NonNegative()
    requires forall i :: 0 <= i < |values| ==> values[i].NonNegative()
    ensures Sum(values).NonNegative()
    ensures Sum(AdjustedAll(values, baseline)) == Sum(values).Minus(baseline)
    ensures RemainingAfter(values, baseline) == baseline.Minus(Sum(values))
  {
    if values == [] {
    } else {
      var first := values[0];
      var rest := values[1..];
      PrefixSubtractedOnce(rest, baseline.Minus(first));
      assert AdjustedAll(values, baseline)[1..] == AdjustedAll(rest, baseline.Minus(first));
      MinusInTwoSteps(first, Sum(rest), baseline);
    }
  }
}
