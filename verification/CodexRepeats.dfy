/** Repeated last_token_usage snapshots on the two sides of a poll boundary: the parser drops a repeat only within one
    pass and leaves the rest to the deduplication index of the hub. */
module CodexRepeats {
  import opened Wrappers
  import opened Events
  import opened RecordReader
  import opened CodexUsage
  import opened CodexLog
  import opened CodexResume
  import opened HubTable
  import opened HubTotals

  // ----- When the hub absorbs a repeat -----

  /** Record `record` read in state `s` at `line` is reported as `e`. */
  predicate Emits(env: Env, s: ParseState, line: nat, record: Record, e: Emission) {
    TakeRecord(env, s, line, record).1 == Some(e)
  }

  /** A single usage as it is counted: less what is left of an inherited prefix. */
  function Adjusted(s: ParseState, record: Record): Usage
    requires record.TokenCount? && record.last.Some?
  {
    var raw := NormalizeTokenUsage(record.last.value);
    EventTokenUsage(if s.forkResolved then raw.Minus(s.remainingPrefix) else raw)
  }

  lemma RepeatIsCounted(env: Env, s: ParseState, line: nat, record: Record, e: Emission)
    requires Emits(env, s, line, record, e) && e.key.Some?
    ensures record.TokenCount? && record.last.Some? && e.event.tokens == TokensOf(Adjusted(s, record))
  {
  }

  /** What keeps two events of one repeat key apart at the hub is only their tokens. */
  lemma SameKeyIsSameTokens(
    env: Env, s1: ParseState, line1: nat, record1: Record, e1: Emission,
    s2: ParseState, line2: nat, record2: Record, e2: Emission)
    requires Emits(env, s1, line1, record1, e1) && Emits(env, s2, line2, record2, e2)
    requires e1.key.Some? && e1.key == e2.key
    ensures SameKey(Uploaded(e1.event), Uploaded(e2.event)) <==>
      Uploaded(e1.event).tokens == Uploaded(e2.event).tokens && Uploaded(e2.event).tokens.total.Some?
  {
    RepeatIsCounted(env, s1, line1, record1, e1);
    RepeatIsCounted(env, s2, line2, record2, e2);
  }

  /** The hub absorbs a repeat the parser could not see exactly when both occurrences are counted alike and their total
      is not contradictory: an event that is uploaded without a total has no entry in the index. */
  lemma RepeatAbsorbedIff(
    env: Env, s1: ParseState, line1: nat, record1: Record, e1: Emission,
    s2: ParseState, line2: nat, record2: Record, e2: Emission)
    requires Emits(env, s1, line1, record1, e1) && Emits(env, s2, line2, record2, e2)
    requires e1.key.Some? && e1.key == e2.key
    ensures record1.TokenCount? && record1.last.Some? && record2.TokenCount? && record2.last.Some?
    ensures SameKey(Uploaded(e1.event), Uploaded(e2.event)) <==>
      Adjusted(s1, record1) == Adjusted(s2, record2) && TotalsConsistent(TokensOf(Adjusted(s2, record2)))
  {
    RepeatIsCounted(env, s1, line1, record1, e1);
    RepeatIsCounted(env, s2, line2, record2, e2);
    SameKeyIsSameTokens(env, s1, line1, record1, e1, s2, line2, record2, e2);
  }

  /** No part of an inherited fork prefix is left to take out of the counters. */
  predicate PrefixExhausted(s: ParseState) {
    s.forkResolved ==> s.remainingPrefix == ZERO
  }

  /** The repeat key leaves out cache writes and nothing else; a record with cumulative counters has none. */
  lemma KeysCompare(
    env: Env, s1: ParseState, line1: nat, record1: Record, e1: Emission,
    s2: ParseState, line2: nat, record2: Record, e2: Emission)
    requires Emits(env, s1, line1, record1, e1) && Emits(env, s2, line2, record2, e2)
    requires e1.key.Some? && e2.key.Some?
    ensures record1.TokenCount? && record1.last.Some? && record2.TokenCount? && record2.last.Some?
    ensures e1.key == e2.key <==>
      var u1, u2 := NormalizeTokenUsage(record1.last.value), NormalizeTokenUsage(record2.last.value);
      && e1.event.session == e2.event.session && e1.event.instant == e2.event.instant
      && e1.event.provider == e2.event.provider && e1.event.model == e2.event.model
      && u1.input == u2.input && u1.cached == u2.cached && u1.output == u2.output && u1.reasoning == u2.reasoning
      && u1.total == u2.total
  {
    KeyIsOfRecord(env, s1, line1, record1, e1);
    KeyIsOfRecord(env, s2, line2, record2, e2);
  }

  lemma KeyIsOfRecord(env: Env, s: ParseState, line: nat, record: Record, e: Emission)
    requires Emits(env, s, line, record, e)
    ensures record.TokenCount? && (e.key.Some? <==> record.total.None?)
    ensures record.total.None? ==> record.last.Some?
    ensures record.total.None? ==>
      var u := NormalizeTokenUsage(record.last.value);
      e.key == Some(RepeatKey(e.event.session, e.event.instant, e.event.provider, e.event.model,
                              u.input, u.cached, u.output, u.reasoning, u.total))
  {
  }

  lemma CountedAlike(u1: Usage, u2: Usage)
    requires u1.(cacheWrite := 0) == u2.(cacheWrite := 0) && u1.NonNegative() && u2.NonNegative()
    requires u2.cached <= u2.input && u2.reasoning <= u2.output
    ensures EventTokenUsage(u1) == EventTokenUsage(u2) <==> u1.cacheWrite == u2.cacheWrite
    ensures TotalsConsistent(TokensOf(EventTokenUsage(u2))) <==> u2.input + u2.output + u2.cacheWrite <= u2.total
  {
  }

  lemma AdjustedOutsidePrefix(s: ParseState, record: Record)
    requires record.TokenCount? && record.last.Some? && PrefixExhausted(s)
    ensures Adjusted(s, record) == EventTokenUsage(NormalizeTokenUsage(record.last.value))
  {
  }

  /** Outside an inherited prefix that can be read off the two records: the repeat must agree in the one counter the
      repeat key leaves out, and the total must cover input, output and cache writes. */
  lemma AbsorbedOutsidePrefixIff(
    env: Env, s1: ParseState, line1: nat, record1: Record, e1: Emission,
    s2: ParseState, line2: nat, record2: Record, e2: Emission)
    requires Emits(env, s1, line1, record1, e1) && Emits(env, s2, line2, record2, e2)
    requires e1.key.Some? && e1.key == e2.key && PrefixExhausted(s1) && PrefixExhausted(s2)
    ensures record1.TokenCount? && record1.last.Some? && record2.TokenCount? && record2.last.Some?
    ensures
      var u1, u2 := NormalizeTokenUsage(record1.last.value), NormalizeTokenUsage(record2.last.value);
      SameKey(Uploaded(e1.event), Uploaded(e2.event)) <==>
        u1.cacheWrite == u2.cacheWrite && u2.input + u2.output + u2.cacheWrite <= u2.total
  {
    RepeatAbsorbedIff(env, s1, line1, record1, e1, s2, line2, record2, e2);
    KeysCompare(env, s1, line1, record1, e1, s2, line2, record2, e2);
    CountedAlike(NormalizeTokenUsage(record1.last.value), NormalizeTokenUsage(record2.last.value));
    AdjustedOutsidePrefix(s1, record1);
    AdjustedOutsidePrefix(s2, record2);
  }

  // ----- The account of one log -----

  /** The account total after all events of a parse, or of some polls, are ingested. */
  ghost function AccountOf(es: seq<Emission>): int {
    LifetimeTokens(AcceptAll(map[], UploadedRows(EventsIn(es))))
  }

  function RowsIn(es: seq<Emission>): seq<Row> {
    UploadedRows(EventsIn(es))
  }

  predicate EachOnce(es: seq<Emission>) {
    (forall m :: m in es ==> Detailed(m.event)) &&
    forall i, j :: 0 <= i < j < |es| ==> es[i].event.id != es[j].event.id
  }

  lemma AccountIsSumOfKeys(es: seq<Emission>)
    requires EachOnce(es)
    ensures AccountOf(es) == SumOfKeys(IndexKeys(RowsIn(es))) && CountsUp(IndexKeys(RowsIn(es)))
  {
    var rows := RowsIn(es);
    forall r | r in rows ensures DetailedRow(r) && TotalOf(r) >= 0 {
      var i :| 0 <= i < |es| && r == Uploaded(es[i].event);
      assert es[i] in es;
    }
    AccountOfEntries(rows);
  }

  lemma KeyIsIn(es: seq<Emission>, k: UsageKey)
    ensures k in IndexKeys(RowsIn(es)) <==> exists m :: m in es && KeyOf(Uploaded(m.event)) == Some(k)
  {
    var rows := RowsIn(es);
    if k in IndexKeys(rows) {
      var i :| 0 <= i < |es| && KeyOf(rows[i]) == Some(k);
      assert es[i] in es && KeyOf(Uploaded(es[i].event)) == Some(k);
    }
    if m :| m in es && KeyOf(Uploaded(m.event)) == Some(k) {
      var i :| 0 <= i < |es| && m == es[i];
      assert rows[i] in rows;
    }
  }

  /** A second event of a repeat key changes the account if and only if its uploaded tokens differ from the first one's
      and its uploaded total is known and positive. */
  lemma SecondOccurrenceCountsIff(
    env: Env, s1: ParseState, line1: nat, record1: Record, e1: Emission,
    s2: ParseState, line2: nat, record2: Record, e2: Emission)
    requires Emits(env, s1, line1, record1, e1) && Emits(env, s2, line2, record2, e2) && line1 != line2
    requires e1.key.Some? && e1.key == e2.key
    ensures AccountOf([e1]) <= AccountOf([e1, e2])
    ensures AccountOf([e1]) != AccountOf([e1, e2]) <==>
      Uploaded(e1.event).tokens != Uploaded(e2.event).tokens && TotalOf(Uploaded(e2.event)) > 0
  {
    TwoEachOnce(env, s1, line1, record1, e1, s2, line2, record2, e2);
    SameKeyIsSameTokens(env, s1, line1, record1, e1, s2, line2, record2, e2);
    assert [e1] + [e2] == [e1, e2];
    AddedEventCountsIff([e1], e2);
  }

  lemma TwoEachOnce(
    env: Env, s1: ParseState, line1: nat, record1: Record, e1: Emission,
    s2: ParseState, line2: nat, record2: Record, e2: Emission)
    requires Emits(env, s1, line1, record1, e1) && Emits(env, s2, line2, record2, e2) && line1 != line2
    ensures EachOnce([e1] + [e2])
  {
    EmissionIsDetailed(env, s1, line1, record1);
    EmissionIsDetailed(env, s2, line2, record2);
    EmittedLine(env, s1, line1, record1);
    EmittedLine(env, s2, line2, record2);
  }

  /** One event more changes the account exactly when no earlier event shares its index entry and it brings tokens. */
  lemma AddedEventCountsIff(es: seq<Emission>, e: Emission)
    requires EachOnce(es + [e])
    ensures AccountOf(es) <= AccountOf(es + [e])
    ensures AccountOf(es) != AccountOf(es + [e]) <==>
      TotalOf(Uploaded(e.event)) > 0 && forall m :: m in es ==> !SameKey(Uploaded(m.event), Uploaded(e.event))
  {
    var r := Uploaded(e.event);
    assert (es + [e])[|es|] == e && e in es + [e];
    assert forall i :: 0 <= i < |es| ==> (es + [e])[i] == es[i];
    AccountIsSumOfKeys(es);
    AccountIsSumOfKeys(es + [e]);
    assert RowsIn(es + [e]) == RowsIn(es) + [r];
    OneMoreKey(RowsIn(es), r);
    NewSum(IndexKeys(RowsIn(es)), r);
    if KeyOf(r).Some? {
      KeyIsIn(es, KeyOf(r).value);
    }
  }

  // ----- Any log, any polls -----

  /** Event i of the polls repeats an earlier one, which a single parse would have noticed. */
  predicate Straddles(es: seq<Emission>, i: nat)
    requires i < |es|
  {
    Repeated(AllKeys(es[..i]), es[i])
  }

  /** The event brings no tokens to an account that holds `kept`: it has none, or it is absorbed. */
  ghost predicate Harmless(kept: seq<Emission>, e: Emission) {
    TotalOf(Uploaded(e.event)) == 0 || exists m :: m in kept && SameKey(Uploaded(m.event), Uploaded(e.event))
  }

  lemma {:induction false} KeptAreGiven(es: seq<Emission>, m: Emission)
    requires m in KeepFirst(es)
    ensures m in es
  {
    if m != es[|es| - 1] {
      KeptAreGiven(es[..|es| - 1], m);
    }
  }

  lemma {:induction false} KeptOrStraddling(es: seq<Emission>, i: nat)
    requires i < |es|
    ensures es[i] in KeepFirst(es) || Straddles(es, i)
  {
    if i < |es| - 1 {
      var init := es[..|es| - 1];
      assert init[..i] == es[..i] && init[i] == es[i];
      KeptOrStraddling(init, i);
      if es[i] in KeepFirst(init) {
        assert es[i] in KeepFirst(es);
      }
    }
  }

  lemma PolledEachOnce(env: Env, log: seq<byte>, cuts: seq<nat>)
    requires Cuts(log, cuts)
    ensures EachOnce(Polled(env, log, cuts).events)
  {
    PolledAreDetailed(env, log, cuts);
    PolledLinesIncrease(env, log, cuts);
  }

  lemma ParsedEachOnce(env: Env, log: seq<byte>)
    ensures EachOnce(FullParse(env, log).events)
  {
    EventsAreDetailed(env, log, Start(env));
    EventLinesIncrease(env, log, Start(env), 0);
  }

  /** The index entries the polls add to those of the full parse all come from straddling repeats. */
  lemma NewKeysStraddle(es: seq<Emission>, k: UsageKey) returns (i: nat)
    requires k in IndexKeys(RowsIn(es)) - IndexKeys(RowsIn(KeepFirst(es)))
    ensures i < |es| && Straddles(es, i) && KeyOf(Uploaded(es[i].event)) == Some(k)
  {
    KeyIsIn(es, k);
    KeyIsIn(KeepFirst(es), k);
    var m :| m in es && KeyOf(Uploaded(m.event)) == Some(k);
    i :| 0 <= i < |es| && es[i] == m;
    KeptOrStraddling(es, i);
  }

  lemma KeptKeys(es: seq<Emission>)
    ensures IndexKeys(RowsIn(KeepFirst(es))) <= IndexKeys(RowsIn(es))
  {
    forall k | k in IndexKeys(RowsIn(KeepFirst(es))) ensures k in IndexKeys(RowsIn(es)) {
      KeyIsIn(KeepFirst(es), k);
      var m :| m in KeepFirst(es) && KeyOf(Uploaded(m.event)) == Some(k);
      KeptAreGiven(es, m);
      KeyIsIn(es, k);
    }
  }

  ghost predicate AllHarmless(es: seq<Emission>, kept: seq<Emission>) {
    forall i :: 0 <= i < |es| && Straddles(es, i) ==> Harmless(kept, es[i])
  }

  predicate NothingNew(es: seq<Emission>, kept: seq<Emission>) {
    forall k :: k in IndexKeys(RowsIn(es)) - IndexKeys(RowsIn(kept)) ==> OrZero(k.tokens.total) == 0
  }

  lemma HarmlessIsNothingNew(es: seq<Emission>)
    requires AllHarmless(es, KeepFirst(es))
    ensures NothingNew(es, KeepFirst(es))
  {
    forall k | k in IndexKeys(RowsIn(es)) - IndexKeys(RowsIn(KeepFirst(es))) ensures OrZero(k.tokens.total) == 0 {
      var i := NewKeysStraddle(es, k);
      assert Harmless(KeepFirst(es), es[i]);
      KeyIsIn(KeepFirst(es), k);
    }
  }

  lemma NothingNewIsHarmless(es: seq<Emission>, i: nat)
    requires EachOnce(es) && i < |es| && NothingNew(es, KeepFirst(es))
    ensures Harmless(KeepFirst(es), es[i])
  {
    var r := Uploaded(es[i].event);
    assert es[i] in es;
    if KeyOf(r).Some? {
      KeyIsIn(es, KeyOf(r).value);
      KeyIsIn(KeepFirst(es), KeyOf(r).value);
    }
  }

  /** Dropping the repeats leaves the account as it is if and only if every one of them is harmless. */
  lemma KeepFirstAccountIff(es: seq<Emission>)
    requires EachOnce(es) && EachOnce(KeepFirst(es))
    ensures AccountOf(KeepFirst(es)) <= AccountOf(es)
    ensures AccountOf(KeepFirst(es)) == AccountOf(es) <==> AllHarmless(es, KeepFirst(es))
  {
    AccountIsSumOfKeys(es);
    AccountIsSumOfKeys(KeepFirst(es));
    KeptKeys(es);
    SumOfKeysGrows(IndexKeys(RowsIn(KeepFirst(es))), IndexKeys(RowsIn(es)));
    if AllHarmless(es, KeepFirst(es)) {
      HarmlessIsNothingNew(es);
    }
    if NothingNew(es, KeepFirst(es)) {
      forall i | 0 <= i < |es| && Straddles(es, i) ensures Harmless(KeepFirst(es), es[i]) {
        NothingNewIsHarmless(es, i);
      }
    }
  }

  /** For every log, cut into polls anywhere: the account is the one a full parse gives if and only if every repeat that
      straddles a poll boundary is absorbed by an event of the full parse or brings no tokens. It is never less. */
  lemma PollingAccountIff(env: Env, log: seq<byte>, cuts: seq<nat>)
    requires Cuts(log, cuts) && cuts != [] && cuts[|cuts| - 1] == |log|
    requires RecordsFit(log, 0, env.recordLimit)
    ensures
      var es, full := Polled(env, log, cuts).events, FullParse(env, log).events;
      && AccountOf(full) <= AccountOf(es)
      && (AccountOf(full) == AccountOf(es) <==> AllHarmless(es, full))
  {
    IncrementalEqualsFull(env, log, cuts);
    PolledEachOnce(env, log, cuts);
    ParsedEachOnce(env, log);
    KeepFirstAccountIff(Polled(env, log, cuts).events);
  }

  lemma UnabsorbedKey(es: seq<Emission>, i: nat)
    requires EachOnce(es) && i < |es| && !Harmless(KeepFirst(es), es[i])
    ensures
      var k := KeyOf(Uploaded(es[i].event));
      && k.Some? && k.value in IndexKeys(RowsIn(es)) && k.value !in IndexKeys(RowsIn(KeepFirst(es)))
  {
    var r := Uploaded(es[i].event);
    assert es[i] in es;
    KeyIsIn(es, KeyOf(r).value);
    KeyIsIn(KeepFirst(es), KeyOf(r).value);
  }

  lemma UnabsorbedAdds(es: seq<Emission>, i: nat)
    requires EachOnce(es) && EachOnce(KeepFirst(es)) && i < |es| && !Harmless(KeepFirst(es), es[i])
    ensures AccountOf(es) >= AccountOf(KeepFirst(es)) + TotalOf(Uploaded(es[i].event))
  {
    var kept, all := IndexKeys(RowsIn(KeepFirst(es))), IndexKeys(RowsIn(es));
    var r := Uploaded(es[i].event);
    UnabsorbedKey(es, i);
    AccountIsSumOfKeys(es);
    AccountIsSumOfKeys(KeepFirst(es));
    KeptKeys(es);
    NewSum(kept, r);
    SumOfKeysGrows(kept + KeySet(r), all);
  }

  /** Every straddling repeat that is not harmless adds at least its total to the account. */
  lemma StraddlingRepeatIsCounted(env: Env, log: seq<byte>, cuts: seq<nat>, i: nat)
    requires Cuts(log, cuts) && cuts != [] && cuts[|cuts| - 1] == |log|
    requires RecordsFit(log, 0, env.recordLimit)
    requires i < |Polled(env, log, cuts).events| &&
      !Harmless(FullParse(env, log).events, Polled(env, log, cuts).events[i])
    ensures
      var es := Polled(env, log, cuts).events;
      AccountOf(es) >= AccountOf(FullParse(env, log).events) + TotalOf(Uploaded(es[i].event))
  {
    IncrementalEqualsFull(env, log, cuts);
    PolledEachOnce(env, log, cuts);
    ParsedEachOnce(env, log);
    UnabsorbedAdds(Polled(env, log, cuts).events, i);
  }

  // ----- The two families of repeats that are counted twice -----

  /** `e2` was polled from the log and repeats `e1`, the only event of the full parse that could absorb it. */
  ghost predicate RepeatsOnly(env: Env, log: seq<byte>, cuts: seq<nat>, e1: Emission, e2: Emission)
    requires Cuts(log, cuts)
  {
    && e1.key.Some? && e1.key == e2.key
    && e1 in FullParse(env, log).events && e2 in Polled(env, log, cuts).events
    && forall m :: m in FullParse(env, log).events && SameKey(Uploaded(m.event), Uploaded(e2.event)) ==> m == e1
  }

  /** Wherever in whatever log it is polled, a repeat adds its total to the account unless it is counted like its first
      occurrence or is uploaded without a total. */
  lemma RepeatCountedTwice(
    env: Env, log: seq<byte>, cuts: seq<nat>, s1: ParseState, line1: nat, record1: Record, e1: Emission,
    s2: ParseState, line2: nat, record2: Record, e2: Emission)
    requires Cuts(log, cuts) && cuts != [] && cuts[|cuts| - 1] == |log|
    requires RecordsFit(log, 0, env.recordLimit) && RepeatsOnly(env, log, cuts, e1, e2)
    requires Emits(env, s1, line1, record1, e1) && Emits(env, s2, line2, record2, e2)
    requires record1.TokenCount? && record1.last.Some? && record2.TokenCount? && record2.last.Some?
    requires Adjusted(s1, record1) != Adjusted(s2, record2)
    requires TotalsConsistent(TokensOf(Adjusted(s2, record2))) && Adjusted(s2, record2).total > 0
    ensures
      AccountOf(Polled(env, log, cuts).events) >= AccountOf(FullParse(env, log).events) + Adjusted(s2, record2).total
  {
    var es := Polled(env, log, cuts).events;
    var i :| 0 <= i < |es| && es[i] == e2;
    RepeatIsCounted(env, s2, line2, record2, e2);
    RepeatAbsorbedIff(env, s1, line1, record1, e1, s2, line2, record2, e2);
    StraddlingRepeatIsCounted(env, log, cuts, i);
  }

  /** Outside an inherited prefix: a repeat that differs in cache writes, under a total that covers its components. */
  lemma CacheWriteRepeatCountedTwice(
    env: Env, log: seq<byte>, cuts: seq<nat>, s1: ParseState, line1: nat, record1: Record, e1: Emission,
    s2: ParseState, line2: nat, record2: Record, e2: Emission)
    requires Cuts(log, cuts) && cuts != [] && cuts[|cuts| - 1] == |log|
    requires RecordsFit(log, 0, env.recordLimit) && RepeatsOnly(env, log, cuts, e1, e2)
    requires Emits(env, s1, line1, record1, e1) && Emits(env, s2, line2, record2, e2)
    requires record1.TokenCount? && record1.last.Some? && record2.TokenCount? && record2.last.Some?
    requires PrefixExhausted(s1) && PrefixExhausted(s2)
    requires
      var u1, u2 := NormalizeTokenUsage(record1.last.value), NormalizeTokenUsage(record2.last.value);
      u1.cacheWrite != u2.cacheWrite && u2.input + u2.output + u2.cacheWrite <= u2.total && u2.total > 0
    ensures
      AccountOf(Polled(env, log, cuts).events) >=
      AccountOf(FullParse(env, log).events) + NormalizeTokenUsage(record2.last.value).total
  {
    RepeatCountedTwice(env, log, cuts, s1, line1, record1, e1, s2, line2, record2, e2);
  }

  /** One counter of a snapshot read twice in a row within a prefix of `p`: the second time less is left to take out,
      unless the counter or the prefix is zero or the prefix is enough for both. */
  lemma CountedAlikeIff(u: int, p: int)
    requires u >= 0 && p >= 0
    ensures Monus(u, p) == Monus(u, Monus(p, u)) <==> u == 0 || p == 0 || p >= 2 * u
  {
  }

  /** Inside an inherited prefix: the same snapshot read twice in a row is counted twice whenever the prefix left at the
      first reading is neither used up nor enough for both. */
  lemma PrefixRepeatCountedTwice(
    env: Env, log: seq<byte>, cuts: seq<nat>, s1: ParseState, line1: nat, record1: Record, e1: Emission,
    s2: ParseState, line2: nat, record2: Record, e2: Emission)
    requires Cuts(log, cuts) && cuts != [] && cuts[|cuts| - 1] == |log|
    requires RecordsFit(log, 0, env.recordLimit) && RepeatsOnly(env, log, cuts, e1, e2)
    requires Emits(env, s1, line1, record1, e1) && Emits(env, s2, line2, record2, e2)
    requires record1.TokenCount? && record1.last.Some? && record2.TokenCount? && record2.last == record1.last
    requires s1.forkResolved && s2.forkResolved
    requires s2.remainingPrefix == s1.remainingPrefix.Minus(NormalizeTokenUsage(record1.last.value))
    requires 0 < s1.remainingPrefix.total < 2 * NormalizeTokenUsage(record1.last.value).total
    requires TotalsConsistent(TokensOf(Adjusted(s2, record2)))
    ensures
      var u, p := NormalizeTokenUsage(record1.last.value).total, s1.remainingPrefix.total;
      && Monus(u, Monus(p, u)) > 0
      && AccountOf(Polled(env, log, cuts).events) >= AccountOf(FullParse(env, log).events) + Monus(u, Monus(p, u))
  {
    CountedAlikeIff(NormalizeTokenUsage(record1.last.value).total, s1.remainingPrefix.total);
    RepeatCountedTwice(env, log, cuts, s1, line1, record1, e1, s2, line2, record2, e2);
  }

  // ----- A concrete log -----

  const FIRST_LINE: seq<byte> := [1, NEWLINE]
  const SECOND_LINE: seq<byte> := [2, NEWLINE]

  function BothLines(): (log: seq<byte>)
    ensures |log| == 4 && log[..2] == FIRST_LINE && log[0..2] == FIRST_LINE && log[2..4] == SECOND_LINE &&
      log[..4] == log
  {
    FIRST_LINE + SECOND_LINE
  }

  function LastUsage(raw: RawUsage): Record {
    TokenCount("t", "", "", Some(raw), None)
  }

  /** The two lines decode to these two snapshots, taken at the same instant. */
  predicate TwoSnapshots(env: Env, raw1: RawUsage, raw2: RawUsage) {
    && env.decode(FIRST_LINE) == LastUsage(raw1) && env.decode(SECOND_LINE) == LastUsage(raw2)
    && env.parseTime("t") == Some(0) && env.recordLimit >= 2
  }

  lemma OneLine(step: Step, log: seq<byte>, p: Progress, text: seq<byte>, limit: nat)
    requires p.offset + |text| <= |log| && text == log[p.offset..p.offset + |text|]
    requires |text| == 2 && text[0] != NEWLINE && text[1] == NEWLINE && limit >= 2
    ensures ParseFrom(step, log, p) == ParseFrom(step, log, TakeLine(step, p, text))
    ensures p.offset + 2 == |log| ==>
      ParseFrom(step, log, p) == TakeLine(step, p, text) && RecordsFit(log, p.offset, limit)
  {
    assert log[p.offset] == text[0] && log[p.offset + 1] == text[1];
    assert LineEnd(log, p.offset) == p.offset + 2;
  }

  /** One poll for both lines keeps the first event only ... */
  lemma OnePollForBoth(env: Env, s1: ParseState, s2: ParseState, e1: Emission, e2: Emission)
    requires env.recordLimit >= 2
    requires StepOf(env)(Start(env).state, 1, FIRST_LINE) == (s1, Some(e1))
    requires StepOf(env)(s1, 2, SECOND_LINE) == (s2, Some(e2))
    requires e1.key.Some? && e1.key == e2.key
    ensures FullParse(env, BothLines()).events == [e1]
  {
    var log, step := BothLines(), StepOf(env);
    OneLine(step, log, Start(env), FIRST_LINE, 2);
    var p1 := TakeLine(step, Start(env), FIRST_LINE);
    OneLine(step, log, p1, SECOND_LINE, 2);
  }

  lemma FirstPoll(env: Env, s1: ParseState, e1: Emission)
    requires env.recordLimit >= 2
    requires StepOf(env)(Start(env).state, 1, FIRST_LINE) == (s1, Some(e1))
    ensures Parse(env, FIRST_LINE, NO_CURSOR) ==
      Ok(ParseResult([e1], CursorOf(env, Progress(2, 1, s1, KeysOf(e1), [e1]))))
  {
    OneLine(StepOf(env), FIRST_LINE, Start(env), FIRST_LINE, env.recordLimit);
    assert TakeLine(StepOf(env), Start(env), FIRST_LINE) == Progress(2, 1, s1, KeysOf(e1), [e1]);
  }

  lemma SecondPoll(env: Env, s1: ParseState, s2: ParseState, e1: Emission, e2: Emission)
    requires env.recordLimit >= 2
    requires StepOf(env)(s1, 2, SECOND_LINE) == (s2, Some(e2))
    ensures
      var poll := Parse(env, BothLines(), CursorOf(env, Progress(2, 1, s1, KeysOf(e1), [e1])));
      poll.Ok? && poll.value.events == [e2]
  {
    var resumed := Progress(2, 1, s1, {}, []);
    OneLine(StepOf(env), BothLines(), resumed, SECOND_LINE, env.recordLimit);
    assert TakeLine(StepOf(env), resumed, SECOND_LINE) == Progress(4, 2, s2, KeysOf(e2), [e2]);
  }

  /** ... and one poll for each of them keeps both. */
  lemma OnePollForEach(env: Env, s1: ParseState, s2: ParseState, e1: Emission, e2: Emission)
    requires env.recordLimit >= 2
    requires StepOf(env)(Start(env).state, 1, FIRST_LINE) == (s1, Some(e1))
    requires StepOf(env)(s1, 2, SECOND_LINE) == (s2, Some(e2))
    ensures Polled(env, BothLines(), [2, 4]).events == [e1, e2]
  {
    FirstPoll(env, s1, e1);
    SecondPoll(env, s1, s2, e1, e2);
    assert [2][..0] == [] && [2, 4][..1] == [2];
    assert Polled(env, BothLines(), [2]).events == [e1];
  }

  lemma AccountOfTwo(e1: Emission, e2: Emission)
    requires EachOnce([e1] + [e2]) && !SameKey(Uploaded(e1.event), Uploaded(e2.event))
    ensures AccountOf([e1]) == TotalOf(Uploaded(e1.event))
    ensures AccountOf([e1, e2]) == TotalOf(Uploaded(e1.event)) + TotalOf(Uploaded(e2.event))
  {
    var r1, r2 := Uploaded(e1.event), Uploaded(e2.event);
    assert ([e1] + [e2])[0] == e1 && ([e1] + [e2])[1] == e2 && [e1] + [e2] == [e1, e2];
    assert Detailed(e1.event) && Detailed(e2.event);
    assert RowsIn([e1]) == [r1] && RowsIn([e1, e2]) == [r1, r2];
    TwoRowsStay(r1, r2);
  }

  lemma TwoRowsStay(r1: Row, r2: Row)
    requires !Aggregate(r1) && !Aggregate(r2) && r1.id != r2.id && !SameKey(r1, r2)
    ensures LifetimeTokens(AcceptAll(map[], [r1])) == TotalOf(r1)
    ensures LifetimeTokens(AcceptAll(map[], [r1, r2])) == TotalOf(r1) + TotalOf(r2)
  {
    assert [r1][..0] == [] && [r1, r2][..1] == [r1];
    IndependentRows([r1]);
    IndependentRows([r1, r2]);
  }

  /** The events of one poll for each line. */
  function BothPolls(env: Env): seq<Emission> {
    Polled(env, BothLines(), [2, 4]).events
  }

  /** Two lines of one repeat key that are counted differently. */
  lemma TwoLinesCounted(env: Env, raw1: RawUsage, raw2: RawUsage, s2: ParseState, e1: Emission, e2: Emission)
    requires TwoSnapshots(env, raw1, raw2)
    requires TakeRecord(env, Start(env).state, 1, LastUsage(raw1)) == (s2, Some(e1))
    requires TakeRecord(env, s2, 2, LastUsage(raw2)).1 == Some(e2)
    requires e1.key.Some? && e1.key == e2.key
    requires Adjusted(Start(env).state, LastUsage(raw1)) != Adjusted(s2, LastUsage(raw2))
    ensures FullParse(env, BothLines()).events == [e1] && BothPolls(env) == [e1, e2]
    ensures AccountOf([e1]) == TotalOf(Uploaded(e1.event))
    ensures AccountOf([e1, e2]) == TotalOf(Uploaded(e1.event)) + TotalOf(Uploaded(e2.event))
  {
    var s1, r1, r2 := Start(env).state, LastUsage(raw1), LastUsage(raw2);
    var t2 := TakeRecord(env, s2, 2, r2);
    OnePollForBoth(env, s2, t2.0, e1, e2);
    OnePollForEach(env, s2, t2.0, e1, e2);
    RepeatAbsorbedIff(env, s1, 1, r1, e1, s2, 2, r2, e2);
    TwoEachOnce(env, s1, 1, r1, e1, s2, 2, r2, e2);
    AccountOfTwo(e1, e2);
  }

  /** Two records whose counters differ in cache writes only, outside a prefix, under totals that cover them. */
  lemma TwoLinesAccount(env: Env, raw1: RawUsage, raw2: RawUsage)
    requires TwoSnapshots(env, raw1, raw2) && PrefixExhausted(Start(env).state)
    requires
      var u1, u2 := NormalizeTokenUsage(raw1), NormalizeTokenUsage(raw2);
      && u1.cacheWrite != u2.cacheWrite && u1.(cacheWrite := 0) == u2.(cacheWrite := 0) && u1.input > 0
      && u1.input + u1.output + u1.cacheWrite <= u1.total && u2.input + u2.output + u2.cacheWrite <= u2.total
    ensures AccountOf(FullParse(env, BothLines()).events) == NormalizeTokenUsage(raw1).total
    ensures AccountOf(BothPolls(env)) == NormalizeTokenUsage(raw1).total + NormalizeTokenUsage(raw2).total
  {
    var s := Start(env).state;
    var t1 := TakeRecord(env, s, 1, LastUsage(raw1));
    var t2 := TakeRecord(env, t1.0, 2, LastUsage(raw2));
    TwoEmissions(env, s, raw1, raw2);
    AdjustedOutsidePrefix(s, LastUsage(raw1));
    AdjustedOutsidePrefix(t1.0, LastUsage(raw2));
    CountedAlike(NormalizeTokenUsage(raw1), NormalizeTokenUsage(raw2));
    TwoLinesCounted(env, raw1, raw2, t1.0, t1.1.value, t2.1.value);
  }

  /** One record read twice within a prefix that is neither empty nor enough for both. */
  lemma TwoLinesInPrefix(env: Env, raw: RawUsage, prefix: Usage)
    requires TwoSnapshots(env, raw, raw) && ResolveForkBaseline(env, env.sourceMetadata) == Some(prefix)
    requires
      var u := NormalizeTokenUsage(raw);
      && 0 < prefix.total < 2 * u.total
      && TotalsConsistent(TokensOf(EventTokenUsage(u.Minus(prefix))))
      && TotalsConsistent(TokensOf(EventTokenUsage(u.Minus(prefix.Minus(u)))))
    ensures AccountOf(FullParse(env, BothLines()).events) == Monus(NormalizeTokenUsage(raw).total, prefix.total)
    ensures
      var u := NormalizeTokenUsage(raw).total;
      AccountOf(BothPolls(env)) == Monus(u, prefix.total) + Monus(u, Monus(prefix.total, u))
  {
    var s := Start(env).state;
    var t1 := TakeRecord(env, s, 1, LastUsage(raw));
    var t2 := TakeRecord(env, t1.0, 2, LastUsage(raw));
    CountedAlikeIff(NormalizeTokenUsage(raw).total, prefix.total);
    TwoLinesCounted(env, raw, raw, t1.0, t1.1.value, t2.1.value);
  }

  lemma TwoEmissions(env: Env, s: ParseState, raw1: RawUsage, raw2: RawUsage)
    requires env.parseTime("t") == Some(0) && PrefixExhausted(s)
    requires
      var u1, u2 := NormalizeTokenUsage(raw1), NormalizeTokenUsage(raw2);
      && u1.(cacheWrite := 0) == u2.(cacheWrite := 0) && u1.input > 0
      && u1.input + u1.output + u1.cacheWrite <= u1.total && u2.input + u2.output + u2.cacheWrite <= u2.total
    ensures
      var t1 := TakeRecord(env, s, 1, LastUsage(raw1));
      var t2 := TakeRecord(env, t1.0, 2, LastUsage(raw2));
      && t1.1.Some? && t2.1.Some? && t1.1.value.key.Some? && t1.1.value.key == t2.1.value.key
      && PrefixExhausted(t1.0)
      && TotalOf(Uploaded(t1.1.value.event)) == NormalizeTokenUsage(raw1).total
      && TotalOf(Uploaded(t2.1.value.event)) == NormalizeTokenUsage(raw2).total
  {
  }

  /** Such logs exist, whatever the counters. */
  function TwoLines(raw1: RawUsage, raw2: RawUsage): (env: Env)
    ensures TwoSnapshots(env, raw1, raw2)
    ensures PrefixExhausted(Start(env).state)
  {
    assert FIRST_LINE[0] != SECOND_LINE[0];
    Env("machine", "log", "fixed", SessionMetadata("", "", "", "", "", "", "", "", ""), map[], map[],
        text => if text == FIRST_LINE then LastUsage(raw1) else if text == SECOND_LINE then LastUsage(raw2) else Other,
        text => Some(0), text => true, 2)
  }

  /** For instance two lines that are worth 20 tokens in one poll but 40 in two. */
  lemma TwentyOrForty() returns (env: Env, raw1: RawUsage, raw2: RawUsage)
    ensures raw1 == RawUsage(6, 0, 0, 0, 4, 0, 20) && raw2 == RawUsage(6, 0, 0, 1, 4, 0, 20)
    ensures env == TwoLines(raw1, raw2)
    ensures AccountOf(FullParse(env, BothLines()).events) == 20
    ensures AccountOf(BothPolls(env)) == 40
  {
    raw1, raw2 := RawUsage(6, 0, 0, 0, 4, 0, 20), RawUsage(6, 0, 0, 1, 4, 0, 20);
    env := TwoLines(raw1, raw2);
    TwoLinesAccount(env, raw1, raw2);
  }
}
