/** Parsing a growing log in any number of polls agrees with parsing it once from the beginning. */
module CodexResume {
  import opened Wrappers
  import opened Events
  import opened RecordReader
  import opened CodexUsage
  import opened CodexLog

  // ----- Polls -----

  ghost predicate Cuts(log: seq<byte>, cuts: seq<nat>) {
    (forall i :: 0 <= i < |cuts| ==> cuts[i] <= |log|) &&
    (forall i, j :: 0 <= i <= j < |cuts| ==> cuts[i] <= cuts[j])
  }

  /** Poll i sees the first cuts[i] bytes of the log and starts from the last cursor a poll produced. A failed poll
      produces nothing. The events of all polls are concatenated. */
  function Polled(env: Env, log: seq<byte>, cuts: seq<nat>): ParseResult
    requires forall i :: 0 <= i < |cuts| ==> cuts[i] <= |log|
  {
    if cuts == [] then ParseResult([], NO_CURSOR)
    else
      var before := Polled(env, log, cuts[..|cuts| - 1]);
      match Parse(env, log[..cuts[|cuts| - 1]], before.cursor)
      case Err(_) => before
      case Ok(r) => ParseResult(before.events + r.events, r.cursor)
  }

  function FullParse(env: Env, log: seq<byte>): Progress {
    ParseFrom(StepOf(env), log, Start(env))
  }

  // ----- Repeats -----

  function AllKeys(es: seq<Emission>): set<RepeatKey> {
    set e | e in es && e.key.Some? :: e.key.value
  }

  /** Drops every emission whose key occurred earlier. */
  function KeepFirst(es: seq<Emission>): seq<Emission> {
    if es == [] then []
    else
      var init, last := es[..|es| - 1], es[|es| - 1];
      KeepFirst(init) + if Repeated(AllKeys(init), last) then [] else [last]
  }

  lemma AllKeysAppend(es: seq<Emission>, e: Emission)
    ensures AllKeys(es + [e]) == AllKeys(es) + KeysOf(e)
  {
    assert forall x :: x in es + [e] <==> x in es || x == e;
  }

  lemma KeepFirstAppend(es: seq<Emission>, e: Emission)
    ensures KeepFirst(es + [e]) == KeepFirst(es) + if Repeated(AllKeys(es), e) then [] else [e]
  {
    assert (es + [e])[..|es|] == es;
  }

  lemma {:induction false} NothingRepeats(es: seq<Emission>)
    requires AllKeys(es) == {}
    ensures KeepFirst(es) == es
  {
    if es == [] {
    } else {
      assert es[..|es| - 1] + [es[|es| - 1]] == es;
      AllKeysAppend(es[..|es| - 1], es[|es| - 1]);
      NothingRepeats(es[..|es| - 1]);
    }
  }

  // ----- Stopping and going on -----

  /** A parse that stopped at the end of `log` goes on exactly where one over the longer file would be. */
  lemma {:induction false} ParseInTwoSteps(step: Step, log: seq<byte>, more: seq<byte>, p: Progress)
    requires p.offset <= |log|
    ensures ParseFrom(step, log + more, p) == ParseFrom(step, log + more, ParseFrom(step, log, p))
    decreases |log| - p.offset
  {
    if Terminated(log, p.offset) {
      LineEndStable(log, more, p.offset);
      var text := log[p.offset..LineEnd(log, p.offset)];
      assert (log + more)[p.offset..LineEnd(log, p.offset)] == text;
      ParseInTwoSteps(step, log, more, TakeLine(step, p, text));
    }
  }

  lemma {:induction false} FitsLater(step: Step, log: seq<byte>, more: seq<byte>, p: Progress, limit: nat)
    requires p.offset <= |log| && RecordsFit(log + more, p.offset, limit)
    ensures RecordsFit(log + more, ParseFrom(step, log, p).offset, limit)
    decreases |log| - p.offset
  {
    if Terminated(log, p.offset) {
      LineEndStable(log, more, p.offset);
      FitsLater(step, log, more, TakeLine(step, p, log[p.offset..LineEnd(log, p.offset)]), limit);
    }
  }

  /** `full` is where the uninterrupted parse is when the polls so far emitted `before` and the current one is at
      `poll`. */
  predicate InStep(full: Progress, poll: Progress, before: seq<Emission>) {
    && full.offset == poll.offset && full.line == poll.line && full.state == poll.state
    && full.events == KeepFirst(before + poll.events)
    && full.seen == AllKeys(before + poll.events)
    && poll.seen == AllKeys(poll.events)
  }

  lemma AdvanceInStep(
    full: Progress, poll: Progress, before: seq<Emission>, length: nat, state: ParseState, emitted: Option<Emission>)
    requires InStep(full, poll, before)
    ensures InStep(Advance(full, length, state, emitted), Advance(poll, length, state, emitted), before)
  {
    if emitted.Some? && !Repeated(poll.seen, emitted.value) {
      var e, sofar := emitted.value, before + poll.events;
      assert before + (poll.events + [e]) == sofar + [e];
      AllKeysAppend(sofar, e);
      AllKeysAppend(poll.events, e);
      KeepFirstAppend(sofar, e);
    }
  }

  lemma TakeLineInStep(step: Step, full: Progress, poll: Progress, before: seq<Emission>, text: seq<byte>)
    requires InStep(full, poll, before)
    ensures InStep(TakeLine(step, full, text), TakeLine(step, poll, text), before)
  {
    var taken := step(full.state, full.line + 1, text);
    AdvanceInStep(full, poll, before, |text|, taken.0, taken.1);
  }

  lemma {:induction false} ParseInStep(
    step: Step, log: seq<byte>, full: Progress, poll: Progress, before: seq<Emission>)
    requires full.offset <= |log| && InStep(full, poll, before)
    ensures InStep(ParseFrom(step, log, full), ParseFrom(step, log, poll), before)
    decreases |log| - full.offset
  {
    if Terminated(log, full.offset) {
      var text := log[full.offset..LineEnd(log, full.offset)];
      TakeLineInStep(step, full, poll, before, text);
      ParseInStep(step, log, TakeLine(step, full, text), TakeLine(step, poll, text), before);
    }
  }

  // ----- Any number of polls -----

  /** What the polls so far amount to: the full parse of the `seenBytes` bytes the last successful one saw. */
  ghost predicate Agrees(env: Env, log: seq<byte>, seenBytes: nat, r: ParseResult) {
    seenBytes <= |log| &&
    var full := FullParse(env, log[..seenBytes]);
    (r == ParseResult([], NO_CURSOR) && full == Start(env)) ||
    (r.cursor == CursorOf(env, full) && KeepFirst(r.events) == full.events && AllKeys(r.events) == full.seen)
  }

  lemma PositionsAdvance(step: Step, log: seq<byte>, p: Progress)
    requires p.offset <= |log|
    ensures var q := ParseFrom(step, log, p);
      && p.line <= q.line
      && (q.offset == p.offset ==> q == p)
      && (q.offset > p.offset ==> q.line > p.line)
    decreases |log| - p.offset
  {
  }

  lemma ResumesInStep(env: Env, log: seq<byte>, seenBytes: nat, r: ParseResult, cut: nat)
    requires Agrees(env, log, seenBytes, r) && seenBytes <= cut <= |log|
    ensures InStep(FullParse(env, log[..seenBytes]), ResumePoint(env, log[..cut], r.cursor), r.events)
  {
    PositionsAdvance(StepOf(env), log[..seenBytes], Start(env));
    assert r.events + [] == r.events;
    if KeepFirst(r.events) == [] {
      EmptyKeepFirst(r.events);
    }
  }

  lemma OnePoll(env: Env, log: seq<byte>, seenBytes: nat, r: ParseResult, cut: nat)
    requires Agrees(env, log, seenBytes, r) && seenBytes <= cut <= |log|
    ensures RecordsFit(log[..cut], 0, env.recordLimit) ==> Parse(env, log[..cut], r.cursor).Ok?
    ensures
      var poll := Parse(env, log[..cut], r.cursor);
      poll.Ok? ==> Agrees(env, log, cut, ParseResult(r.events + poll.value.events, poll.value.cursor))
  {
    var seen, now, more := log[..seenBytes], log[..cut], log[seenBytes..cut];
    assert now == seen + more;
    var full, p := FullParse(env, seen), ResumePoint(env, now, r.cursor);
    ParseInTwoSteps(StepOf(env), seen, more, Start(env));
    ResumesInStep(env, log, seenBytes, r, cut);
    ParseInStep(StepOf(env), now, full, p, r.events);
    if RecordsFit(now, 0, env.recordLimit) {
      FitsLater(StepOf(env), seen, more, Start(env), env.recordLimit);
    }
  }

  lemma EmptyKeepFirst(es: seq<Emission>)
    requires KeepFirst(es) == []
    ensures es == []
  {
    if es != [] {
      FirstIsKept(es);
    }
  }

  lemma {:induction false} FirstIsKept(es: seq<Emission>)
    requires es != []
    ensures KeepFirst(es) != []
  {
    if |es| > 1 {
      FirstIsKept(es[..|es| - 1]);
    }
  }

  lemma {:induction false} PollsAgree(env: Env, log: seq<byte>, cuts: seq<nat>) returns (seenBytes: nat)
    requires Cuts(log, cuts)
    ensures Agrees(env, log, seenBytes, Polled(env, log, cuts))
    ensures cuts == [] ==> seenBytes == 0
    ensures cuts != [] ==> seenBytes <= cuts[|cuts| - 1]
    ensures cuts != [] && RecordsFit(log[..cuts[|cuts| - 1]], 0, env.recordLimit) ==> seenBytes == cuts[|cuts| - 1]
  {
    seenBytes := 0;
    if cuts == [] {
      assert log[..0] == [];
    } else {
      var init, cut := cuts[..|cuts| - 1], cuts[|cuts| - 1];
      seenBytes := PollsAgree(env, log, init);
      OnePoll(env, log, seenBytes, Polled(env, log, init), cut);
      if Parse(env, log[..cut], Polled(env, log, init).cursor).Ok? {
        seenBytes := cut;
      }
    }
  }

  /** The resumed parse refines the full parse: after any polls the cursor is the one a full parse of the same bytes
      leaves, and its events are the polled events without those whose repeat key occurred before. */
  lemma IncrementalEqualsFull(env: Env, log: seq<byte>, cuts: seq<nat>)
    requires Cuts(log, cuts) && cuts != [] && cuts[|cuts| - 1] == |log|
    requires RecordsFit(log, 0, env.recordLimit)
    ensures Parse(env, log, NO_CURSOR).Ok?
    ensures Polled(env, log, cuts).cursor == Parse(env, log, NO_CURSOR).value.cursor
    ensures KeepFirst(Polled(env, log, cuts).events) == Parse(env, log, NO_CURSOR).value.events
  {
    assert log[..|log|] == log;
    var seenBytes := PollsAgree(env, log, cuts);
  }

  // ----- Logs in which nothing repeats -----

  /** What the records from `offset` on report, repeats included. */
  function EmissionsFrom(step: Step, log: seq<byte>, offset: nat, line: nat, state: ParseState): seq<Emission>
    requires offset <= |log|
    decreases |log| - offset
  {
    if Terminated(log, offset) then
      var end := LineEnd(log, offset);
      var taken := step(state, line + 1, log[offset..end]);
      AsSeq(taken.1) + EmissionsFrom(step, log, end, line + 1, taken.0)
    else []
  }

  function RawFrom(step: Step, log: seq<byte>, p: Progress): seq<Emission>
    requires p.offset <= |log|
  {
    EmissionsFrom(step, log, p.offset, p.line, p.state)
  }

  /** No repeat key occurs twice. */
  predicate NoRepeats(es: seq<Emission>) {
    forall i, j :: 0 <= i < j < |es| && es[i].key.Some? ==> es[i].key != es[j].key
  }

  predicate RepeatFree(env: Env, log: seq<byte>) {
    NoRepeats(RawFrom(StepOf(env), log, Start(env)))
  }

  predicate SamePlace(p: Progress, q: Progress) {
    p.offset == q.offset && p.line == q.line && p.state == q.state
  }

  lemma EmissionsStep(step: Step, log: seq<byte>, offset: nat, line: nat, state: ParseState)
    requires offset <= |log| && Terminated(log, offset)
    ensures
      var end := LineEnd(log, offset);
      var taken := step(state, line + 1, log[offset..end]);
      EmissionsFrom(step, log, offset, line, state) == AsSeq(taken.1) + EmissionsFrom(step, log, end, line + 1, taken.0)
  {
  }

  lemma RawStep(step: Step, log: seq<byte>, p: Progress, q: Progress, taken: (ParseState, Option<Emission>))
    requires p.offset <= |log| && Terminated(log, p.offset)
    requires taken == step(p.state, p.line + 1, log[p.offset..LineEnd(log, p.offset)])
    requires SamePlace(q, Progress(LineEnd(log, p.offset), p.line + 1, taken.0, {}, []))
    ensures RawFrom(step, log, p) == AsSeq(taken.1) + RawFrom(step, log, q)
  {
    EmissionsStep(step, log, p.offset, p.line, p.state);
  }

  lemma NextPlace(p: Progress, length: nat, state: ParseState, emitted: Option<Emission>)
    ensures SamePlace(Advance(p, length, state, emitted), Progress(p.offset + length, p.line + 1, state, {}, []))
  {
  }

  lemma {:induction false} RawInTwoSteps(step: Step, log: seq<byte>, more: seq<byte>, p: Progress)
    requires p.offset <= |log|
    ensures RawFrom(step, log + more, p) ==
      RawFrom(step, log, p) + RawFrom(step, log + more, ParseFrom(step, log, p))
    decreases |log| - p.offset
  {
    if Terminated(log, p.offset) {
      LineEndStable(log, more, p.offset);
      var text := log[p.offset..LineEnd(log, p.offset)];
      assert (log + more)[p.offset..LineEnd(log, p.offset)] == text;
      var taken, q := step(p.state, p.line + 1, text), TakeLine(step, p, text);
      NextPlace(p, |text|, taken.0, taken.1);
      RawStep(step, log, p, q, taken);
      RawStep(step, log + more, p, q, taken);
      RawInTwoSteps(step, log, more, q);
      Regroup(AsSeq(taken.1), RawFrom(step, log, q), RawFrom(step, log + more, ParseFrom(step, log, q)));
      assert ParseFrom(step, log, p) == ParseFrom(step, log, q);
    } else {
      assert RawFrom(step, log, p) == [] && ParseFrom(step, log, p) == p;
    }
  }

  lemma Regroup(a: seq<Emission>, b: seq<Emission>, c: seq<Emission>)
    ensures a + (b + c) == a + b + c
  {
  }

  /** One line that reports nothing seen before is kept. */
  lemma KeptUnlessRepeated(
    p: Progress, length: nat, state: ParseState, emitted: Option<Emission>, rest: seq<Emission>)
    requires p.seen == AllKeys(p.events) && NoRepeats(p.events + (AsSeq(emitted) + rest))
    ensures var q := Advance(p, length, state, emitted);
      q.seen == AllKeys(q.events) && q.events == p.events + AsSeq(emitted)
  {
    if emitted.Some? {
      var e := emitted.value;
      AllKeysAppend(p.events, e);
      var all := p.events + (AsSeq(emitted) + rest);
      assert all[|p.events|] == e;
      forall x | x in p.events ensures x.key.Some? ==> x.key != e.key {
        var i :| 0 <= i < |p.events| && p.events[i] == x;
        assert all[i] == x;
      }
    }
  }

  /** A parse that meets no repeat keeps everything. */
  lemma {:induction false} NothingDropped(step: Step, log: seq<byte>, p: Progress)
    requires p.offset <= |log| && p.seen == AllKeys(p.events) && NoRepeats(p.events + RawFrom(step, log, p))
    ensures ParseFrom(step, log, p).events == p.events + RawFrom(step, log, p)
    decreases |log| - p.offset
  {
    if Terminated(log, p.offset) {
      var text := log[p.offset..LineEnd(log, p.offset)];
      var taken, q := step(p.state, p.line + 1, text), TakeLine(step, p, text);
      var rest := RawFrom(step, log, q);
      KeptUnlessRepeated(p, |text|, taken.0, taken.1, rest);
      assert q.events + rest == p.events + (AsSeq(taken.1) + rest);
      NothingDropped(step, log, q);
    }
  }

  lemma RepeatFreePrefix(env: Env, log: seq<byte>, more: seq<byte>)
    requires RepeatFree(env, log + more)
    ensures RepeatFree(env, log)
  {
    RawInTwoSteps(StepOf(env), log, more, Start(env));
    var raw := RawFrom(StepOf(env), log, Start(env));
    assert forall i :: 0 <= i < |raw| ==> raw[i] == RawFrom(StepOf(env), log + more, Start(env))[i];
  }

  lemma FullParseIsRaw(env: Env, log: seq<byte>)
    requires RepeatFree(env, log)
    ensures FullParse(env, log).events == RawFrom(StepOf(env), log, Start(env))
  {
    var raw := RawFrom(StepOf(env), log, Start(env));
    assert [] + raw == raw;
    NothingDropped(StepOf(env), log, Start(env));
  }

  /** From where a parse of `seen` stopped, a fresh poll reports exactly the rest. */
  lemma PollIsRest(step: Step, seen: seq<byte>, more: seq<byte>, start: Progress, p: Progress)
    requires start.offset <= |seen| && NoRepeats(RawFrom(step, seen + more, start))
    requires SamePlace(ParseFrom(step, seen, start), p) && p.seen == {} && p.events == []
    ensures RawFrom(step, seen, start) + ParseFrom(step, seen + more, p).events == RawFrom(step, seen + more, start)
  {
    var before, rest := RawFrom(step, seen, start), RawFrom(step, seen + more, p);
    RawInTwoSteps(step, seen, more, start);
    LaterHasNoRepeats(before, rest);
    assert p.events + rest == rest;
    NothingDropped(step, seen + more, p);
  }

  lemma LaterHasNoRepeats(before: seq<Emission>, rest: seq<Emission>)
    requires NoRepeats(before + rest)
    ensures NoRepeats(rest)
  {
    assert forall i :: 0 <= i < |rest| ==> rest[i] == (before + rest)[|before| + i];
  }

  lemma ResumesAtTheEnd(env: Env, log: seq<byte>, seenBytes: nat, r: ParseResult, cut: nat)
    requires Agrees(env, log, seenBytes, r) && seenBytes <= cut <= |log|
    ensures
      var p := ResumePoint(env, log[..cut], r.cursor);
      SamePlace(FullParse(env, log[..seenBytes]), p) && p.seen == {} && p.events == []
  {
    ResumesInStep(env, log, seenBytes, r, cut);
  }

  lemma RestOfPrefix(
    step: Step, seen: seq<byte>, more: seq<byte>, now: seq<byte>, start: Progress, p: Progress)
    requires now == seen + more && start.offset <= |seen| && NoRepeats(RawFrom(step, now, start))
    requires SamePlace(ParseFrom(step, seen, start), p) && p.seen == {} && p.events == []
    ensures p.offset <= |now|
    ensures RawFrom(step, seen, start) + ParseFrom(step, now, p).events == RawFrom(step, now, start)
  {
    PollIsRest(step, seen, more, start, p);
  }

  lemma RestOfRepeatFree(env: Env, seen: seq<byte>, now: seq<byte>, log: seq<byte>, p: Progress)
    requires seen <= now <= log && RepeatFree(env, log)
    requires SamePlace(FullParse(env, seen), p) && p.seen == {} && p.events == []
    ensures p.offset <= |now|
    ensures
      RawFrom(StepOf(env), seen, Start(env)) + ParseFrom(StepOf(env), now, p).events ==
      RawFrom(StepOf(env), now, Start(env))
  {
    assert now + log[|now|..] == log;
    RepeatFreePrefix(env, now, log[|now|..]);
    RestOfPrefix(StepOf(env), seen, now[|seen|..], now, Start(env), p);
  }

  lemma OneMorePoll(env: Env, log: seq<byte>, seenBytes: nat, r: ParseResult, cut: nat)
    requires RepeatFree(env, log) && Agrees(env, log, seenBytes, r) && seenBytes <= cut <= |log|
    requires r.events == RawFrom(StepOf(env), log[..seenBytes], Start(env))
    requires Parse(env, log[..cut], r.cursor).Ok?
    ensures r.events + Parse(env, log[..cut], r.cursor).value.events == RawFrom(StepOf(env), log[..cut], Start(env))
  {
    ResumesAtTheEnd(env, log, seenBytes, r, cut);
    RestOfRepeatFree(env, log[..seenBytes], log[..cut], log, ResumePoint(env, log[..cut], r.cursor));
  }

  lemma {:induction false} PolledIsRaw(env: Env, log: seq<byte>, cuts: seq<nat>) returns (seenBytes: nat)
    requires Cuts(log, cuts) && RepeatFree(env, log)
    ensures Agrees(env, log, seenBytes, Polled(env, log, cuts))
    ensures Polled(env, log, cuts).events == RawFrom(StepOf(env), log[..seenBytes], Start(env))
    ensures cuts == [] ==> seenBytes == 0
    ensures cuts != [] ==> seenBytes <= cuts[|cuts| - 1]
    ensures cuts != [] && RecordsFit(log[..cuts[|cuts| - 1]], 0, env.recordLimit) ==> seenBytes == cuts[|cuts| - 1]
  {
    seenBytes := 0;
    if cuts == [] {
      assert log[..0] == [];
    } else {
      var init, cut := cuts[..|cuts| - 1], cuts[|cuts| - 1];
      seenBytes := PolledIsRaw(env, log, init);
      OnePoll(env, log, seenBytes, Polled(env, log, init), cut);
      if Parse(env, log[..cut], Polled(env, log, init).cursor).Ok? {
        OneMorePoll(env, log, seenBytes, Polled(env, log, init), cut);
        seenBytes := cut;
      }
    }
  }

  /** For a log in which no repeat key occurs twice, cutting it into polls at any bytes, even inside a record, changes
      nothing: same events, same line numbers, same cursor. */
  lemma RepeatFreeIncrementalIsExact(env: Env, log: seq<byte>, cuts: seq<nat>)
    requires Cuts(log, cuts) && cuts != [] && cuts[|cuts| - 1] == |log|
    requires RecordsFit(log, 0, env.recordLimit) && RepeatFree(env, log)
    ensures Parse(env, log, NO_CURSOR) == Ok(Polled(env, log, cuts))
  {
    IncrementalEqualsFull(env, log, cuts);
    assert log[..|log|] == log;
    var seenBytes := PolledIsRaw(env, log, cuts);
    FullParseIsRaw(env, log);
  }

  // ----- Cumulative logs -----

  /** The decoded complete records of a log. */
  function RecordsFrom(env: Env, log: seq<byte>, from: nat): seq<Record>
    requires from <= |log|
    decreases |log| - from
  {
    if Terminated(log, from) then
      [env.decode(log[from..LineEnd(log, from)])] + RecordsFrom(env, log, LineEnd(log, from))
    else []
  }

  predicate Cumulative(record: Record) {
    record.TokenCount? && record.last.Some? ==> record.total.Some?
  }

  ghost predicate CumulativeLog(env: Env, log: seq<byte>, from: nat)
    requires from <= |log|
  {
    forall record :: record in RecordsFrom(env, log, from) ==> Cumulative(record)
  }

  lemma CumulativeHasNoKey(env: Env, s: ParseState, line: nat, record: Record)
    requires Cumulative(record)
    ensures TakeRecord(env, s, line, record).1.Some? ==> TakeRecord(env, s, line, record).1.value.key.None?
  {
  }

  lemma NoKeyFirst(env: Env, log: seq<byte>, p: Progress)
    requires p.offset <= |log| && Terminated(log, p.offset) && CumulativeLog(env, log, p.offset)
    ensures CumulativeLog(env, log, LineEnd(log, p.offset))
    ensures
      var emitted := StepOf(env)(p.state, p.line + 1, log[p.offset..LineEnd(log, p.offset)]).1;
      emitted.Some? ==> emitted.value.key.None?
  {
    var end := LineEnd(log, p.offset);
    var records := RecordsFrom(env, log, p.offset);
    assert records[0] == env.decode(log[p.offset..end]) && records[0] in records;
    assert records[1..] == RecordsFrom(env, log, end) && forall r :: r in records[1..] ==> r in records;
    CumulativeHasNoKey(env, p.state, p.line + 1, records[0]);
  }

  lemma {:induction false} CumulativeHasNoKeys(env: Env, log: seq<byte>, p: Progress)
    requires p.offset <= |log| && CumulativeLog(env, log, p.offset)
    ensures forall e :: e in RawFrom(StepOf(env), log, p) ==> e.key.None?
    decreases |log| - p.offset
  {
    if Terminated(log, p.offset) {
      var text := log[p.offset..LineEnd(log, p.offset)];
      var taken, q := StepOf(env)(p.state, p.line + 1, text), TakeLine(StepOf(env), p, text);
      NoKeyFirst(env, log, p);
      NextPlace(p, |text|, taken.0, taken.1);
      CumulativeHasNoKeys(env, log, q);
      RawStep(StepOf(env), log, p, q, taken);
    }
  }

  /** Cumulative records have no repeat keys. */
  lemma CumulativeIsRepeatFree(env: Env, log: seq<byte>)
    requires CumulativeLog(env, log, 0)
    ensures RepeatFree(env, log)
  {
    CumulativeHasNoKeys(env, log, Start(env));
  }

  /** In particular a log whose token records all carry the cumulative counters can be cut anywhere. */
  lemma CumulativeIncrementalIsExact(env: Env, log: seq<byte>, cuts: seq<nat>)
    requires Cuts(log, cuts) && cuts != [] && cuts[|cuts| - 1] == |log|
    requires RecordsFit(log, 0, env.recordLimit) && CumulativeLog(env, log, 0)
    ensures Parse(env, log, NO_CURSOR) == Ok(Polled(env, log, cuts))
  {
    CumulativeIsRepeatFree(env, log);
    RepeatFreeIncrementalIsExact(env, log, cuts);
  }

  // ----- Cursors and line numbers -----

  /** A parse that reports an event moves its cursor. */
  lemma EmittingMovesCursor(env: Env, log: seq<byte>, cursor: Cursor)
    requires Parse(env, log, cursor).Ok? && Parse(env, log, cursor).value.events != []
    ensures Parse(env, log, cursor).value.cursor != cursor
  {
    PositionsAdvance(StepOf(env), log, ResumePoint(env, log, cursor));
    if !Resumable(env, log, cursor) {
      var q := ParseFrom(StepOf(env), log, Start(env));
      assert q.offset > 0 && q.line > 0;
    }
  }

  /** Events on increasing lines after `from` and not after `to`. */
  predicate LinesWithin(es: seq<Emission>, from: nat, to: nat) {
    (forall i :: 0 <= i < |es| ==> es[i].event.id.Digest? && from < es[i].event.id.offset <= to) &&
    (forall i, j :: 0 <= i < j < |es| ==> es[i].event.id.offset < es[j].event.id.offset)
  }

  lemma {:induction false} EventLinesIncrease(env: Env, log: seq<byte>, p: Progress, from: nat)
    requires p.offset <= |log| && from <= p.line && LinesWithin(p.events, from, p.line)
    ensures LinesWithin(ParseFrom(StepOf(env), log, p).events, from, ParseFrom(StepOf(env), log, p).line)
    decreases |log| - p.offset
  {
    if Terminated(log, p.offset) {
      var text := log[p.offset..LineEnd(log, p.offset)];
      EmittedLine(env, p.state, p.line + 1, env.decode(text));
      EventLinesIncrease(env, log, TakeLine(StepOf(env), p, text), from);
    }
  }

  lemma EmittedLine(env: Env, s: ParseState, line: nat, record: Record)
    ensures TakeRecord(env, s, line, record).1.Some? ==>
      var id := TakeRecord(env, s, line, record).1.value.event.id;
      id.Digest? && id.offset == line
  {
  }

  /** No two events of one log share an ID. */
  lemma EventIdsAreDistinct(env: Env, log: seq<byte>, i: nat, j: nat)
    requires i < j < |FullParse(env, log).events|
    ensures FullParse(env, log).events[i].event.id != FullParse(env, log).events[j].event.id
  {
    EventLinesIncrease(env, log, Start(env), 0);
  }

  lemma LinesGoOn(es: seq<Emission>, more: seq<Emission>, from: nat, mid: nat, to: nat)
    requires from <= mid <= to && LinesWithin(es, from, mid) && LinesWithin(more, mid, to)
    ensures LinesWithin(es + more, from, to)
  {
  }

  /** Nor do two events that were polled from it. */
  lemma {:induction false} PolledLinesIncrease(env: Env, log: seq<byte>, cuts: seq<nat>)
    requires Cuts(log, cuts)
    ensures LinesWithin(Polled(env, log, cuts).events, 0, Polled(env, log, cuts).cursor.line)
  {
    if cuts != [] {
      var init, cut := cuts[..|cuts| - 1], cuts[|cuts| - 1];
      var before := Polled(env, log, init);
      PolledLinesIncrease(env, log, init);
      var seenBytes := PollsAgree(env, log, init);
      if Parse(env, log[..cut], before.cursor).Ok? {
        ResumesAtTheEnd(env, log, seenBytes, before, cut);
        var p := ResumePoint(env, log[..cut], before.cursor);
        EventLinesIncrease(env, log[..cut], p, p.line);
        PositionsAdvance(StepOf(env), log[..cut], p);
        var q := ParseFrom(StepOf(env), log[..cut], p);
        LinesGoOn(before.events, q.events, 0, p.line, q.line);
      }
    }
  }

  // ----- What the events have in common -----

  /** What every event of the parser has in common. */
  predicate Detailed(e: Event) {
    && e.adapter == ADAPTER_ID && e.session != "" && e.tokens.AllSet() && e.tokens.NonNegative()
    && e.details.cost.None? && e.details.durationMs.None?
  }

  lemma {:induction false} EventsAreDetailed(env: Env, log: seq<byte>, p: Progress)
    requires p.offset <= |log| && forall m :: m in p.events ==> Detailed(m.event)
    ensures forall m :: m in ParseFrom(StepOf(env), log, p).events ==> Detailed(m.event)
    decreases |log| - p.offset
  {
    if Terminated(log, p.offset) {
      var text := log[p.offset..LineEnd(log, p.offset)];
      EmissionIsDetailed(env, p.state, p.line + 1, env.decode(text));
      EventsAreDetailed(env, log, TakeLine(StepOf(env), p, text));
    }
  }

  lemma EmissionIsDetailed(env: Env, s: ParseState, line: nat, record: Record)
    ensures TakeRecord(env, s, line, record).1.Some? ==> Detailed(TakeRecord(env, s, line, record).1.value.event)
  {
  }

  lemma {:induction false} PolledAreDetailed(env: Env, log: seq<byte>, cuts: seq<nat>)
    requires Cuts(log, cuts)
    ensures forall m :: m in Polled(env, log, cuts).events ==> Detailed(m.event)
  {
    if cuts != [] {
      var init, cut := cuts[..|cuts| - 1], cuts[|cuts| - 1];
      PolledAreDetailed(env, log, init);
      EventsAreDetailed(env, log[..cut], ResumePoint(env, log[..cut], Polled(env, log, init).cursor));
    }
  }
}
