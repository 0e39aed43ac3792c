/** What a cursor of an append-only cumulative log stands for. */
module CodexCommitted {
  import opened Wrappers
  import opened RecordReader
  import opened CodexUsage
  import opened CodexLog
  import opened CodexResume

  /** The same environment under another cache identity. */
  function Under(env: Env, identity: string): Env {
    env.(cacheIdentity := identity)
  }

  /** The events of everything up to `offset` are behind the cursor, whatever cache identity it was saved under. */
  predicate CursorAt(env: Env, log: seq<byte>, cursor: Cursor) {
    && cursor.offset <= |log| && cursor.saved.Some?
    && cursor == CursorOf(Under(env, cursor.saved.value.cacheIdentity), FullParse(env, log[..cursor.offset]))
  }

  function Covered(env: Env, log: seq<byte>, cursor: Cursor): seq<Emission>
    requires cursor.offset <= |log|
  {
    FullParse(env, log[..cursor.offset]).events
  }

  // ----- The cache identity decides where a parse starts, never what it reports -----

  lemma {:induction false} SnapshotUnder(env: Env, identity: string, records: seq<Record>, forkAt: int)
    ensures LatestSnapshot(Under(env, identity), records, forkAt) == LatestSnapshot(env, records, forkAt)
  {
    if records != [] {
      SnapshotUnder(env, identity, records[..|records| - 1], forkAt);
    }
  }

  lemma BaselineUnder(env: Env, identity: string, meta: SessionMetadata)
    ensures ResolveForkBaseline(Under(env, identity), meta) == ResolveForkBaseline(env, meta)
  {
    var parent := ForkParentId(meta);
    if parent in env.sessionFiles && env.sessionFiles[parent] in env.parentLogs && env.parseTime(meta.timestamp).Some? {
      SnapshotUnder(
        env, identity, env.parentLogs[env.sessionFiles[parent]].records, env.parseTime(meta.timestamp).value);
    }
  }

  lemma RecordUnder(env: Env, identity: string, s: ParseState, line: nat, record: Record)
    ensures TakeRecord(Under(env, identity), s, line, record) == TakeRecord(env, s, line, record)
  {
    if record.SessionMeta? {
      var timestamp := FirstNonEmpty([record.meta.timestamp, record.recordTimestamp]);
      BaselineUnder(env, identity, record.meta.(timestamp := timestamp));
    }
  }

  lemma {:induction false} SameSteps(one: Step, other: Step, log: seq<byte>, p: Progress)
    requires p.offset <= |log| && forall s, line, text :: one(s, line, text) == other(s, line, text)
    ensures ParseFrom(one, log, p) == ParseFrom(other, log, p)
    decreases |log| - p.offset
  {
    if Terminated(log, p.offset) {
      SameSteps(one, other, log, TakeLine(one, p, log[p.offset..LineEnd(log, p.offset)]));
    }
  }

  lemma ParseUnder(env: Env, identity: string, log: seq<byte>, p: Progress)
    requires p.offset <= |log|
    ensures ParseFrom(StepOf(Under(env, identity)), log, p) == ParseFrom(StepOf(env), log, p)
  {
    forall s, line, text ensures StepOf(Under(env, identity))(s, line, text) == StepOf(env)(s, line, text) {
      RecordUnder(env, identity, s, line, env.decode(text));
    }
    SameSteps(StepOf(Under(env, identity)), StepOf(env), log, p);
  }

  lemma StartUnder(env: Env, identity: string)
    ensures Start(Under(env, identity)) == Start(env)
  {
    BaselineUnder(env, identity, env.sourceMetadata);
  }

  // ----- Logs grow -----

  lemma {:induction false} EventsOnlyAdded(step: Step, log: seq<byte>, p: Progress)
    requires p.offset <= |log|
    ensures p.events <= ParseFrom(step, log, p).events
    decreases |log| - p.offset
  {
    if Terminated(log, p.offset) {
      EventsOnlyAdded(step, log, TakeLine(step, p, log[p.offset..LineEnd(log, p.offset)]));
    }
  }

  lemma EventsGrow(env: Env, log: seq<byte>, more: seq<byte>)
    ensures FullParse(env, log).events <= FullParse(env, log + more).events
  {
    ParseInTwoSteps(StepOf(env), log, more, Start(env));
    EventsOnlyAdded(StepOf(env), log + more, FullParse(env, log));
  }

  /** Without its unterminated tail a log parses to the same end. */
  lemma {:induction false} TailIgnored(step: Step, log: seq<byte>, p: Progress)
    requires p.offset <= |log|
    ensures ParseFrom(step, log[..ParseFrom(step, log, p).offset], p) == ParseFrom(step, log, p)
    decreases |log| - p.offset
  {
    var q := ParseFrom(step, log, p);
    var trimmed := log[..q.offset];
    if Terminated(log, p.offset) {
      var end := LineEnd(log, p.offset);
      var text := log[p.offset..end];
      LineEndTrimmed(log, p.offset, q.offset);
      assert trimmed[p.offset..end] == text;
      TailIgnored(step, log, TakeLine(step, p, text));
    } else {
      assert q == p && LineEnd(trimmed, p.offset) == p.offset;
    }
  }

  lemma LineEndTrimmed(log: seq<byte>, from: nat, to: nat)
    requires from <= to <= |log| && Terminated(log, from) && LineEnd(log, from) <= to
    ensures Terminated(log[..to], from) && LineEnd(log[..to], from) == LineEnd(log, from)
    decreases |log| - from
  {
    assert log[..to][from] == log[from];
    if log[from] != NEWLINE {
      LineEndTrimmed(log, from + 1, to);
    }
  }

  /** The cursor a parse leaves is the cursor of the complete records it saw, now and after any append. */
  lemma CursorStandsForRecords(env: Env, identity: string, log: seq<byte>, more: seq<byte>)
    ensures
      var cursor := CursorOf(Under(env, identity), FullParse(env, log));
      && CursorAt(env, log + more, cursor)
      && Covered(env, log + more, cursor) == FullParse(env, log).events
  {
    var q := FullParse(env, log);
    TailIgnored(StepOf(env), log, Start(env));
    assert (log + more)[..q.offset] == log[..q.offset];
  }

  // ----- Going on from a committed cursor -----

  /** A saved state is used again only under the cache identity it was saved under. */
  predicate GoesOn(cursor: Cursor, identity: string) {
    cursor.saved.Some? && cursor.saved.value.cacheIdentity == identity
  }

  lemma GoesOnAtTheEnd(env: Env, identity: string, log: seq<byte>, cursor: Cursor)
    requires CursorAt(env, log, cursor) && GoesOn(cursor, identity)
    ensures
      var p := ResumePoint(Under(env, identity), log, cursor);
      SamePlace(FullParse(env, log[..cursor.offset]), p) && p.seen == {} && p.events == []
  {
    PositionsAdvance(StepOf(env), log[..cursor.offset], Start(env));
    StartUnder(env, identity);
  }

  /** Wherever a parse starts that had read everything before, it ends where a full parse ends. */
  lemma EndsWhereFullParseEnds(env: Env, identity: string, log: seq<byte>, cursor: Cursor)
    requires CursorAt(env, log, cursor) && Parse(Under(env, identity), log, cursor).Ok?
    ensures Parse(Under(env, identity), log, cursor).value.cursor == CursorOf(Under(env, identity), FullParse(env, log))
  {
    var p := ResumePoint(Under(env, identity), log, cursor);
    ParseUnder(env, identity, log, p);
    StartUnder(env, identity);
    if GoesOn(cursor, identity) {
      GoesOnAtTheEnd(env, identity, log, cursor);
      var seen := log[..cursor.offset];
      assert seen + log[cursor.offset..] == log;
      ParseInTwoSteps(StepOf(env), seen, log[cursor.offset..], Start(env));
      SamePlaceSameEnd(StepOf(env), log, FullParse(env, seen), p);
    }
  }

  lemma {:induction false} SamePlaceSameEnd(step: Step, log: seq<byte>, p: Progress, q: Progress)
    requires p.offset <= |log| && SamePlace(p, q)
    ensures SamePlace(ParseFrom(step, log, p), ParseFrom(step, log, q))
    decreases |log| - p.offset
  {
    if Terminated(log, p.offset) {
      var text := log[p.offset..LineEnd(log, p.offset)];
      SamePlaceSameEnd(step, log, TakeLine(step, p, text), TakeLine(step, q, text));
    }
  }

  /** A pass that starts at a committed cursor collects exactly what the cursor does not cover, or everything when the
      cache identity changed meanwhile. */
  lemma CollectsTheRest(env: Env, identity: string, log: seq<byte>, cursor: Cursor)
    requires RepeatFree(env, log) && CursorAt(env, log, cursor)
    ensures Parse(Under(env, identity), log, cursor).Ok? ==>
      var r := Parse(Under(env, identity), log, cursor).value;
      && r.cursor == CursorOf(Under(env, identity), FullParse(env, log))
      && (if GoesOn(cursor, identity) then Covered(env, log, cursor) + r.events else r.events) ==
        FullParse(env, log).events
  {
    var seen := log[..cursor.offset];
    assert seen + log[cursor.offset..] == log && log <= log;
    if Parse(Under(env, identity), log, cursor).Ok? {
      EndsWhereFullParseEnds(env, identity, log, cursor);
      var p := ResumePoint(Under(env, identity), log, cursor);
      ParseUnder(env, identity, log, p);
      if GoesOn(cursor, identity) {
        GoesOnAtTheEnd(env, identity, log, cursor);
        RestOfRepeatFree(env, seen, log, log, p);
        RepeatFreePrefix(env, seen, log[cursor.offset..]);
        FullParseIsRaw(env, seen);
        FullParseIsRaw(env, log);
      } else {
        StartUnder(env, identity);
      }
    }
  }

  lemma FirstPollCollectsAll(env: Env, identity: string, log: seq<byte>)
    requires Parse(Under(env, identity), log, NO_CURSOR).Ok?
    ensures Parse(Under(env, identity), log, NO_CURSOR).value ==
      ParseResult(FullParse(env, log).events, CursorOf(Under(env, identity), FullParse(env, log)))
  {
    StartUnder(env, identity);
    ParseUnder(env, identity, log, Start(env));
  }

  /** Parsing an unchanged log again from the cursor of the last parse reports nothing and leaves the cursor. */
  lemma ReparseIsIdle(env: Env, log: seq<byte>, cursor: Cursor)
    requires Parse(env, log, cursor).Ok?
    ensures
      var next := Parse(env, log, cursor).value.cursor;
      Parse(env, log, next) == Ok(ParseResult([], next))
  {
    var p := ResumePoint(env, log, cursor);
    var q := ParseFrom(StepOf(env), log, p);
    PositionsAdvance(StepOf(env), log, p);
    assert RecordsFit(log, q.offset, env.recordLimit) by {
      assert log + [] == log;
      FitsLater(StepOf(env), log, [], p, env.recordLimit);
    }
    var again := ResumePoint(env, log, CursorOf(env, q));
    if q.offset == 0 {
      assert again == Start(env) == p == q;
    } else {
      assert again == Progress(q.offset, q.line, q.state, {}, []);
    }
    assert ParseFrom(StepOf(env), log, again) == again;
  }
}
