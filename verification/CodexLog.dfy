/** The incremental Codex log parser (internal/adapters/codex/codex.go). */
module CodexLog {
  import opened Wrappers
  import opened Events
  import opened RecordReader
  import opened CodexUsage

  // ----- Decoded records -----

  datatype SessionMetadata = SessionMetadata(
    id: string, sessionId: string, provider: string, project: string,
    forkedFromId: string, forkedFromIdAlt: string, parentSessionId: string, parentSessionIdAlt: string,
    timestamp: string)

  /** What JSON decoding makes of one line; `Other` is every line the parser skips. Texts are trimmed,
      session IDs and projects normalized. */
  datatype Record =
    | SessionMeta(meta: SessionMetadata, recordTimestamp: string)
    | TurnContext(turnModel: string, turnProject: string)
    | TokenCount(timestamp: string, model: string, modelName: string, last: Option<RawUsage>, total: Option<RawUsage>)
    | Other

  /** What the scan of a parent log sees: the decoded records up to its end, or up to a read error or an oversized
      line. */
  datatype ParentLog = ParentLog(records: seq<Record>, readError: bool)

  /** Everything a parse depends on besides the log itself. The opaque parts are functions. */
  datatype Env = Env(
    machine: string, path: string, cacheIdentity: string, sourceMetadata: SessionMetadata,
    sessionFiles: map<string, string>, parentLogs: map<string, ParentLog>,
    decode: seq<byte> -> Record, parseTime: string -> Option<int>, textOk: string -> bool, recordLimit: nat)

  const ADAPTER_ID := "codex"
  const ADAPTER_VERSION := "0.6.0"
  const STATE_VERSION: nat := 1

  function FirstNonEmpty(values: seq<string>): (r: string)
    ensures r == "" <==> forall i :: 0 <= i < |values| ==> values[i] == ""
    ensures r != "" ==> r in values
  {
    if values == [] then "" else if values[0] != "" then values[0] else FirstNonEmpty(values[1..])
  }

  /** Digests are modelled by the text that was hashed. */
  function HashIdentity(path: string): string {
    "sha256:" + path
  }

  // ----- The fork baseline -----

  function ForkParentId(meta: SessionMetadata): string {
    FirstNonEmpty([meta.forkedFromId, meta.forkedFromIdAlt, meta.parentSessionId, meta.parentSessionIdAlt])
  }

  /** A cumulative snapshot of the parent taken no later than the fork. */
  predicate SnapshotBy(env: Env, record: Record, forkAt: int) {
    record.TokenCount? && record.total.Some? &&
    env.parseTime(record.timestamp).Some? && env.parseTime(record.timestamp).value <= forkAt
  }

  /** The last such snapshot in the order of the log. */
  function LatestSnapshot(env: Env, records: seq<Record>, forkAt: int): Option<Usage> {
    if records == [] then None
    else if SnapshotBy(env, records[|records| - 1], forkAt) then
      Some(NormalizeTokenUsage(records[|records| - 1].total.value))
    else LatestSnapshot(env, records[..|records| - 1], forkAt)
  }

  /** An unreadable fork time finds nothing; a scan that stopped on an error is an error, whatever it found. */
  method InheritedCumulativeUsage(env: Env, parent: ParentLog, forkTimestamp: string)
    returns (found: Result<Option<Usage>, string>)
    ensures env.parseTime(forkTimestamp).None? ==> found == Ok(None)
    ensures env.parseTime(forkTimestamp).Some? ==> (found.Err? <==> parent.readError)
    ensures env.parseTime(forkTimestamp).Some? && !parent.readError ==>
      found == Ok(LatestSnapshot(env, parent.records, env.parseTime(forkTimestamp).value))
  {
    var forkAt := env.parseTime(forkTimestamp);
    if forkAt.None? {
      return Ok(None);
    }
    var latest: Option<Usage> := None;
    for i := 0 to |parent.records|
      invariant latest == LatestSnapshot(env, parent.records[..i], forkAt.value)
    {
      assert parent.records[..i + 1][..i] == parent.records[..i];
      if SnapshotBy(env, parent.records[i], forkAt.value) {
        latest := Some(NormalizeTokenUsage(parent.records[i].total.value));
      }
    }
    assert parent.records[..|parent.records|] == parent.records;
    if parent.readError {
      return Err("provider log could not be read");
    }
    found := Ok(latest);
  }

  function ResolveForkBaseline(env: Env, meta: SessionMetadata): Option<Usage> {
    var parent := ForkParentId(meta);
    if parent == "" || meta.timestamp == "" || parent !in env.sessionFiles then None
    else
      var path := env.sessionFiles[parent];
      if path == "" || path == env.path || path !in env.parentLogs then None
      else if env.parentLogs[path].readError || env.parseTime(meta.timestamp).None? then None
      else LatestSnapshot(env, env.parentLogs[path].records, env.parseTime(meta.timestamp).value)
  }

  // ----- The parse state saved in a cursor -----

  datatype ParseState = ParseState(
    sessionId: string, sourceSessionId: string, provider: string, model: string, project: string,
    previous: Usage, hasPrevious: bool,
    baseline: Usage, forkResolved: bool, prefixPending: bool, remainingPrefix: Usage)

  datatype SavedState = SavedState(version: nat, cacheIdentity: string, state: ParseState)

  /** `saved` is None for a missing or undecodable state blob. */
  datatype Cursor = Cursor(identity: string, offset: nat, line: nat, saved: Option<SavedState>)

  const NO_CURSOR := Cursor("", 0, 0, None)

  /** The dimensions a repeated last_token_usage snapshot is recognized by. */
  datatype RepeatKey = RepeatKey(
    session: string, instant: int, provider: string, model: string,
    input: int, cached: int, output: int, reasoning: int, total: int)

  datatype Emission = Emission(event: Event, key: Option<RepeatKey>)

  function AsSeq(emission: Option<Emission>): seq<Emission> {
    if emission.Some? then [emission.value] else []
  }

  function EventsIn(es: seq<Emission>): seq<Event> {
    seq(|es|, i requires 0 <= i < |es| => es[i].event)
  }

  datatype ParseResult = ParseResult(events: seq<Emission>, cursor: Cursor)

  /** The local variables of the parse loop. */
  datatype Progress = Progress(offset: nat, line: nat, state: ParseState, seen: set<RepeatKey>, events: seq<Emission>)

  function Start(env: Env): Progress {
    var fork := ResolveForkBaseline(env, env.sourceMetadata);
    var baseline := if fork.Some? then fork.value else ZERO;
    var state := ParseState(
      "", "", "openai", "unknown", "", ZERO, false, baseline, fork.Some?, fork.Some?, baseline);
    Progress(0, 0, state, {}, [])
  }

  // ----- One record -----

  function TakeSessionMeta(env: Env, s: ParseState, decoded: SessionMetadata, recordTimestamp: string): ParseState {
    var meta := decoded.(timestamp := FirstNonEmpty([decoded.timestamp, recordTimestamp]));
    var fork := if s.forkResolved then None else ResolveForkBaseline(env, meta);
    var s1 := if fork.None? then s
              else s.(baseline := fork.value, remainingPrefix := fork.value, previous := ZERO, hasPrevious := false,
                      prefixPending := true, forkResolved := true);
    s1.(sessionId := FirstNonEmpty([s.sessionId, meta.id, meta.sessionId]),
        sourceSessionId := FirstNonEmpty([s.sourceSessionId, meta.sessionId, meta.id]),
        provider := FirstNonEmpty([meta.provider, s.provider]),
        project := FirstNonEmpty([meta.project, s.project]))
  }

  /** The state after a token record, the tokens it reports, and whether it reports nothing at all. */
  datatype Counted = Counted(state: ParseState, tokens: Usage, skip: bool)

  function CountCumulative(s: ParseState, current: Usage): Counted {
    if s.prefixPending && current.total <= s.baseline.total then Counted(s, ZERO, false)
    else
      var s1 := if s.prefixPending then s.(previous := s.baseline, hasPrevious := true, prefixPending := false) else s;
      var previous := if s1.hasPrevious && current.total < s1.previous.total then ZERO else s1.previous;
      var tokens := current.Delta(previous);
      Counted(s1.(previous := current, hasPrevious := true), tokens, tokens.IsZero() && !s1.hasPrevious)
  }

  function CountLast(s: ParseState, raw: Usage): Counted {
    if raw.IsZero() then Counted(s, ZERO, true)
    else
      var adjusted := if s.forkResolved then raw.Minus(s.remainingPrefix) else raw;
      var s1 := if s.forkResolved then s.(remainingPrefix := s.remainingPrefix.Minus(raw)) else s;
      var tokens := EventTokenUsage(adjusted);
      Counted(s1, tokens, tokens.IsZero() && !s.forkResolved)
  }

  function Count(s: ParseState, record: Record): Counted
    requires record.TokenCount?
  {
    if record.total.Some? then CountCumulative(s, NormalizeTokenUsage(record.total.value))
    else if record.last.Some? then CountLast(s, NormalizeTokenUsage(record.last.value))
    else Counted(s, ZERO, true)
  }

  function CurrentModel(s: ParseState, record: Record): string
    requires record.TokenCount?
  {
    FirstNonEmpty([record.model, record.modelName, s.model, "unknown"])
  }

  /** The log's own session, or the digest of its path: an event always has one. */
  function StableSession(env: Env, s: ParseState): (session: string)
    ensures session != "" && (s.sessionId != "" ==> session == s.sessionId)
    ensures s.sessionId == "" ==> session == HashIdentity(env.path)
  {
    var candidates := [s.sessionId, HashIdentity(env.path)];
    assert candidates[1] != "";
    FirstNonEmpty(candidates)
  }

  function TokensOf(u: Usage): Tokens {
    Tokens(Some(u.input), Some(u.output), Some(u.cached), Some(u.cacheWrite), Some(u.reasoning), Some(u.total))
  }

  function EventOf(env: Env, s: ParseState, line: nat, record: Record, instant: int, tokens: Usage): Event
    requires record.TokenCount?
  {
    var session := StableSession(env, s);
    var source := FirstNonEmpty([s.sourceSessionId, session]);
    var model := CurrentModel(s, record);
    Event(Digest(env.machine, ADAPTER_ID, ADAPTER_ID + ":session:" + source, line, record.timestamp, source),
          instant, env.machine, session, s.provider, model, ADAPTER_ID, TokensOf(tokens), ADAPTER_ID,
          Details(s.project, "", None, false, "USD", None, Reported, ADAPTER_VERSION),
          env.textOk(s.provider) && env.textOk(model) && env.textOk(s.project) && env.textOk(session))
  }

  function RepeatKeyOf(env: Env, s: ParseState, record: Record, instant: int): Option<RepeatKey>
    requires record.TokenCount?
  {
    if record.total.Some? || record.last.None? then None
    else
      var raw := NormalizeTokenUsage(record.last.value);
      Some(RepeatKey(StableSession(env, s), instant, s.provider, CurrentModel(s, record),
                     raw.input, raw.cached, raw.output, raw.reasoning, raw.total))
  }

  /** The new state and the emission of one record, before repeats are dropped. */
  function TakeRecord(env: Env, s: ParseState, line: nat, record: Record): (ParseState, Option<Emission>) {
    match record
    case SessionMeta(meta, ts) => (TakeSessionMeta(env, s, meta, ts), None)
    case TurnContext(model, project) =>
      (s.(model := FirstNonEmpty([model, s.model]), project := FirstNonEmpty([project, s.project])), None)
    case Other => (s, None)
    case TokenCount(ts, _, _, _, _) =>
      var counted := Count(s, record);
      var instant := env.parseTime(ts);
      if counted.skip || instant.None? then (counted.state, None)
      else (counted.state, Some(Emission(EventOf(env, s, line, record, instant.value, counted.tokens),
                                         RepeatKeyOf(env, s, record, instant.value))))
  }

  predicate Repeated(seen: set<RepeatKey>, e: Emission) {
    e.key.Some? && e.key.value in seen
  }

  function KeysOf(e: Emission): set<RepeatKey> {
    if e.key.Some? then {e.key.value} else {}
  }

  /** One line further: the record's emission is kept unless it repeats an earlier one. */
  function Advance(p: Progress, length: nat, state: ParseState, emitted: Option<Emission>): Progress {
    var q := p.(offset := p.offset + length, line := p.line + 1, state := state);
    if emitted.None? || Repeated(p.seen, emitted.value) then q
    else q.(seen := p.seen + KeysOf(emitted.value), events := p.events + [emitted.value])
  }

  /** What one line does, given the state before it and its number. */
  type Step = (ParseState, nat, seq<byte>) -> (ParseState, Option<Emission>)

  function StepOf(env: Env): Step {
    (state: ParseState, line: nat, text: seq<byte>) => TakeRecord(env, state, line, env.decode(text))
  }

  function TakeLine(step: Step, p: Progress, text: seq<byte>): Progress {
    var taken := step(p.state, p.line + 1, text);
    Advance(p, |text|, taken.0, taken.1)
  }

  // ----- A whole parse -----

  /** Consumes every newline-terminated record; an unterminated tail is left for the next poll. */
  function ParseFrom(step: Step, log: seq<byte>, p: Progress): (q: Progress)
    requires p.offset <= |log|
    ensures p.offset <= q.offset <= |log|
    ensures !Terminated(log, q.offset)
    decreases |log| - p.offset
  {
    if Terminated(log, p.offset) then
      ParseFrom(step, log, TakeLine(step, p, log[p.offset..LineEnd(log, p.offset)]))
    else p
  }

  /** No record from `from` on, not even the unterminated tail, exceeds the record limit. */
  predicate RecordsFit(log: seq<byte>, from: nat, limit: nat)
    requires from <= |log|
    decreases |log| - from
  {
    LineEnd(log, from) - from <= limit && (Terminated(log, from) ==> RecordsFit(log, LineEnd(log, from), limit))
  }

  predicate Resumable(env: Env, log: seq<byte>, cursor: Cursor) {
    && cursor.saved.Some? && cursor.saved.value.version == STATE_VERSION
    && 0 < cursor.offset <= |log| && 0 < cursor.line
    && cursor.saved.value.cacheIdentity == env.cacheIdentity
    && (cursor.identity == "" || cursor.identity == HashIdentity(env.path))
  }

  function ResumePoint(env: Env, log: seq<byte>, cursor: Cursor): (p: Progress)
    ensures p.offset <= |log|
  {
    if Resumable(env, log, cursor) then Progress(cursor.offset, cursor.line, cursor.saved.value.state, {}, [])
    else Start(env)
  }

  function CursorOf(env: Env, q: Progress): Cursor {
    Cursor(HashIdentity(env.path), q.offset, q.line, Some(SavedState(STATE_VERSION, env.cacheIdentity, q.state)))
  }

  function Parse(env: Env, log: seq<byte>, cursor: Cursor): Result<ParseResult, string> {
    var p := ResumePoint(env, log, cursor);
    if !RecordsFit(log, p.offset, env.recordLimit) then Err("provider record exceeds the limit")
    else
      var q := ParseFrom(StepOf(env), log, p);
      Ok(ParseResult(q.events, CursorOf(env, q)))
  }

  const BUFFER_SIZE: nat := 64 * 1024

  /** The record loop. An unterminated tail stays unread, so the cursor never enters a half-written record. */
  method ParseLines(step: Step, log: seq<byte>, start: Progress, limit: nat) returns (result: Result<Progress, string>)
    requires start.offset <= |log|
    ensures result.Ok? <==> RecordsFit(log, start.offset, limit)
    ensures result.Ok? ==> result.value == ParseFrom(step, log, start)
  {
    var p := start;
    var reader := new Reader(log, BUFFER_SIZE, p.offset);
    while true
      invariant reader.Valid() && reader.file == log
      invariant p.offset == reader.position
      invariant ParseFrom(step, log, p) == ParseFrom(step, log, start)
      invariant RecordsFit(log, p.offset, limit) <==> RecordsFit(log, start.offset, limit)
      decreases |log| - reader.position
    {
      var read := reader.ReadRecordLimit(limit);
      if read.Err? {
        return Err(read.error);
      }
      var (text, atEnd) := read.value;
      if atEnd {
        break;
      }
      p := TakeLine(step, p, text);
    }
    result := Ok(p);
  }

  method ParseLogUncached(env: Env, log: seq<byte>, cursor: Cursor) returns (result: Result<ParseResult, string>)
    ensures result == Parse(env, log, cursor)
  {
    var lines := ParseLines(StepOf(env), log, ResumePoint(env, log, cursor), env.recordLimit);
    if lines.Err? {
      return Err("provider record exceeds the limit");
    }
    result := Ok(ParseResult(lines.value.events, CursorOf(env, lines.value)));
  }
}
