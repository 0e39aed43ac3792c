/** What an event of a Codex log is attributed to, in terms of the records of the log. */
module CodexContext {
  import opened Wrappers
  import opened Events
  import opened RecordReader
  import opened CodexUsage
  import opened CodexLog
  import opened CodexResume
  import opened CodexAccounting

  // ----- First and last texts -----

  predicate Empty(texts: seq<string>) {
    forall m :: 0 <= m < |texts| ==> texts[m] == ""
  }

  /** `value` is the last text that is not empty, or `otherwise` if all are. */
  predicate IsLast(texts: seq<string>, value: string, otherwise: string) {
    || (Empty(texts) && value == otherwise)
    || exists j :: 0 <= j < |texts| && texts[j] == value != "" && Empty(texts[j + 1..])
  }

  predicate IsFirst(texts: seq<string>, value: string, otherwise: string) {
    || (Empty(texts) && value == otherwise)
    || exists j :: 0 <= j < |texts| && texts[j] == value != "" && Empty(texts[..j])
  }

  // ----- What the records before an event say -----

  function ProviderIn(record: Record): string {
    if record.SessionMeta? then record.meta.provider else ""
  }

  function ModelIn(record: Record): string {
    if record.TurnContext? then record.turnModel else ""
  }

  function ProjectIn(record: Record): string {
    match record
    case SessionMeta(meta, _) => meta.project
    case TurnContext(_, project) => project
    case _ => ""
  }

  /** A forked log has the child in `id` and the original session in `session_id`. */
  function ChildIn(record: Record): string {
    if record.SessionMeta? then (if record.meta.id != "" then record.meta.id else record.meta.sessionId) else ""
  }

  function OriginIn(record: Record): string {
    if record.SessionMeta? then (if record.meta.sessionId != "" then record.meta.sessionId else record.meta.id) else ""
  }

  /** One text of every record, in order. */
  function Texts(text: Record -> string, records: seq<Record>): seq<string> {
    seq(|records|, i requires 0 <= i < |records| => text(records[i]))
  }

  /** The state after some records, where `take` says what one does; it does not depend on their line numbers. */
  function StateAfter(take: Take, s: ParseState, records: seq<Record>): ParseState {
    if records == [] then s
    else take(StateAfter(take, s, records[..|records| - 1]), 0, records[|records| - 1]).0
  }

  ghost predicate ContextOf(s: ParseState, records: seq<Record>) {
    && IsLast(Texts(ProviderIn, records), s.provider, "openai") && IsLast(Texts(ModelIn, records), s.model, "unknown")
    && IsLast(Texts(ProjectIn, records), s.project, "")
    && IsFirst(Texts(ChildIn, records), s.sessionId, "") && IsFirst(Texts(OriginIn, records), s.sourceSessionId, "")
  }

  function Or(a: string, b: string): string {
    if a != "" then a else b
  }

  lemma LastOfAppended(texts: seq<string>, value: string, otherwise: string, text: string)
    requires IsLast(texts, value, otherwise)
    ensures IsLast(texts + [text], Or(text, value), otherwise)
  {
    var after := texts + [text];
    if text != "" {
      assert after[|texts|] == text && after[|texts| + 1..] == [];
    } else if j :| 0 <= j < |texts| && texts[j] == value != "" && Empty(texts[j + 1..]) {
      assert after[j] == value && after[j + 1..] == texts[j + 1..] + [""];
    }
  }

  lemma FirstOfAppended(texts: seq<string>, value: string, text: string)
    requires IsFirst(texts, value, "")
    ensures IsFirst(texts + [text], Or(value, text), "")
  {
    var after := texts + [text];
    if j :| 0 <= j < |texts| && texts[j] == value != "" && Empty(texts[..j]) {
      assert after[j] == value && after[..j] == texts[..j];
    } else if text != "" {
      assert after[|texts|] == text && after[..|texts|] == texts;
    }
  }

  lemma LastText(text: Record -> string, init: seq<Record>, record: Record, value: string, otherwise: string)
    requires IsLast(Texts(text, init), value, otherwise)
    ensures IsLast(Texts(text, init + [record]), Or(text(record), value), otherwise)
  {
    assert Texts(text, init + [record]) == Texts(text, init) + [text(record)];
    LastOfAppended(Texts(text, init), value, otherwise, text(record));
  }

  lemma FirstText(text: Record -> string, init: seq<Record>, record: Record, value: string)
    requires IsFirst(Texts(text, init), value, "")
    ensures IsFirst(Texts(text, init + [record]), Or(value, text(record)), "")
  {
    assert Texts(text, init + [record]) == Texts(text, init) + [text(record)];
    FirstOfAppended(Texts(text, init), value, text(record));
  }

  lemma FirstOfTwo(a: string, b: string)
    ensures FirstNonEmpty([a, b]) == Or(a, b)
  {
    assert [a, b][1..] == [b] && [b][1..] == [];
  }

  lemma FirstOfThree(a: string, b: string, c: string)
    ensures FirstNonEmpty([a, b, c]) == Or(a, Or(b, c))
  {
    assert [a, b, c][1..] == [b, c];
    FirstOfTwo(b, c);
  }

  lemma MetaTexts(env: Env, s: ParseState, meta: SessionMetadata, timestamp: string)
    ensures
      var after := TakeSessionMeta(env, s, meta, timestamp);
      && after.provider == Or(meta.provider, s.provider) && after.model == s.model
      && after.project == Or(meta.project, s.project)
      && after.sessionId == Or(s.sessionId, Or(meta.id, meta.sessionId))
      && after.sourceSessionId == Or(s.sourceSessionId, Or(meta.sessionId, meta.id))
  {
    FirstOfTwo(meta.provider, s.provider);
    FirstOfTwo(meta.project, s.project);
    FirstOfThree(s.sessionId, meta.id, meta.sessionId);
    FirstOfThree(s.sourceSessionId, meta.sessionId, meta.id);
  }

  /** What one record does to the context. */
  predicate Follows(s: ParseState, after: ParseState, record: Record) {
    && after.provider == Or(ProviderIn(record), s.provider) && after.model == Or(ModelIn(record), s.model)
    && after.project == Or(ProjectIn(record), s.project)
    && after.sessionId == Or(s.sessionId, ChildIn(record))
    && after.sourceSessionId == Or(s.sourceSessionId, OriginIn(record))
  }

  ghost predicate ContextFollows(take: Take) {
    forall s, line, record :: Follows(s, take(s, line, record).0, record)
  }

  lemma CountKeepsTexts(s: ParseState, record: Record)
    requires record.TokenCount?
    ensures
      var after := Count(s, record).state;
      && after.provider == s.provider && after.model == s.model && after.project == s.project
      && after.sessionId == s.sessionId && after.sourceSessionId == s.sourceSessionId
  {
  }

  lemma TextsStep(env: Env, s: ParseState, line: nat, record: Record)
    ensures Follows(s, TakeRecord(env, s, line, record).0, record)
  {
    match record
    case SessionMeta(meta, timestamp) => MetaTexts(env, s, meta, timestamp);
    case TurnContext(model, project) =>
      FirstOfTwo(model, s.model);
      FirstOfTwo(project, s.project);
    case TokenCount(_, _, _, _, _) => CountKeepsTexts(s, record);
    case Other =>
  }

  lemma RecordsFollow(env: Env)
    ensures ContextFollows(TakeOf(env))
  {
    forall s, line, record ensures Follows(s, TakeOf(env)(s, line, record).0, record) {
      TextsStep(env, s, line, record);
    }
  }

  lemma ContextStep(s: ParseState, after: ParseState, init: seq<Record>, record: Record)
    requires ContextOf(s, init) && Follows(s, after, record)
    ensures ContextOf(after, init + [record])
  {
    LastText(ProviderIn, init, record, s.provider, "openai");
    LastText(ModelIn, init, record, s.model, "unknown");
    LastText(ProjectIn, init, record, s.project, "");
    FirstText(ChildIn, init, record, s.sessionId);
    FirstText(OriginIn, init, record, s.sourceSessionId);
  }

  lemma {:induction false} ContextIs(take: Take, s: ParseState, records: seq<Record>)
    requires ContextFollows(take) && ContextOf(s, [])
    ensures ContextOf(StateAfter(take, s, records), records)
  {
    if records != [] {
      var init, record := records[..|records| - 1], records[|records| - 1];
      var before := StateAfter(take, s, init);
      ContextIs(take, s, init);
      ContextStep(before, take(before, 0, record).0, init, record);
      assert records == init + [record];
    }
  }

  lemma StartContext(env: Env)
    ensures ContextOf(Start(env).state, [])
  {
    assert Empty(Texts(ProviderIn, [])) && Empty(Texts(ModelIn, [])) && Empty(Texts(ProjectIn, []));
    assert Empty(Texts(ChildIn, [])) && Empty(Texts(OriginIn, []));
  }

  // ----- The events -----

  ghost predicate IgnoresLine(take: Take) {
    forall s, line, record :: take(s, line, record).0 == take(s, 0, record).0
  }

  lemma {:induction false} StateAfterMore(take: Take, s: ParseState, line: nat, record: Record, rest: seq<Record>)
    requires IgnoresLine(take)
    ensures StateAfter(take, take(s, line, record).0, rest) == StateAfter(take, s, [record] + rest)
  {
    var all := [record] + rest;
    if rest == [] {
      assert all[..0] == [] && all[0] == record;
    } else {
      StateAfterMore(take, s, line, record, rest[..|rest| - 1]);
      assert all[..|all| - 1] == [record] + rest[..|rest| - 1];
    }
  }

  /** Record n, with the state that the records before it leave, is what is emitted on its line. */
  predicate EmittedBy(take: Take, s: ParseState, line: nat, records: seq<Record>, n: nat, m: Emission) {
    n < |records| && take(StateAfter(take, s, records[..n]), line + n + 1, records[n]).1 == Some(m)
  }

  lemma {:induction false} EmissionIsOfRecord(take: Take, s: ParseState, line: nat, records: seq<Record>, m: Emission)
    returns (n: nat)
    requires IgnoresLine(take) && m in EmissionsOf(take, s, line, records)
    ensures EmittedBy(take, s, line, records, n, m)
    decreases |records|
  {
    var first, rest := records[0], records[1..];
    var taken := take(s, line + 1, first);
    if taken.1 == Some(m) {
      n := 0;
    } else {
      var k := EmissionIsOfRecord(take, taken.0, line + 1, rest, m);
      StateAfterMore(take, s, line + 1, first, rest[..k]);
      assert records[..k + 1] == [first] + rest[..k];
      n := k + 1;
    }
  }

  lemma AddedEvent(p: Progress, length: nat, state: ParseState, emitted: Option<Emission>, m: Emission)
    requires m in Advance(p, length, state, emitted).events
    ensures m in p.events || m in AsSeq(emitted)
  {
  }

  lemma {:induction false} EventIsEmitted(step: Step, log: seq<byte>, p: Progress, m: Emission)
    requires p.offset <= |log| && m in ParseFrom(step, log, p).events
    ensures m in p.events || m in RawFrom(step, log, p)
    decreases |log| - p.offset
  {
    if Terminated(log, p.offset) {
      var end := LineEnd(log, p.offset);
      var text := log[p.offset..end];
      var taken := step(p.state, p.line + 1, text);
      var q := Advance(p, end - p.offset, taken.0, taken.1);
      assert q == TakeLine(step, p, text);
      NextPlace(p, end - p.offset, taken.0, taken.1);
      RawStep(step, log, p, q, taken);
      EventIsEmitted(step, log, q, m);
      if m in q.events {
        AddedEvent(p, end - p.offset, taken.0, taken.1, m);
      }
    }
  }

  /** The columns of the event of a token record that follows `before` in its log. */
  ghost predicate Attributed(env: Env, before: seq<Record>, record: Record, e: Event)
    requires record.TokenCount?
  {
    && env.parseTime(record.timestamp) == Some(e.instant) && e.machine == env.machine
    && e.adapter == "codex" && e.tool == "codex"
    && IsLast(Texts(ProviderIn, before), e.provider, "openai")
    && IsLast(Texts(ModelIn, before) + [record.modelName] + [record.model], e.model, "unknown")
    && IsLast(Texts(ProjectIn, before), e.details.project, "")
    && IsFirst(Texts(ChildIn, before) + ["sha256:" + env.path], e.session, "")
  }

  /** The ID of the event hashes the machine, the origin of the session, the line and the time of the record. */
  ghost predicate Identified(env: Env, before: seq<Record>, record: Record, line: nat, e: Event)
    requires record.TokenCount?
  {
    exists origin ::
      && IsFirst(Texts(OriginIn, before) + [e.session], origin, "")
      && e.id == Digest(env.machine, "codex", "codex:session:" + origin, line, record.timestamp, origin)
  }

  lemma ModelOf(s: ParseState, record: Record)
    requires record.TokenCount? && s.model != ""
    ensures CurrentModel(s, record) == Or(record.model, Or(record.modelName, s.model))
  {
    assert [record.model, record.modelName, s.model, "unknown"][1..] == [record.modelName, s.model, "unknown"];
    FirstOfThree(record.modelName, s.model, "unknown");
  }

  lemma EventOfFields(env: Env, s: ParseState, line: nat, record: Record, instant: int, tokens: Usage)
    requires record.TokenCount? && s.model != ""
    ensures
      var e := EventOf(env, s, line, record, instant, tokens);
      && e.instant == instant && e.machine == env.machine && e.adapter == "codex" && e.tool == "codex"
      && e.provider == s.provider && e.details.project == s.project
      && e.model == Or(record.model, Or(record.modelName, s.model))
      && e.session == Or(s.sessionId, "sha256:" + env.path)
      && e.id == Digest(env.machine, "codex", "codex:session:" + Or(s.sourceSessionId, e.session), line,
                        record.timestamp, Or(s.sourceSessionId, e.session))
  {
    ModelOf(s, record);
    FirstOfTwo(s.sourceSessionId, StableSession(env, s));
  }

  lemma EmittedEvent(env: Env, s: ParseState, line: nat, record: Record, m: Emission) returns (tokens: Usage)
    requires TakeRecord(env, s, line, record).1 == Some(m)
    ensures record.TokenCount? && env.parseTime(record.timestamp).Some?
    ensures m.event == EventOf(env, s, line, record, env.parseTime(record.timestamp).value, tokens)
  {
    tokens := Count(s, record).tokens;
  }

  lemma EventTexts(env: Env, s: ParseState, line: nat, before: seq<Record>, record: Record, m: Emission)
    requires ContextOf(s, before) && TakeRecord(env, s, line, record).1 == Some(m)
    ensures record.TokenCount? && Attributed(env, before, record, m.event)
    ensures Identified(env, before, record, line, m.event)
  {
    var tokens := EmittedEvent(env, s, line, record, m);
    EventOfFields(env, s, line, record, env.parseTime(record.timestamp).value, tokens);
    LastOfAppended(Texts(ModelIn, before), s.model, "unknown", record.modelName);
    LastOfAppended(
      Texts(ModelIn, before) + [record.modelName], Or(record.modelName, s.model), "unknown", record.model);
    FirstOfAppended(Texts(ChildIn, before), s.sessionId, "sha256:" + env.path);
    FirstOfAppended(Texts(OriginIn, before), s.sourceSessionId, m.event.session);
  }

  lemma LinesDoNotMatter(env: Env)
    ensures IgnoresLine(TakeOf(env))
  {
  }

  /** Every event of a log is the event of one of its records, dated by it, numbered by its line, and attributed to the
      first session, the last provider and project, and the record's own or else the last model before it. */
  lemma EventAttribution(env: Env, log: seq<byte>, m: Emission) returns (n: nat)
    requires m in FullParse(env, log).events
    ensures
      var records := RecordsFrom(env, log, 0);
      && n < |records| && records[n].TokenCount?
      && Attributed(env, records[..n], records[n], m.event)
      && Identified(env, records[..n], records[n], n + 1, m.event)
  {
    var records, s := RecordsFrom(env, log, 0), Start(env).state;
    EventIsEmitted(StepOf(env), log, Start(env), m);
    RawIsEmissionsOf(env, log, 0, 0, s);
    LinesDoNotMatter(env);
    n := EmissionIsOfRecord(TakeOf(env), s, 0, records, m);
    StartContext(env);
    RecordsFollow(env);
    ContextIs(TakeOf(env), s, records[..n]);
    EventTexts(env, StateAfter(TakeOf(env), s, records[..n]), n + 1, records[..n], records[n], m);
  }
}
