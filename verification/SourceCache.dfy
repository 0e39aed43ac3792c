/** The cache that suppresses parses of unchanged sources (`SnapshotCache` in internal/adapters/cache.go). */
module SourceCache {
  import opened Wrappers
  import opened Paths
  import opened RecordReader
  import opened CodexLog
  import opened CodexResume
  import opened CodexCommitted

  datatype FileSignature = FileSignature(size: int, modTime: int, sidecarSize: int, sidecarTime: int, sidecar: bool)

  datatype Entry = Entry(
    signature: FileSignature, identity: string, requestCursor: Cursor, resultCursor: Cursor, error: Option<string>)

  type Outcome = Result<ParseResult, string>

  function EntryOf(signature: FileSignature, identity: string, request: Cursor, outcome: Outcome): Entry {
    match outcome
    case Ok(r) => Entry(signature, identity, request, r.cursor, None)
    case Err(message) => Entry(signature, identity, request, NO_CURSOR, Some(message))
  }

  /** A hit reports no events: the cached cursor, or the cached error of the same request. */
  function LookupIn(
    entries: map<Path, Entry>, path: Path, signature: FileSignature, identity: string,
    request: Cursor): Option<Outcome> {
    if path !in entries || entries[path].signature != signature || entries[path].identity != identity then None
    else
      var entry := entries[path];
      if entry.error.Some? then
        if entry.requestCursor != request then None else Some(Err(entry.error.value))
      else if entry.resultCursor != request then None
      else Some(Ok(ParseResult([], entry.resultCursor)))
  }

  class SnapshotCache {
    var entries: map<Path, Entry>

    constructor ()
      ensures entries == map[]
    {
      entries := map[];
    }

    method Lookup(path: Path, signature: FileSignature, identity: string, request: Cursor)
      returns (hit: Option<Outcome>)
      ensures hit == LookupIn(entries, path, signature, identity, request)
    {
      if path !in entries {
        return None;
      }
      var entry := entries[path];
      if entry.signature != signature || entry.identity != identity {
        return None;
      }
      if entry.error.Some? {
        if entry.requestCursor != request {
          return None;
        }
        return Some(Err(entry.error.value));
      }
      if entry.resultCursor != request {
        return None;
      }
      hit := Some(Ok(ParseResult([], entry.resultCursor)));
    }

    /** A cancelled or timed-out parse is never remembered. */
    method Store(
      path: Path, signature: FileSignature, identity: string, request: Cursor, outcome: Outcome, cancelled: bool)
      modifies this
      ensures entries ==
        if cancelled then old(entries) else old(entries)[path := EntryOf(signature, identity, request, outcome)]
    {
      if cancelled {
        return;
      }
      var cursor := if outcome.Ok? then outcome.value.cursor else NO_CURSOR;
      var error := if outcome.Ok? then None else Some(outcome.error);
      entries := entries[path := Entry(signature, identity, request, cursor, error)];
    }

    method Prune(seen: set<Path>)
      modifies this
      ensures entries == map p | p in old(entries) && p in seen :: old(entries)[p]
    {
      var paths := entries.Keys;
      ghost var start := entries;
      while paths != {}
        invariant paths <= start.Keys
        invariant entries == map p | p in start && (p in paths || p in seen) :: start[p]
        decreases |paths|
      {
        var path :| path in paths;
        paths := paths - {path};
        if path !in seen {
          entries := entries - {path};
        }
      }
    }
  }

  // ----- What a hit stands for -----

  /** The uncached parse of a source whose content its signature determines. */
  type Parser = (Path, FileSignature, string, Cursor) -> Outcome

  /** Every entry was stored from an uncached parse. */
  ghost predicate Remembers(entries: map<Path, Entry>, parse: Parser) {
    forall p :: p in entries ==>
      var e := entries[p];
      e == EntryOf(e.signature, e.identity, e.requestCursor, parse(p, e.signature, e.identity, e.requestCursor))
  }

  lemma StoreRemembers(
    entries: map<Path, Entry>, parse: Parser, path: Path, signature: FileSignature, identity: string, request: Cursor)
    requires Remembers(entries, parse)
    ensures
      var outcome := parse(path, signature, identity, request);
      Remembers(entries[path := EntryOf(signature, identity, request, outcome)], parse)
  {
  }

  lemma PruneRemembers(entries: map<Path, Entry>, parse: Parser, seen: set<Path>)
    requires Remembers(entries, parse)
    ensures Remembers(map p | p in entries && p in seen :: entries[p], parse)
  {
  }

  /** Parsing again from the cursor a parse returned returns that cursor. */
  ghost predicate Stable(parse: Parser) {
    forall path, signature, identity, request :: parse(path, signature, identity, request).Ok? ==>
      StableAt(parse, path, signature, identity, parse(path, signature, identity, request).value.cursor)
  }

  predicate StableAt(parse: Parser, path: Path, signature: FileSignature, identity: string, cursor: Cursor) {
    var again := parse(path, signature, identity, cursor);
    again.Ok? && again.value.cursor == cursor
  }

  /** A parse that reports events returns another cursor than the one it was asked for. */
  ghost predicate EmittersMove(parse: Parser) {
    forall path, signature, identity, request :: Moves(parse, path, signature, identity, request)
  }

  predicate Moves(parse: Parser, path: Path, signature: FileSignature, identity: string, request: Cursor) {
    var outcome := parse(path, signature, identity, request);
    outcome.Ok? && outcome.value.events != [] ==> outcome.value.cursor != request
  }

  /** Every hit of every cache that was filled from the parser is the parse it replaces. */
  ghost predicate Transparent(parse: Parser) {
    forall entries, path, signature, identity, request ::
      Remembers(entries, parse) && LookupIn(entries, path, signature, identity, request).Some? ==>
      LookupIn(entries, path, signature, identity, request) == Some(parse(path, signature, identity, request))
  }

  lemma HitOfMover(
    parse: Parser, entries: map<Path, Entry>, path: Path, signature: FileSignature, identity: string, request: Cursor)
    requires Stable(parse) && EmittersMove(parse) && Remembers(entries, parse)
    requires LookupIn(entries, path, signature, identity, request).Some?
    ensures LookupIn(entries, path, signature, identity, request) == Some(parse(path, signature, identity, request))
  {
    var entry := entries[path];
    assert entry == EntryOf(
      signature, identity, entry.requestCursor, parse(path, signature, identity, entry.requestCursor));
    if entry.error.None? {
      assert StableAt(parse, path, signature, identity, request);
      assert Moves(parse, path, signature, identity, request);
    }
  }

  /** A parser that reports events without moving its cursor loses them: after such a parse and an upload that failed,
      the next poll makes the same request and is served a hit without events. */
  lemma StandingStillHidesEvents(
    parse: Parser, entries: map<Path, Entry>, path: Path, signature: FileSignature, identity: string, request: Cursor)
    requires Remembers(entries, parse) && !Moves(parse, path, signature, identity, request)
    ensures
      var outcome := parse(path, signature, identity, request);
      var stored := entries[path := EntryOf(signature, identity, request, outcome)];
      && Remembers(stored, parse)
      && LookupIn(stored, path, signature, identity, request) == Some(Ok(ParseResult([], request)))
      && LookupIn(stored, path, signature, identity, request) != Some(outcome)
  {
    StoreRemembers(entries, parse, path, signature, identity, request);
  }

  /** For a parser whose cursors are stable the cache is transparent if and only if no parse that reports events returns
      the cursor it was asked with. */
  lemma HitIsParseIff(parse: Parser)
    requires Stable(parse)
    ensures Transparent(parse) <==> EmittersMove(parse)
  {
    if EmittersMove(parse) {
      forall entries, path, signature, identity, request |
        Remembers(entries, parse) && LookupIn(entries, path, signature, identity, request).Some?
        ensures LookupIn(entries, path, signature, identity, request) == Some(parse(path, signature, identity, request))
      {
        HitOfMover(parse, entries, path, signature, identity, request);
      }
    }
    if Transparent(parse) {
      forall path, signature, identity, request ensures Moves(parse, path, signature, identity, request) {
        if !Moves(parse, path, signature, identity, request) {
          StandingStillHidesEvents(parse, map[], path, signature, identity, request);
        }
      }
    }
  }

  // ----- Adapters with one cursor per source -----

  /** Whatever it is asked with, a parse that succeeds returns the one cursor of its source, and success does not depend
      on the request. */
  ghost predicate ConstantCursor(parse: Parser, cursorOf: (Path, string) -> Cursor) {
    forall path, signature, identity, request ::
      Returns(parse, path, signature, identity, request, cursorOf(path, identity))
  }

  predicate Returns(
    parse: Parser, path: Path, signature: FileSignature, identity: string, request: Cursor, cursor: Cursor) {
    var outcome := parse(path, signature, identity, request);
    (outcome.Ok? <==> parse(path, signature, identity, cursor).Ok?) && (outcome.Ok? ==> outcome.value.cursor == cursor)
  }

  predicate Quiet(parse: Parser, path: Path, signature: FileSignature, identity: string, request: Cursor) {
    var outcome := parse(path, signature, identity, request);
    outcome.Ok? ==> outcome.value.events == []
  }

  /** Such an adapter hides nothing if and only if it never reports an event when asked with its own cursor; the first
      poll that does loses its events if their upload fails. */
  lemma ConstantCursorHidesEvents(parse: Parser, cursorOf: (Path, string) -> Cursor)
    requires ConstantCursor(parse, cursorOf)
    ensures Transparent(parse) <==>
      forall path, signature, identity :: Quiet(parse, path, signature, identity, cursorOf(path, identity))
  {
    forall path, signature, identity, request | parse(path, signature, identity, request).Ok?
      ensures StableAt(parse, path, signature, identity, parse(path, signature, identity, request).value.cursor)
    {
      assert Returns(parse, path, signature, identity, request, cursorOf(path, identity));
      assert Returns(parse, path, signature, identity, cursorOf(path, identity), cursorOf(path, identity));
    }
    HitIsParseIff(parse);
    if EmittersMove(parse) {
      forall path, signature, identity ensures Quiet(parse, path, signature, identity, cursorOf(path, identity)) {
        assert Moves(parse, path, signature, identity, cursorOf(path, identity));
        assert Returns(parse, path, signature, identity, cursorOf(path, identity), cursorOf(path, identity));
      }
    } else {
      var path, signature, identity, request :| !Moves(parse, path, signature, identity, request);
      assert Returns(parse, path, signature, identity, request, cursorOf(path, identity));
      assert !Quiet(parse, path, signature, identity, cursorOf(path, identity));
    }
  }

  // ----- Codex logs -----

  function CodexParser(envs: (Path, string) -> Env, content: (Path, FileSignature) -> seq<byte>): Parser {
    (path: Path, signature: FileSignature, identity: string, cursor: Cursor) =>
      Parse(envs(path, identity), content(path, signature), cursor)
  }

  /** For Codex logs every hit is the parse it replaces, so a hit hides no event, delivered or not. */
  lemma CodexHitIsTransparent(envs: (Path, string) -> Env, content: (Path, FileSignature) -> seq<byte>)
    ensures Transparent(CodexParser(envs, content))
  {
    var parse := CodexParser(envs, content);
    forall path, signature, identity, request | parse(path, signature, identity, request).Ok?
      ensures StableAt(parse, path, signature, identity, parse(path, signature, identity, request).value.cursor)
    {
      ReparseIsIdle(envs(path, identity), content(path, signature), request);
    }
    forall path, signature, identity, request ensures Moves(parse, path, signature, identity, request) {
      if parse(path, signature, identity, request).Ok? && parse(path, signature, identity, request).value.events != [] {
        EmittingMovesCursor(envs(path, identity), content(path, signature), request);
      }
    }
    HitIsParseIff(parse);
  }

  // ----- Sequences of polls -----

  datatype Op =
    | Poll(path: Path, signature: FileSignature, identity: string, request: Cursor, cancelled: bool)
    | Sweep(seen: set<Path>)

  /** What a poll is answered: a hit, or the parse, which a cancellation turns into an error. */
  function AnswerTo(parse: Parser, entries: map<Path, Entry>, op: Op): Outcome
    requires op.Poll?
  {
    var hit := LookupIn(entries, op.path, op.signature, op.identity, op.request);
    if hit.Some? then hit.value
    else if op.cancelled then Err("context canceled")
    else parse(op.path, op.signature, op.identity, op.request)
  }

  function EntriesAfter(parse: Parser, entries: map<Path, Entry>, op: Op): map<Path, Entry> {
    match op
    case Poll(path, signature, identity, request, cancelled) =>
      if LookupIn(entries, path, signature, identity, request).Some? || cancelled then entries
      else entries[path := EntryOf(signature, identity, request, parse(path, signature, identity, request))]
    case Sweep(seen) => map p | p in entries && p in seen :: entries[p]
  }

  function EntriesOf(parse: Parser, ops: seq<Op>): map<Path, Entry> {
    if ops == [] then map[] else EntriesAfter(parse, EntriesOf(parse, ops[..|ops| - 1]), ops[|ops| - 1])
  }

  lemma {:induction false} TraceRemembers(parse: Parser, ops: seq<Op>)
    ensures Remembers(EntriesOf(parse, ops), parse)
  {
    if ops != [] {
      var before, op := EntriesOf(parse, ops[..|ops| - 1]), ops[|ops| - 1];
      TraceRemembers(parse, ops[..|ops| - 1]);
      match op
      case Poll(path, signature, identity, request, _) =>
        StoreRemembers(before, parse, path, signature, identity, request);
      case Sweep(seen) => PruneRemembers(before, parse, seen);
    }
  }

  /** In any sequence of polls, file changes, cancellations and sweeps of a transparent parser, whatever became of the
      events, a poll that is not cancelled is answered what an uncached parse of its request returns. */
  lemma EveryPollIsAnswered(parse: Parser, ops: seq<Op>, i: nat)
    requires Transparent(parse) && i < |ops| && ops[i].Poll?
    ensures
      var answer := AnswerTo(parse, EntriesOf(parse, ops[..i]), ops[i]);
      answer == parse(ops[i].path, ops[i].signature, ops[i].identity, ops[i].request) ||
      (ops[i].cancelled && answer.Err?)
  {
    TraceRemembers(parse, ops[..i]);
  }

  /** Nothing between the two polls concerns the source, and no sweep drops it. */
  predicate Undisturbed(ops: seq<Op>, path: Path, i: nat, j: nat)
    requires j <= |ops|
  {
    forall m :: i < m < j ==> if ops[m].Sweep? then path in ops[m].seen else ops[m].path != path
  }

  lemma {:induction false} EntryStays(parse: Parser, ops: seq<Op>, path: Path, i: nat, j: nat)
    requires i < j <= |ops| && Undisturbed(ops, path, i, j) && path in EntriesOf(parse, ops[..i + 1])
    ensures path in EntriesOf(parse, ops[..j])
    ensures EntriesOf(parse, ops[..j])[path] == EntriesOf(parse, ops[..i + 1])[path]
    decreases j
  {
    if i + 1 < j {
      EntryStays(parse, ops, path, i, j - 1);
      assert ops[..j][..j - 1] == ops[..j - 1];
    }
  }

  /** An unchanged source is not parsed again: after a poll, the next request with the cursor it returned, or the same
      request after an error, is answered from the cache, without events or with the same error. */
  lemma UnchangedIsNotParsedAgain(parse: Parser, ops: seq<Op>, i: nat, j: nat)
    requires i < j < |ops| && ops[i].Poll? && !ops[i].cancelled && ops[j].Poll?
    requires ops[j].path == ops[i].path && ops[j].signature == ops[i].signature && ops[j].identity == ops[i].identity
    requires Undisturbed(ops, ops[i].path, i, j)
    ensures
      var answer := AnswerTo(parse, EntriesOf(parse, ops[..i]), ops[i]);
      ops[j].request == (if answer.Ok? then answer.value.cursor else ops[i].request) ==>
        LookupIn(EntriesOf(parse, ops[..j]), ops[j].path, ops[j].signature, ops[j].identity, ops[j].request) ==
        Some(if answer.Ok? then Ok(ParseResult([], answer.value.cursor)) else answer)
  {
    assert ops[..i + 1][..i] == ops[..i] && ops[..i + 1][i] == ops[i];
    EntryStays(parse, ops, ops[i].path, i, j);
  }

  /** One poll of the trace. */
  method ParseLog(
    cache: SnapshotCache, envs: (Path, string) -> Env, content: (Path, FileSignature) -> seq<byte>, op: Op)
    returns (outcome: Outcome)
    requires op.Poll?
    modifies cache
    ensures outcome == AnswerTo(CodexParser(envs, content), old(cache.entries), op)
    ensures cache.entries == EntriesAfter(CodexParser(envs, content), old(cache.entries), op)
  {
    var hit := cache.Lookup(op.path, op.signature, op.identity, op.request);
    if hit.Some? {
      return hit.value;
    }
    if op.cancelled {
      outcome := Err("context canceled");
    } else {
      outcome := ParseLogUncached(envs(op.path, op.identity), content(op.path, op.signature), op.request);
    }
    cache.Store(op.path, op.signature, op.identity, op.request, outcome, op.cancelled);
  }

  /** For Codex logs: in any such sequence a poll withholds only what the cursor of its request covers. */
  lemma CodexPollIsAnswered(
    envs: (Path, string) -> Env, content: (Path, FileSignature) -> seq<byte>, ops: seq<Op>, i: nat)
    requires i < |ops| && ops[i].Poll? && !ops[i].cancelled
    ensures
      AnswerTo(CodexParser(envs, content), EntriesOf(CodexParser(envs, content), ops[..i]), ops[i]) ==
      Parse(envs(ops[i].path, ops[i].identity), content(ops[i].path, ops[i].signature), ops[i].request)
  {
    CodexHitIsTransparent(envs, content);
    EveryPollIsAnswered(CodexParser(envs, content), ops, i);
  }
}
