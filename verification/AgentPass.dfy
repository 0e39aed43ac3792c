/** The agent's polling pass against the hub: snapshot, collect, filter, upload in batches, commit, with appends, lost
    replies, partial uploads and crashes anywhere (the `pass` closure of `runAgent` in cmd/tokemon/main.go). */
module AgentPass {
  import opened Wrappers
  import opened Events
  import opened Paths
  import opened RecordReader
  import opened CodexLog
  import opened CodexResume
  import opened CodexCommitted
  import opened HubTable
  import opened HubReplay
  import opened AgentState

  // ----- The system -----

  type Logs = map<Path, seq<byte>>

  /** A successful source report, with the content and the cache identity the parse saw. */
  datatype Collected = Collected(path: Path, content: seq<byte>, identity: string, cursor: Cursor)

  datatype Pass =
    | Idle
    | Collecting(snapshot: map<SourceKey, Cursor>, events: seq<Event>, collected: seq<Collected>)
    | Uploading(snapshot: map<SourceKey, Cursor>, collected: seq<Collected>, pending: seq<Event>, sent: nat)

  datatype System = System(logs: Logs, hub: Table, cursors: CursorTable, prints: PrintTable, pass: Pass)

  /** What stays fixed: the machine and, but for its cache identity, the environment of each log. */
  datatype Agent = Agent(machine: Machine, envs: Path -> Env)

  datatype Action =
    | Append(path: Path, bytes: seq<byte>)
    | BeginPass
    | Collect(path: Path, identity: string)
    | Filter
    | Upload(count: nat, now: int)     // a batch is ingested and its reply arrives
    | LoseReply(count: nat, now: int)  // a batch is ingested, its reply is lost, the pass fails
    | Abandon                          // any other failure or crash
    | Commit

  function Key(path: Path): SourceKey {
    SourceKey(ADAPTER_ID, path)
  }

  function Sanitized(es: seq<Event>): seq<Event> {
    seq(|es|, i requires 0 <= i < |es| => SanitizeOutbound(es[i]))
  }

  predicate Uploadable(es: seq<Event>, now: int) {
    forall i :: 0 <= i < |es| ==> Valid(SanitizeOutbound(es[i]), now)
  }

  function RequestCursor(snapshot: map<SourceKey, Cursor>, path: Path): Cursor {
    if Key(path) in snapshot then snapshot[Key(path)] else NO_CURSOR
  }

  /** The hub rejects a batch with an invalid event as a whole, so only valid batches are ever ingested. */
  predicate CanSend(pass: Pass, count: nat, now: int) {
    && pass.Uploading? && 0 < count && pass.sent + count <= |pass.pending|
    && Uploadable(pass.pending[pass.sent..pass.sent + count], now)
  }

  predicate Enabled(w: System, s: Action) {
    match s
    case Append(_, _) => true
    case BeginPass => w.pass.Idle?
    case Collect(path, _) => w.pass.Collecting? && path in w.logs
    case Filter => w.pass.Collecting?
    case Upload(count, now) => CanSend(w.pass, count, now)
    case LoseReply(count, now) => CanSend(w.pass, count, now)
    case Abandon => !w.pass.Idle?
    case Commit => w.pass.Uploading? && w.pass.sent == |w.pass.pending|
  }

  function Appended(logs: Logs, path: Path, bytes: seq<byte>): Logs {
    logs[path := (if path in logs then logs[path] else []) + bytes]
  }

  function Ingested(hub: Table, batch: seq<Event>, now: int): Table {
    AcceptAll(hub, ValidRows(Sanitized(batch), now))
  }

  function Batch(pass: Pass, count: nat): seq<Event>
    requires pass.Uploading? && pass.sent + count <= |pass.pending|
  {
    pass.pending[pass.sent..pass.sent + count]
  }

  function ReportOf(c: Collected): SourceReport {
    SourceReport(Key(c.path), "", c.cursor, false)
  }

  function Reports(collected: seq<Collected>): seq<SourceReport> {
    seq(|collected|, i requires 0 <= i < |collected| => ReportOf(collected[i]))
  }

  function ParseOf(a: Agent, logs: Logs, snapshot: map<SourceKey, Cursor>, path: Path, identity: string):
    Result<ParseResult, string>
    requires path in logs
  {
    Parse(Under(a.envs(path), identity), logs[path], RequestCursor(snapshot, path))
  }

  function AfterCollect(a: Agent, logs: Logs, pass: Pass, path: Path, identity: string): Pass
    requires pass.Collecting? && path in logs
  {
    match ParseOf(a, logs, pass.snapshot, path, identity)
    case Err(_) => pass
    case Ok(r) => Collecting(pass.snapshot, pass.events + EventsIn(r.events),
                             pass.collected + [Collected(path, logs[path], identity, r.cursor)])
  }

  function After(a: Agent, w: System, s: Action): System
    requires Enabled(w, s)
  {
    match s
    case Append(path, bytes) => w.(logs := Appended(w.logs, path, bytes))
    case BeginPass => w.(pass := Collecting(CursorsOf(w.cursors, a.machine), [], []))
    case Collect(path, identity) => w.(pass := AfterCollect(a, w.logs, w.pass, path, identity))
    case Filter =>
      w.(pass := Uploading(w.pass.snapshot, w.pass.collected, Unsent(w.prints, a.machine, w.pass.events), 0))
    case Upload(count, now) =>
      w.(hub := Ingested(w.hub, Batch(w.pass, count), now), pass := w.pass.(sent := w.pass.sent + count))
    case LoseReply(count, now) => w.(hub := Ingested(w.hub, Batch(w.pass, count), now), pass := Idle)
    case Abandon => w.(pass := Idle)
    case Commit =>
      w.(cursors := SavedCursors(w.cursors, a.machine, w.pass.snapshot, Reports(w.pass.collected)),
         prints := SavedPrints(w.prints, a.machine, w.pass.pending),
         pass := Idle)
  }

  function Initial(): System {
    System(map[], map[], map[], map[], Idle)
  }

  // ----- What the logs stand for -----

  /** `e` is an event of a full parse of some log. */
  ghost predicate Emitted(a: Agent, logs: Logs, e: Event) {
    exists p, m :: p in logs && m in FullParse(a.envs(p), logs[p]).events && m.event == e
  }

  predicate Apart(e: Event, f: Event) {
    e.id != f.id && !SameKey(Uploaded(e), Uploaded(f))
  }

  /** An ID fixes its event, and no two events share an entry of the hub's index. */
  ghost predicate Unambiguous(a: Agent, logs: Logs) {
    forall e, f {:trigger Apart(e, f)} :: Emitted(a, logs, e) && Emitted(a, logs, f) && e != f ==> Apart(e, f)
  }

  /** No log reports the same repeat key twice; cumulative records have none. */
  ghost predicate NothingRepeated(a: Agent, logs: Logs) {
    forall p :: p in logs ==> RepeatFree(a.envs(p), logs[p])
  }

  ghost predicate Wellformed(a: Agent, logs: Logs) {
    NothingRepeated(a, logs) && Unambiguous(a, logs)
  }

  predicate Delivered(hub: Table, e: Event) {
    Stored(hub, Uploaded(e))
  }

  // ----- The invariant -----

  ghost predicate AllEmitted(a: Agent, logs: Logs, es: seq<Event>) {
    forall e :: e in es ==> Emitted(a, logs, e)
  }

  /** The hub holds nothing but events of the logs. */
  ghost predicate HubSound(a: Agent, logs: Logs, hub: Table) {
    PrimaryKey(hub) &&
    forall id {:trigger hub[id]} :: id in hub ==> exists e :: Emitted(a, logs, e) && hub[id] == Uploaded(e)
  }

  /** A cursor covers only delivered events. */
  ghost predicate CursorSound(a: Agent, logs: Logs, hub: Table, path: Path, cursor: Cursor) {
    && path in logs && CursorAt(a.envs(path), logs[path], cursor)
    && forall m :: m in Covered(a.envs(path), logs[path], cursor) ==> Delivered(hub, m.event)
  }

  ghost predicate CursorsSound(a: Agent, logs: Logs, hub: Table, snapshot: map<SourceKey, Cursor>) {
    forall p :: Key(p) in snapshot ==> CursorSound(a, logs, hub, p, snapshot[Key(p)])
  }

  ghost predicate PrintsSound(machine: Machine, hub: Table, prints: PrintTable) {
    forall row :: row in prints && row.0 == machine ==> prints[row].id == row.1 && Delivered(hub, prints[row])
  }

  /** What a report covers is delivered or still among `rest`. */
  ghost predicate ReportSound(a: Agent, logs: Logs, hub: Table, c: Collected, rest: seq<Event>) {
    && c.path in logs && c.content <= logs[c.path]
    && c.cursor == CursorOf(Under(a.envs(c.path), c.identity), FullParse(a.envs(c.path), c.content))
    && forall m :: m in FullParse(a.envs(c.path), c.content).events ==> Delivered(hub, m.event) || m.event in rest
  }

  ghost predicate ReportsSound(a: Agent, logs: Logs, hub: Table, collected: seq<Collected>, rest: seq<Event>) {
    forall c :: c in collected ==> ReportSound(a, logs, hub, c, rest)
  }

  ghost predicate PassSound(a: Agent, w: System) {
    match w.pass
    case Idle => true
    case Collecting(snapshot, events, collected) =>
      && snapshot == CursorsOf(w.cursors, a.machine)
      && AllEmitted(a, w.logs, events) && ReportsSound(a, w.logs, w.hub, collected, events)
    case Uploading(snapshot, collected, pending, sent) =>
      && snapshot == CursorsOf(w.cursors, a.machine) && sent <= |pending|
      && AllEmitted(a, w.logs, pending) && ReportsSound(a, w.logs, w.hub, collected, pending[sent..])
      && forall i :: 0 <= i < sent ==> Delivered(w.hub, pending[i])
  }

  ghost predicate Inv(a: Agent, w: System) {
    && HubSound(a, w.logs, w.hub)
    && CursorsSound(a, w.logs, w.hub, CursorsOf(w.cursors, a.machine))
    && PrintsSound(a.machine, w.hub, w.prints)
    && PassSound(a, w)
  }

  // ----- Runs -----

  /** Every step is enabled where it is taken. */
  predicate Runs(a: Agent, w: System, steps: seq<Action>)
    decreases |steps|
  {
    steps != [] ==> Enabled(w, steps[0]) && Runs(a, After(a, w, steps[0]), steps[1..])
  }

  function RunFrom(a: Agent, w: System, steps: seq<Action>): System
    requires Runs(a, w, steps)
    decreases |steps|
  {
    if steps == [] then w else RunFrom(a, After(a, w, steps[0]), steps[1..])
  }
}
