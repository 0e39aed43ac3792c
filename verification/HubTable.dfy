/** The usage_events table of the hub, and what ingesting a row means (internal/database/database.go). */
module HubTable {
  import opened Wrappers
  import opened Events

  datatype Row = Row(
    id: EventId, instant: int, machine: string, session: Option<string>, provider: string,
    model: string, tool: string, tokens: Tokens, adapter: string, details: Details)

  type Table = map<EventId, Row>

  /** The columns of the partial unique index over Codex rows. */
  datatype UsageKey = UsageKey(
    machine: string, session: string, instant: int, provider: string, model: string, tool: string, tokens: Tokens)

  function RowOf(e: Event): Row {
    Row(e.id, e.instant, e.machine, if e.session == "" then None else Some(e.session), e.provider,
        e.model, e.tool, e.tokens, e.adapter, e.details)
  }

  /** The event the hub reads back from a row; a NULL session is the empty one. */
  function EventOfRow(r: Row, textOk: bool): Event {
    Event(r.id, r.instant, r.machine, if r.session.None? then "" else r.session.value, r.provider, r.model, r.tool,
          r.tokens, r.adapter, r.details, textOk)
  }

  /** Storing loses nothing: every column is read back, and different events make different rows. */
  lemma RowReadsBack(e: Event, f: Event)
    ensures EventOfRow(RowOf(e), e.textOk) == e
    ensures RowOf(e) == RowOf(f) <==> e == f.(textOk := e.textOk)
  {
    assert EventOfRow(RowOf(f), f.textOk) == f;
  }

  /** The row an uploaded event becomes. */
  function Uploaded(e: Event): Row {
    RowOf(SanitizeOutbound(e))
  }

  function UploadedRows(es: seq<Event>): seq<Row> {
    seq(|es|, i requires 0 <= i < |es| => Uploaded(es[i]))
  }

  /** The index entry of a row: none unless it is a Codex row with all six token columns set,
      and none for a NULL session, because NULLs are distinct in a unique index. */
  function KeyOf(r: Row): Option<UsageKey> {
    if r.adapter == "codex" && r.session.Some? && r.tokens.AllSet() then
      Some(UsageKey(r.machine, r.session.value, r.instant, r.provider, r.model, r.tool, r.tokens))
    else
      None
  }

  predicate SameKey(a: Row, b: Row) {
    KeyOf(a).Some? && KeyOf(a) == KeyOf(b)
  }

  // ----- Codex aggregates and the detailed rows that replace them -----

  predicate CodexSession(r: Row, machine: string, session: string) {
    r.adapter == "codex" && r.machine == machine && r.session == Some(session)
  }

  predicate Aggregate(r: Row) {
    r.adapter == "codex" && !r.tokens.AnyComponent()
  }

  predicate Superseding(r: Row) {
    r.adapter == "codex" && r.session.Some? && r.tokens.input.Some? && r.tokens.total.Some?
  }

  predicate HasDetail(t: Table, machine: string, session: string) {
    exists id :: id in t && CodexSession(t[id], machine, session) && t[id].tokens.AnyComponent()
  }

  /** An aggregate snapshot is obsolete once its session has a row with any component. */
  predicate Suppressed(t: Table, r: Row) {
    Aggregate(r) && r.session.Some? && HasDetail(t, r.machine, r.session.value)
  }

  // ----- The specification of ingest -----

  /** Incoming row `r` displaces stored row `x`. */
  predicate Displaces(r: Row, x: Row) {
    || x.id == r.id
    || SameKey(x, r)
    || (Superseding(r) && Aggregate(x) && CodexSession(x, r.machine, r.session.value))
  }

  /** Drop every conflicting row, then insert. */
  function Replace(t: Table, r: Row): Table {
    (map id | id in t && !Displaces(r, t[id]) :: t[id])[r.id := r]
  }

  function Accept(t: Table, r: Row): Table {
    if Suppressed(t, r) then t else Replace(t, r)
  }

  function AcceptAll(t: Table, rs: seq<Row>): Table {
    if rs == [] then t else Accept(AcceptAll(t, rs[..|rs| - 1]), rs[|rs| - 1])
  }

  // ----- What one ingest does, column by column -----

  /** A row is refused, and the table left as it is, exactly when it is a Codex row of a session without input, output
      and cache columns, and the session already has a row with one of them. */
  lemma RefusedIff(t: Table, r: Row)
    requires PrimaryKey(t)
    ensures
      var refused :=
        && r.adapter == "codex" && r.session.Some?
        && r.tokens.input.None? && r.tokens.output.None? && r.tokens.cacheRead.None? && r.tokens.cacheWrite.None?
        && exists id :: id in t && t[id].adapter == "codex" && t[id].machine == r.machine &&
             t[id].session == r.session && (t[id].tokens.input.Some? || t[id].tokens.output.Some? ||
             t[id].tokens.cacheRead.Some? || t[id].tokens.cacheWrite.Some?);
      if refused then Accept(t, r) == t else r.id in Accept(t, r) && Accept(t, r)[r.id] == r
  {
  }

  /** A row that is not refused removes a row of another ID exactly when both are Codex rows of one session and machine
      and either agree in instant, provider, model, tool and six known token columns, or the new one has an input and
      a total and the old one no input, output or cache column. What is not removed is not changed. */
  lemma RemovedIff(t: Table, r: Row, id: EventId)
    requires PrimaryKey(t) && !Suppressed(t, r) && id in t && id != r.id
    ensures id in Accept(t, r) ==> Accept(t, r)[id] == t[id]
    ensures id !in Accept(t, r) <==>
      var x := t[id];
      && x.adapter == "codex" && r.adapter == "codex" && x.machine == r.machine
      && x.session.Some? && x.session == r.session
      && ((&& x.instant == r.instant && x.provider == r.provider && x.model == r.model && x.tool == r.tool
           && x.tokens == r.tokens && r.tokens.input.Some? && r.tokens.output.Some? && r.tokens.cacheRead.Some?
           && r.tokens.cacheWrite.Some? && r.tokens.reasoning.Some? && r.tokens.total.Some?)
          || (&& r.tokens.input.Some? && r.tokens.total.Some? && x.tokens.input.None? && x.tokens.output.None?
              && x.tokens.cacheRead.None? && x.tokens.cacheWrite.None?))
  {
  }

  function ValidRows(es: seq<Event>, now: int): seq<Row> {
    if es == [] then []
    else
      var init := ValidRows(es[..|es| - 1], now);
      var e := es[|es| - 1];
      if Valid(e, now) then init + [RowOf(e)] else init
  }

  function RowsOf(es: seq<Event>): seq<Row> {
    seq(|es|, i requires 0 <= i < |es| => RowOf(es[i]))
  }

  lemma {:induction false} ValidRowsOfValid(es: seq<Event>, now: int)
    requires forall e :: e in es ==> Valid(e, now)
    ensures ValidRows(es, now) == RowsOf(es)
  {
    if es == [] {
    } else {
      ValidRowsOfValid(es[..|es| - 1], now);
      assert RowsOf(es)[..|es| - 1] == RowsOf(es[..|es| - 1]);
    }
  }

  // ----- The two constraints of the table -----

  predicate PrimaryKey(t: Table) {
    forall id :: id in t ==> t[id].id == id
  }

  predicate UniqueIndex(t: Table) {
    forall a, b :: a in t && b in t && a != b ==> !SameKey(t[a], t[b])
  }

  predicate Constraints(t: Table) {
    PrimaryKey(t) && UniqueIndex(t)
  }

  lemma AcceptKeepsConstraints(t: Table, r: Row)
    requires Constraints(t)
    ensures Constraints(Accept(t, r))
  {
  }

  lemma {:induction false} AcceptAllKeepsConstraints(t: Table, rs: seq<Row>)
    requires Constraints(t)
    ensures Constraints(AcceptAll(t, rs))
  {
    if rs == [] {
    } else {
      AcceptAllKeepsConstraints(t, rs[..|rs| - 1]);
      AcceptKeepsConstraints(AcceptAll(t, rs[..|rs| - 1]), rs[|rs| - 1]);
    }
  }

  // ----- No session is counted twice -----

  /** No Codex session of a machine holds both a row without input, output and cache columns and a row with an input
      and a total. */
  predicate CountedOnce(t: Table) {
    forall a, b ::
      a in t && b in t && t[a].adapter == "codex" && t[b].adapter == "codex" && t[a].machine == t[b].machine &&
      t[a].session == t[b].session && t[b].session.Some? ==>
        t[a].tokens.input.Some? || t[a].tokens.output.Some? || t[a].tokens.cacheRead.Some? ||
        t[a].tokens.cacheWrite.Some? || t[b].tokens.input.None? || t[b].tokens.total.None?
  }

  lemma AcceptCountsOnce(t: Table, r: Row)
    requires CountedOnce(t)
    ensures CountedOnce(Accept(t, r))
  {
  }

  lemma {:induction false} SessionsCountedOnce(t: Table, rs: seq<Row>)
    requires CountedOnce(t)
    ensures CountedOnce(AcceptAll(t, rs))
  {
    if rs == [] {
    } else {
      SessionsCountedOnce(t, rs[..|rs| - 1]);
      AcceptCountsOnce(AcceptAll(t, rs[..|rs| - 1]), rs[|rs| - 1]);
    }
  }

  /** An event with a session, an input and a total leaves no row of its session without input, output and cache
      columns behind. */
  lemma DetailsRemoveAggregates(t: Table, r: Row, id: EventId)
    requires r.adapter == "codex" && r.session.Some? && r.tokens.input.Some? && r.tokens.total.Some?
    requires id in Accept(t, r)
    ensures
      var x := Accept(t, r)[id];
      x.adapter == "codex" && x.machine == r.machine && x.session == r.session ==>
        x.tokens.input.Some? || x.tokens.output.Some? || x.tokens.cacheRead.Some? || x.tokens.cacheWrite.Some?
  {
  }

  /** An event that lost its total never removes an aggregate other than the row it refreshes. */
  lemma NoTotalKeepsAggregates(t: Table, r: Row, id: EventId)
    requires id in t && id != r.id && t[id].id == id
    requires
      var x := t[id].tokens;
      x.input.None? && x.output.None? && x.cacheRead.None? && x.cacheWrite.None?
    requires r.tokens.total.None?
    ensures id in Accept(t, r) && Accept(t, r)[id] == t[id]
  {
  }

  lemma AcceptAllAppend(t: Table, a: seq<Row>, b: seq<Row>)
    ensures AcceptAll(t, a + b) == AcceptAll(AcceptAll(t, a), b)
    decreases |b|
  {
    if b == [] {
      assert a + b == a;
    } else {
      assert (a + b)[..|a + b| - 1] == a + b[..|b| - 1];
      AcceptAllAppend(t, a, b[..|b| - 1]);
    }
  }
}
