/** Redelivery: which rows remain after a sequence of ingested rows, and why ingesting it again changes nothing. */
module HubReplay {
  import opened Wrappers
  import opened Events
  import opened HubTable

  /** What an event ID stands for. Codex IDs hash these fields, so one ID never names two of them. */
  datatype Origin = Origin(machine: string, adapter: string, session: Option<string>)

  function OriginOf(r: Row): Origin {
    Origin(r.machine, r.adapter, r.session)
  }

  ghost predicate TableRespects(t: Table, origin: EventId -> Origin) {
    PrimaryKey(t) && forall id :: id in t ==> OriginOf(t[id]) == origin(id)
  }

  ghost predicate RowsRespect(rs: seq<Row>, origin: EventId -> Origin) {
    forall j :: 0 <= j < |rs| ==> OriginOf(rs[j]) == origin(rs[j].id)
  }

  predicate Stored(t: Table, x: Row) {
    x.id in t && t[x.id] == x
  }

  predicate BringsDetail(r: Row, machine: string, session: string) {
    CodexSession(r, machine, session) && r.tokens.AnyComponent()
  }

  predicate DetailBefore(t: Table, rs: seq<Row>, n: nat, machine: string, session: string)
    requires n <= |rs|
  {
    HasDetail(t, machine, session) || exists k :: 0 <= k < n && BringsDetail(rs[k], machine, session)
  }

  /** Row `j` takes effect: it is not an aggregate of a session whose details arrived before it. */
  predicate Active(t: Table, rs: seq<Row>, j: nat)
    requires j < |rs|
  {
    !(Aggregate(rs[j]) && rs[j].session.Some? && DetailBefore(t, rs, j, rs[j].machine, rs[j].session.value))
  }

  predicate NotDisplacedFrom(t: Table, rs: seq<Row>, start: nat, x: Row) {
    forall j :: start <= j < |rs| && Active(t, rs, j) ==> !Displaces(rs[j], x)
  }

  predicate WrittenLast(t: Table, rs: seq<Row>, x: Row) {
    exists i :: 0 <= i < |rs| && rs[i] == x && Active(t, rs, i) && NotDisplacedFrom(t, rs, i + 1, x)
  }

  /** The last-writer rule: `x` was there and nothing active displaced it, or its last active writer was not
      displaced. */
  predicate Remains(t: Table, rs: seq<Row>, x: Row) {
    (Stored(t, x) && NotDisplacedFrom(t, rs, 0, x)) || WrittenLast(t, rs, x)
  }

  // ----- Details of a session never go away -----

  lemma AcceptRespects(t: Table, r: Row, origin: EventId -> Origin)
    requires TableRespects(t, origin) && OriginOf(r) == origin(r.id)
    ensures TableRespects(Accept(t, r), origin)
  {
  }

  lemma {:induction false} AcceptAllRespects(t: Table, rs: seq<Row>, origin: EventId -> Origin)
    requires TableRespects(t, origin) && RowsRespect(rs, origin)
    ensures TableRespects(AcceptAll(t, rs), origin)
  {
    if rs == [] {
    } else {
      AcceptAllRespects(t, rs[..|rs| - 1], origin);
      AcceptRespects(AcceptAll(t, rs[..|rs| - 1]), rs[|rs| - 1], origin);
    }
  }

  lemma AcceptDetail(t: Table, r: Row, origin: EventId -> Origin, machine: string, session: string)
    requires TableRespects(t, origin) && OriginOf(r) == origin(r.id)
    ensures HasDetail(Accept(t, r), machine, session) <==>
      HasDetail(t, machine, session) || BringsDetail(r, machine, session)
  {
    var after := Accept(t, r);
    if BringsDetail(r, machine, session) {
      assert r.id in after && after[r.id] == r;
    } else if HasDetail(t, machine, session) {
      var id :| id in t && CodexSession(t[id], machine, session) && t[id].tokens.AnyComponent();
      if !Suppressed(t, r) {
        assert !Displaces(r, t[id]);
        assert id in after && after[id] == t[id];
      }
    }
  }

  lemma {:induction false} DetailsPersist(
    t: Table, rs: seq<Row>, origin: EventId -> Origin, machine: string, session: string)
    requires TableRespects(t, origin) && RowsRespect(rs, origin)
    ensures HasDetail(AcceptAll(t, rs), machine, session) <==> DetailBefore(t, rs, |rs|, machine, session)
  {
    if rs == [] {
    } else {
      var init, last := rs[..|rs| - 1], rs[|rs| - 1];
      DetailsPersist(t, init, origin, machine, session);
      AcceptAllRespects(t, init, origin);
      AcceptDetail(AcceptAll(t, init), last, origin, machine, session);
      assert forall k :: 0 <= k < |init| ==> init[k] == rs[k];
    }
  }

  /** Once a session has details, no aggregate of it is ever added or changed. */
  lemma AggregatesFrozen(t: Table, rs: seq<Row>, origin: EventId -> Origin, x: Row)
    requires TableRespects(t, origin) && RowsRespect(rs, origin)
    requires x.adapter == "codex" && x.session.Some? && HasDetail(t, x.machine, x.session.value)
    requires x.tokens.input.None? && x.tokens.output.None? && x.tokens.cacheRead.None? && x.tokens.cacheWrite.None?
    requires Stored(AcceptAll(t, rs), x)
    ensures Stored(t, x)
  {
    LastWriter(t, rs, origin, x);
  }

  // ----- The last-writer rule -----

  lemma ActivePrefix(t: Table, rs: seq<Row>, j: nat)
    requires j < |rs| - 1
    ensures Active(t, rs[..|rs| - 1], j) <==> Active(t, rs, j)
  {
    assert forall k :: 0 <= k < j ==> rs[..|rs| - 1][k] == rs[k];
  }

  lemma {:induction false} LastWriter(t: Table, rs: seq<Row>, origin: EventId -> Origin, x: Row)
    requires TableRespects(t, origin) && RowsRespect(rs, origin)
    ensures Stored(AcceptAll(t, rs), x) <==> Remains(t, rs, x)
  {
    if rs == [] {
    } else {
      var n := |rs| - 1;
      var init, last := rs[..n], rs[n];
      var before := AcceptAll(t, init);
      LastWriter(t, init, origin, x);
      AcceptAllRespects(t, init, origin);
      forall j | 0 <= j < n ensures Active(t, init, j) <==> Active(t, rs, j) {
        ActivePrefix(t, rs, j);
      }
      if last.session.Some? {
        DetailsPersist(t, init, origin, last.machine, last.session.value);
      }
      assert forall k :: 0 <= k < n ==> init[k] == rs[k];
      assert Active(t, rs, n) <==> !Suppressed(before, last);
      assert Remains(t, rs, x) <==>
        if Active(t, rs, n) then x == last || (Remains(t, init, x) && !Displaces(last, x)) else Remains(t, init, x) by {
        RemainsStep(t, rs, x);
      }
    }
  }

  lemma RemainsStep(t: Table, rs: seq<Row>, x: Row)
    requires rs != []
    ensures
      var n := |rs| - 1;
      Remains(t, rs, x) <==>
      if Active(t, rs, n) then x == rs[n] || (Remains(t, rs[..n], x) && !Displaces(rs[n], x))
      else Remains(t, rs[..n], x)
  {
    var n := |rs| - 1;
    var init := rs[..n];
    assert forall k :: 0 <= k < n ==> init[k] == rs[k];
    forall j | 0 <= j < n ensures Active(t, init, j) <==> Active(t, rs, j) {
      ActivePrefix(t, rs, j);
    }
    forall start: nat | start <= n
      ensures NotDisplacedFrom(t, rs, start, x) <==>
        NotDisplacedFrom(t, init, start, x) && (Active(t, rs, n) ==> !Displaces(rs[n], x))
    {
    }
    if x == rs[n] && Active(t, rs, n) {
      assert NotDisplacedFrom(t, rs, n + 1, x);
    }
    if WrittenLast(t, rs, x) {
      var i :| 0 <= i < |rs| && rs[i] == x && Active(t, rs, i) && NotDisplacedFrom(t, rs, i + 1, x);
      if i < n {
        assert init[i] == x && NotDisplacedFrom(t, init, i + 1, x);
      }
    }
    if WrittenLast(t, init, x) {
      var i :| 0 <= i < n && init[i] == x && Active(t, init, i) && NotDisplacedFrom(t, init, i + 1, x);
      if Active(t, rs, n) ==> !Displaces(rs[n], x) {
        assert rs[i] == x && NotDisplacedFrom(t, rs, i + 1, x);
      }
    }
  }

  // ----- Redelivery changes nothing -----

  /** On the second pass no row takes effect that did not take effect on the first. */
  lemma ActiveAgain(t: Table, rs: seq<Row>, origin: EventId -> Origin, j: nat)
    requires TableRespects(t, origin) && RowsRespect(rs, origin)
    requires j < |rs| && Active(AcceptAll(t, rs), rs, j)
    ensures Active(t, rs, j)
    ensures Aggregate(rs[j]) && rs[j].session.Some? ==> !DetailBefore(t, rs, |rs|, rs[j].machine, rs[j].session.value)
  {
    if rs[j].session.Some? {
      DetailsPersist(t, rs, origin, rs[j].machine, rs[j].session.value);
    }
  }

  /** A row that only took effect on the first pass is an aggregate whose session has details by its end. */
  lemma SilencedAgain(t: Table, rs: seq<Row>, origin: EventId -> Origin, j: nat)
    requires TableRespects(t, origin) && RowsRespect(rs, origin)
    requires j < |rs| && Active(t, rs, j) && !Active(AcceptAll(t, rs), rs, j)
    ensures Aggregate(rs[j]) && rs[j].session.Some? && DetailBefore(t, rs, |rs|, rs[j].machine, rs[j].session.value)
    ensures !DetailBefore(t, rs, j, rs[j].machine, rs[j].session.value)
  {
    DetailsPersist(t, rs, origin, rs[j].machine, rs[j].session.value);
  }

  lemma WrittenAgainWasWritten(t: Table, rs: seq<Row>, origin: EventId -> Origin, x: Row)
    requires TableRespects(t, origin) && RowsRespect(rs, origin)
    requires WrittenLast(AcceptAll(t, rs), rs, x)
    ensures WrittenLast(t, rs, x)
  {
    var again := AcceptAll(t, rs);
    var i :| 0 <= i < |rs| && rs[i] == x && Active(again, rs, i) && NotDisplacedFrom(again, rs, i + 1, x);
    ActiveAgain(t, rs, origin, i);
    forall j | i + 1 <= j < |rs| && Active(t, rs, j) ensures !Displaces(rs[j], x) {
      if !Active(again, rs, j) {
        SilencedAgain(t, rs, origin, j);
      }
    }
  }

  lemma AggregateNotDisplacedBefore(t: Table, rs: seq<Row>, origin: EventId -> Origin, j: nat, i: nat)
    requires TableRespects(t, origin) && RowsRespect(rs, origin)
    requires j < i < |rs| && Active(AcceptAll(t, rs), rs, j)
    requires Aggregate(rs[i]) && rs[i].session.Some?
    requires DetailBefore(t, rs, |rs|, rs[i].machine, rs[i].session.value)
    requires !DetailBefore(t, rs, i, rs[i].machine, rs[i].session.value)
    ensures !Displaces(rs[j], rs[i])
  {
    ActiveAgain(t, rs, origin, j);
    assert !BringsDetail(rs[j], rs[i].machine, rs[i].session.value);
  }

  lemma RemainingRemainsAgain(t: Table, rs: seq<Row>, origin: EventId -> Origin, x: Row)
    requires TableRespects(t, origin) && RowsRespect(rs, origin)
    requires Remains(t, rs, x) && Stored(AcceptAll(t, rs), x)
    ensures Remains(AcceptAll(t, rs), rs, x)
  {
    var again := AcceptAll(t, rs);
    forall j | 0 <= j < |rs| && Active(again, rs, j) ensures Active(t, rs, j) {
      ActiveAgain(t, rs, origin, j);
    }
    if Stored(t, x) && NotDisplacedFrom(t, rs, 0, x) {
      assert NotDisplacedFrom(again, rs, 0, x);
    } else {
      var i :| 0 <= i < |rs| && rs[i] == x && Active(t, rs, i) && NotDisplacedFrom(t, rs, i + 1, x);
      if Active(again, rs, i) {
        assert NotDisplacedFrom(again, rs, i + 1, x);
      } else {
        SilencedAgain(t, rs, origin, i);
        forall j | 0 <= j < |rs| && Active(again, rs, j) ensures !Displaces(rs[j], x) {
          if j < i {
            AggregateNotDisplacedBefore(t, rs, origin, j, i);
          }
        }
        assert NotDisplacedFrom(again, rs, 0, x);
      }
    }
  }

  lemma SameRowsSameTable(a: Table, b: Table)
    requires PrimaryKey(a) && PrimaryKey(b)
    requires forall x :: Stored(a, x) <==> Stored(b, x)
    ensures a == b
  {
    forall id | id in a ensures id in b && b[id] == a[id] {
      assert Stored(a, a[id]);
    }
    forall id | id in b ensures id in a && a[id] == b[id] {
      assert Stored(b, b[id]);
    }
  }

  /** Ingesting a whole sequence twice leaves the table it left the first time. */
  lemma ReplayIsIdempotent(t: Table, rs: seq<Row>, origin: EventId -> Origin)
    requires TableRespects(t, origin) && RowsRespect(rs, origin)
    ensures AcceptAll(AcceptAll(t, rs), rs) == AcceptAll(t, rs)
  {
    var once := AcceptAll(t, rs);
    AcceptAllRespects(t, rs, origin);
    AcceptAllRespects(once, rs, origin);
    forall x ensures Stored(AcceptAll(once, rs), x) <==> Stored(once, x) {
      LastWriter(t, rs, origin, x);
      LastWriter(once, rs, origin, x);
      if WrittenLast(once, rs, x) {
        WrittenAgainWasWritten(t, rs, origin, x);
      }
      if Stored(once, x) {
        RemainingRemainsAgain(t, rs, origin, x);
      }
    }
    SameRowsSameTable(AcceptAll(once, rs), once);
  }

  /** A retry after a partial upload: `sent` arrived, its reply was lost, and `sent + rest` is delivered from the
      start. */
  lemma RetryAfterPartialUpload(t: Table, sent: seq<Row>, rest: seq<Row>, origin: EventId -> Origin)
    requires TableRespects(t, origin) && RowsRespect(sent, origin)
    ensures AcceptAll(AcceptAll(t, sent), sent + rest) == AcceptAll(t, sent + rest)
  {
    AcceptAllAppend(AcceptAll(t, sent), sent, rest);
    ReplayIsIdempotent(t, sent, origin);
    AcceptAllAppend(t, sent, rest);
  }
}
