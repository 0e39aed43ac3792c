/** Uploading events in several requests (`Client.Ingest` in internal/agent/client.go) to the batch endpoint of the hub
    (`ingest` in internal/api/server.go). */
module ClientIngest {
  import opened Wrappers
  import opened Events
  import opened HubTable
  import opened HubReplay
  import opened HubIngest
  import opened Batching

  const MAX_HUB_EVENTS: nat := 1000

  /** What becomes of a request: `Failed` covers a request that never arrives and a transaction that is rolled back,
      `StoredUnread` a batch that is stored although the hub answers with an error. */
  datatype Delivery = Delivered | Failed | ReplyLost | StoredUnread

  function BatchEvents(batch: seq<Encoded>): seq<Event> {
    seq(|batch|, i requires 0 <= i < |batch| => batch[i].event)
  }

  /** The hub refuses a whole batch for its size or for one invalid event. */
  predicate Admitted(batch: seq<Encoded>, now: int) {
    && 0 < |batch| <= MAX_HUB_EVENTS && BodyBytes(batch) <= MAX_BODY_BYTES
    && forall e :: e in BatchEvents(batch) ==> Valid(e, now)
  }

  method PostBatch(hub: Store, batch: seq<Encoded>, now: int, delivery: Delivery)
    returns (result: Result<IngestResult, string>, ghost ingested: bool)
    requires hub.Valid()
    modifies hub
    ensures hub.Valid()
    ensures ingested <==> !delivery.Failed? && Admitted(batch, now)
    ensures result.Ok? <==> delivery.Delivered? && Admitted(batch, now)
    ensures Admitted(batch, now) <==>
      0 < |batch| <= 1000 && |Body(batch)| <= 4 * 1024 * 1024 &&
      forall i :: 0 <= i < |batch| ==> Valid(batch[i].event, now)
    ensures hub.rows == if ingested then AcceptAll(old(hub.rows), RowsOf(BatchEvents(batch))) else old(hub.rows)
    ensures result.Ok? ==> result.value.rejected == 0 && result.value.accepted + result.value.duplicates == |batch|
  {
    BodyLength(batch);
    assert forall i :: 0 <= i < |batch| ==> BatchEvents(batch)[i] == batch[i].event;
    if !Admitted(batch, now) || delivery.Failed? {
      return Err("server returned an error"), false;
    }
    ValidRowsOfValid(BatchEvents(batch), now);
    ingested := true;
    result := hub.Ingest(BatchEvents(batch), now, None, false, delivery.StoredUnread?);
    if delivery.ReplyLost? {
      result := Err("no reply");
    }
  }

  // ----- The upload of one pass -----

  datatype Client = Client(encode: Event -> string, approved: Event -> bool)

  function Outbound(client: Client, events: seq<Event>): seq<Encoded> {
    seq(|events|, i requires 0 <= i < |events| =>
      var event := SanitizeOutbound(events[i]); Encoded(event, client.encode(event)))
  }

  /** Every event passes the privacy check and fits a request of its own; otherwise nothing is sent at all. */
  predicate Sendable(client: Client, events: seq<Event>) {
    events != [] &&
    forall e :: e in Outbound(client, events) ==> client.approved(e.event) && Fits([e])
  }

  function RowsSent(batches: seq<seq<Encoded>>, count: nat): seq<Row>
    requires count <= |batches|
  {
    RowsOf(BatchEvents(Concat(batches[..count])))
  }

  /** `now` is `before` with the events of the first `count` batches ingested. */
  predicate Sent(before: Table, now: Table, batches: seq<seq<Encoded>>, count: nat)
    requires count <= |batches|
  {
    now == AcceptAll(before, RowsSent(batches, count))
  }

  lemma OneMoreBatch(before: Table, now: Table, batches: seq<seq<Encoded>>, i: nat)
    requires i < |batches| && Sent(before, now, batches, i)
    ensures |Concat(batches[..i + 1])| == |Concat(batches[..i])| + |batches[i]|
    ensures Sent(before, AcceptAll(now, RowsOf(BatchEvents(batches[i]))), batches, i + 1)
  {
    assert batches[..i + 1] == batches[..i] + [batches[i]];
    ConcatAppend(batches[..i], batches[i]);
    assert RowsSent(batches, i + 1) == RowsSent(batches, i) + RowsOf(BatchEvents(batches[i]));
    AcceptAllAppend(before, RowsSent(batches, i), RowsOf(BatchEvents(batches[i])));
  }

  lemma {:induction false} SentIsPrefix(batches: seq<seq<Encoded>>, count: nat)
    requires count <= |batches|
    ensures Concat(batches[..count]) <= Concat(batches)
  {
    if count < |batches| {
      SentIsPrefix(batches[1..], if count > 0 then count - 1 else 0);
      if count > 0 {
        assert batches[..count][1..] == batches[1..][..count - 1];
      }
    } else {
      assert batches[..count] == batches;
    }
  }

  /** The rows of the first `count` events. */
  function FirstRows(outbound: seq<Encoded>, count: nat): seq<Row>
    requires count <= |outbound|
  {
    RowsOf(BatchEvents(outbound[..count]))
  }

  lemma BatchesAreFirstRows(batches: seq<seq<Encoded>>, count: nat)
    requires count <= |batches|
    ensures |Concat(batches[..count])| <= |Concat(batches)|
    ensures RowsSent(batches, count) == FirstRows(Concat(batches), |Concat(batches[..count])|)
    ensures count == |batches| ==> Concat(batches[..count]) == Concat(batches)
  {
    SentIsPrefix(batches, count);
    assert Concat(batches)[..|Concat(batches[..count])|] == Concat(batches[..count]);
    assert count == |batches| ==> batches[..count] == batches;
  }

  predicate Answered(batches: seq<seq<Encoded>>, deliveries: nat -> Delivery, now: int, i: nat)
    requires i < |batches|
  {
    deliveries(i).Delivered? && Admitted(batches[i], now)
  }

  /** The batches go out one by one until one fails. */
  method SendBatches(hub: Store, batches: seq<seq<Encoded>>, now: int, deliveries: nat -> Delivery)
    returns (result: Result<IngestResult, string>, ghost done: nat)
    requires hub.Valid()
    modifies hub
    ensures hub.Valid()
    ensures done <= |batches| && Sent(old(hub.rows), hub.rows, batches, done)
    ensures result.Ok? ==> done == |batches| && result.value.rejected == 0
    ensures result.Ok? ==> result.value.accepted + result.value.duplicates == |Concat(batches)|
    ensures result.Ok? <==> forall i :: 0 <= i < |batches| ==> Answered(batches, deliveries, now, i)
  {
    var combined := IngestResult(0, 0, 0);
    assert RowsSent(batches, 0) == [];
    for index := 0 to |batches|
      invariant hub.Valid() && Sent(old(hub.rows), hub.rows, batches, index)
      invariant combined.rejected == 0 && combined.accepted + combined.duplicates == |Concat(batches[..index])|
      invariant forall i :: 0 <= i < index ==> Answered(batches, deliveries, now, i)
    {
      OneMoreBatch(old(hub.rows), hub.rows, batches, index);
      assert Answered(batches, deliveries, now, index) <==>
        deliveries(index).Delivered? && Admitted(batches[index], now);
      ghost var ingested: bool;
      var reply: Result<IngestResult, string>;
      reply, ingested := PostBatch(hub, batches[index], now, deliveries(index));
      if reply.Err? {
        return Err(reply.error), if ingested then index + 1 else index;
      }
      combined := IngestResult(combined.accepted + reply.value.accepted, combined.duplicates + reply.value.duplicates,
                               combined.rejected + reply.value.rejected);
    }
    assert batches[..|batches|] == batches;
    return Ok(combined), |batches|;
  }

  /** Nothing goes wrong: every request and reply arrives, every event is valid, and none is large. */
  ghost predicate Smooth(client: Client, events: seq<Event>, now: int, deliveries: nat -> Delivery) {
    && (forall i :: deliveries(i).Delivered?)
    && forall e :: e in Outbound(client, events) ==> Valid(e.event, now) && |e.text| <= SMALL_EVENT
  }

  lemma {:induction false} PartOfAll(batches: seq<seq<Encoded>>, i: nat, e: Encoded)
    requires i < |batches| && e in batches[i]
    ensures e in Concat(batches)
  {
    if i > 0 {
      PartOfAll(batches[1..], i - 1, e);
    }
  }

  lemma SmoothIsAdmitted(
    client: Client, events: seq<Event>, now: int, deliveries: nat -> Delivery, batches: seq<seq<Encoded>>, i: nat)
    requires Smooth(client, events, now, deliveries)
    requires Partition(batches, Outbound(client, events)) && Greedy(batches) && i < |batches|
    ensures Admitted(batches[i], now)
  {
    var batch := batches[i];
    forall k | 0 <= k < |batch| ensures Valid(batch[k].event, now) && |batch[k].text| <= SMALL_EVENT {
      PartOfAll(batches, i, batch[k]);
    }
    SmallEventsAreNotRefused(batch);
    assert |BatchEvents(batch)| == |batch|;
  }

  /** What is checked and split before the first request. */
  method Prepare(client: Client, events: seq<Event>) returns (split: Result<seq<seq<Encoded>>, string>)
    ensures split.Ok? <==> Sendable(client, events)
    ensures split.Ok? ==> Partition(split.value, Outbound(client, events)) && Greedy(split.value)
  {
    var outbound := Outbound(client, events);
    if |events| == 0 {
      return Err("events must not be empty");
    }
    if exists e :: e in outbound && !client.approved(e.event) {
      return Err("sensitive content");
    }
    split := SplitIngestBatches(outbound);
    if split.Err? {
      var i :| 0 <= i < |outbound| && !Fits([outbound[i]]);
      assert outbound[i] in outbound;
    }
  }

  /** Whatever the network does, the hub has ingested the first `sent` events in order, and all of them on success. */
  method Ingest(client: Client, hub: Store, events: seq<Event>, now: int, deliveries: nat -> Delivery)
    returns (result: Result<IngestResult, string>, ghost sent: nat)
    requires hub.Valid()
    modifies hub
    ensures hub.Valid()
    ensures sent <= |events| && hub.rows == AcceptAll(old(hub.rows), FirstRows(Outbound(client, events), sent))
    ensures !Sendable(client, events) ==> result.Err? && sent == 0
    ensures result.Ok? ==> sent == |events| && result.value.rejected == 0
    ensures result.Ok? ==> result.value.accepted + result.value.duplicates == |events|
    ensures Sendable(client, events) && Smooth(client, events, now, deliveries) ==> result.Ok?
  {
    var split := Prepare(client, events);
    if split.Err? {
      assert FirstRows(Outbound(client, events), 0) == [];
      return Err(split.error), 0;
    }
    if Smooth(client, events, now, deliveries) {
      forall i | 0 <= i < |split.value| ensures Answered(split.value, deliveries, now, i) {
        SmoothIsAdmitted(client, events, now, deliveries, split.value, i);
      }
    }
    ghost var done: nat;
    result, done := SendBatches(hub, split.value, now, deliveries);
    BatchesAreFirstRows(split.value, done);
    sent := |Concat(split.value[..done])|;
  }

  /** However many uploads of the same events failed part of the way, the one that succeeds leaves the hub as if it had
      been the first. */
  lemma {:induction false} RetriesCompleteTheUpload(
    t: Table, rows: seq<Row>, failed: seq<nat>, origin: EventId -> Origin)
    requires TableRespects(t, origin) && RowsRespect(rows, origin)
    requires forall i :: 0 <= i < |failed| ==> failed[i] <= |rows|
    ensures AcceptAll(AfterFailures(t, rows, failed), rows) == AcceptAll(t, rows)
  {
    if failed == [] {
    } else {
      var init, k := failed[..|failed| - 1], failed[|failed| - 1];
      RetriesCompleteTheUpload(t, rows, init, origin);
      FailuresRespect(t, rows, init, origin);
      assert rows[..k] + rows[k..] == rows;
      RetryAfterPartialUpload(AfterFailures(t, rows, init), rows[..k], rows[k..], origin);
    }
  }

  /** Attempt i got as far as failed[i] rows. */
  function AfterFailures(t: Table, rows: seq<Row>, failed: seq<nat>): Table
    requires forall i :: 0 <= i < |failed| ==> failed[i] <= |rows|
  {
    if failed == [] then t
    else AcceptAll(AfterFailures(t, rows, failed[..|failed| - 1]), rows[..failed[|failed| - 1]])
  }

  lemma {:induction false} FailuresRespect(t: Table, rows: seq<Row>, failed: seq<nat>, origin: EventId -> Origin)
    requires TableRespects(t, origin) && RowsRespect(rows, origin)
    requires forall i :: 0 <= i < |failed| ==> failed[i] <= |rows|
    ensures TableRespects(AfterFailures(t, rows, failed), origin)
  {
    if failed == [] {
    } else {
      FailuresRespect(t, rows, failed[..|failed| - 1], origin);
      AcceptAllRespects(AfterFailures(t, rows, failed[..|failed| - 1]), rows[..failed[|failed| - 1]], origin);
    }
  }
}
