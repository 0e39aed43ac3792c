/** Splitting an upload into request bodies (`splitIngestBatches` in internal/agent/client.go). */
module Batching {
  import opened Wrappers
  import opened Events

  const MAX_BATCH_BYTES: nat := 4 * 1024 * 1024
  const MAX_BATCH_EVENTS: nat := 100
  const ENVELOPE_BYTES: nat := 11

  /** An event with its JSON encoding. */
  datatype Encoded = Encoded(event: Event, text: string)

  function Sizes(batch: seq<Encoded>): nat {
    if batch == [] then 0 else Sizes(batch[..|batch| - 1]) + |batch[|batch| - 1].text|
  }

  /** The bytes the splitter accounts for: envelope, events and the commas between them. */
  function AccountedBytes(batch: seq<Encoded>): nat {
    ENVELOPE_BYTES + Sizes(batch) + if batch == [] then 0 else |batch| - 1
  }

  predicate Fits(batch: seq<Encoded>) {
    |batch| <= MAX_BATCH_EVENTS && AccountedBytes(batch) <= MAX_BATCH_BYTES
  }

  function Concat(batches: seq<seq<Encoded>>): seq<Encoded> {
    if batches == [] then [] else batches[0] + Concat(batches[1..])
  }

  predicate Partition(batches: seq<seq<Encoded>>, events: seq<Encoded>) {
    Concat(batches) == events && forall i :: 0 <= i < |batches| ==> Fits(batches[i])
  }

  /** No batch could have taken the first event of the next one. */
  predicate Greedy(batches: seq<seq<Encoded>>) {
    (forall i :: 0 <= i < |batches| ==> batches[i] != []) &&
    (forall i :: 0 <= i < |batches| - 1 ==> !Fits(batches[i] + [batches[i + 1][0]]))
  }

  lemma ConcatAppend(batches: seq<seq<Encoded>>, batch: seq<Encoded>)
    ensures Concat(batches + [batch]) == Concat(batches) + batch
  {
    if batches == [] {
      assert [batch][1..] == [];
    } else {
      assert (batches + [batch])[1..] == batches[1..] + [batch];
      ConcatAppend(batches[1..], batch);
    }
  }

  /** The closed batches and the open one after the events `done`. */
  predicate Sending(batches: seq<seq<Encoded>>, batch: seq<Encoded>, done: seq<Encoded>) {
    && Concat(batches) + batch == done
    && Fits(batch) && (batch == [] ==> batches == [])
    && (forall i :: 0 <= i < |batches| ==> Fits(batches[i]))
    && (batch != [] ==> Greedy(batches + [batch]))
  }

  lemma AccountedAppend(batch: seq<Encoded>, e: Encoded)
    ensures AccountedBytes(batch + [e]) == AccountedBytes(batch) + |e.text| + if batch == [] then 0 else 1
  {
    assert (batch + [e])[..|batch|] == batch;
  }

  lemma BatchGrows(batches: seq<seq<Encoded>>, batch: seq<Encoded>, done: seq<Encoded>, e: Encoded)
    requires Sending(batches, batch, done) && Fits(batch + [e])
    ensures Sending(batches, batch + [e], done + [e])
  {
    var before, after := batches + [batch], batches + [batch + [e]];
    if batch != [] {
      assert forall i :: 0 <= i < |batches| ==> after[i] == before[i];
      forall i | 0 <= i < |after| - 1 ensures !Fits(after[i] + [after[i + 1][0]]) {
        assert !Fits(before[i] + [before[i + 1][0]]);
      }
    }
  }

  lemma BatchCloses(batches: seq<seq<Encoded>>, batch: seq<Encoded>, done: seq<Encoded>, e: Encoded)
    requires Sending(batches, batch, done) && batch != []
    requires !Fits(batch + [e]) && Fits([e])
    ensures Sending(batches + [batch], [e], done + [e])
  {
    ConcatAppend(batches, batch);
    var before, after := batches + [batch], batches + [batch] + [[e]];
    assert forall i :: 0 <= i < |before| ==> after[i] == before[i];
    forall i | 0 <= i < |after| - 1 ensures !Fits(after[i] + [after[i + 1][0]]) {
      if i < |before| - 1 {
        assert !Fits(before[i] + [before[i + 1][0]]);
      }
    }
  }

  /** What the comparison of byte counts decides. */
  lemma RoomFor(batch: seq<Encoded>, e: Encoded)
    requires Fits(batch)
    ensures AccountedBytes([e]) == ENVELOPE_BYTES + |e.text|
    ensures Fits([e]) <==> ENVELOPE_BYTES + |e.text| <= MAX_BATCH_BYTES
    ensures AccountedBytes(batch + [e]) == AccountedBytes(batch) + (if |batch| > 0 then 1 else 0) + |e.text|
    ensures Fits(batch + [e]) <==> AccountedBytes(batch + [e]) <= MAX_BATCH_BYTES && |batch| < MAX_BATCH_EVENTS
    ensures Fits(batch + [e]) ==> Fits([e])
  {
    AccountedAppend(batch, e);
    AccountedAppend([], e);
    assert [] + [e] == [e];
  }

  lemma BatchTakes(batches: seq<seq<Encoded>>, batch: seq<Encoded>, done: seq<Encoded>, e: Encoded)
    requires Sending(batches, batch, done) && Fits([e])
    ensures if batch != [] && !Fits(batch + [e]) then Sending(batches + [batch], [e], done + [e])
      else Sending(batches, batch + [e], done + [e])
  {
    if batch != [] && !Fits(batch + [e]) {
      BatchCloses(batches, batch, done, e);
    } else {
      assert [] + [e] == [e];
      BatchGrows(batches, batch, done, e);
    }
  }

  lemma AllSent(batches: seq<seq<Encoded>>, batch: seq<Encoded>, events: seq<Encoded>)
    requires Sending(batches, batch, events)
    ensures var all := if |batch| > 0 then batches + [batch] else batches;
      Partition(all, events) && Greedy(all)
  {
    ConcatAppend(batches, batch);
  }

  /** One turn of the loop: the open batch is closed when the event does not fit any more. */
  method Place(
    batches: seq<seq<Encoded>>, batch: seq<Encoded>, batchBytes: nat, encoded: Encoded, ghost done: seq<Encoded>)
    returns (placed: Result<(seq<seq<Encoded>>, seq<Encoded>, nat), string>)
    requires Sending(batches, batch, done) && batchBytes == AccountedBytes(batch)
    ensures placed.Err? <==> !Fits([encoded])
    ensures placed.Ok? ==>
      Sending(placed.value.0, placed.value.1, done + [encoded]) && placed.value.2 == AccountedBytes(placed.value.1)
  {
    var all, open, bytes := batches, batch, batchBytes;
    var separatorBytes := if |batch| > 0 then 1 else 0;
    RoomFor(batch, encoded);
    ghost var closes := batch != [] && !Fits(batch + [encoded]);
    if |batch| > 0 && (bytes + separatorBytes + |encoded.text| > MAX_BATCH_BYTES || |batch| >= MAX_BATCH_EVENTS) {
      assert closes;
      all, open, bytes, separatorBytes := batches + [batch], [], ENVELOPE_BYTES, 0;
    } else {
      assert !closes;
    }
    ghost var next := if closes then [encoded] else batch + [encoded];
    assert open + [encoded] == next;
    assert bytes + separatorBytes + |encoded.text| == AccountedBytes(next);
    assert AccountedBytes(next) <= MAX_BATCH_BYTES <==> Fits([encoded]);
    if bytes + separatorBytes + |encoded.text| > MAX_BATCH_BYTES {
      return Err("usage event exceeds the ingest batch limit");
    }
    BatchTakes(batches, batch, done, encoded);
    placed := Ok((all, open + [encoded], bytes + separatorBytes + |encoded.text|));
  }

  method SplitIngestBatches(events: seq<Encoded>) returns (result: Result<seq<seq<Encoded>>, string>)
    ensures result.Err? <==> exists i :: 0 <= i < |events| && !Fits([events[i]])
    ensures result.Ok? ==> Partition(result.value, events) && Greedy(result.value)
  {
    var batches: seq<seq<Encoded>> := [];
    var batch: seq<Encoded> := [];
    var batchBytes := ENVELOPE_BYTES;
    for i := 0 to |events|
      invariant forall j :: 0 <= j < i ==> Fits([events[j]])
      invariant Sending(batches, batch, events[..i]) && batchBytes == AccountedBytes(batch)
    {
      var placed := Place(batches, batch, batchBytes, events[i], events[..i]);
      if placed.Err? {
        return Err(placed.error);
      }
      assert events[..i + 1] == events[..i] + [events[i]];
      batches, batch, batchBytes := placed.value.0, placed.value.1, placed.value.2;
    }
    assert events[..|events|] == events;
    AllSent(batches, batch, events);
    if |batch| > 0 {
      batches := batches + [batch];
    }
    result := Ok(batches);
  }

  // ----- No partition needs fewer requests -----

  lemma {:induction false} SizesAppend(a: seq<Encoded>, b: seq<Encoded>)
    ensures Sizes(a + b) == Sizes(a) + Sizes(b)
  {
    if b == [] {
      assert a + b == a;
    } else {
      assert (a + b)[..|a + b| - 1] == a + b[..|b| - 1];
      SizesAppend(a, b[..|b| - 1]);
    }
  }

  lemma PartFits(batch: seq<Encoded>, from: nat, to: nat)
    requires from < to <= |batch| && Fits(batch)
    ensures Fits(batch[from..to])
  {
    SizesAppend(batch[..from], batch[from..to]);
    assert batch[..from] + batch[from..to] == batch[..to];
    SizesAppend(batch[..to], batch[to..]);
    assert batch[..to] + batch[to..] == batch;
  }

  /** Any other way to cut the events, even one with a longer part still to send, needs at least as many batches. */
  lemma {:induction false} GreedyStaysAhead(
    batches: seq<seq<Encoded>>, others: seq<seq<Encoded>>, all: seq<Encoded>, d: nat)
    requires Greedy(batches) && Partition(others, all)
    requires d <= |all| && Concat(batches) == all[d..]
    ensures |batches| <= |others|
    decreases |others|
  {
    if batches != [] {
      var mine := batches[0];
      assert Concat(batches) != [];
      var theirs := others[0];
      var rest := Concat(others[1..]);
      assert all == theirs + rest;
      if |batches| > 1 && |theirs| > d + |mine| {
        var next := batches[1][0];
        assert Concat(batches[1..])[0] == next;
        assert theirs[d..d + |mine| + 1] == mine + [next] by {
          assert all[d..] == mine + Concat(batches[1..]);
          assert theirs[d..d + |mine| + 1] == all[d..][..|mine| + 1];
        }
        PartFits(theirs, d, d + |mine| + 1);
      } else if |batches| > 1 {
        assert all[|theirs|..] == rest && all[d..][|mine|..] == Concat(batches[1..]);
        assert rest[d + |mine| - |theirs|..] == all[d + |mine|..];
        GreedyTail(batches);
        GreedyStaysAhead(batches[1..], others[1..], rest, d + |mine| - |theirs|);
      }
    }
  }

  lemma GreedyTail(batches: seq<seq<Encoded>>)
    requires Greedy(batches) && batches != []
    ensures Greedy(batches[1..])
  {
    forall i | 0 <= i < |batches[1..]| - 1 ensures !Fits(batches[1..][i] + [batches[1..][i + 1][0]]) {
      assert batches[1..][i] == batches[i + 1] && batches[1..][i + 1] == batches[i + 2];
      assert !Fits(batches[i + 1] + [batches[i + 1 + 1][0]]);
    }
  }

  /** The split uses as few requests as any split within the limits. */
  lemma FewestBatches(batches: seq<seq<Encoded>>, others: seq<seq<Encoded>>, events: seq<Encoded>)
    requires Greedy(batches) && Partition(batches, events) && Partition(others, events)
    ensures |batches| <= |others|
  {
    assert events[0..] == events;
    GreedyStaysAhead(batches, others, events, 0);
  }

  // ----- The body that is sent -----

  const MAX_BODY_BYTES: nat := 4 * 1024 * 1024

  /** The splitter leaves out the closing `]}`. */
  function BodyBytes(batch: seq<Encoded>): nat {
    AccountedBytes(batch) + 2
  }

  function Joined(batch: seq<Encoded>): string {
    if batch == [] then ""
    else if |batch| == 1 then batch[0].text
    else Joined(batch[..|batch| - 1]) + "," + batch[|batch| - 1].text
  }

  /** The request body. */
  function Body(batch: seq<Encoded>): string {
    "{\"events\":[" + Joined(batch) + "]}"
  }

  lemma {:induction false} BodyLength(batch: seq<Encoded>)
    ensures |Body(batch)| == BodyBytes(batch)
  {
    if batch == [] {
    } else if |batch| == 1 {
      assert batch[..0] == [] && Sizes([]) == 0;
    } else {
      BodyLength(batch[..|batch| - 1]);
    }
  }

  /** A batch is within the limits of the splitter when it has at most a hundred events and its body, without the
      closing brackets, at most four mebibytes. */
  lemma FitsIff(batch: seq<Encoded>)
    ensures Fits(batch) <==> |batch| <= 100 && |Body(batch)| - 2 <= 4 * 1024 * 1024
  {
    BodyLength(batch);
  }

  /** The hub measures the whole body against the same limit, so one event can fill a body the splitter accepts and the
      hub refuses: exactly when its text leaves no room for those two bytes. */
  lemma FullBodyIsRefusedIff(e: Encoded)
    ensures Fits([e]) && BodyBytes([e]) > MAX_BODY_BYTES <==>
      |e.text| == MAX_BATCH_BYTES - ENVELOPE_BYTES || |e.text| == MAX_BATCH_BYTES - ENVELOPE_BYTES - 1
  {
    RoomFor([], e);
  }

  const SMALL_EVENT: nat := 41_941

  lemma {:induction false} SizesOfSmall(batch: seq<Encoded>)
    requires forall e :: e in batch ==> |e.text| <= SMALL_EVENT
    ensures Sizes(batch) <= |batch| * SMALL_EVENT
  {
    if batch == [] {
    } else {
      SizesOfSmall(batch[..|batch| - 1]);
    }
  }

  /** Small events never get that far: a batch of them stops at its event limit. */
  lemma SmallEventsAreNotRefused(batch: seq<Encoded>)
    requires Fits(batch) && forall e :: e in batch ==> |e.text| <= SMALL_EVENT
    ensures BodyBytes(batch) <= MAX_BODY_BYTES
  {
    SizesOfSmall(batch);
  }

  function Same(e: Encoded, n: nat): seq<Encoded> {
    seq(n, _ => e)
  }

  lemma {:induction false} SizesOfSame(e: Encoded, n: nat)
    ensures Sizes(Same(e, n)) == n * |e.text|
  {
    if n > 0 {
      assert Same(e, n)[..n - 1] == Same(e, n - 1);
      SizesOfSame(e, n - 1);
    }
  }

  /** One byte more would not do: ninety-four events of that length and six small ones fill a batch that is refused. */
  lemma SmallBoundIsExact(big: Encoded, small: Encoded)
    requires |big.text| == SMALL_EVENT + 1 && |small.text| == SMALL_EVENT
    ensures Fits(Same(big, 94) + Same(small, 6)) && BodyBytes(Same(big, 94) + Same(small, 6)) > MAX_BODY_BYTES
    ensures !Fits(Same(big, 100))
  {
    SizesOfSame(big, 94);
    SizesOfSame(small, 6);
    SizesAppend(Same(big, 94), Same(small, 6));
    SizesOfSame(big, 100);
  }
}
