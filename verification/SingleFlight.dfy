/** The read-through cache in front of the hub's aggregates: one computation at a time, invalidated by generation
    (`cachedEvolution`, `cachedOverview` and their invalidation in internal/api/server.go). */
module SingleFlight {
  import opened Wrappers

  /** What a computation returned. It read the store more than once; `readFrom` is the version of its first read.
      The store version counts committed ingests. A failed computation is cached and served like any other. */
  datatype Answer = Answer(readFrom: nat, readTo: nat, failed: bool)

  datatype Entry = Entry(answer: Answer, fetched: int)

  const TTL: int := 60_000_000_000

  // ----- The state guarded by the mutex, and its three critical sections -----

  /** Channels are numbered in the order they are made. */
  datatype Shared = Shared(cache: Option<Entry>, ready: Option<nat>, generation: nat, channels: nat)

  datatype Outcome = Hit(answer: Answer) | Wait(channel: nat) | Compute(generation: nat, channel: nat)

  function Begin(s: Shared, now: int): (Shared, Outcome) {
    if s.cache.Some? && now - s.cache.value.fetched < TTL then (s, Hit(s.cache.value.answer))
    else if s.ready.Some? then (s, Wait(s.ready.value))
    else (s.(ready := Some(s.channels), channels := s.channels + 1), Compute(s.generation, s.channels))
  }

  /** Returns the channel to close, read back from the shared state. */
  function Finish(s: Shared, generation: nat, answer: Answer, now: int): (Shared, Option<nat>) {
    (s.(ready := None, cache := if s.generation == generation then Some(Entry(answer, now)) else s.cache), s.ready)
  }

  function Invalidate(s: Shared): Shared {
    s.(generation := s.generation + 1, cache := None)
  }

  class Cache {
    var cache: Option<Entry>
    var ready: Option<nat>
    var generation: nat
    ghost var channels: nat

    ghost function State(): Shared
      reads this
    {
      Shared(cache, ready, generation, channels)
    }

    constructor ()
      ensures State() == Shared(None, None, 0, 0)
    {
      cache, ready, generation, channels := None, None, 0, 0;
    }

    /** The first critical section of a read. `made` is the channel a make call would return now. */
    method BeginLocked(now: int, made: nat) returns (outcome: Outcome)
      requires made == channels
      modifies this
      ensures (State(), outcome) == Begin(old(State()), now)
    {
      if cache.Some? && now - cache.value.fetched < TTL {
        return Hit(cache.value.answer);
      }
      if ready.Some? {
        return Wait(ready.value);
      }
      outcome := Compute(generation, made);
      ready := Some(made);
      channels := channels + 1;
    }

    /** The second critical section of a read that computed. */
    method FinishLocked(computedAt: nat, answer: Answer, now: int) returns (channel: Option<nat>)
      modifies this
      ensures (State(), channel) == Finish(old(State()), computedAt, answer, now)
    {
      channel := ready;
      ready := None;
      if generation == computedAt {
        cache := Some(Entry(answer, now));
      }
    }

    method InvalidateLocked()
      modifies this
      ensures State() == Invalidate(old(State()))
    {
      generation := generation + 1;
      cache := None;
    }
  }

  // ----- Readers, computations and ingests, interleaved -----

  datatype Thread =
    | Idle
    | Waiting(channel: nat)
    | Computing(generation: nat, channel: nat)
    | Reading(generation: nat, channel: nat, readFrom: nat)
    | Computed(generation: nat, channel: nat, answer: Answer)
    | Closing(channel: nat, answer: Answer)
    | Returned(answer: Answer)
    | Ingesting(version: nat)
  {
    predicate InFlight() {
      Computing? || Reading? || Computed?
    }
  }

  /** `invalidated` is the newest store version whose invalidation has run. */
  datatype World = World(
    shared: Shared, version: nat, closed: set<nat>, threads: seq<Thread>, invalidated: nat, panicked: bool)

  datatype Step =
    | Enter(i: nat, now: int)          // lock, look, unlock
    | ReadFirst(i: nat)                // first read of the store
    | ReadRest(i: nat, failed: bool)   // remaining reads
    | Fail(i: nat)                     // error or cancellation before the first read
    | Install(i: nat, now: int)        // lock, store, unlock
    | CloseReady(i: nat)               // close(ready)
    | Wake(i: nat)                     // <-ready
    | Cancel(i: nat)                   // <-ctx.Done()
    | Commit(i: nat)                   // an ingest commits
    | RunInvalidation(i: nat)          // and then invalidates
    | SkipInvalidation(i: nat)         // or returns an error after its commit, without invalidating
    | Leave(i: nat)                    // a returned reader is done

  predicate Enabled(w: World, s: Step) {
    s.i < |w.threads| &&
    var t := w.threads[s.i];
    match s
    case Enter(_, _) => t.Idle?
    case ReadFirst(_) => t.Computing?
    case ReadRest(_, _) => t.Reading?
    case Fail(_) => t.Computing?
    case Install(_, _) => t.Computed?
    case CloseReady(_) => t.Closing?
    case Wake(_) => t.Waiting? && t.channel in w.closed
    case Cancel(_) => t.Waiting?
    case Commit(_) => t.Idle?
    case RunInvalidation(_) => t.Ingesting?
    case SkipInvalidation(_) => t.Ingesting?
    case Leave(_) => t.Returned?
  }

  function Become(w: World, i: nat, t: Thread): World
    requires i < |w.threads|
  {
    w.(threads := w.threads[i := t])
  }

  function After(w: World, s: Step): World
    requires Enabled(w, s)
  {
    var i, t := s.i, w.threads[s.i];
    match s
    case Enter(_, now) =>
      var (shared, outcome) := Begin(w.shared, now);
      Become(w.(shared := shared), i,
        match outcome
        case Hit(answer) => Returned(answer)
        case Wait(channel) => Waiting(channel)
        case Compute(generation, channel) => Computing(generation, channel))
    case ReadFirst(_) => Become(w, i, Reading(t.generation, t.channel, w.version))
    case ReadRest(_, failed) => Become(w, i, Computed(t.generation, t.channel, Answer(t.readFrom, w.version, failed)))
    case Fail(_) => Become(w, i, Computed(t.generation, t.channel, Answer(w.version, w.version, true)))
    case Install(_, now) =>
      var (shared, channel) := Finish(w.shared, t.generation, t.answer, now);
      if channel.None? then w.(shared := shared, panicked := true)
      else Become(w.(shared := shared), i, Closing(channel.value, t.answer))
    case CloseReady(_) =>
      Become(w.(closed := w.closed + {t.channel}, panicked := w.panicked || t.channel in w.closed), i,
        Returned(t.answer))
    case Wake(_) => Become(w, i, Idle)
    case Cancel(_) => Become(w, i, Idle)
    case Commit(_) => Become(w.(version := w.version + 1), i, Ingesting(w.version + 1))
    case RunInvalidation(_) =>
      Become(w.(shared := Invalidate(w.shared), invalidated := Max(w.invalidated, t.version)), i, Idle)
    case SkipInvalidation(_) => Become(w, i, Idle)
    case Leave(_) => Become(w, i, Idle)
  }

  function Start(threads: nat): World {
    World(Shared(None, None, 0, 0), 0, {}, seq(threads, _ => Idle), 0, false)
  }

  // ----- The invariant -----

  /** What is read now, or was read by a computation that may still install its answer, is not older than any
      invalidation that has run. */
  predicate FreshThread(w: World, t: Thread) {
    && (t.InFlight() ==> t.generation <= w.shared.generation)
    && (t.Reading? && t.generation == w.shared.generation ==> t.readFrom >= w.invalidated)
    && (t.Computed? && t.generation == w.shared.generation ==> t.answer.readFrom >= w.invalidated)
    && (t.Ingesting? ==> t.version <= w.version)
  }

  predicate Fresh(w: World) {
    && w.invalidated <= w.version
    && (w.shared.cache.Some? ==> w.shared.cache.value.answer.readFrom >= w.invalidated)
    && forall i :: 0 <= i < |w.threads| ==> FreshThread(w, w.threads[i])
  }

  /** A thread that made a channel and has yet to close it. */
  predicate Owner(t: Thread) {
    t.InFlight() || t.Closing?
  }

  /** One computation in flight, owning the ready channel; every channel not yet closed has exactly one owner. */
  predicate Channels(w: World) {
    && (forall i :: 0 <= i < |w.threads| && w.threads[i].InFlight() ==> w.shared.ready == Some(w.threads[i].channel))
    && (forall i :: 0 <= i < |w.threads| && w.threads[i].Closing? ==> w.shared.ready != Some(w.threads[i].channel))
    && (forall i :: 0 <= i < |w.threads| && Owner(w.threads[i]) ==>
          w.threads[i].channel < w.shared.channels && w.threads[i].channel !in w.closed)
    && (forall i, j :: 0 <= i < j < |w.threads| && Owner(w.threads[i]) && Owner(w.threads[j]) ==>
          w.threads[i].channel != w.threads[j].channel)
    && (forall c :: c in w.closed ==> c < w.shared.channels)
    && (w.shared.ready.Some? ==> w.shared.ready.value < w.shared.channels && w.shared.ready.value !in w.closed)
  }

  /** A waiter's channel is closed or will be: nobody waits for a channel without an owner. */
  ghost predicate NoLostWakeup(w: World) {
    && (w.shared.ready.Some? ==>
      exists i :: 0 <= i < |w.threads| && w.threads[i].InFlight() && w.threads[i].channel == w.shared.ready.value)
    && forall i :: 0 <= i < |w.threads| && w.threads[i].Waiting? ==>
      w.threads[i].channel in w.closed ||
      exists j :: 0 <= j < |w.threads| && Owner(w.threads[j]) && w.threads[j].channel == w.threads[i].channel
  }

  ghost predicate Inv(w: World) {
    Fresh(w) && Channels(w) && NoLostWakeup(w) && !w.panicked
  }

  lemma StartInv(n: nat)
    ensures Inv(Start(n))
  {
  }

  /** A thread that does not move stays fresh, because an invalidation starts a new generation. */
  lemma OthersStayFresh(w: World, v: World, i: nat)
    requires Fresh(w) && i < |w.threads| == |v.threads| && v.threads == w.threads[i := v.threads[i]]
    requires w.version <= v.version
    requires w.shared.generation < v.shared.generation ||
      (w.shared.generation == v.shared.generation && w.invalidated == v.invalidated)
    ensures forall j :: 0 <= j < |v.threads| && j != i ==> FreshThread(v, v.threads[j])
  {
    forall j | 0 <= j < |v.threads| && j != i ensures FreshThread(v, v.threads[j]) {
      assert v.threads[j] == w.threads[j] && FreshThread(w, w.threads[j]);
    }
  }

  lemma MoverStaysFresh(w: World, s: Step)
    requires Fresh(w) && Enabled(w, s)
    ensures s.i < |After(w, s).threads| && FreshThread(After(w, s), After(w, s).threads[s.i])
    ensures
      var v := After(w, s);
      && v.invalidated <= v.version
      && (v.shared.cache.Some? ==> v.shared.cache.value.answer.readFrom >= v.invalidated)
  {
    assert FreshThread(w, w.threads[s.i]);
  }

  lemma StepKeepsFresh(w: World, s: Step)
    requires Inv(w) && Enabled(w, s)
    ensures Fresh(After(w, s))
  {
    MoverStaysFresh(w, s);
    assert After(w, s).threads == w.threads[s.i := After(w, s).threads[s.i]];
    OthersStayFresh(w, After(w, s), s.i);
  }

  /** Thread `i` moved on without taking or giving up a channel. */
  predicate SameOwnership(w: World, v: World, i: nat) {
    && i < |w.threads| == |v.threads| && v.threads == w.threads[i := v.threads[i]]
    && v.shared.ready == w.shared.ready && v.shared.channels == w.shared.channels && v.closed == w.closed
    && v.threads[i].InFlight() == w.threads[i].InFlight() && v.threads[i].Closing? == w.threads[i].Closing?
    && (Owner(w.threads[i]) ==> v.threads[i].channel == w.threads[i].channel)
  }

  lemma SameOwnershipKeepsChannels(w: World, v: World, i: nat)
    requires Channels(w) && SameOwnership(w, v, i)
    ensures Channels(v)
  {
    assert forall j :: 0 <= j < |v.threads| && j != i ==> v.threads[j] == w.threads[j];
  }

  lemma SameOwnershipKeepsWakeups(w: World, v: World, i: nat)
    requires Channels(w) && NoLostWakeup(w) && SameOwnership(w, v, i)
    requires v.threads[i].Waiting? ==> w.shared.ready == Some(v.threads[i].channel)
    ensures NoLostWakeup(v)
  {
    assert forall j :: 0 <= j < |v.threads| && j != i ==> v.threads[j] == w.threads[j];
    if v.shared.ready.Some? {
      var k :| 0 <= k < |w.threads| && w.threads[k].InFlight() && w.threads[k].channel == w.shared.ready.value;
      assert v.threads[k].InFlight() && v.threads[k].channel == v.shared.ready.value;
    }
    forall j | 0 <= j < |v.threads| && v.threads[j].Waiting?
      ensures v.threads[j].channel in v.closed ||
        exists k :: 0 <= k < |v.threads| && Owner(v.threads[k]) && v.threads[k].channel == v.threads[j].channel
    {
      if j != i && v.threads[j].channel !in v.closed {
        var k :| 0 <= k < |w.threads| && Owner(w.threads[k]) && w.threads[k].channel == w.threads[j].channel;
        assert Owner(v.threads[k]) && v.threads[k].channel == v.threads[j].channel;
      }
    }
  }

  lemma ComputeTakesChannel(w: World, s: Step)
    requires Inv(w) && Enabled(w, s) && s.Enter? && Begin(w.shared, s.now).1.Compute?
    ensures Channels(After(w, s)) && NoLostWakeup(After(w, s))
  {
    var v := After(w, s);
    assert forall j :: 0 <= j < |v.threads| && j != s.i ==> v.threads[j] == w.threads[j];
    assert v.threads[s.i].InFlight() && v.threads[s.i].channel == v.shared.ready.value;
    WaitersKeepOwners(w, v);
  }

  lemma InstallKeepsChannel(w: World, s: Step)
    requires Inv(w) && Enabled(w, s) && s.Install?
    ensures w.shared.ready == Some(w.threads[s.i].channel)
    ensures Channels(After(w, s)) && NoLostWakeup(After(w, s)) && !After(w, s).panicked
  {
    var v := After(w, s);
    assert w.threads[s.i].InFlight();
    assert forall j :: 0 <= j < |v.threads| && j != s.i ==> v.threads[j] == w.threads[j];
    assert forall j :: 0 <= j < |w.threads| && j != s.i ==> !w.threads[j].InFlight();
    WaitersKeepOwners(w, v);
  }

  lemma CloseKeepsChannels(w: World, s: Step)
    requires Channels(w) && !w.panicked && Enabled(w, s) && s.CloseReady?
    ensures Channels(After(w, s)) && !After(w, s).panicked
  {
    var v := After(w, s);
    assert Owner(w.threads[s.i]);
    assert forall j :: 0 <= j < |v.threads| && j != s.i ==> v.threads[j] == w.threads[j];
  }

  lemma CloseReleasesChannel(w: World, s: Step)
    requires Inv(w) && Enabled(w, s) && s.CloseReady?
    ensures Channels(After(w, s)) && NoLostWakeup(After(w, s)) && !After(w, s).panicked
  {
    CloseKeepsChannels(w, s);
    CloseKeepsWakeups(w, s);
  }

  lemma CloseKeepsWakeups(w: World, s: Step)
    requires NoLostWakeup(w) && Enabled(w, s) && s.CloseReady?
    ensures NoLostWakeup(After(w, s))
  {
    var v := After(w, s);
    assert forall j :: 0 <= j < |v.threads| && j != s.i ==> v.threads[j] == w.threads[j];
    if v.shared.ready.Some? {
      var k :| 0 <= k < |w.threads| && w.threads[k].InFlight() && w.threads[k].channel == w.shared.ready.value;
      assert v.threads[k].InFlight();
    }
    WaitersKeepOwners(w, v);
  }

  /** Owners keep their channels or close them, so waiters still have one to wait for. */
  lemma WaitersKeepOwners(w: World, v: World)
    requires NoLostWakeup(w) && |v.threads| == |w.threads| && w.closed <= v.closed
    requires forall j :: 0 <= j < |w.threads| && Owner(w.threads[j]) ==>
      w.threads[j].channel in v.closed || (Owner(v.threads[j]) && v.threads[j].channel == w.threads[j].channel)
    requires forall j :: 0 <= j < |v.threads| && v.threads[j].Waiting? ==> v.threads[j] == w.threads[j]
    ensures forall j :: 0 <= j < |v.threads| && v.threads[j].Waiting? ==>
      v.threads[j].channel in v.closed ||
      exists k :: 0 <= k < |v.threads| && Owner(v.threads[k]) && v.threads[k].channel == v.threads[j].channel
  {
    forall j | 0 <= j < |v.threads| && v.threads[j].Waiting?
      ensures v.threads[j].channel in v.closed ||
        exists k :: 0 <= k < |v.threads| && Owner(v.threads[k]) && v.threads[k].channel == v.threads[j].channel
    {
      if v.threads[j].channel !in v.closed {
        var k :| 0 <= k < |w.threads| && Owner(w.threads[k]) && w.threads[k].channel == w.threads[j].channel;
        assert Owner(v.threads[k]) && v.threads[k].channel == v.threads[j].channel;
      }
    }
  }

  lemma StepKeepsInv(w: World, s: Step)
    requires Inv(w) && Enabled(w, s)
    ensures Inv(After(w, s))
  {
    StepKeepsFresh(w, s);
    if s.Install? {
      InstallKeepsChannel(w, s);
    } else if s.CloseReady? {
      CloseReleasesChannel(w, s);
    } else if s.Enter? && Begin(w.shared, s.now).1.Compute? {
      ComputeTakesChannel(w, s);
    } else {
      SameOwnershipKeepsChannels(w, After(w, s), s.i);
      SameOwnershipKeepsWakeups(w, After(w, s), s.i);
    }
  }

  // ----- Runs -----

  /** `worlds` is the history of a system of `n` threads that took `steps`. */
  ghost predicate Run(n: nat, worlds: seq<World>, steps: seq<Step>) {
    && |worlds| == |steps| + 1 && worlds[0] == Start(n)
    && forall k :: 0 <= k < |steps| ==> Enabled(worlds[k], steps[k]) && worlds[k + 1] == After(worlds[k], steps[k])
  }

  lemma {:induction false} RunKeepsInv(n: nat, worlds: seq<World>, steps: seq<Step>, k: nat)
    requires Run(n, worlds, steps) && k < |worlds|
    ensures Inv(worlds[k])
  {
    if k == 0 {
      StartInv(n);
    } else {
      RunKeepsInv(n, worlds, steps, k - 1);
      StepKeepsInv(worlds[k - 1], steps[k - 1]);
    }
  }

  lemma {:induction false} InvalidationsAccumulate(n: nat, worlds: seq<World>, steps: seq<Step>, j: nat, k: nat)
    requires Run(n, worlds, steps) && j <= k < |worlds|
    ensures worlds[j].invalidated <= worlds[k].invalidated
    decreases k
  {
    if j < k {
      InvalidationsAccumulate(n, worlds, steps, j, k - 1);
      assert worlds[k] == After(worlds[k - 1], steps[k - 1]);
    }
  }

  /** Once the invalidation of an ingest has run, no later hit serves a value read before that ingest committed. */
  lemma NoStaleHit(n: nat, worlds: seq<World>, steps: seq<Step>, j: nat, k: nat)
    requires Run(n, worlds, steps) && j < k < |steps|
    requires steps[j].RunInvalidation? && steps[k].Enter?
    requires Begin(worlds[k].shared, steps[k].now).1.Hit?
    ensures Begin(worlds[k].shared, steps[k].now).1.answer.readFrom >= worlds[j].threads[steps[j].i].version
  {
    assert worlds[j + 1].invalidated >= worlds[j].threads[steps[j].i].version;
    InvalidationsAccumulate(n, worlds, steps, j + 1, k);
    RunKeepsInv(n, worlds, steps, k);
  }

  /** At most one computation is in flight. */
  lemma OneComputation(n: nat, worlds: seq<World>, steps: seq<Step>, k: nat, i: nat, j: nat)
    requires Run(n, worlds, steps) && k < |worlds|
    requires i < |worlds[k].threads| && worlds[k].threads[i].InFlight()
    requires j < |worlds[k].threads| && worlds[k].threads[j].InFlight()
    ensures i == j
  {
    RunKeepsInv(n, worlds, steps, k);
    assert Owner(worlds[k].threads[i]) && Owner(worlds[k].threads[j]);
  }

  /** The channel a computation reads back and closes is the one it made, and nobody has closed it. */
  lemma ClosedOnceByCreator(n: nat, worlds: seq<World>, steps: seq<Step>, k: nat)
    requires Run(n, worlds, steps) && k < |steps|
    ensures !worlds[k].panicked
    ensures steps[k].Install? ==> worlds[k].shared.ready == Some(worlds[k].threads[steps[k].i].channel)
    ensures steps[k].CloseReady? ==> worlds[k].threads[steps[k].i].channel !in worlds[k].closed
  {
    RunKeepsInv(n, worlds, steps, k);
    if steps[k].Install? {
      InstallKeepsChannel(worlds[k], steps[k]);
    } else if steps[k].CloseReady? {
      assert Owner(worlds[k].threads[steps[k].i]);
    }
  }

  /** A waiter can go on, or some thread that will close its channel can. */
  lemma WaitersAreWoken(n: nat, worlds: seq<World>, steps: seq<Step>, k: nat, i: nat) returns (s: Step)
    requires Run(n, worlds, steps) && k < |worlds|
    requires i < |worlds[k].threads| && worlds[k].threads[i].Waiting?
    ensures Enabled(worlds[k], s)
    ensures s == Wake(i) ||
      (Owner(worlds[k].threads[s.i]) && worlds[k].threads[s.i].channel == worlds[k].threads[i].channel)
  {
    RunKeepsInv(n, worlds, steps, k);
    var w := worlds[k];
    if w.threads[i].channel in w.closed {
      s := Wake(i);
    } else {
      var j :| 0 <= j < |w.threads| && Owner(w.threads[j]) && w.threads[j].channel == w.threads[i].channel;
      match w.threads[j]
      case Computing(_, _) => s := ReadFirst(j);
      case Reading(_, _, _) => s := ReadRest(j, false);
      case Computed(_, _, _) => s := Install(j, 0);
      case Closing(_, _) => s := CloseReady(j);
    }
  }

  // ----- What a hit serves -----

  /** This step puts an answer into the cache. */
  predicate Installs(w: World, s: Step) {
    Enabled(w, s) && s.Install? && w.shared.generation == w.threads[s.i].generation
  }

  /** Step j installed the answer, and no later step up to k replaced or erased it. */
  ghost predicate InstalledAt(worlds: seq<World>, steps: seq<Step>, j: nat, k: nat, e: Entry)
    requires j < k <= |steps| && |worlds| == |steps| + 1
  {
    && Installs(worlds[j], steps[j]) && e == Entry(worlds[j].threads[steps[j].i].answer, steps[j].now)
    && forall m :: j < m < k ==> !Installs(worlds[m], steps[m]) && !steps[m].RunInvalidation?
  }

  lemma InstalledLater(worlds: seq<World>, steps: seq<Step>, k: nat, next: nat, e: Entry)
    requires k < |steps| && |worlds| == |steps| + 1 && next == k + 1
    requires !Installs(worlds[k], steps[k]) && !steps[k].RunInvalidation?
    ensures (exists j :: 0 <= j < next && InstalledAt(worlds, steps, j, next, e)) <==>
      (exists j :: 0 <= j < k && InstalledAt(worlds, steps, j, k, e))
  {
    if j :| 0 <= j < next && InstalledAt(worlds, steps, j, next, e) {
      assert j < k && InstalledAt(worlds, steps, j, k, e);
    }
    if j :| 0 <= j < k && InstalledAt(worlds, steps, j, k, e) {
      assert InstalledAt(worlds, steps, j, next, e);
    }
  }

  lemma {:induction false} CacheIsLastInstalled(n: nat, worlds: seq<World>, steps: seq<Step>, k: nat, e: Entry)
    requires Run(n, worlds, steps) && k < |worlds|
    ensures worlds[k].shared.cache == Some(e) <==> exists j :: 0 <= j < k && InstalledAt(worlds, steps, j, k, e)
  {
    if k > 0 {
      var last := steps[k - 1];
      CacheIsLastInstalled(n, worlds, steps, k - 1, e);
      assert worlds[k] == After(worlds[k - 1], last);
      if Installs(worlds[k - 1], last) {
        assert e == Entry(worlds[k - 1].threads[last.i].answer, last.now) ==> InstalledAt(worlds, steps, k - 1, k, e);
      } else if !last.RunInvalidation? {
        InstalledLater(worlds, steps, k - 1, k, e);
      }
    }
  }

  /** A reader is served an answer from the cache if and only if that answer was the last one installed, no invalidation
      ran since, and it is younger than the time to live. That holds of failed and cancelled computations too: their
      error is served to every reader until then. */
  lemma HitServesLastInstalled(n: nat, worlds: seq<World>, steps: seq<Step>, k: nat, answer: Answer)
    requires Run(n, worlds, steps) && k < |steps| && steps[k].Enter?
    ensures Begin(worlds[k].shared, steps[k].now).1 == Hit(answer) <==>
      exists j, fetched :: 0 <= j < k && InstalledAt(worlds, steps, j, k, Entry(answer, fetched)) &&
                           steps[k].now - fetched < TTL
  {
    var cache := worlds[k].shared.cache;
    if cache.Some? {
      CacheIsLastInstalled(n, worlds, steps, k, cache.value);
      assert cache.value == Entry(cache.value.answer, cache.value.fetched);
    }
    if j, fetched :| 0 <= j < k && InstalledAt(worlds, steps, j, k, Entry(answer, fetched)) &&
                     steps[k].now - fetched < TTL {
      CacheIsLastInstalled(n, worlds, steps, k, Entry(answer, fetched));
    }
  }

  // ----- What a reader is answered -----

  /** Step e is the last one before k in which thread i entered. */
  predicate LastEntered(steps: seq<Step>, e: nat, k: nat, i: nat) {
    && e < k <= |steps| && steps[e].Enter? && steps[e].i == i
    && forall m :: e < m < k && steps[m].i == i ==> !steps[m].Enter?
  }

  /** Thread i read this answer itself between steps e and k: from the version of its first read to that of its last
      one, with the outcome of those reads, or it failed before it read anything. */
  ghost predicate ReadItself(worlds: seq<World>, steps: seq<Step>, e: nat, k: nat, i: nat, answer: Answer)
    requires k <= |steps| <= |worlds|
  {
    || (exists f, r :: e < f < r < k && steps[f] == ReadFirst(i) && steps[r] == ReadRest(i, answer.failed) &&
          answer.readFrom == worlds[f].version && answer.readTo == worlds[r].version)
    || (exists f :: e < f < k && steps[f] == Fail(i) && answer == Answer(worlds[f].version, worlds[f].version, true))
  }

  /** What thread i has done since it entered at step e. */
  ghost predicate History(worlds: seq<World>, steps: seq<Step>, e: nat, k: nat, i: nat)
    requires k <= |steps| < |worlds| && i < |worlds[k].threads|
  {
    LastEntered(steps, e, k, i) &&
    match worlds[k].threads[i]
    case Reading(_, _, from) => exists f :: e < f < k && steps[f] == ReadFirst(i) && from == worlds[f].version
    case Computed(_, _, answer) => ReadItself(worlds, steps, e, k, i, answer)
    case Closing(_, answer) => ReadItself(worlds, steps, e, k, i, answer)
    case Returned(answer) =>
      Begin(worlds[e].shared, steps[e].now).1 == Hit(answer) || ReadItself(worlds, steps, e, k, i, answer)
    case _ => true
  }

  lemma HistoryGoesOn(worlds: seq<World>, steps: seq<Step>, e: nat, k: nat, next: nat, i: nat)
    requires next == k + 1 <= |steps| < |worlds| && i < |worlds[k].threads| == |worlds[next].threads|
    requires steps[k].i != i && worlds[next].threads[i] == worlds[k].threads[i] && History(worlds, steps, e, k, i)
    ensures History(worlds, steps, e, next, i)
  {
  }

  lemma ReadingGoesOn(worlds: seq<World>, steps: seq<Step>, e: nat, k: nat, next: nat)
    requires next == k + 1 <= |steps| < |worlds| && Enabled(worlds[k], steps[k]) && !steps[k].Enter?
    requires worlds[next] == After(worlds[k], steps[k]) && !After(worlds[k], steps[k]).panicked
    requires History(worlds, steps, e, k, steps[k].i)
    ensures History(worlds, steps, e, next, steps[k].i)
  {
    var i := steps[k].i;
    if steps[k].ReadRest? {
      var f :| e < f < k && steps[f] == ReadFirst(i) && worlds[k].threads[i].readFrom == worlds[f].version;
      assert ReadItself(worlds, steps, e, next, i, worlds[next].threads[i].answer);
    } else if steps[k].Fail? {
      assert ReadItself(worlds, steps, e, next, i, worlds[next].threads[i].answer);
    }
  }

  predicate Entered(t: Thread) {
    t.InFlight() || t.Closing? || t.Returned?
  }

  lemma {:induction false} EnteredHasHistory(n: nat, worlds: seq<World>, steps: seq<Step>, k: nat, i: nat)
    returns (e: nat)
    requires Run(n, worlds, steps) && k < |worlds| && i < |worlds[k].threads| && Entered(worlds[k].threads[i])
    ensures History(worlds, steps, e, k, i)
  {
    var last := steps[k - 1];
    RunKeepsInv(n, worlds, steps, k);
    assert worlds[k] == After(worlds[k - 1], last);
    if last.i != i {
      e := EnteredHasHistory(n, worlds, steps, k - 1, i);
      HistoryGoesOn(worlds, steps, e, k - 1, k, i);
    } else if last.Enter? {
      e := k - 1;
    } else {
      e := EnteredHasHistory(n, worlds, steps, k - 1, i);
      ReadingGoesOn(worlds, steps, e, k - 1, k);
    }
  }

  lemma {:induction false} VersionsGrow(n: nat, worlds: seq<World>, steps: seq<Step>, j: nat, k: nat)
    requires Run(n, worlds, steps) && j <= k < |worlds|
    ensures worlds[j].version <= worlds[k].version
    decreases k
  {
    if j < k {
      VersionsGrow(n, worlds, steps, j, k - 1);
      assert worlds[k] == After(worlds[k - 1], steps[k - 1]);
    }
  }

  /** A reader returns what it was handed when it last entered, or what it has read itself since then, and then nothing
      older than the store was at that moment. */
  lemma ReadersReturnWhatTheyRead(n: nat, worlds: seq<World>, steps: seq<Step>, k: nat, i: nat) returns (e: nat)
    requires Run(n, worlds, steps) && k < |worlds| && i < |worlds[k].threads| && worlds[k].threads[i].Returned?
    ensures LastEntered(steps, e, k, i)
    ensures
      var answer := worlds[k].threads[i].answer;
      || Begin(worlds[e].shared, steps[e].now).1 == Hit(answer)
      || (ReadItself(worlds, steps, e, k, i, answer) && worlds[e].version <= answer.readFrom)
  {
    e := EnteredHasHistory(n, worlds, steps, k, i);
    var answer := worlds[k].threads[i].answer;
    if ReadItself(worlds, steps, e, k, i, answer) {
      var f :| e < f < k && answer.readFrom == worlds[f].version;
      VersionsGrow(n, worlds, steps, e, f);
    }
  }
}
