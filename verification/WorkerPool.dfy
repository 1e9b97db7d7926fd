/** N workers around one queue: the condition variable, and what becomes of every packet. */
module WorkerPool {
  import opened FrameQueue

  /** A packet as pushed. `serial` is history: its place in the order of pushes. */
  datatype Packet = Packet(serial: nat, stream: string, frameId: nat, stamp: int, capture: int)

  /** What a worker sends on, and which worker did. */
  datatype Published = Published(worker: nat, packet: Packet, stream: string, frameId: nat, stamp: int, capture: int)

  datatype Worker =
    | Entering              // about to take the queue's lock
    | Sleeping              // in the wait, not notified
    | Notified              // woken, about to take the lock again
    | Holding(packet: Packet)
    | Finished

  /** `capacity` is the size the queue was made with. */
  datatype Pool = Pool(
    capacity: Size, queue: Q<Packet>, workers: map<nat, Worker>,
    pushed: seq<Packet>, evicted: seq<Packet>, stale: seq<Packet>, unavailable: seq<Packet>, published: seq<Published>)

  datatype Event =
    | Push(stream: string, frameId: nat, stamp: int, capture: int, wakes: nat)
    | Check(worker: nat)                 // a worker takes the lock and evaluates the wait's predicate
    | Spurious(worker: nat)              // a wakeup nobody asked for
    | Handle(worker: nat, now: int, maxAge: int, found: bool)
    | Shutdown

  function Asleep(p: Pool): (r: set<nat>) {
    set w | w in p.workers && p.workers[w] == Sleeping
  }

  function Awoken(p: Pool): (r: set<nat>) {
    set w | w in p.workers && p.workers[w] == Notified
  }

  predicate Enabled(p: Pool, e: Event) {
    match e
    case Push(stream, id, stamp, capture, wakes) => Asleep(p) == {} || wakes in Asleep(p)
    case Check(w) => w in p.workers && (p.workers[w] == Entering || p.workers[w] == Notified)
    case Spurious(w) => w in Asleep(p)
    case Handle(w, now, maxAge, found) => w in p.workers && p.workers[w].Holding?
    case Shutdown => true
  }

  /** Too old to be worth the work; a stamp of 0 is an unset one. */
  predicate IsStale(packet: Packet, now: int, maxAge: int) {
    maxAge > 0 && packet.capture > 0 && now - packet.capture > maxAge
  }

  function Next(p: Pool, e: Event): Pool
    requires Enabled(p, e)
  {
    match e
    case Push(stream, id, stamp, capture, wakes) =>
      var packet := Packet(|p.pushed|, stream, id, stamp, capture);
      p.(queue := AfterPush(p.queue, p.capacity, packet),
         pushed := p.pushed + [packet],
         evicted := if |p.queue.items| >= p.capacity then p.evicted + [p.queue.items[0]] else p.evicted,
         workers := if Asleep(p) == {} then p.workers else p.workers[wakes := Notified])
    case Check(w) =>
      if !MayPass(p.queue) then p.(workers := p.workers[w := Sleeping])
      else
        var (q, r) := AfterPop(p.queue);
        p.(queue := q, workers := p.workers[w := if r.Nothing? then Finished else Holding(r.value)])
    case Spurious(w) => p.(workers := p.workers[w := Notified])
    case Handle(w, now, maxAge, found) =>
      var packet := p.workers[w].packet;
      var q := p.(workers := p.workers[w := Entering]);
      if IsStale(packet, now, maxAge) then q.(stale := p.stale + [packet])
      else if !found then q.(unavailable := p.unavailable + [packet])
      else q.(published := p.published +
                [Published(w, packet, packet.stream, packet.frameId, packet.stamp, packet.capture)])
    case Shutdown =>
      p.(queue := p.queue.(isShut := true),
         workers := map w | w in p.workers :: if p.workers[w] == Sleeping then Notified else p.workers[w])
  }

  function Start(workers: set<nat>, capacity: Size): Pool {
    Pool(capacity, Q([], 0, false), map w | w in workers :: Entering, [], [], [], [], [])
  }

  ghost predicate IsRun(pools: seq<Pool>, events: seq<Event>, workers: set<nat>) {
    && |pools| == |events| + 1 && pools[0] == Start(workers, pools[0].capacity)
    && forall k :: 0 <= k < |events| ==> Stepped(pools[k], events[k], pools[k + 1])
  }

  ghost predicate Stepped(p: Pool, e: Event, q: Pool) {
    Enabled(p, e) && q == Next(p, e)
  }

  // ---- no wakeup is lost ----------------------------------------------------

  /** While anything is queued, sleeping workers mean enough notified ones are on their way;
      after shutdown nobody sleeps. */
  ghost predicate Awake(p: Pool) {
    && (Asleep(p) != {} ==> |Awoken(p)| >= |p.queue.items|)
    && (p.queue.isShut ==> Asleep(p) == {})
    && |p.queue.items| <= p.capacity
  }

  lemma AwakeAfter(p: Pool, e: Event)
    requires Awake(p) && Enabled(p, e)
    ensures Awake(Next(p, e))
  {
    match e {
      case Push(stream, id, stamp, capture, wakes) => AwakePush(p, e);
      case Check(w) => AwakeCheck(p, e);
      case _ => AwakeElse(p, e);
    }
  }

  lemma AwakePush(p: Pool, e: Event)
    requires Awake(p) && Enabled(p, e) && e.Push?
    ensures Awake(Next(p, e))
  {
    var q := Next(p, e);
    assert q.queue.isShut == p.queue.isShut && |q.queue.items| <= q.capacity;
    assert |q.queue.items| <= |p.queue.items| + 1;
    if Asleep(p) == {} {
      assert q.workers == p.workers;
      assert Asleep(q) == {};
    } else {
      WakesOne(p, q, e.wakes);
    }
  }

  lemma WakesOne(p: Pool, q: Pool, w: nat)
    requires w in Asleep(p) && q.workers == p.workers[w := Notified]
    ensures |Awoken(q)| == |Awoken(p)| + 1
  {
    assert Awoken(q) == Awoken(p) + {w} && w !in Awoken(p);
  }

  lemma AwakeCheck(p: Pool, e: Event)
    requires Awake(p) && Enabled(p, e) && e.Check?
    ensures Awake(Next(p, e))
  {
    var q, w := Next(p, e), e.worker;
    if !MayPass(p.queue) {
      assert |q.queue.items| == 0;
    } else {
      assert Asleep(q) == Asleep(p) && Awoken(q) == Awoken(p) - {w};
      assert w in Awoken(p) || Awoken(q) == Awoken(p);
    }
  }

  lemma AwakeElse(p: Pool, e: Event)
    requires Awake(p) && Enabled(p, e) && !e.Push? && !e.Check?
    ensures Awake(Next(p, e))
  {
    match e {
      case Spurious(w) => AwakeSpurious(p, e);
      case Handle(w, now, maxAge, found) => AwakeHandle(p, e);
      case Shutdown => AwakeShutdown(p, e);
    }
  }

  lemma AwakeSpurious(p: Pool, e: Event)
    requires Awake(p) && Enabled(p, e) && e.Spurious?
    ensures Awake(Next(p, e))
  {
    var q := Next(p, e);
    assert Asleep(q) == Asleep(p) - {e.worker} && Awoken(q) == Awoken(p) + {e.worker} && e.worker !in Awoken(p);
  }

  lemma AwakeHandle(p: Pool, e: Event)
    requires Awake(p) && Enabled(p, e) && e.Handle?
    ensures Awake(Next(p, e))
  {
    var q := Next(p, e);
    assert Asleep(q) == Asleep(p) && Awoken(q) == Awoken(p);
  }

  lemma AwakeShutdown(p: Pool, e: Event)
    requires Awake(p) && Enabled(p, e) && e.Shutdown?
    ensures Awake(Next(p, e))
  {
    assert Asleep(Next(p, e)) == {};
  }

  // ---- where every packet is ------------------------------------------------

  function Holders(p: Pool, x: Packet): (r: set<nat>) {
    set w | w in p.workers && p.workers[w] == Holding(x)
  }

  function PacketsOf(ps: seq<Published>): (r: seq<Packet>)
    ensures |r| == |ps| && forall k :: 0 <= k < |ps| ==> r[k] == ps[k].packet
  {
    seq(|ps|, k requires 0 <= k < |ps| => ps[k].packet)
  }

  /** In how many of the six places a packet is, counting every time it was published. */
  ghost function Places(p: Pool, x: Packet): nat {
    multiset(p.evicted)[x] + multiset(p.queue.items)[x] + |Holders(p, x)|
    + multiset(p.stale)[x] + multiset(p.unavailable)[x] + multiset(PacketsOf(p.published))[x]
  }

  ghost predicate Conserved(p: Pool) {
    && (forall i :: 0 <= i < |p.pushed| ==> p.pushed[i].serial == i)
    && (forall x :: x in p.pushed ==> Places(p, x) == 1)
    && (forall x :: x !in p.pushed ==> Places(p, x) == 0)
  }

  lemma CountSnoc(s: seq<Packet>, y: Packet, x: Packet)
    ensures multiset(s + [y])[x] == multiset(s)[x] + if x == y then 1 else 0
  {}

  lemma CountRest(s: seq<Packet>, x: Packet)
    requires s != []
    ensures multiset(s)[x] == multiset(s[1..])[x] + if x == s[0] then 1 else 0
  {
    assert s == [s[0]] + s[1..];
  }

  lemma PlacesPush(p: Pool, e: Event, x: Packet)
    requires Enabled(p, e) && e.Push?
    ensures var q := Next(p, e);
      Places(q, x) == Places(p, x) + if x == q.pushed[|p.pushed|] then 1 else 0
  {
    var q, items := Next(p, e), p.queue.items;
    var y := q.pushed[|p.pushed|];
    assert Holders(q, x) == Holders(p, x);
    if |items| >= p.capacity {
      CountRest(items, x);
      CountSnoc(items[1..], y, x);
      CountSnoc(p.evicted, items[0], x);
    } else {
      CountSnoc(items, y, x);
    }
  }

  lemma PlacesCheck(p: Pool, e: Event, x: Packet)
    requires Enabled(p, e) && e.Check?
    ensures Places(Next(p, e), x) == Places(p, x)
  {
    var q, w := Next(p, e), e.worker;
    HoldersMoved(p, q, w, x);
    if MayPass(p.queue) && !p.queue.isShut {
      CountRest(p.queue.items, x);
    }
  }

  /** Only worker `w` moved: who holds `x` changes by what `w` holds. */
  lemma HoldersMoved(p: Pool, q: Pool, w: nat, x: Packet)
    requires w in p.workers && q.workers.Keys == p.workers.Keys
    requires forall v :: v in p.workers && v != w ==> q.workers[v] == p.workers[v]
    ensures |Holders(q, x)| + (if p.workers[w] == Holding(x) then 1 else 0)
         == |Holders(p, x)| + (if q.workers[w] == Holding(x) then 1 else 0)
  {
    forall v ensures v in Holders(q, x) - {w} <==> v in Holders(p, x) - {w} {}
    SameButOne(Holders(p, x), Holders(q, x), w);
  }

  lemma SameButOne(a: set<nat>, b: set<nat>, w: nat)
    requires a - {w} == b - {w}
    ensures |b| + (if w in a then 1 else 0) == |a| + (if w in b then 1 else 0)
  {
    assert |a - {w}| == |a| - (if w in a then 1 else 0);
    assert |b - {w}| == |b| - (if w in b then 1 else 0);
  }

  lemma PlacesHandle(p: Pool, e: Event, x: Packet)
    requires Enabled(p, e) && e.Handle?
    ensures Places(Next(p, e), x) == Places(p, x)
  {
    var q, w, y := Next(p, e), e.worker, p.workers[e.worker].packet;
    HoldersMoved(p, q, w, x);
    hide Holders;
    if IsStale(y, e.now, e.maxAge) {
      CountSnoc(p.stale, y, x);
    } else if !e.found {
      CountSnoc(p.unavailable, y, x);
    } else {
      assert PacketsOf(q.published) == PacketsOf(p.published) + [y];
      CountSnoc(PacketsOf(p.published), y, x);
    }
  }

  lemma ConservedAfter(p: Pool, e: Event)
    requires Conserved(p) && Enabled(p, e)
    ensures Conserved(Next(p, e))
  {
    var q := Next(p, e);
    assert if e.Push? then q.pushed == p.pushed + [q.pushed[|p.pushed|]] && q.pushed[|p.pushed|].serial == |p.pushed|
           else q.pushed == p.pushed;
    hide Places, Next;
    forall x ensures Places(q, x) == Places(p, x) + if e.Push? && x == q.pushed[|p.pushed|] then 1 else 0 {
      match e {
        case Push(stream, id, stamp, capture, wakes) => PlacesPush(p, e, x);
        case Check(w) => PlacesCheck(p, e, x);
        case Handle(w, now, maxAge, found) => PlacesHandle(p, e, x);
        case _ => PlacesWake(p, e, x);
      }
    }
    if e.Push? {
      assert q.pushed[|p.pushed|] !in p.pushed;
    }
  }

  lemma PlacesWake(p: Pool, e: Event, x: Packet)
    requires Enabled(p, e) && (e.Spurious? || e.Shutdown?)
    ensures Places(Next(p, e), x) == Places(p, x)
  {
    assert Holders(Next(p, e), x) == Holders(p, x);
  }

  // ---- order ----------------------------------------------------------------

  /** `x` was pushed before everything still queued. */
  ghost predicate Ahead(p: Pool, x: Packet) {
    forall k :: 0 <= k < |p.queue.items| ==> x.serial < p.queue.items[k].serial
  }

  ghost predicate Ordered(p: Pool) {
    && (forall j, k :: 0 <= j < k < |p.queue.items| ==> p.queue.items[j].serial < p.queue.items[k].serial)
    && (forall k :: 0 <= k < |p.queue.items| ==> p.queue.items[k].serial < |p.pushed|)
    && (forall w :: w in p.workers && p.workers[w].Holding? ==>
      Ahead(p, p.workers[w].packet) && p.workers[w].packet.serial < |p.pushed|)
    && (forall k :: 0 <= k < |p.published| ==>
      Ahead(p, p.published[k].packet) && p.published[k].packet.serial < |p.pushed|)
    && (forall k, w :: (0 <= k < |p.published| && w in p.workers && p.workers[w].Holding?
      && p.published[k].worker == w) ==>
          p.published[k].packet.serial < p.workers[w].packet.serial)
    && (forall j, k :: 0 <= j < k < |p.published| && p.published[j].worker == p.published[k].worker ==>
          p.published[j].packet.serial < p.published[k].packet.serial)
  }

  ghost predicate Untouched(p: Pool) {
    forall k :: 0 <= k < |p.published| ==>
      var d := p.published[k];
      d.stream == d.packet.stream && d.frameId == d.packet.frameId && d.stamp == d.packet.stamp
        && d.capture == d.packet.capture
  }

  lemma OrderedAfter(p: Pool, e: Event)
    requires Ordered(p) && Enabled(p, e) && Untouched(p)
    ensures Ordered(Next(p, e)) && Untouched(Next(p, e))
  {
    hide Ordered, Untouched, Next;
    match e {
      case Push(stream, id, stamp, capture, wakes) => OrderedPush(p, e);
      case Check(w) => OrderedCheck(p, e);
      case Handle(w, now, maxAge, found) => OrderedHandle(p, e);
      case _ => OrderedWake(p, e);
    }
  }

  /** The queue lost some of its front and may have gained the newest packet. */
  lemma AheadStays(p: Pool, q: Pool, x: Packet, dropped: nat, last: seq<Packet>)
    requires Ahead(p, x) && x.serial < |p.pushed| && dropped <= |p.queue.items|
    requires q.queue.items == p.queue.items[dropped..] + last
    requires forall k :: 0 <= k < |last| ==> last[k].serial == |p.pushed|
    ensures Ahead(q, x)
  {}

  lemma OrderedPush(p: Pool, e: Event)
    requires Ordered(p) && Enabled(p, e) && Untouched(p) && e.Push?
    ensures Ordered(Next(p, e)) && Untouched(Next(p, e))
  {
    var q := Next(p, e);
    var y, drop := q.pushed[|p.pushed|], if |p.queue.items| >= p.capacity then 1 else 0;
    assert q.queue.items == p.queue.items[drop..] + [y];
    assert forall w :: w in q.workers && q.workers[w].Holding? ==> q.workers[w] == p.workers[w];
    hide Next;
    forall w | w in p.workers && p.workers[w].Holding? ensures Ahead(q, p.workers[w].packet) {
      AheadStays(p, q, p.workers[w].packet, drop, [y]);
    }
    forall k | 0 <= k < |p.published| ensures Ahead(q, p.published[k].packet) {
      AheadStays(p, q, p.published[k].packet, drop, [y]);
    }
  }

  lemma OrderedCheck(p: Pool, e: Event)
    requires Ordered(p) && Enabled(p, e) && Untouched(p) && e.Check?
    ensures Ordered(Next(p, e)) && Untouched(Next(p, e))
  {
    var q, w := Next(p, e), e.worker;
    var taken := if MayPass(p.queue) && !p.queue.isShut then 1 else 0;
    assert q.queue.items == p.queue.items[taken..] + [];
    assert q.published == p.published && q.pushed == p.pushed;
    assert q.workers[w].Holding? ==> taken == 1 && q.workers[w].packet == p.queue.items[0];
    assert forall v :: v in q.workers && v != w ==> v in p.workers && q.workers[v] == p.workers[v];
    hide Next;
    forall v | v in p.workers && p.workers[v].Holding? ensures Ahead(q, p.workers[v].packet) {
      AheadStays(p, q, p.workers[v].packet, taken, []);
    }
    forall k | 0 <= k < |p.published| ensures Ahead(q, p.published[k].packet) {
      AheadStays(p, q, p.published[k].packet, taken, []);
    }
    CheckedOrdered(p, q, w, taken);
  }

  /** A worker that checks the queue may take its front. */
  lemma CheckedOrdered(p: Pool, q: Pool, w: nat, taken: nat)
    requires Ordered(p) && Untouched(p) && taken <= |p.queue.items| && q.queue.items == p.queue.items[taken..]
    requires q.published == p.published && q.pushed == p.pushed && w in q.workers
    requires q.workers[w].Holding? ==> taken == 1 && q.workers[w].packet == p.queue.items[0]
    requires forall v :: v in q.workers && v != w ==> v in p.workers && q.workers[v] == p.workers[v]
    requires forall v :: v in p.workers && p.workers[v].Holding? ==> Ahead(q, p.workers[v].packet)
    requires forall k :: 0 <= k < |p.published| ==> Ahead(q, p.published[k].packet)
    ensures Ordered(q) && Untouched(q)
  {
    if q.workers[w].Holding? {
      FrontIsAhead(p, q);
    }
    hide Ahead;
  }

  lemma FrontIsAhead(p: Pool, q: Pool)
    requires Ordered(p) && |p.queue.items| > 0 && q.queue.items == p.queue.items[1..]
    ensures Ahead(q, p.queue.items[0])
    ensures forall k :: 0 <= k < |p.published| ==> p.published[k].packet.serial < p.queue.items[0].serial
  {
    assert forall k :: 0 <= k < |p.published| ==> Ahead(p, p.published[k].packet);
  }

  /** What handling changes: the worker lets go of its packet, which may be published as it is. */
  ghost predicate Handled(p: Pool, q: Pool, w: nat) {
    && q.queue == p.queue && q.pushed == p.pushed && w in p.workers && p.workers[w].Holding?
    && q.workers == p.workers[w := Entering]
    && (q.published != p.published ==>
          var x := p.workers[w].packet;
          q.published == p.published + [Published(w, x, x.stream, x.frameId, x.stamp, x.capture)])
  }

  lemma OrderedHandle(p: Pool, e: Event)
    requires Ordered(p) && Enabled(p, e) && Untouched(p) && e.Handle?
    ensures Ordered(Next(p, e)) && Untouched(Next(p, e))
  {
    assert Handled(p, Next(p, e), e.worker);
    hide Next, Ordered, Untouched, Handled;
    HandledOrdered(p, Next(p, e), e.worker);
  }

  lemma HandledOrdered(p: Pool, q: Pool, w: nat)
    requires Ordered(p) && Untouched(p) && Handled(p, q, w)
    ensures Ordered(q) && Untouched(q)
  {
    forall x: Packet ensures Ahead(q, x) <==> Ahead(p, x) {}
    hide Ahead;
    var n := |p.published|;
    assert |q.published| <= n + 1 && forall k :: 0 <= k < n ==> q.published[k] == p.published[k];
    assert |q.published| > n ==> q.published[n].packet == p.workers[w].packet && q.published[n].worker == w;
  }

  lemma OrderedWake(p: Pool, e: Event)
    requires Ordered(p) && Enabled(p, e) && Untouched(p) && (e.Spurious? || e.Shutdown?)
    ensures Ordered(Next(p, e)) && Untouched(Next(p, e))
  {}

  // ---- the queue against the history of pushes ------------------------------

  /** What is queued is the end of what was pushed; the counter counts evictions; workers stay until shutdown. */
  ghost predicate Accounted(p: Pool) {
    && |p.queue.items| <= |p.pushed| && p.queue.items == p.pushed[|p.pushed| - |p.queue.items|..]
    && p.queue.dropped == |p.evicted|
    && (forall k :: 0 <= k < |p.published| ==> p.published[k].worker in p.workers)
    && (forall w :: w in p.workers && p.workers[w] == Finished ==> p.queue.isShut)
  }

  lemma AccountedAfter(p: Pool, e: Event)
    requires Accounted(p) && Enabled(p, e)
    ensures Accounted(Next(p, e)) && Next(p, e).workers.Keys == p.workers.Keys
    ensures p.pushed <= Next(p, e).pushed && p.queue.dropped <= Next(p, e).queue.dropped
    ensures Next(p, e).capacity == p.capacity
  {
    if e.Push? {
      AccountedPush(p, e);
    } else {
      assert Next(p, e).pushed == p.pushed && Next(p, e).evicted == p.evicted;
    }
  }

  lemma AccountedPush(p: Pool, e: Event)
    requires Accounted(p) && Enabled(p, e) && e.Push?
    ensures Accounted(Next(p, e)) && Next(p, e).workers.Keys == p.workers.Keys
    ensures p.pushed <= Next(p, e).pushed && p.queue.dropped <= Next(p, e).queue.dropped
    ensures Next(p, e).capacity == p.capacity
  {
    var q := Next(p, e);
    assert q.queue.items == q.pushed[|q.pushed| - |q.queue.items|..];
    assert Asleep(p) != {} ==> e.wakes in p.workers;
  }

  // ---- every run ------------------------------------------------------------

  lemma {:induction false} RunInvariants(pools: seq<Pool>, events: seq<Event>, workers: set<nat>, k: nat)
    requires IsRun(pools, events, workers) && k < |pools|
    ensures Awake(pools[k]) && Conserved(pools[k]) && Ordered(pools[k]) && Untouched(pools[k])
    ensures Accounted(pools[k]) && pools[k].workers.Keys == workers && pools[k].capacity == pools[0].capacity
  {
    hide Next, Awake, Conserved, Ordered, Untouched, Accounted;
    if k == 0 {
      StartInvariants(workers, pools[0].capacity);
    } else {
      RunInvariants(pools, events, workers, k - 1);
      assert Stepped(pools[k - 1], events[k - 1], pools[k]);
      AwakeAfter(pools[k - 1], events[k - 1]);
      ConservedAfter(pools[k - 1], events[k - 1]);
      OrderedAfter(pools[k - 1], events[k - 1]);
      AccountedAfter(pools[k - 1], events[k - 1]);
    }
  }

  lemma StartInvariants(workers: set<nat>, capacity: Size)
    ensures var p := Start(workers, capacity);
      Awake(p) && Conserved(p) && Ordered(p) && Untouched(p) && Accounted(p) && p.workers.Keys == workers
  {
    var p := Start(workers, capacity);
    assert Asleep(p) == {};
    forall x ensures Places(p, x) == 0 {
      assert Holders(p, x) == {};
    }
  }

  /** No wakeup is lost, in any interleaving: while something is queued, a sleeping worker means that
      at least as many workers as packets are awake and coming. After shutdown nobody sleeps, and before it
      nobody has left. */
  lemma NoLostWakeup(pools: seq<Pool>, events: seq<Event>, workers: set<nat>, k: nat)
    requires IsRun(pools, events, workers) && k < |pools|
    ensures var p := pools[k];
      && (p.queue.items != [] && Asleep(p) != {} ==> |Awoken(p)| >= |p.queue.items|)
      && (if p.queue.isShut then Asleep(p) == {} else forall w :: w in p.workers ==> p.workers[w] != Finished)
      && p.capacity == pools[0].capacity && |p.queue.items| <= p.capacity && p.queue.dropped == |p.evicted|
      && |p.queue.items| <= |p.pushed| && p.queue.items == p.pushed[|p.pushed| - |p.queue.items|..]
  {
    RunInvariants(pools, events, workers, k);
    hide Conserved, Ordered, Untouched;
  }

  /** Every packet pushed so far is in exactly one place: evicted, queued, held by one worker, stale,
      unavailable, or published, and then once and with its fields unchanged. */
  lemma EachPacketOnce(pools: seq<Pool>, events: seq<Event>, workers: set<nat>, k: nat)
    requires IsRun(pools, events, workers) && k < |pools|
    ensures forall i :: 0 <= i < |pools[k].pushed| ==> Places(pools[k], pools[k].pushed[i]) == 1
    ensures forall j :: 0 <= j < |pools[k].published| ==>
      var d := pools[k].published[j];
      && d.packet in pools[k].pushed
      && d.stream == d.packet.stream && d.frameId == d.packet.frameId && d.stamp == d.packet.stamp
        && d.capture == d.packet.capture
  {
    RunInvariants(pools, events, workers, k);
    hide Next, Ordered, Awake;
    var p := pools[k];
    forall j | 0 <= j < |p.published| ensures p.published[j].packet in p.pushed {
      var x := p.published[j].packet;
      assert PacketsOf(p.published)[j] == x;
      assert x in multiset(PacketsOf(p.published));
      assert Places(p, x) > 0;
    }
  }

  // ---- what decides between stale, unavailable and published -----------------

  /** The `i`-th step handles `x`. */
  ghost predicate HandledAt(pools: seq<Pool>, events: seq<Event>, i: int, x: Packet) {
    && 0 <= i < |events| && i < |pools| && events[i].Handle?
    && events[i].worker in pools[i].workers && pools[i].workers[events[i].worker] == Holding(x)
  }

  /** Too old when handled: a limit is set, the capture is stamped, and more than the limit has passed. */
  ghost predicate Late(e: Event, x: Packet)
    requires e.Handle?
  {
    e.maxAge > 0 && x.capture > 0 && e.now > x.capture + e.maxAge
  }

  ghost predicate WentStale(pools: seq<Pool>, events: seq<Event>, k: nat, x: Packet) {
    exists i :: i < k && HandledAt(pools, events, i, x) && Late(events[i], x)
  }

  ghost predicate WentUnavailable(pools: seq<Pool>, events: seq<Event>, k: nat, x: Packet) {
    exists i :: i < k && HandledAt(pools, events, i, x) && !Late(events[i], x) && !events[i].found
  }

  ghost predicate WentOut(pools: seq<Pool>, events: seq<Event>, k: nat, x: Packet) {
    exists i :: i < k && HandledAt(pools, events, i, x) && !Late(events[i], x) && events[i].found
  }

  /** In every run: a packet is stale exactly if it was too old when handled, unavailable exactly if it
      was not and its frame was not found, published exactly if it was not and its frame was found. */
  lemma {:induction false} HandledAsDue(pools: seq<Pool>, events: seq<Event>, workers: set<nat>, k: nat, x: Packet)
    requires IsRun(pools, events, workers) && k < |pools|
    ensures x in pools[k].stale <==> WentStale(pools, events, k, x)
    ensures x in pools[k].unavailable <==> WentUnavailable(pools, events, k, x)
    ensures x in PacketsOf(pools[k].published) <==> WentOut(pools, events, k, x)
  {
    hide WentStale, WentUnavailable, WentOut, Next, PacketsOf;
    if k == 0 {
      NothingHandled(pools, events, workers, x);
    } else {
      HandledAsDue(pools, events, workers, k - 1, x);
      var p, e := pools[k - 1], events[k - 1];
      assert Stepped(p, e, pools[k]);
      OneMoreStep(pools, events, k - 1, x);
      if HandledAt(pools, events, k - 1, x) {
        HandlePlaces(p, e, x, x);
      } else {
        OtherPlaces(p, e, x);
      }
    }
  }

  lemma NothingHandled(pools: seq<Pool>, events: seq<Event>, workers: set<nat>, x: Packet)
    requires IsRun(pools, events, workers)
    ensures pools[0].stale == pools[0].unavailable == [] && PacketsOf(pools[0].published) == []
    ensures !WentStale(pools, events, 0, x) && !WentUnavailable(pools, events, 0, x) && !WentOut(pools, events, 0, x)
  {}

  lemma OneMoreStep(pools: seq<Pool>, events: seq<Event>, k: nat, x: Packet)
    ensures var now := HandledAt(pools, events, k, x);
      && (WentStale(pools, events, k + 1, x) <==> WentStale(pools, events, k, x) || (now && Late(events[k], x)))
      && (WentUnavailable(pools, events, k + 1, x) <==>
            WentUnavailable(pools, events, k, x) || (now && !Late(events[k], x) && !events[k].found))
      && (WentOut(pools, events, k + 1, x) <==>
            WentOut(pools, events, k, x) || (now && !Late(events[k], x) && events[k].found))
  {
    hide HandledAt, Late;
  }

  /** Handling `y` puts it, and nothing else, where it belongs. */
  lemma HandlePlaces(p: Pool, e: Event, y: Packet, x: Packet)
    requires Enabled(p, e) && e.Handle? && p.workers[e.worker] == Holding(y)
    ensures var q := Next(p, e);
      && (x in q.stale <==> x in p.stale || (x == y && Late(e, y)))
      && (x in q.unavailable <==> x in p.unavailable || (x == y && !Late(e, y) && !e.found))
      && (x in PacketsOf(q.published) <==> x in PacketsOf(p.published) || (x == y && !Late(e, y) && e.found))
  {
    var q := Next(p, e);
    if q.published != p.published {
      assert PacketsOf(q.published) == PacketsOf(p.published) + [y];
    }
  }

  lemma OtherPlaces(p: Pool, e: Event, x: Packet)
    requires Enabled(p, e) && !(e.Handle? && p.workers[e.worker] == Holding(x))
    ensures var q := Next(p, e);
      && (x in q.stale <==> x in p.stale) && (x in q.unavailable <==> x in p.unavailable)
      && (x in PacketsOf(q.published) <==> x in PacketsOf(p.published))
  {
    if e.Handle? {
      HandlePlaces(p, e, p.workers[e.worker].packet, x);
    }
  }

  /** The packets of the pushes among the first `k` steps, as they came. */
  ghost function PushedBy(events: seq<Event>, k: nat): seq<Packet>
    requires k <= |events|
  {
    if k == 0 then []
    else
      var before, e := PushedBy(events, k - 1), events[k - 1];
      if e.Push? then before + [Packet(|before|, e.stream, e.frameId, e.stamp, e.capture)] else before
  }

  lemma {:induction false} PushedAsGiven(pools: seq<Pool>, events: seq<Event>, workers: set<nat>, k: nat)
    requires IsRun(pools, events, workers) && k < |pools|
    ensures pools[k].pushed == PushedBy(events, k)
  {
    if k > 0 {
      PushedAsGiven(pools, events, workers, k - 1);
      assert Stepped(pools[k - 1], events[k - 1], pools[k]);
      assert pools[k] == Next(pools[k - 1], events[k - 1]);
    }
  }

  /** Each worker publishes in the order of pushes; so a single worker publishes everything in it. */
  lemma OneWorkerInOrder(pools: seq<Pool>, events: seq<Event>, w: nat, k: nat)
    requires IsRun(pools, events, {w}) && k < |pools|
    ensures forall i, j :: 0 <= i < j < |pools[k].published| ==>
      pools[k].published[i].packet.serial < pools[k].published[j].packet.serial
  {
    RunInvariants(pools, events, {w}, k);
    hide Next, Conserved, Awake;
    var p := pools[k];
    forall i | 0 <= i < |p.published| ensures p.published[i].worker == w {
      assert p.published[i].worker in p.workers;
    }
  }

  /** After shutdown no worker obtains a packet. */
  lemma NothingAfterShutdown(p: Pool, e: Event, w: nat)
    requires Enabled(p, e) && p.queue.isShut && w in p.workers && !p.workers[w].Holding?
    ensures Next(p, e).queue.isShut && w in Next(p, e).workers && !Next(p, e).workers[w].Holding?
    ensures e == Check(w) ==> Next(p, e).workers[w] == Finished
  {
    assert e.Push? && Asleep(p) != {} ==> e.wakes in p.workers;
  }
}
