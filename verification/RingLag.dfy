/** The queue never outlives the ring: why 80 queued packets are safe against 100 ring slots.
    Each stream's ingest thread writes a frame into the ring and then sends its notification, with
    consecutive ids from 1; the notifications of all streams meet in one drop-oldest queue. */
module RingLag {
  import opened FrameQueue
  import SharedRing

  const SLOTS: nat := SharedRing.RING_DEPTH

  /** The size the inference service makes its queue with. */
  const CAPACITY: Size := 80

  /** A notification: the frame it announces. */
  datatype Note = Note(stream: string, id: nat)

  /** A slot is being written with a frame, or holds one. */
  datatype Slot = Writing(id: nat) | Holds(id: nat)

  /** How far each stream has come: frames begun and finished in the ring, notes queued. */
  datatype Progress = Progress(begun: nat, finished: nat, queued: nat)

  datatype System = System(streams: map<string, Progress>, ring: map<(string, nat), Slot>, queue: Q<Note>,
                           history: seq<Note>)

  datatype Event =
    | Begin(stream: string)    // `writeFrame` starts on the next id
    | Finish(stream: string)   // it returns
    | Notify(stream: string)   // the notification of the next finished frame is pushed
    | Pop                      // a worker takes the oldest packet

  function Of(s: System, stream: string): Progress {
    if stream in s.streams then s.streams[stream] else Progress(0, 0, 0)
  }

  predicate Enabled(s: System, e: Event) {
    match e
    case Begin(a) => Of(s, a).begun == Of(s, a).finished   // one writer per stream
    case Finish(a) => Of(s, a).finished < Of(s, a).begun
    case Notify(a) => Of(s, a).queued < Of(s, a).finished
    case Pop => s.queue.items != [] && !s.queue.isShut
  }

  function Next(s: System, e: Event): System
    requires Enabled(s, e)
  {
    match e
    case Begin(a) =>
      var p, id := Of(s, a), Of(s, a).begun + 1;
      s.(streams := s.streams[a := p.(begun := id)], ring := s.ring[(a, id % SLOTS) := Writing(id)])
    case Finish(a) =>
      var p, id := Of(s, a), Of(s, a).finished + 1;
      s.(streams := s.streams[a := p.(finished := id)], ring := s.ring[(a, id % SLOTS) := Holds(id)])
    case Notify(a) =>
      var p, id := Of(s, a), Of(s, a).queued + 1;
      s.(streams := s.streams[a := p.(queued := id)], queue := AfterPush(s.queue, CAPACITY, Note(a, id)),
         history := s.history + [Note(a, id)])
    case Pop => s.(queue := AfterPop(s.queue).0)
  }

  function Start(): System { System(map[], map[], Q([], 0, false), []) }

  ghost predicate IsRun(states: seq<System>, events: seq<Event>) {
    && |states| == |events| + 1 && states[0] == Start()
    && forall k :: 0 <= k < |events| ==> Stepped(states[k], events[k], states[k + 1])
  }

  ghost predicate Stepped(s: System, e: Event, t: System) {
    Enabled(s, e) && t == Next(s, e)
  }

  // ---- what every run keeps -------------------------------------------------

  function Count(notes: seq<Note>, a: string): (n: nat)
    ensures n <= |notes|
  {
    if notes == [] then 0 else Count(notes[..|notes| - 1], a) + if notes[|notes| - 1].stream == a then 1 else 0
  }

  lemma CountSnoc(notes: seq<Note>, x: Note, a: string)
    ensures Count(notes + [x], a) == Count(notes, a) + if x.stream == a then 1 else 0
  {
    assert (notes + [x])[..|notes|] == notes;
  }

  /** Notifications of a stream carry its ids in order, and the queue is the end of them. */
  ghost predicate QueueOk(s: System) {
    && |s.queue.items| <= |s.history| && |s.queue.items| <= CAPACITY
    && s.queue.items == s.history[|s.history| - |s.queue.items|..]
    && (forall a :: Count(s.history, a) == Of(s, a).queued)
    && Numbered(s.history)
  }

  ghost predicate Numbered(notes: seq<Note>) {
    forall k :: 0 <= k < |notes| ==> notes[k].id == Count(notes[..k], notes[k].stream) + 1
  }

  lemma NumberedSnoc(notes: seq<Note>, x: Note)
    requires Numbered(notes) && x.id == Count(notes, x.stream) + 1
    ensures Numbered(notes + [x])
  {
    var all := notes + [x];
    forall k | 0 <= k < |all| ensures all[k].id == Count(all[..k], all[k].stream) + 1 {
      assert all[..k] == notes[..k];
      assert notes[..|notes|] == notes;
    }
  }

  /** The last 100 frames begun by a stream are the ones in its slots. */
  ghost predicate RingOk(s: System) {
    forall a :: StreamOk(s, a)
  }

  ghost predicate StreamOk(s: System, a: string) {
    var p := Of(s, a);
    && p.queued <= p.finished <= p.begun <= p.finished + 1
    && forall id :: 1 <= id <= p.begun < id + SLOTS ==>
      && (a, id % SLOTS) in s.ring
      && s.ring[(a, id % SLOTS)] == if id <= p.finished then Holds(id) else Writing(id)
  }

  lemma QueueAfter(s: System, e: Event)
    requires QueueOk(s) && Enabled(s, e)
    ensures QueueOk(Next(s, e))
  {
    match e {
      case Notify(a) => NotifyAfter(s, e);
      case Pop => PopAfter(s);
      case _ => WriteAfter(s, e);
    }
  }

  lemma PopAfter(s: System)
    requires QueueOk(s) && Enabled(s, Pop)
    ensures QueueOk(Next(s, Pop))
  {
    hide Numbered, Count;
    var t := Next(s, Pop);
    assert t.history == s.history && t.streams == s.streams;
  }

  lemma WriteAfter(s: System, e: Event)
    requires QueueOk(s) && Enabled(s, e) && (e.Begin? || e.Finish?)
    ensures QueueOk(Next(s, e))
  {
    hide Numbered, Count;
    var t := Next(s, e);
    assert t.history == s.history && t.queue == s.queue;
    forall a ensures Of(t, a).queued == Of(s, a).queued {}
  }

  lemma NotifyAfter(s: System, e: Event)
    requires QueueOk(s) && Enabled(s, e) && e.Notify?
    ensures QueueOk(Next(s, e))
  {
    hide Numbered, Count;
    var t := Next(s, e);
    var x := Note(e.stream, Of(s, e.stream).queued + 1);
    assert t.history == s.history + [x];
    assert t.queue.items == t.history[|t.history| - |t.queue.items|..];
    forall a ensures Count(t.history, a) == Of(t, a).queued {
      CountSnoc(s.history, x, a);
    }
    NumberedSnoc(s.history, x);
  }

  lemma RingAfter(s: System, e: Event)
    requires RingOk(s) && Enabled(s, e)
    ensures RingOk(Next(s, e))
  {
    var t := Next(s, e);
    forall a ensures StreamOk(t, a) {
      assert StreamOk(s, a);
      if (e.Begin? || e.Finish?) && e.stream == a {
        SlotsAfter(s, e);
      }
    }
  }

  lemma SlotsAfter(s: System, e: Event)
    requires Enabled(s, e) && (e.Begin? || e.Finish?) && StreamOk(s, e.stream)
    ensures StreamOk(Next(s, e), e.stream)
  {
    var t, a := Next(s, e), e.stream;
    var written := if e.Begin? then Of(s, a).begun + 1 else Of(s, a).finished + 1;
    forall id | 1 <= id <= Of(t, a).begun < id + SLOTS && id != written ensures id % SLOTS != written % SLOTS {
      DistinctSlots(id, written);
    }
  }

  lemma DistinctSlots(i: nat, j: nat)
    requires i != j && i < j + SLOTS && j < i + SLOTS
    ensures i % SLOTS != j % SLOTS
  {}

  lemma StartOk()
    ensures QueueOk(Start()) && RingOk(Start())
  {}

  lemma {:induction false} RunInvariants(states: seq<System>, events: seq<Event>, k: nat)
    requires IsRun(states, events) && k < |states|
    ensures QueueOk(states[k]) && RingOk(states[k])
  {
    hide QueueOk, RingOk, Next, Start;
    if k == 0 {
      StartOk();
    } else {
      RunInvariants(states, events, k - 1);
      assert Stepped(states[k - 1], events[k - 1], states[k]);
      QueueAfter(states[k - 1], events[k - 1]);
      RingAfter(states[k - 1], events[k - 1]);
    }
  }

  // ---- the capacity argument ------------------------------------------------

  lemma {:induction false} CountGrows(notes: seq<Note>, k: nat, a: string)
    requires k <= |notes|
    ensures Count(notes[..k], a) <= Count(notes, a) <= Count(notes[..k], a) + (|notes| - k)
    decreases |notes|
  {
    if k == |notes| {
      assert notes[..k] == notes;
    } else {
      assert notes[..|notes| - 1][..k] == notes[..k];
      CountGrows(notes[..|notes| - 1], k, a);
    }
  }

  /** A packet in the queue is at most 80 notifications behind its stream, whatever the mix of
      streams and however many packets were evicted. */
  lemma QueuedIsRecent(s: System, j: nat)
    requires QueueOk(s) && j < |s.queue.items|
    ensures var x := s.queue.items[j]; 1 <= x.id <= Of(s, x.stream).queued < x.id + 80
  {
    var at := QueuedAt(s, j);
    var x := s.history[at];
    hide QueueOk, Numbered, Count;
    CountGrows(s.history, at, x.stream);
    CountGrows(s.history, at + 1, x.stream);
    CountNext(s.history, at);
  }

  /** Where a queued packet is among all notifications. */
  lemma QueuedAt(s: System, j: nat) returns (at: nat)
    requires QueueOk(s) && j < |s.queue.items|
    ensures at < |s.history| <= at + 80
    ensures var x := s.history[at];
      && s.queue.items[j] == x && x.id == Count(s.history[..at], x.stream) + 1
      && Count(s.history, x.stream) == Of(s, x.stream).queued
  {
    hide Count;
    at := |s.history| - |s.queue.items| + j;
    assert s.queue.items[j] == s.history[at];
  }

  lemma CountNext(notes: seq<Note>, at: nat)
    requires at < |notes|
    ensures Count(notes[..at + 1], notes[at].stream) == Count(notes[..at], notes[at].stream) + 1
  {
    hide Count;
    assert notes[..at + 1] == notes[..at] + [notes[at]];
    CountSnoc(notes[..at], notes[at], notes[at].stream);
  }

  /** A notification evicts another exactly when 80 are queued. */
  lemma EvictsAtEighty(s: System, e: Event)
    requires QueueOk(s) && Enabled(s, e)
    ensures var evicts := e.Notify? && |s.queue.items| == 80;
      Next(s, e).queue.dropped == s.queue.dropped + if evicts then 1 else 0
  {
    hide Count, Numbered;
  }

  /** When a packet is popped while its stream has at most 100 - 80 = 20 frames begun but not yet
      queued, its ring slot still holds exactly that frame. */
  lemma PoppedFrameIsThere(states: seq<System>, events: seq<Event>, k: nat)
    requires IsRun(states, events) && k < |events| && events[k].Pop? && states[k].queue.items != []
    requires var x := states[k].queue.items[0];
      Of(states[k], x.stream).begun <= Of(states[k], x.stream).queued + 20
    ensures var x := states[k].queue.items[0];
      (x.stream, x.id % 100) in states[k].ring && states[k].ring[(x.stream, x.id % 100)] == Holds(x.id)
  {
    RunInvariants(states, events, k);
    var s, x := states[k], states[k].queue.items[0];
    QueuedIsRecent(s, 0);
    assert StreamOk(s, x.stream);
  }

  /** The last frame, among the first `begun`, that uses the slot of `id`. */
  lemma LastInSlot(id: nat, begun: nat) returns (later: nat)
    requires begun >= id + SLOTS
    ensures later % SLOTS == id % SLOTS && id < later <= begun < later + SLOTS
  {
    var laps := (begun - id) / SLOTS;
    later := id + SLOTS * laps;
  }

  /** The exact condition, whatever the lag: a queued packet's frame is still in its slot if and only
      if the write of the frame 100 ids later has not begun. */
  lemma FrameIsThereIff(states: seq<System>, events: seq<Event>, k: nat, j: nat)
    requires IsRun(states, events) && k < |states| && j < |states[k].queue.items|
    ensures var s, x := states[k], states[k].queue.items[j];
      ((x.stream, x.id % 100) in s.ring && s.ring[(x.stream, x.id % 100)] == Holds(x.id))
      <==> Of(s, x.stream).begun < x.id + 100
  {
    RunInvariants(states, events, k);
    var s, x := states[k], states[k].queue.items[j];
    var p := Of(s, x.stream);
    QueuedIsRecent(s, j);
    assert StreamOk(s, x.stream);
    if p.begun >= x.id + SLOTS {
      var later := LastInSlot(x.id, p.begun);
    }
  }
}
