/** The shared-memory frame store as a transition system: one writer per stream, which may crash
    at any step, and any number of readers, C++ or Python, interleaved one memory access at a time. */
module SharedRing {

  const MAX_STREAMS: nat := 16
  const RING_DEPTH: nat := 100
  const SLOT_BYTES: nat := 1228800   // 640 * 640 * 3
  const ID_BYTES: nat := 31          // the stored id keeps room for its terminator
  const WRAP: nat := 0x1_0000_0000   // sequence numbers are 32-bit

  // ---- the shared segment ---------------------------------------------------

  /** `lock` is the stored lock word; `ver` is history: the same count without wrap-around. */
  datatype Slot = Slot(lock: nat, ver: nat, fid: nat, w: nat, h: nat, c: nat, ts: int, data: map<nat, nat>)

  /** A row of the stream table: 0 free, 1 reserved, 2 ready. */
  datatype Row = Row(state: nat, id: string, latest: nat)

  /** A three-channel image: `writeFrame` refuses anything else. */
  datatype Image = Image(w: nat, h: nat, ts: int, pixels: seq<nat>)

  datatype Write = Write(stream: string, fid: nat, image: Image)

  /** Where a slot is: row, and index in the ring. */
  type Loc = (nat, nat)

  // ---- writers --------------------------------------------------------------

  /** The next access of a writer. */
  datatype Phase =
    | Idle
    | Scan(i: nat)        // look for the stream's ready row
    | Claim(i: nat)       // compare-and-swap a free row
    | Name(i: nat)        // store the id in the reserved row
    | Publish(i: nat)     // mark the row ready
    | Load(i: nat)        // read the lock word of the slot
    | Mark(i: nat, writing: nat)            // store it odd
    | Fields(i: nat, writing: nat, n: nat)  // store fid, width, height, channels, timestamp
    | Copy(i: nat, writing: nat, k: nat)    // store byte k
    | Settle(i: nat, writing: nat)          // store the lock word even
    | Latest(i: nat)

  datatype Writer = Writer(phase: Phase, job: Write)

  // ---- readers --------------------------------------------------------------

  datatype Kind = Cpp | Python

  datatype Answer = Miss | Hit(w: nat, h: nat, pixels: seq<nat>, ver: nat)

  /** `n` fields have been read; `v` is history: the version the lock word stood for. */
  datatype Progress =
    | Find(i: nat)
    | Poll(row: nat, t: nat)
    | Read(row: nat, t: nat, lock1: nat, v: nat, n: nat, got: nat, w: nat, h: nat, c: nat, bytes: seq<nat>)
    | Done(answer: Answer)

  datatype Reader = Reader(kind: Kind, stream: string, fid: nat, at: Progress)

  function Tries(kind: Kind): nat { if kind == Cpp then 4 else 6 }

  // ---- the whole system -----------------------------------------------------

  /** `log` is history: the completed write behind every even version of every slot. */
  datatype State = State(rows: seq<Row>, slots: map<Loc, Slot>, writers: map<string, Writer>,
                         readers: map<nat, Reader>, log: map<(Loc, nat), Write>)

  /** The segment starts as zero-filled pages. */
  const ZERO := Slot(0, 0, 0, 0, 0, 0, 0, map[])

  function SlotAt(s: State, loc: Loc): Slot { if loc in s.slots then s.slots[loc] else ZERO }

  function ByteAt(slot: Slot, k: nat): nat { if k in slot.data then slot.data[k] else 0 }

  function Index(fid: nat): nat { fid % RING_DEPTH }

  function Home(job: Write): nat { Index(job.fid) }

  function Initial(): State {
    State(seq(MAX_STREAMS, _ => Row(0, "", 0)), map[], map[], map[], map[])
  }

  function Odd(x: nat): nat { if x % 2 == 0 then x + 1 else x }   // x | 1

  function Stored(stream: string): string {
    if |stream| > ID_BYTES then stream[..ID_BYTES] else stream
  }

  predicate Fits(image: Image) {
    |image.pixels| == image.w * image.h * 3 <= SLOT_BYTES
  }

  // ---- writeFrame -----------------------------------------------------------

  function WithPhase(s: State, a: string, p: Phase): State
    requires a in s.writers
  {
    s.(writers := s.writers[a := s.writers[a].(phase := p)])
  }

  function WithSlot(s: State, loc: Loc, slot: Slot): State {
    s.(slots := s.slots[loc := slot])
  }

  function WithRow(s: State, i: nat, row: Row): State
    requires i < |s.rows|
  {
    s.(rows := s.rows[i := row])
  }

  /** One stored field of the frame header. */
  function StoreField(slot: Slot, job: Write, n: nat): Slot {
    match n
    case 0 => slot.(fid := job.fid)
    case 1 => slot.(w := job.image.w)
    case 2 => slot.(h := job.image.h)
    case 3 => slot.(c := 3)
    case _ => slot.(ts := job.image.ts)
  }

  /** One store of a writer to a row that is its own. */
  function RowMove(s: State, a: string): (t: State)
    requires a in s.writers && |s.rows| == MAX_STREAMS
    ensures |t.rows| == MAX_STREAMS && t.writers.Keys == s.writers.Keys && t.readers == s.readers
  {
    var job := s.writers[a].job;
    match s.writers[a].phase
    case Name(i) =>
      if i >= MAX_STREAMS then s else WithPhase(WithRow(s, i, s.rows[i].(id := Stored(a))), a, Publish(i))
    case Publish(i) =>
      if i >= MAX_STREAMS then s else WithPhase(WithRow(s, i, s.rows[i].(state := 2)), a, Load(i))
    case Latest(i) =>
      if i >= MAX_STREAMS then s else WithPhase(WithRow(s, i, s.rows[i].(latest := job.fid)), a, Idle)
    case _ => s
  }

  /** One access of a writer to its slot. */
  function StoreMove(s: State, a: string): (t: State)
    requires a in s.writers && |s.rows| == MAX_STREAMS
    ensures |t.rows| == MAX_STREAMS && t.writers.Keys == s.writers.Keys && t.readers == s.readers
  {
    var job := s.writers[a].job;
    match s.writers[a].phase
    case Mark(i, writing) =>
      var slot := SlotAt(s, (i, Home(job)));
      WithPhase(WithSlot(s, (i, Home(job)), slot.(lock := writing, ver := Odd(slot.ver))), a, Fields(i, writing, 0))
    case Fields(i, writing, n) =>
      if n >= 5 then WithPhase(s, a, Copy(i, writing, 0))
      else
        var slot := SlotAt(s, (i, Home(job)));
        WithPhase(WithSlot(s, (i, Home(job)), StoreField(slot, job, n)), a, Fields(i, writing, n + 1))
    case Copy(i, writing, k) =>
      if k >= |job.image.pixels| then WithPhase(s, a, Settle(i, writing))
      else
        var slot := SlotAt(s, (i, Home(job)));
        WithPhase(WithSlot(s, (i, Home(job)), slot.(data := slot.data[k := job.image.pixels[k]])),
                  a, Copy(i, writing, k + 1))
    case Settle(i, writing) =>
      var loc := (i, Home(job));
      var slot := SlotAt(s, loc);
      var even := slot.(lock := (writing + 1) % WRAP, ver := slot.ver + 1);
      WithPhase(WithSlot(s, loc, even).(log := s.log[(loc, even.ver) := job]), a, Latest(i))
    case _ => s
  }

  /** One access of the writer of stream `a`. */
  function WriterMove(s: State, a: string): (t: State)
    requires a in s.writers && |s.rows| == MAX_STREAMS
    ensures |t.rows| == MAX_STREAMS && t.writers.Keys == s.writers.Keys && t.readers == s.readers
  {
    var job := s.writers[a].job;
    match s.writers[a].phase
    case Idle => s
    case Scan(i) =>
      if i >= MAX_STREAMS then WithPhase(s, a, Claim(0))
      else if s.rows[i].state == 2 && s.rows[i].id == a then WithPhase(s, a, Load(i))
      else WithPhase(s, a, Scan(i + 1))
    case Claim(i) =>
      if i >= MAX_STREAMS then WithPhase(s, a, Idle)
      else if s.rows[i].state == 0 then WithPhase(WithRow(s, i, s.rows[i].(state := 1)), a, Name(i))
      else WithPhase(s, a, Claim(i + 1))
    case Name(_) => RowMove(s, a)
    case Publish(_) => RowMove(s, a)
    case Load(i) => WithPhase(s, a, Mark(i, Odd(SlotAt(s, (i, Home(job))).lock)))
    case Mark(_, _) => StoreMove(s, a)
    case Fields(_, _, _) => StoreMove(s, a)
    case Copy(_, _, _) => StoreMove(s, a)
    case Settle(_, _) => StoreMove(s, a)
    case Latest(_) => RowMove(s, a)
  }

  // ---- getFrame and get_frame -----------------------------------------------

  /** Stored sizes Python goes on with; C++ trusts them until the lock word is checked again. */
  predicate Plausible(w: nat, h: nat, c: nat) {
    0 < w && 0 < h && c == 3 && w * h * c <= SLOT_BYTES
  }

  /** One access of a reader. `stray` is what lies beyond the slot, where torn sizes may lead a C++ reader. */
  function Advance(s: State, r: Reader, stray: nat): Progress
    requires |s.rows| == MAX_STREAMS
  {
    match r.at
    case Find(i) =>
      if i >= MAX_STREAMS then Done(Miss)
      else if s.rows[i].state == 2 && s.rows[i].id == r.stream then Poll(i, 0)
      else Find(i + 1)
    case Poll(row, t) =>
      if t >= Tries(r.kind) then Done(Miss)
      else
        var slot := SlotAt(s, (row, Index(r.fid)));
        if slot.lock % 2 == 1 then Poll(row, t + 1)
        else Read(row, t, slot.lock, slot.ver, 0, 0, 0, 0, 0, [])
    case Read(row, t, lock1, v, n, got, w, h, c, bytes) =>
      var slot := SlotAt(s, (row, Index(r.fid)));
      match n {
        case 0 => Read(row, t, lock1, v, 1, slot.fid, w, h, c, bytes)
        case 1 => Read(row, t, lock1, v, 2, got, slot.w, h, c, bytes)
        case 2 => Read(row, t, lock1, v, if r.kind == Cpp then 4 else 3, got, w, slot.h, c, bytes)
        case 3 =>
          if Plausible(w, h, slot.c) then Read(row, t, lock1, v, 4, got, w, h, slot.c, bytes) else Poll(row, t + 1)
        case _ =>
          if |bytes| < w * h * 3 then
            var b := if |bytes| < SLOT_BYTES then ByteAt(slot, |bytes|) else stray;
            Read(row, t, lock1, v, n, got, w, h, c, bytes + [b])
          else if slot.lock != lock1 then Poll(row, t + 1)
          else if got != r.fid then Done(Miss)
          else Done(Hit(w, h, bytes, v))
      }
    case Done(answer) => Done(answer)
  }

  // ---- interleavings --------------------------------------------------------

  datatype Action =
    | Submit(job: Write)              // `writeFrame` is called
    | WriterRuns(stream: string)      // its next access
    | Crash(stream: string)           // it dies; a restarted one is idle
    | Ask(reader: nat, kind: Kind, stream: string, fid: nat)
    | ReaderRuns(reader: nat, stray: nat)

  /** One writer per stream, and ids short enough to be stored whole. */
  predicate Enabled(s: State, act: Action) {
    match act
    case Submit(job) =>
      |job.stream| <= ID_BYTES && (job.stream in s.writers ==> s.writers[job.stream].phase == Idle)
    case WriterRuns(a) => a in s.writers
    case Crash(a) => a in s.writers
    case Ask(r, kind, stream, fid) => true
    case ReaderRuns(r, stray) => r in s.readers
  }

  function Next(s: State, act: Action): State
    requires |s.rows| == MAX_STREAMS && Enabled(s, act)
  {
    match act
    case Submit(job) =>
      s.(writers := s.writers[job.stream := Writer(if Fits(job.image) then Scan(0) else Idle, job)])
    case WriterRuns(a) => WriterMove(s, a)
    case Crash(a) => WithPhase(s, a, Idle)
    case Ask(r, kind, stream, fid) => s.(readers := s.readers[r := Reader(kind, stream, fid, Find(0))])
    case ReaderRuns(r, stray) =>
      s.(readers := s.readers[r := s.readers[r].(at := Advance(s, s.readers[r], stray))])
  }

  /** Fewer than 2^31 writes reach a slot while one read of it is under way. */
  ghost predicate NoWrap(s: State) {
    forall r :: r in s.readers && s.readers[r].at.Read? ==>
      SlotAt(s, (s.readers[r].at.row, Index(s.readers[r].fid))).ver - s.readers[r].at.v < WRAP
  }
}
