/** What every interleaving of writers, crashes and readers keeps, and what a successful read means. */
module SharedRingSafety {
  import opened SharedRing

  // ---- the stream table -----------------------------------------------------

  ghost predicate Ready(s: State, i: nat, a: string) {
    i < |s.rows| && s.rows[i].state == 2 && s.rows[i].id == a
  }

  ghost predicate NoneReady(s: State, n: nat, a: string) {
    forall i: nat :: i < n ==> !Ready(s, i, a)
  }

  /** Has reserved a row and not yet published it. */
  predicate Reserving(p: Phase) { p.Name? || p.Publish? }

  /** Works on the slot of its row, the id being published. */
  predicate Storing(p: Phase) {
    p.Load? || p.Mark? || p.Fields? || p.Copy? || p.Settle? || p.Latest?
  }

  ghost predicate AtRow(s: State, a: string, p: Phase) {
    match p
    case Idle => true
    case Scan(i) => i <= MAX_STREAMS && NoneReady(s, i, a)
    case Claim(i) =>
      && i <= MAX_STREAMS && NoneReady(s, MAX_STREAMS, a)
      && forall j: nat :: j < i && j < |s.rows| ==> s.rows[j].state != 0
    case Name(i) => i < |s.rows| && s.rows[i].state == 1 && NoneReady(s, MAX_STREAMS, a)
    case Publish(i) => i < |s.rows| && s.rows[i].state == 1 && s.rows[i].id == a && NoneReady(s, MAX_STREAMS, a)
    case _ => Ready(s, p.i, a)
  }

  ghost predicate WriterAt(s: State, a: string)
    requires a in s.writers
  {
    && |a| <= ID_BYTES && s.writers[a].job.stream == a
    && (s.writers[a].phase != Idle ==> Fits(s.writers[a].job.image))
    && AtRow(s, a, s.writers[a].phase)
  }

  ghost predicate Clash(s: State, a: string, b: string) {
    && a in s.writers && b in s.writers && a != b
    && Reserving(s.writers[a].phase) && Reserving(s.writers[b].phase)
    && s.writers[a].phase.i == s.writers[b].phase.i
  }

  /** No two ready rows carry one id, no two writers reserved one row, each writer stands where it may. */
  ghost predicate TableOk(s: State) {
    && |s.rows| == MAX_STREAMS
    && (forall i :: 0 <= i < |s.rows| ==> s.rows[i].state <= 2)
    && (forall i: nat, j: nat, a: string :: Ready(s, i, a) && Ready(s, j, a) ==> i == j)
    && (forall a :: a in s.writers ==> WriterAt(s, a))
    && (forall a, b :: !Clash(s, a, b))
  }

  // ---- slots and the log ----------------------------------------------------

  ghost predicate Shows(slot: Slot, job: Write) {
    && slot.fid == job.fid && slot.w == job.image.w && slot.h == job.image.h && slot.c == 3 && slot.ts == job.image.ts
    && forall k :: 0 <= k < |job.image.pixels| ==> ByteAt(slot, k) == job.image.pixels[k]
  }

  /** A completed write sits in the row of its stream, at the index of its frame id. */
  ghost predicate LogOk(s: State) {
    forall loc: Loc, v: nat :: (loc, v) in s.log ==>
      && v % 2 == 0 && 0 < v <= SlotAt(s, loc).ver
      && Ready(s, loc.0, s.log[(loc, v)].stream) && loc.1 == Home(s.log[(loc, v)])
      && Fits(s.log[(loc, v)].image)
  }

  ghost predicate SlotOk(s: State, loc: Loc) {
    var slot := SlotAt(s, loc);
    && slot.lock == slot.ver % WRAP
    && (slot.ver == 0 ==> slot == ZERO)
    && (slot.ver > 0 && slot.ver % 2 == 0 ==> (loc, slot.ver) in s.log && Shows(slot, s.log[(loc, slot.ver)]))
  }

  ghost predicate SlotsOk(s: State) {
    forall loc: Loc :: SlotOk(s, loc)
  }

  /** What a writer has stored so far. */
  ghost predicate AtSlot(slot: Slot, job: Write, p: Phase) {
    match p
    case Mark(i, writing) => writing == Odd(slot.lock)
    case Fields(i, writing, n) =>
      && slot.lock == writing && slot.ver % 2 == 1
      && (n > 0 ==> slot.fid == job.fid) && (n > 1 ==> slot.w == job.image.w) && (n > 2 ==> slot.h == job.image.h)
      && (n > 3 ==> slot.c == 3) && (n > 4 ==> slot.ts == job.image.ts)
    case Copy(i, writing, k) =>
      && slot.lock == writing && slot.ver % 2 == 1
      && slot.fid == job.fid && slot.w == job.image.w && slot.h == job.image.h && slot.c == 3 && slot.ts == job.image.ts
      && forall j :: 0 <= j < k && j < |job.image.pixels| ==> ByteAt(slot, j) == job.image.pixels[j]
    case Settle(i, writing) => slot.lock == writing && slot.ver % 2 == 1 && Shows(slot, job)
    case _ => true
  }

  ghost predicate WritersOk(s: State) {
    forall a :: a in s.writers && Storing(s.writers[a].phase) ==>
      AtSlot(SlotAt(s, (s.writers[a].phase.i, Home(s.writers[a].job))), s.writers[a].job, s.writers[a].phase)
  }

  // ---- readers --------------------------------------------------------------

  /** As long as the slot has not moved on from version `v`, what was read is what it shows. */
  ghost predicate ReadSoFar(slot: Slot, kind: Kind, p: Progress)
    requires p.Read?
  {
    && p.v % 2 == 0 && p.lock1 == p.v % WRAP && p.v <= slot.ver && p.n <= 4 && (p.n < 4 ==> p.bytes == [])
    && (p.n == 3 ==> kind == Python)
    && (p.n == 4 ==> |p.bytes| <= p.w * p.h * 3)
    && (p.n == 4 && kind == Python ==> Plausible(p.w, p.h, 3))
    && (slot.ver == p.v ==>
          && (p.n > 0 ==> p.got == slot.fid) && (p.n > 1 ==> p.w == slot.w) && (p.n > 2 ==> p.h == slot.h)
          && forall k :: 0 <= k < |p.bytes| && k < SLOT_BYTES ==> p.bytes[k] == ByteAt(slot, k))
  }

  /** A hit is a completed write of the frame asked for. The one exception: a C++ reader asking for
      frame 0 takes a slot never written for an empty frame. */
  ghost predicate Truthful(s: State, r: Reader, row: nat, hit: Answer)
    requires hit.Hit?
  {
    var loc := (row, Index(r.fid));
    && Ready(s, row, r.stream)
    && if hit.ver == 0 then r.kind == Cpp && r.fid == 0 && hit.w == hit.h == 0 && hit.pixels == []
       else
         && (loc, hit.ver) in s.log
         && var job := s.log[(loc, hit.ver)];
           job.stream == r.stream && job.fid == r.fid
           && job.image.w == hit.w && job.image.h == hit.h && job.image.pixels == hit.pixels
  }

  ghost predicate ReaderOk(s: State, r: Reader) {
    match r.at
    case Find(i) => true
    case Poll(row, t) => Ready(s, row, r.stream)
    case Read(row, t, lock1, v, n, got, w, h, c, bytes) =>
      Ready(s, row, r.stream) && ReadSoFar(SlotAt(s, (row, Index(r.fid))), r.kind, r.at)
    case Done(answer) => answer.Hit? ==> exists row: nat :: Truthful(s, r, row, answer)
  }

  ghost predicate ReadersOk(s: State) {
    forall r :: r in s.readers ==> ReaderOk(s, s.readers[r])
  }

  ghost predicate Inv(s: State) {
    TableOk(s) && LogOk(s) && SlotsOk(s) && WritersOk(s) && ReadersOk(s)
  }

  // ---- one step only adds ---------------------------------------------------

  /** Rows only move on, published ids and logged writes stay, versions only grow, and a stable
      version always shows the same frame. */
  ghost predicate Extends(s: State, t: State) {
    && |t.rows| == |s.rows|
    && (forall i :: 0 <= i < |s.rows| ==> s.rows[i].state <= t.rows[i].state)
    && (forall i: nat, a: string :: Ready(s, i, a) ==> Ready(t, i, a))
    && (forall key :: key in s.log ==> key in t.log && t.log[key] == s.log[key])
    && (forall loc: Loc :: SlotAt(s, loc).ver <= SlotAt(t, loc).ver)
    && (forall loc: Loc :: SlotAt(t, loc).ver == SlotAt(s, loc).ver && SlotAt(s, loc).ver % 2 == 0 ==>
          SlotAt(t, loc) == SlotAt(s, loc))
  }

  lemma ReadersStay(s: State, t: State)
    requires Extends(s, t) && ReadersOk(s) && t.readers == s.readers
    ensures ReadersOk(t)
  {
    forall r | r in t.readers ensures ReaderOk(t, t.readers[r]) {
      ReaderStays(s, t, t.readers[r]);
    }
  }

  lemma ReaderStays(s: State, t: State, r: Reader)
    requires Extends(s, t) && ReaderOk(s, r)
    ensures ReaderOk(t, r)
  {
    if r.at.Done? && r.at.answer.Hit? {
      var row: nat :| Truthful(s, r, row, r.at.answer);
      assert Truthful(t, r, row, r.at.answer);
    }
  }

  // ---- a reader's step ------------------------------------------------------

  lemma ReaderAdvances(s: State, r: Reader, stray: nat)
    requires TableOk(s) && LogOk(s) && SlotsOk(s) && ReaderOk(s, r)
    requires r.at.Read? ==> SlotAt(s, (r.at.row, Index(r.fid))).ver - r.at.v < WRAP
    ensures ReaderOk(s, r.(at := Advance(s, r, stray)))
  {
    var next := r.(at := Advance(s, r, stray));
    match r.at {
      case Find(i) =>
      case Poll(row, t) =>
        var loc := (row, Index(r.fid));
        assert SlotOk(s, loc);
      case Read(row, t, lock1, v, n, got, w, h, c, bytes) =>
        var loc := (row, Index(r.fid));
        assert SlotOk(s, loc);
        if next.at.Done? && next.at.answer.Hit? {
          HitIsTruthful(s, r, stray);
          assert Truthful(s, next, row, next.at.answer);
        }
      case Done(answer) =>
    }
  }

  lemma SameLock(v: nat, w: nat)
    requires v <= w < v + WRAP && v % WRAP == w % WRAP
    ensures v == w
  {}

  lemma HitIsTruthful(s: State, r: Reader, stray: nat)
    requires TableOk(s) && LogOk(s) && SlotsOk(s) && ReaderOk(s, r) && r.at.Read?
    requires SlotAt(s, (r.at.row, Index(r.fid))).ver - r.at.v < WRAP
    requires Advance(s, r, stray).Done? && Advance(s, r, stray).answer.Hit?
    ensures Truthful(s, r, r.at.row, Advance(s, r, stray).answer)
  {
    var p, hit := r.at, Advance(s, r, stray).answer;
    var loc := (p.row, Index(r.fid));
    var slot := SlotAt(s, loc);
    assert SlotOk(s, loc);
    SameLock(p.v, slot.ver);
    assert p.got == slot.fid == r.fid && hit == Hit(slot.w, slot.h, p.bytes, p.v);
    if p.v != 0 {
      var job := s.log[(loc, p.v)];
      assert Shows(slot, job);
      assert |p.bytes| == |job.image.pixels|;
    }
  }

  // ---- a writer's step ------------------------------------------------------

  /** Rows after a writer's step: states and published ids only move on. */
  ghost predicate RowsExtend(s: State, t: State) {
    && |t.rows| == |s.rows|
    && (forall i :: 0 <= i < |s.rows| ==> s.rows[i].state <= t.rows[i].state)
    && (forall i: nat, a: string :: Ready(s, i, a) ==> Ready(t, i, a))
  }

  /** Only the writer `a` moved, and only its own id may have become ready. */
  lemma TableKept(s: State, t: State, a: string)
    requires TableOk(s) && a in s.writers && RowsExtend(s, t)
    requires t.writers.Keys == s.writers.Keys && t.writers[a].job == s.writers[a].job
    requires forall b :: b in s.writers && b != a ==> t.writers[b] == s.writers[b]
    requires forall i :: 0 <= i < |t.rows| ==> t.rows[i].state <= 2
    requires forall i: nat, b: string :: Ready(t, i, b) ==> Ready(s, i, b) || b == a
    requires forall i: nat, j: nat :: Ready(t, i, a) && Ready(t, j, a) ==> i == j
    requires forall b :: b in s.writers && b != a && Reserving(s.writers[b].phase) ==>
      SameRow(s, t, s.writers[b].phase.i)
    requires WriterAt(t, a) && forall b :: !Clash(t, a, b)
    ensures TableOk(t)
  {
    forall b | b in t.writers ensures WriterAt(t, b) {
      assert WriterAt(s, b);
      assert b != a ==> forall i: nat :: Ready(t, i, b) ==> Ready(s, i, b);
    }
    forall b, c ensures !Clash(t, b, c) {
      assert !Clash(s, b, c) && !Clash(t, a, b) && !Clash(t, a, c);
    }
  }

  ghost predicate SameRow(s: State, t: State, i: nat) {
    i < |s.rows| && i < |t.rows| && t.rows[i] == s.rows[i]
  }

  lemma TableStep(s: State, a: string)
    requires TableOk(s) && a in s.writers
    ensures TableOk(WriterMove(s, a)) && RowsExtend(s, WriterMove(s, a))
  {
    hide WriterMove, TableOk, RowsExtend;
    match s.writers[a].phase {
      case Claim(i) => ClaimStep(s, a);
      case Name(i) => NameStep(s, a);
      case Publish(i) => PublishStep(s, a);
      case Latest(i) => LatestStep(s, a);
      case _ => SameRowsStep(s, a);
    }
  }

  /** What a step changes besides the moved writer: nothing in the table. */
  ghost predicate OnlyMoved(s: State, t: State, a: string)
    requires a in s.writers
  {
    && t.rows == s.rows && t.writers.Keys == s.writers.Keys && t.writers[a].job == s.writers[a].job
    && (forall b :: b in s.writers && b != a ==> t.writers[b] == s.writers[b])
  }

  lemma ScanShape(s: State, a: string)
    requires |s.rows| == MAX_STREAMS && a in s.writers && WriterAt(s, a) && s.writers[a].phase.Scan?
    ensures var t := WriterMove(s, a);
      OnlyMoved(s, t, a) && !Reserving(t.writers[a].phase) && AtRow(s, a, t.writers[a].phase)
  {
    var i := s.writers[a].phase.i;
    assert i < MAX_STREAMS && !Ready(s, i, a) ==> NoneReady(s, i + 1, a);
  }

  /** A writer at its slot stays at its row. */
  lemma StoreShape(s: State, a: string)
    requires |s.rows| == MAX_STREAMS && a in s.writers && Storing(s.writers[a].phase) && !s.writers[a].phase.Latest?
    ensures var t := WriterMove(s, a);
      OnlyMoved(s, t, a) && Storing(t.writers[a].phase) && t.writers[a].phase.i == s.writers[a].phase.i
  {}

  /** Where a writer that leaves the rows alone stands next. */
  lemma SameRowsShape(s: State, a: string)
    requires |s.rows| == MAX_STREAMS && a in s.writers && WriterAt(s, a)
    requires var p := s.writers[a].phase; !Reserving(p) && !p.Claim? && !p.Latest?
    ensures var t := WriterMove(s, a);
      && OnlyMoved(s, t, a)
      && !Reserving(t.writers[a].phase) && (t.writers[a].phase != Idle ==> s.writers[a].phase != Idle)
      && AtRow(s, a, t.writers[a].phase)
  {
    var p := s.writers[a].phase;
    if p.Scan? {
      ScanShape(s, a);
    } else if Storing(p) {
      hide WriterMove;
      StoreShape(s, a);
    }
  }

  lemma SameRowsStep(s: State, a: string)
    requires TableOk(s) && a in s.writers
    requires var p := s.writers[a].phase; !Reserving(p) && !p.Claim? && !p.Latest?
    ensures TableOk(WriterMove(s, a)) && RowsExtend(s, WriterMove(s, a))
  {
    hide WriterMove;
    var t := WriterMove(s, a);
    assert WriterAt(s, a);
    SameRowsShape(s, a);
    assert forall i: nat, b: string :: Ready(s, i, b) <==> Ready(t, i, b);
    forall b | b in s.writers && b != a && Reserving(s.writers[b].phase) ensures SameRow(s, t, s.writers[b].phase.i) {
      assert WriterAt(s, b);
    }
    AtSameRows(s, t, a, t.writers[a].phase);
    TableKept(s, t, a);
  }

  lemma AtSameRows(s: State, t: State, a: string, p: Phase)
    requires t.rows == s.rows && AtRow(s, a, p)
    ensures AtRow(t, a, p)
  {
    assert forall i: nat, b: string :: Ready(s, i, b) <==> Ready(t, i, b);
  }

  lemma OthersReserved(s: State, a: string, b: string)
    requires TableOk(s) && a in s.writers && b in s.writers && a != b && Reserving(s.writers[b].phase)
    ensures s.writers[b].phase.i < |s.rows| && s.rows[s.writers[b].phase.i].state == 1
    ensures Reserving(s.writers[a].phase) ==> s.writers[a].phase.i != s.writers[b].phase.i
    ensures Storing(s.writers[a].phase) ==> s.writers[a].phase.i != s.writers[b].phase.i
  {
    assert WriterAt(s, a) && WriterAt(s, b) && !Clash(s, a, b);
  }

  lemma ClaimShape(s: State, a: string)
    requires |s.rows| == MAX_STREAMS && a in s.writers && WriterAt(s, a) && s.writers[a].phase.Claim?
    requires forall i :: 0 <= i < |s.rows| ==> s.rows[i].state <= 2
    ensures var t, i := WriterMove(s, a), s.writers[a].phase.i;
      && t.writers.Keys == s.writers.Keys && t.writers[a].job == s.writers[a].job
      && (forall b :: b in s.writers && b != a ==> t.writers[b] == s.writers[b])
      && |t.rows| == |s.rows| && (forall j :: 0 <= j < |s.rows| ==> s.rows[j].state <= t.rows[j].state <= 2)
      && (forall j: nat, b: string :: Ready(s, j, b) <==> Ready(t, j, b))
      && (forall j :: 0 <= j < |s.rows| && s.rows[j].state != 0 ==> t.rows[j] == s.rows[j])
      && (Reserving(t.writers[a].phase) ==> t.writers[a].phase.i == i < |s.rows| && s.rows[i].state == 0)
      && WriterAt(t, a)
  {}

  lemma ClaimStep(s: State, a: string)
    requires TableOk(s) && a in s.writers && s.writers[a].phase.Claim?
    ensures TableOk(WriterMove(s, a)) && RowsExtend(s, WriterMove(s, a))
  {
    hide WriterMove;
    var t := WriterMove(s, a);
    assert WriterAt(s, a);
    ClaimShape(s, a);
    forall b | b in s.writers && b != a && Reserving(s.writers[b].phase)
      ensures SameRow(s, t, s.writers[b].phase.i) && !Clash(t, a, b)
    {
      OthersReserved(s, a, b);
    }
    TableKept(s, t, a);
  }

  lemma NameStep(s: State, a: string)
    requires TableOk(s) && a in s.writers && s.writers[a].phase.Name?
    ensures TableOk(WriterMove(s, a)) && RowsExtend(s, WriterMove(s, a))
  {
    var t := WriterMove(s, a);
    assert WriterAt(s, a);
    assert forall i: nat, b: string :: Ready(s, i, b) <==> Ready(t, i, b);
    forall b | b in s.writers && b != a && Reserving(s.writers[b].phase)
      ensures SameRow(s, t, s.writers[b].phase.i) && !Clash(t, a, b)
    {
      OthersReserved(s, a, b);
    }
    hide WriterMove;
    TableKept(s, t, a);
  }

  lemma PublishStep(s: State, a: string)
    requires TableOk(s) && a in s.writers && s.writers[a].phase.Publish?
    ensures TableOk(WriterMove(s, a)) && RowsExtend(s, WriterMove(s, a))
  {
    var t, i := WriterMove(s, a), s.writers[a].phase.i;
    assert WriterAt(s, a);
    assert forall j: nat, b: string :: Ready(t, j, b) <==> Ready(s, j, b) || (j == i && b == a);
    forall b | b in s.writers && b != a && Reserving(s.writers[b].phase) ensures SameRow(s, t, s.writers[b].phase.i) {
      OthersReserved(s, a, b);
    }
    hide WriterMove;
    TableKept(s, t, a);
  }

  lemma LatestStep(s: State, a: string)
    requires TableOk(s) && a in s.writers && s.writers[a].phase.Latest?
    ensures TableOk(WriterMove(s, a)) && RowsExtend(s, WriterMove(s, a))
  {
    var t := WriterMove(s, a);
    assert WriterAt(s, a);
    LatestRows(s, a);
    hide WriterMove;
    assert forall i: nat, b: string :: Ready(s, i, b) <==> Ready(t, i, b);
    forall b | b in s.writers && b != a && Reserving(s.writers[b].phase) ensures SameRow(s, t, s.writers[b].phase.i) {
      OthersReserved(s, a, b);
    }
    AtSameReady(s, t, a);
    TableKept(s, t, a);
  }

  /** Naming the newest frame leaves all states and ids, and the other rows. */
  lemma LatestRows(s: State, a: string)
    requires |s.rows| == MAX_STREAMS && a in s.writers && s.writers[a].phase.Latest? && WriterAt(s, a)
    ensures var t, i := WriterMove(s, a), s.writers[a].phase.i;
      && |t.rows| == |s.rows| && t.writers.Keys == s.writers.Keys
      && (forall b :: b in s.writers && b != a ==> t.writers[b] == s.writers[b])
      && (forall j :: 0 <= j < |s.rows| ==> t.rows[j].state == s.rows[j].state && t.rows[j].id == s.rows[j].id)
      && (forall j :: 0 <= j < |s.rows| && j != i ==> t.rows[j] == s.rows[j])
      && t.writers[a] == Writer(Idle, s.writers[a].job)
  {}

  lemma AtSameReady(s: State, t: State, a: string)
    requires a in s.writers && WriterAt(s, a) && a in t.writers && t.writers[a] == Writer(Idle, s.writers[a].job)
    requires s.writers[a].phase != Idle
    ensures WriterAt(t, a) && forall b :: !Clash(t, a, b)
  {}

  // ---- a writer's step, seen from the slots ---------------------------------

  function LocOf(s: State, a: string): Loc
    requires a in s.writers && Storing(s.writers[a].phase)
  {
    (s.writers[a].phase.i, Home(s.writers[a].job))
  }

  lemma OthersElsewhere(s: State, a: string, b: string)
    requires TableOk(s) && a in s.writers && b in s.writers && a != b
    requires Storing(s.writers[a].phase) && Storing(s.writers[b].phase)
    ensures LocOf(s, a) != LocOf(s, b)
  {
    assert WriterAt(s, a) && WriterAt(s, b);
    assert Ready(s, s.writers[a].phase.i, a) && Ready(s, s.writers[b].phase.i, b);
  }

  ghost predicate StoresOk(s: State) {
    LogOk(s) && SlotsOk(s) && WritersOk(s)
  }

  ghost predicate WriterStored(s: State, a: string)
    requires a in s.writers
  {
    Storing(s.writers[a].phase) ==> AtSlot(SlotAt(s, LocOf(s, a)), s.writers[a].job, s.writers[a].phase)
  }

  /** A step that leaves slots and log alone. */
  lemma SameSlots(s: State, t: State, a: string)
    requires TableOk(s) && StoresOk(s) && RowsExtend(s, t) && a in s.writers
    requires t.slots == s.slots && t.log == s.log && t.writers.Keys == s.writers.Keys
    requires forall b :: b in s.writers && b != a ==> t.writers[b] == s.writers[b]
    requires WriterStored(t, a)
    ensures StoresOk(t) && Extends(s, t)
  {
    assert forall loc: Loc :: SlotAt(t, loc) == SlotAt(s, loc);
    forall loc: Loc ensures SlotOk(t, loc) {
      assert SlotOk(s, loc);
    }
    forall b | b in t.writers ensures WriterStored(t, b) {
      if b != a {
        assert WriterStored(s, b);
      }
    }
  }

  /** A step of the writer at `loc` that may change that slot and log the version it leaves there. */
  lemma OneSlot(s: State, t: State, a: string)
    requires TableOk(s) && StoresOk(s) && a in s.writers && Storing(s.writers[a].phase) && OnlyMoved(s, t, a)
    requires forall l: Loc :: l != LocOf(s, a) ==> SlotAt(t, l) == SlotAt(s, l)
    requires forall key :: key in s.log ==> key in t.log && t.log[key] == s.log[key]
    requires var loc, job := LocOf(s, a), s.writers[a].job;
      && (forall key :: key in t.log && key !in s.log ==> key == (loc, SlotAt(t, loc).ver) && t.log[key] == job)
      && (t.log != s.log ==> SlotAt(t, loc).ver % 2 == 0 && SlotAt(t, loc).ver > 0)
      && SlotAt(s, loc).ver <= SlotAt(t, loc).ver && SlotOk(t, loc)
      && (SlotAt(t, loc).ver == SlotAt(s, loc).ver ==> SlotAt(t, loc).ver % 2 == 1)
    requires WriterStored(t, a)
    ensures StoresOk(t) && Extends(s, t)
  {
    var loc := LocOf(s, a);
    assert WriterAt(s, a) && Ready(s, loc.0, a);
    assert forall i: nat, b: string :: Ready(s, i, b) <==> Ready(t, i, b);
    forall l: Loc ensures SlotOk(t, l) {
      assert SlotOk(s, l);
    }
    forall b | b in t.writers ensures WriterStored(t, b) {
      if b != a && Storing(s.writers[b].phase) {
        assert WriterStored(s, b);
        OthersElsewhere(s, a, b);
      }
    }
  }

  lemma LockOfOdd(lock: nat, ver: nat)
    requires lock == ver % WRAP
    ensures Odd(lock) == Odd(ver) % WRAP && Odd(ver) % 2 == 1 && Odd(ver) >= ver
  {}

  lemma LockOfNext(lock: nat, ver: nat)
    requires lock == ver % WRAP
    ensures (lock + 1) % WRAP == (ver + 1) % WRAP
  {}

  lemma ShowsUnlocked(slot: Slot, job: Write, lock: nat, ver: nat)
    requires Shows(slot, job)
    ensures Shows(slot.(lock := lock, ver := ver), job)
  {}

  /** The facts a writer's step starts from. */
  lemma StoredAt(s: State, a: string)
    requires StoresOk(s) && a in s.writers && Storing(s.writers[a].phase)
    ensures SlotOk(s, LocOf(s, a)) && WriterStored(s, a)
  {}

  lemma MarkShape(s: State, a: string)
    requires |s.rows| == MAX_STREAMS && a in s.writers && s.writers[a].phase.Mark?
    ensures var t, loc, p, job := WriterMove(s, a), LocOf(s, a), s.writers[a].phase, s.writers[a].job;
      && t.log == s.log && t.writers[a].phase == Fields(p.i, p.writing, 0)
      && SlotAt(t, loc) == SlotAt(s, loc).(lock := p.writing, ver := Odd(SlotAt(s, loc).ver))
      && (forall l: Loc :: l != loc ==> SlotAt(t, l) == SlotAt(s, l))
  {}

  lemma MarkStep(s: State, a: string)
    requires TableOk(s) && StoresOk(s) && a in s.writers && s.writers[a].phase.Mark?
    ensures StoresOk(WriterMove(s, a)) && Extends(s, WriterMove(s, a))
  {
    assert |s.rows| == MAX_STREAMS;
    var t, loc := WriterMove(s, a), LocOf(s, a);
    hide WriterMove, StoresOk, TableOk, Extends, OnlyMoved;
    StoreShape(s, a);
    MarkShape(s, a);
    StoredAt(s, a);
    var slot := SlotAt(s, loc);
    LockOfOdd(slot.lock, slot.ver);
    OneSlot(s, t, a);
  }

  lemma FieldsShape(s: State, a: string)
    requires |s.rows| == MAX_STREAMS && a in s.writers && s.writers[a].phase.Fields?
    ensures var t, loc, p, job := WriterMove(s, a), LocOf(s, a), s.writers[a].phase, s.writers[a].job;
      && t.log == s.log
      && t.writers[a].phase == (if p.n >= 5 then Copy(p.i, p.writing, 0) else Fields(p.i, p.writing, p.n + 1))
      && SlotAt(t, loc) == (if p.n >= 5 then SlotAt(s, loc) else StoreField(SlotAt(s, loc), job, p.n))
      && (forall l: Loc :: l != loc ==> SlotAt(t, l) == SlotAt(s, l))
  {}

  lemma FieldsStep(s: State, a: string)
    requires TableOk(s) && StoresOk(s) && a in s.writers && s.writers[a].phase.Fields?
    ensures StoresOk(WriterMove(s, a)) && Extends(s, WriterMove(s, a))
  {
    assert |s.rows| == MAX_STREAMS;
    var t, loc := WriterMove(s, a), LocOf(s, a);
    hide WriterMove, StoresOk, TableOk, Extends, OnlyMoved;
    StoreShape(s, a);
    FieldsShape(s, a);
    StoredAt(s, a);
    OneSlot(s, t, a);
  }

  lemma CopyShape(s: State, a: string)
    requires |s.rows| == MAX_STREAMS && a in s.writers && s.writers[a].phase.Copy?
    ensures var t, loc, p, job := WriterMove(s, a), LocOf(s, a), s.writers[a].phase, s.writers[a].job;
      && t.log == s.log
      && t.writers[a].phase ==
        (if p.k >= |job.image.pixels| then Settle(p.i, p.writing) else Copy(p.i, p.writing, p.k + 1))
      && SlotAt(t, loc) == (if p.k >= |job.image.pixels| then SlotAt(s, loc)
                            else SlotAt(s, loc).(data := SlotAt(s, loc).data[p.k := job.image.pixels[p.k]]))
      && (forall l: Loc :: l != loc ==> SlotAt(t, l) == SlotAt(s, l))
  {}

  lemma CopyStep(s: State, a: string)
    requires TableOk(s) && StoresOk(s) && a in s.writers && s.writers[a].phase.Copy?
    ensures StoresOk(WriterMove(s, a)) && Extends(s, WriterMove(s, a))
  {
    assert |s.rows| == MAX_STREAMS;
    var t, loc := WriterMove(s, a), LocOf(s, a);
    hide WriterMove, StoresOk, TableOk, Extends, OnlyMoved;
    StoreShape(s, a);
    CopyShape(s, a);
    StoredAt(s, a);
    OneSlot(s, t, a);
  }

  lemma SettleShape(s: State, a: string)
    requires |s.rows| == MAX_STREAMS && a in s.writers && s.writers[a].phase.Settle?
    ensures var t, loc, p, job := WriterMove(s, a), LocOf(s, a), s.writers[a].phase, s.writers[a].job;
      && t.writers[a].phase == Latest(p.i)
      && SlotAt(t, loc) == SlotAt(s, loc).(lock := (p.writing + 1) % WRAP, ver := SlotAt(s, loc).ver + 1)
      && t.log == s.log[(loc, SlotAt(t, loc).ver) := job]
      && (forall l: Loc :: l != loc ==> SlotAt(t, l) == SlotAt(s, l))
  {}

  /** A stable slot backed by the log. */
  lemma SettledOk(t: State, loc: Loc, slot: Slot, job: Write)
    requires slot.lock == slot.ver % WRAP && slot.ver % 2 == 1 && Shows(slot, job)
    requires SlotAt(t, loc) == slot.(lock := (slot.lock + 1) % WRAP, ver := slot.ver + 1)
    requires (loc, slot.ver + 1) in t.log && t.log[(loc, slot.ver + 1)] == job
    ensures SlotOk(t, loc) && SlotAt(t, loc).ver % 2 == 0 && SlotAt(t, loc).ver > slot.ver
  {
    var u := slot.(lock := (slot.lock + 1) % WRAP, ver := slot.ver + 1);
    LockOfNext(slot.lock, slot.ver);
    ShowsUnlocked(slot, job, u.lock, u.ver);
    EvenAfter(slot.ver);
    assert SlotAt(t, loc) == u;
    hide Shows, SlotAt;
    StableSlot(t, loc, job);
  }

  lemma EvenAfter(ver: nat)
    requires ver % 2 == 1
    ensures (ver + 1) % 2 == 0
  {}

  lemma StableSlot(t: State, loc: Loc, job: Write)
    requires var u := SlotAt(t, loc);
      u.lock == u.ver % WRAP && u.ver > 0 && Shows(u, job) && (loc, u.ver) in t.log && t.log[(loc, u.ver)] == job
    ensures SlotOk(t, loc)
  {
    hide Shows, SlotAt;
  }

  lemma SettleStep(s: State, a: string)
    requires TableOk(s) && StoresOk(s) && a in s.writers && s.writers[a].phase.Settle?
    ensures StoresOk(WriterMove(s, a)) && Extends(s, WriterMove(s, a))
  {
    assert |s.rows| == MAX_STREAMS;
    var t, loc := WriterMove(s, a), LocOf(s, a);
    var slot, job := SlotAt(s, loc), s.writers[a].job;
    StoredAt(s, a);
    hide WriterMove, StoresOk, TableOk, Extends, OnlyMoved, Shows;
    StoreShape(s, a);
    SettleShape(s, a);
    SettledOk(t, loc, slot, job);
    OneSlot(s, t, a);
  }

  /** What the writer has stored when it is about to end its write. */
  lemma SettleStart(s: State, a: string)
    requires Inv(s) && a in s.writers && s.writers[a].phase.Settle?
    ensures |s.rows| == MAX_STREAMS
    ensures var slot, job, p := SlotAt(s, LocOf(s, a)), s.writers[a].job, s.writers[a].phase;
      slot.lock == p.writing && slot.lock == slot.ver % WRAP && slot.ver % 2 == 1 && Shows(slot, job)
  {
    assert |s.rows| == MAX_STREAMS;
    StoredAt(s, a);
    hide Shows;
  }

  /** The store that ends a write leaves its slot stable and showing the frame. */
  lemma SettleShows(s: State, a: string)
    requires Inv(s) && a in s.writers && s.writers[a].phase.Settle?
    ensures var t, loc, job := WriterMove(s, a), LocOf(s, a), s.writers[a].job;
      SlotAt(t, loc).lock % 2 == 0 && Shows(SlotAt(t, loc), job) && SlotAt(t, loc).ver == SlotAt(s, loc).ver + 1
  {
    SettleStart(s, a);
    hide Inv, WriterMove, Shows, SlotOk, WriterStored, SlotAt, LocOf;
    SettleShape(s, a);
    SettledSlot(SlotAt(s, LocOf(s, a)), s.writers[a].job);
  }

  lemma SettledSlot(slot: Slot, job: Write)
    requires slot.lock == slot.ver % WRAP && slot.ver % 2 == 1 && Shows(slot, job)
    ensures var u := slot.(lock := (slot.lock + 1) % WRAP, ver := slot.ver + 1); u.lock % 2 == 0 && Shows(u, job)
  {
    hide Shows;
    LockOfNext(slot.lock, slot.ver);
    EvenAfter(slot.ver);
    EvenWrapped(slot.ver + 1);
    ShowsUnlocked(slot, job, (slot.lock + 1) % WRAP, slot.ver + 1);
  }

  lemma EvenWrapped(ver: nat)
    requires ver % 2 == 0
    ensures (ver % WRAP) % 2 == 0
  {}

  lemma WriterKeepsInv(s: State, a: string)
    requires Inv(s) && a in s.writers
    ensures Inv(WriterMove(s, a)) && Extends(s, WriterMove(s, a))
  {
    var t := WriterMove(s, a);
    hide WriterMove, TableOk, LogOk, SlotsOk, WritersOk, ReadersOk, Extends;
    TableStep(s, a);
    match s.writers[a].phase {
      case Mark(i, writing) => MarkStep(s, a);
      case Fields(i, writing, n) => FieldsStep(s, a);
      case Copy(i, writing, k) => CopyStep(s, a);
      case Settle(i, writing) => SettleStep(s, a);
      case _ => QuietStep(s, a);
    }
    ReadersStay(s, t);
  }

  lemma QuietStep(s: State, a: string)
    requires TableOk(s) && StoresOk(s) && a in s.writers && RowsExtend(s, WriterMove(s, a))
    requires var p := s.writers[a].phase; !Storing(p) || p.Load? || p.Latest?
    ensures StoresOk(WriterMove(s, a)) && Extends(s, WriterMove(s, a))
  {
    QuietShape(s, a);
    hide WriterMove;
    SameSlots(s, WriterMove(s, a), a);
  }

  ghost predicate QuietTo(s: State, t: State, a: string)
    requires a in s.writers
  {
    && t.slots == s.slots && t.log == s.log && t.writers.Keys == s.writers.Keys
    && (forall b :: b in s.writers && b != a ==> t.writers[b] == s.writers[b])
    && WriterStored(t, a)
  }

  lemma QuietShape(s: State, a: string)
    requires |s.rows| == MAX_STREAMS && a in s.writers
    requires var p := s.writers[a].phase; !Storing(p) || p.Load? || p.Latest?
    ensures QuietTo(s, WriterMove(s, a), a)
  {
    var p := s.writers[a].phase;
    if p.Load? {
      LoadShape(s, a);
    } else if p.Latest? {
      LatestShape(s, a);
    } else if Reserving(p) {
      ReservingShape(s, a);
    } else if p.Scan? {
      ScanQuiet(s, a);
    } else {
      ClaimQuiet(s, a);
    }
  }

  lemma LoadShape(s: State, a: string)
    requires |s.rows| == MAX_STREAMS && a in s.writers && s.writers[a].phase.Load?
    ensures QuietTo(s, WriterMove(s, a), a)
  {}

  lemma LatestShape(s: State, a: string)
    requires |s.rows| == MAX_STREAMS && a in s.writers && s.writers[a].phase.Latest?
    ensures QuietTo(s, WriterMove(s, a), a)
  {}

  lemma ReservingShape(s: State, a: string)
    requires |s.rows| == MAX_STREAMS && a in s.writers && Reserving(s.writers[a].phase)
    ensures QuietTo(s, WriterMove(s, a), a)
  {}

  lemma ScanQuiet(s: State, a: string)
    requires |s.rows| == MAX_STREAMS && a in s.writers && s.writers[a].phase.Scan?
    ensures QuietTo(s, WriterMove(s, a), a)
  {}

  lemma ClaimQuiet(s: State, a: string)
    requires |s.rows| == MAX_STREAMS && a in s.writers && (s.writers[a].phase.Idle? || s.writers[a].phase.Claim?)
    ensures QuietTo(s, WriterMove(s, a), a)
  {}

  // ---- every step of every run ----------------------------------------------

  lemma NextKeepsInv(s: State, act: Action)
    requires Inv(s) && Enabled(s, act) && NoWrap(s)
    ensures Inv(Next(s, act)) && Extends(s, Next(s, act))
  {
    match act {
      case Submit(job) => SubmitKeepsInv(s, job);
      case WriterRuns(a) =>
        hide WriterMove, Inv, Extends;
        WriterKeepsInv(s, a);
      case Crash(a) => CrashKeepsInv(s, a);
      case Ask(r, kind, stream, fid) => AskKeepsInv(s, r, kind, stream, fid);
      case ReaderRuns(r, stray) => ReaderKeepsInv(s, r, stray);
    }
  }

  /** A step that only touches writers and leaves the moved one idle or at the start of its scan. */
  lemma FreshWriter(s: State, t: State, a: string)
    requires Inv(s) && t.rows == s.rows && t.slots == s.slots && t.log == s.log && t.readers == s.readers
    requires t.writers.Keys == s.writers.Keys + {a} && |a| <= ID_BYTES && t.writers[a].job.stream == a
    requires forall b :: b in s.writers && b != a ==> t.writers[b] == s.writers[b]
    requires t.writers[a].phase == Idle || (t.writers[a].phase == Scan(0) && Fits(t.writers[a].job.image))
    ensures Inv(t) && Extends(s, t)
  {
    assert forall loc: Loc :: SlotAt(t, loc) == SlotAt(s, loc);
    assert forall i: nat, b: string :: Ready(s, i, b) <==> Ready(t, i, b);
    forall b | b in t.writers ensures WriterAt(t, b) && WriterStored(t, b) {
      if b != a {
        assert WriterAt(s, b) && WriterStored(s, b);
        AtSameRows(s, t, b, s.writers[b].phase);
      }
    }
    forall b, c ensures !Clash(t, b, c) {
      assert !Clash(s, b, c);
    }
    forall loc: Loc ensures SlotOk(t, loc) {
      assert SlotOk(s, loc);
    }
    ReadersStay(s, t);
  }

  lemma SubmitKeepsInv(s: State, job: Write)
    requires Inv(s) && Enabled(s, Submit(job))
    ensures Inv(Next(s, Submit(job))) && Extends(s, Next(s, Submit(job)))
  {
    var t := Next(s, Submit(job));
    hide Inv, Extends;
    FreshWriter(s, t, job.stream);
  }

  lemma CrashKeepsInv(s: State, a: string)
    requires Inv(s) && a in s.writers
    ensures Inv(Next(s, Crash(a))) && Extends(s, Next(s, Crash(a)))
  {
    assert WriterAt(s, a);
    hide Inv, Extends;
    FreshWriter(s, Next(s, Crash(a)), a);
  }

  lemma OnlyReaders(s: State, t: State)
    requires Inv(s) && t == s.(readers := t.readers) && ReadersOk(t)
    ensures Inv(t) && Extends(s, t)
  {
    assert forall loc: Loc :: SlotAt(t, loc) == SlotAt(s, loc);
    assert forall i: nat, b: string :: Ready(s, i, b) <==> Ready(t, i, b);
    forall b | b in t.writers ensures WriterAt(t, b) && WriterStored(t, b) {
      assert WriterAt(s, b) && WriterStored(s, b);
      AtSameRows(s, t, b, s.writers[b].phase);
    }
    forall b, c ensures !Clash(t, b, c) {
      assert !Clash(s, b, c);
    }
    forall loc: Loc ensures SlotOk(t, loc) {
      assert SlotOk(s, loc);
    }
  }

  lemma ReaderElsewhere(s: State, t: State, r: Reader)
    requires t == s.(readers := t.readers)
    ensures ReaderOk(t, r) <==> ReaderOk(s, r)
  {
    assert forall loc: Loc :: SlotAt(t, loc) == SlotAt(s, loc);
    assert forall i: nat, b: string :: Ready(s, i, b) <==> Ready(t, i, b);
    if r.at.Done? && r.at.answer.Hit? {
      assert forall row: nat :: Truthful(s, r, row, r.at.answer) <==> Truthful(t, r, row, r.at.answer);
    }
  }

  lemma AskKeepsInv(s: State, r: nat, kind: Kind, stream: string, fid: nat)
    requires Inv(s)
    ensures var t := Next(s, Ask(r, kind, stream, fid)); Inv(t) && Extends(s, t)
  {
    var t := Next(s, Ask(r, kind, stream, fid));
    forall q | q in t.readers ensures ReaderOk(t, t.readers[q]) {
      ReaderElsewhere(s, t, t.readers[q]);
      if q != r {
        assert ReaderOk(s, s.readers[q]);
      }
    }
    hide Inv, Extends;
    OnlyReaders(s, t);
  }

  lemma ReaderKeepsInv(s: State, r: nat, stray: nat)
    requires Inv(s) && r in s.readers && NoWrap(s)
    ensures var t := Next(s, ReaderRuns(r, stray)); Inv(t) && Extends(s, t)
  {
    var t := Next(s, ReaderRuns(r, stray));
    assert ReaderOk(s, s.readers[r]);
    ReaderAdvances(s, s.readers[r], stray);
    hide Advance, ReaderOk;
    forall q | q in t.readers ensures ReaderOk(t, t.readers[q]) {
      ReaderElsewhere(s, t, t.readers[q]);
      if q != r {
        assert ReaderOk(s, s.readers[q]);
      }
    }
    hide Inv, Extends;
    OnlyReaders(s, t);
  }
}
