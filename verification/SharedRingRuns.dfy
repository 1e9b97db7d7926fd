/** Whole runs of the frame store: torn-read safety, registration, healing of abandoned slots. */
module SharedRingRuns {
  import opened SharedRing
  import opened SharedRingSafety

  /** A run: every action enabled, and never 2^31 writes to a slot during one read of it. */
  ghost predicate IsRun(states: seq<State>, acts: seq<Action>) {
    && |states| == |acts| + 1 && states[0] == Initial()
    && forall k :: 0 <= k < |acts| ==> Stepped(states[k], acts[k], states[k + 1])
  }

  ghost predicate Stepped(s: State, act: Action, t: State) {
    |s.rows| == MAX_STREAMS && Enabled(s, act) && NoWrap(s) && t == Next(s, act)
  }

  lemma InitialInv()
    ensures Inv(Initial())
  {
    var s := Initial();
    assert forall loc: Loc :: SlotAt(s, loc) == ZERO;
    assert forall i: nat, a: string :: !Ready(s, i, a);
  }

  lemma {:induction false} RunInv(states: seq<State>, acts: seq<Action>, k: nat)
    requires IsRun(states, acts) && k < |states|
    ensures Inv(states[k])
  {
    hide Inv, Next;
    if k == 0 {
      InitialInv();
    } else {
      RunInv(states, acts, k - 1);
      assert Stepped(states[k - 1], acts[k - 1], states[k]);
      NextKeepsInv(states[k - 1], acts[k - 1]);
    }
  }

  // ---- torn-read safety -----------------------------------------------------

  /** Some completed `writeFrame` of this stream and id stored exactly this image. */
  ghost predicate WasWritten(s: State, stream: string, fid: nat, w: nat, h: nat, pixels: seq<nat>) {
    exists loc: Loc, v: nat :: (loc, v) in s.log
      && s.log[(loc, v)].stream == stream && s.log[(loc, v)].fid == fid
      && s.log[(loc, v)].image.w == w && s.log[(loc, v)].image.h == h && s.log[(loc, v)].image.pixels == pixels
  }

  /** In every run, what a reader returns was written whole, for its stream and its id: id, sizes
      and pixels all come from one completed write. A C++ reader asking for frame 0 of a slot that
      was never written is the only one that may return something else, an empty image. */
  lemma HitsAreWhole(states: seq<State>, acts: seq<Action>, k: nat, r: nat)
    requires IsRun(states, acts) && k < |states|
    requires r in states[k].readers && states[k].readers[r].at.Done? && states[k].readers[r].at.answer.Hit?
    ensures var reader, hit := states[k].readers[r], states[k].readers[r].at.answer;
      || WasWritten(states[k], reader.stream, reader.fid, hit.w, hit.h, hit.pixels)
      || (reader.kind == Cpp && reader.fid == 0 && hit == Hit(0, 0, [], 0))
  {
    hide Next;
    RunInv(states, acts, k);
    var s, reader := states[k], states[k].readers[r];
    assert ReaderOk(s, reader);
    var row: nat :| Truthful(s, reader, row, reader.at.answer);
    var loc: Loc := (row, Index(reader.fid));
    if reader.at.answer.ver != 0 {
      assert (loc, reader.at.answer.ver) in s.log;
    }
  }

  lemma {:induction false} Extended(states: seq<State>, acts: seq<Action>, j: nat, k: nat)
    requires IsRun(states, acts) && j <= k < |states|
    ensures Extends(states[j], states[k])
    decreases k
  {
    hide Inv, Next, Extends;
    RunInv(states, acts, j);
    if j == k {
      ExtendsSelf(states[j]);
    } else {
      Extended(states, acts, j, k - 1);
      RunInv(states, acts, k - 1);
      assert Stepped(states[k - 1], acts[k - 1], states[k]);
      NextKeepsInv(states[k - 1], acts[k - 1]);
      ExtendsTransitive(states[j], states[k - 1], states[k]);
    }
  }

  lemma ExtendsSelf(s: State)
    ensures Extends(s, s)
  {}

  lemma ExtendsTransitive(s: State, t: State, u: State)
    requires Extends(s, t) && Extends(t, u)
    ensures Extends(s, u)
  {
    forall loc: Loc | SlotAt(u, loc).ver == SlotAt(s, loc).ver && SlotAt(s, loc).ver % 2 == 0
      ensures SlotAt(u, loc) == SlotAt(s, loc)
    {
      assert SlotAt(s, loc).ver <= SlotAt(t, loc).ver <= SlotAt(u, loc).ver;
    }
  }

  // ---- registration ---------------------------------------------------------

  /** Along any run: a row's state only grows, a published id never changes, two ready rows never
      carry the same id, and no two streams hold the same row. */
  lemma RowsAreStable(states: seq<State>, acts: seq<Action>, j: nat, k: nat)
    requires IsRun(states, acts) && j <= k < |states|
    ensures |states[j].rows| == |states[k].rows| == 16
    ensures forall i :: 0 <= i < 16 ==> states[j].rows[i].state <= states[k].rows[i].state <= 2
    ensures forall i :: 0 <= i < 16 && states[j].rows[i].state == 2 ==>
      states[k].rows[i].id == states[j].rows[i].id
    ensures forall i, l ::
      (0 <= i < l < 16 && states[k].rows[i].state == 2 && states[k].rows[l].state == 2) ==>
      states[k].rows[i].id != states[k].rows[l].id
    ensures forall a, b :: (a in states[k].writers && b in states[k].writers && a != b
                            && HoldsRow(states[k].writers[a].phase) && HoldsRow(states[k].writers[b].phase)) ==>
      states[k].writers[a].phase.i != states[k].writers[b].phase.i
  {
    hide Next;
    Extended(states, acts, j, k);
    RunInv(states, acts, j);
    RunInv(states, acts, k);
    var s, t := states[j], states[k];
    forall i | 0 <= i < MAX_STREAMS && s.rows[i].state == 2 ensures t.rows[i].id == s.rows[i].id {
      assert Ready(s, i, s.rows[i].id);
    }
    forall i, l | 0 <= i < l < MAX_STREAMS && t.rows[i].state == 2 && t.rows[l].state == 2
      ensures t.rows[i].id != t.rows[l].id
    {
      assert Ready(t, i, t.rows[i].id) && Ready(t, l, t.rows[l].id);
    }
    forall a, b | a in t.writers && b in t.writers && a != b && HoldsRow(t.writers[a].phase)
      && HoldsRow(t.writers[b].phase)
      ensures t.writers[a].phase.i != t.writers[b].phase.i
    {
      OwnRows(t, a, b);
    }
  }

  predicate HoldsRow(p: Phase) { Reserving(p) || Storing(p) }

  lemma OwnRows(s: State, a: string, b: string)
    requires TableOk(s) && a in s.writers && b in s.writers && a != b
    requires HoldsRow(s.writers[a].phase) && HoldsRow(s.writers[b].phase)
    ensures s.writers[a].phase.i != s.writers[b].phase.i
  {
    assert WriterAt(s, a) && WriterAt(s, b) && !Clash(s, a, b);
    if Storing(s.writers[a].phase) {
      assert Ready(s, s.writers[a].phase.i, a);
    }
    if Storing(s.writers[b].phase) {
      assert Ready(s, s.writers[b].phase.i, b);
    }
  }

  /** A writer that gives up registering has found every row claimed, and none of them its own. */
  lemma GivesUpOnlyWhenFull(s: State, a: string)
    requires Inv(s) && a in s.writers && s.writers[a].phase.Claim? && WriterMove(s, a).writers[a].phase == Idle
    ensures forall i :: 0 <= i < MAX_STREAMS ==> s.rows[i].state != 0 && !(s.rows[i].state == 2 && s.rows[i].id == a)
  {
    assert WriterAt(s, a);
    forall i | 0 <= i < MAX_STREAMS ensures s.rows[i].state != 0 && !(s.rows[i].state == 2 && s.rows[i].id == a) {
      assert !Ready(s, i, a);
    }
  }

  // ---- an undisturbed write -------------------------------------------------

  function Moves(s: State, a: string, n: nat): (t: State)
    requires a in s.writers && |s.rows| == MAX_STREAMS
    ensures |t.rows| == MAX_STREAMS && a in t.writers
    decreases n
  {
    if n == 0 then s else Moves(WriterMove(s, a), a, n - 1)
  }

  /** Accesses left until the lock word is stored even. */
  function Left(w: Writer): nat
    requires Storing(w.phase) && !w.phase.Latest?
  {
    var size := |w.job.image.pixels|;
    match w.phase
    case Load(i) => size + 9
    case Mark(i, writing) => size + 8
    case Fields(i, writing, n) => if n >= 5 then size + 2 else size + 7 - n
    case Copy(i, writing, k) => if k >= size then 1 else size - k + 1
    case _ => 0
  }

  lemma OneLess(s: State, a: string)
    requires a in s.writers && |s.rows| == MAX_STREAMS
    requires var p := s.writers[a].phase; Storing(p) && !p.Latest? && !p.Settle?
    ensures var t := WriterMove(s, a);
      && OnlyMoved(s, t, a) && Storing(t.writers[a].phase) && !t.writers[a].phase.Latest?
      && Left(t.writers[a]) < Left(s.writers[a]) && LocOf(t, a) == LocOf(s, a)
  {
    StoreShape(s, a);
  }

  /** The writer has its row and has not yet stored the even lock word. */
  ghost predicate UnderWay(s: State, a: string) {
    a in s.writers && Storing(s.writers[a].phase) && !s.writers[a].phase.Latest?
  }

  /** Nothing differs but the writer of `a`, one row, and one slot of that row. */
  ghost predicate OnlyAt(s: State, t: State, a: string, loc: Loc) {
    && |t.rows| == |s.rows| && t.readers == s.readers && t.writers.Keys == s.writers.Keys
    && (forall b :: b in s.writers && b != a ==> t.writers[b] == s.writers[b])
    && (forall i :: 0 <= i < |s.rows| && i != loc.0 ==> t.rows[i] == s.rows[i])
    && (forall l: Loc :: l != loc ==> SlotAt(t, l) == SlotAt(s, l))
  }

  /** A writer at its slot touches nothing else. */
  lemma StoresOnlyThere(s: State, a: string)
    requires |s.rows| == MAX_STREAMS && UnderWay(s, a)
    ensures OnlyAt(s, WriterMove(s, a), a, LocOf(s, a)) && WriterMove(s, a).rows == s.rows
  {
    hide WriterMove, LocOf;
    StoreShape(s, a);
    match s.writers[a].phase {
      case Load(i) => LoadShape(s, a);
      case Mark(i, writing) => MarkShape(s, a);
      case Fields(i, writing, n) => FieldsShape(s, a);
      case Copy(i, writing, k) => CopyShape(s, a);
      case Settle(i, writing) => SettleShape(s, a);
    }
  }

  lemma OnlyAtTransitive(s: State, t: State, u: State, a: string, loc: Loc)
    requires OnlyAt(s, t, a, loc) && OnlyAt(t, u, a, loc)
    ensures OnlyAt(s, u, a, loc)
  {
    hide SlotAt;
    forall l: Loc | l != loc ensures SlotAt(u, l) == SlotAt(s, l) {
      assert SlotAt(t, l) == SlotAt(s, l);
    }
  }

  lemma OnlyAtSelf(s: State, a: string, loc: Loc)
    ensures OnlyAt(s, s, a, loc)
  {}

  lemma {:induction false} ReachesSettle(s: State, a: string) returns (n: nat)
    requires Inv(s) && a in s.writers && Storing(s.writers[a].phase) && !s.writers[a].phase.Latest?
    ensures var t := Moves(s, a, n);
      && Inv(t) && t.writers[a].phase.Settle? && t.writers[a].job == s.writers[a].job && LocOf(t, a) == LocOf(s, a)
      && t.rows == s.rows && OnlyAt(s, t, a, LocOf(s, a))
    decreases Left(s.writers[a])
  {
    assert |s.rows| == MAX_STREAMS;
    hide OnlyAt;
    if s.writers[a].phase.Settle? {
      n := 0;
      OnlyAtSelf(s, a, LocOf(s, a));
    } else {
      OneLess(s, a);
      WriterKeepsInv(s, a);
      StoresOnlyThere(s, a);
      hide WriterMove, Inv;
      n := ReachesSettle(WriterMove(s, a), a);
      n := n + 1;
      OnlyAtTransitive(s, WriterMove(s, a), Moves(s, a, n), a, LocOf(s, a));
    }
  }

  /** Whatever state a slot was left in, odd by a crash included, the next write that runs to its
      end leaves it stable and showing exactly that frame. */
  lemma WriteHeals(s: State, a: string) returns (n: nat)
    requires Inv(s) && a in s.writers && s.writers[a].phase.Load?
    ensures var t, loc, job := Moves(s, a, n), LocOf(s, a), s.writers[a].job;
      SlotAt(t, loc).lock % 2 == 0 && Shows(SlotAt(t, loc), job) && SlotAt(t, loc).ver > SlotAt(s, loc).ver
  {
    assert |s.rows| == MAX_STREAMS;
    hide Inv, WriterMove, Moves, Shows, Extends;
    n := ReachesSettle(s, a);
    MovesExtend(s, a, n);
    VersionGrows(s, Moves(s, a, n), LocOf(s, a));
    SettleShows(Moves(s, a, n), a);
    MovesOneMore(s, a, n);
    n := n + 1;
  }

  lemma VersionGrows(s: State, t: State, loc: Loc)
    requires Extends(s, t)
    ensures SlotAt(s, loc).ver <= SlotAt(t, loc).ver
  {}

  lemma {:induction false} MovesOneMore(s: State, a: string, n: nat)
    requires a in s.writers && |s.rows| == MAX_STREAMS
    ensures Moves(s, a, n + 1) == WriterMove(Moves(s, a, n), a)
    decreases n
  {
    hide WriterMove;
    if n > 0 {
      MovesOneMore(WriterMove(s, a), a, n - 1);
    }
  }

  lemma {:induction false} MovesExtend(s: State, a: string, n: nat)
    requires Inv(s) && a in s.writers
    ensures |s.rows| == MAX_STREAMS && Extends(s, Moves(s, a, n))
    decreases n
  {
    assert |s.rows| == MAX_STREAMS;
    hide WriterMove, Inv, Extends;
    if n == 0 {
      ExtendsSelf(s);
    } else {
      WriterKeepsInv(s, a);
      MovesExtend(WriterMove(s, a), a, n - 1);
      ExtendsTransitive(s, WriterMove(s, a), Moves(s, a, n));
    }
  }

  // ---- a write among other steps --------------------------------------------

  lemma OthersUnmoved(s: State, a: string, b: string)
    requires |s.rows| == MAX_STREAMS && a in s.writers && b in s.writers && a != b
    ensures a in WriterMove(s, b).writers && WriterMove(s, b).writers[a] == s.writers[a]
  {
    if Storing(s.writers[b].phase) && !s.writers[b].phase.Latest? {
      StoreShape(s, b);
    }
  }

  lemma SameWrite(s: State, act: Action, a: string)
    requires |s.rows| == MAX_STREAMS && Enabled(s, act) && UnderWay(s, a) && UnderWay(Next(s, act), a)
    ensures Next(s, act).writers[a].job == s.writers[a].job && LocOf(Next(s, act), a) == LocOf(s, a)
  {
    match act {
      case WriterRuns(b) =>
        if b == a {
          StoreShape(s, a);
        } else {
          hide WriterMove;
          OthersUnmoved(s, a, b);
        }
      case _ =>
    }
  }

  lemma {:induction false} SameWriteThrough(states: seq<State>, acts: seq<Action>, j: nat, k: nat, a: string)
    requires IsRun(states, acts) && j <= k < |states| && UnderWay(states[j], a) && UnderWay(states[k], a)
    requires forall m :: j <= m <= k ==> UnderWay(states[m], a)
    ensures states[k].writers[a].job == states[j].writers[a].job && LocOf(states[k], a) == LocOf(states[j], a)
    decreases k
  {
    hide Next, LocOf;
    if j < k {
      SameWriteThrough(states, acts, j, k - 1, a);
      assert Stepped(states[k - 1], acts[k - 1], states[k]);
      SameWrite(states[k - 1], acts[k - 1], a);
    }
  }

  /** In any run, among any steps of other writers and of readers: the store that ends a write leaves
      its slot stable and showing exactly the frame of that write, whatever the slot was like when the
      write began, odd from a crash included. */
  lemma FinishedWriteHeals(states: seq<State>, acts: seq<Action>, j: nat, k: nat, a: string)
    requires IsRun(states, acts) && j <= k < |acts| && UnderWay(states[j], a) && UnderWay(states[k], a)
    requires forall m :: j <= m <= k ==> UnderWay(states[m], a)
    requires acts[k] == WriterRuns(a) && states[k].writers[a].phase.Settle?
    ensures var loc, job := LocOf(states[j], a), states[j].writers[a].job;
      && SlotAt(states[k + 1], loc).lock % 2 == 0 && Shows(SlotAt(states[k + 1], loc), job)
      && SlotAt(states[k + 1], loc).ver > SlotAt(states[j], loc).ver
  {
    hide Inv, WriterMove, Shows, Extends, LocOf;
    SameWriteThrough(states, acts, j, k, a);
    RunInv(states, acts, k);
    assert Stepped(states[k], acts[k], states[k + 1]);
    SettleShows(states[k], a);
    Extended(states, acts, j, k);
    VersionGrows(states[j], states[k], LocOf(states[j], a));
  }

  // ---- an undisturbed read --------------------------------------------------

  /** A reader running alone for `n` accesses. */
  function Quiet(s: State, r: Reader, n: nat): Reader
    requires |s.rows| == MAX_STREAMS
    decreases n
  {
    if n == 0 then r else Quiet(s, r.(at := Advance(s, r, 0)), n - 1)
  }

  function Snapshot(slot: Slot, n: nat): (r: seq<nat>)
    ensures |r| == n && forall k :: 0 <= k < n ==> r[k] == ByteAt(slot, k)
  {
    seq(n, k requires 0 <= k < n => ByteAt(slot, k))
  }

  lemma {:induction false} QuietCopy(s: State, r: Reader) returns (n: nat)
    requires |s.rows| == MAX_STREAMS && r.at.Read? && r.at.n == 4
    requires var slot := SlotAt(s, (r.at.row, Index(r.fid)));
      && r.at.w == slot.w && r.at.h == slot.h && r.at.got == slot.fid && r.at.lock1 == slot.lock
      && slot.w * slot.h * 3 <= SLOT_BYTES
      && |r.at.bytes| <= slot.w * slot.h * 3 && r.at.bytes == Snapshot(slot, |r.at.bytes|)
    ensures var slot := SlotAt(s, (r.at.row, Index(r.fid)));
      Quiet(s, r, n).at == Done(if slot.fid != r.fid then Miss
                                else Hit(slot.w, slot.h, Snapshot(slot, slot.w * slot.h * 3), r.at.v))
    decreases r.at.w * r.at.h * 3 - |r.at.bytes|
  {
    var slot := SlotAt(s, (r.at.row, Index(r.fid)));
    var next := r.(at := Advance(s, r, 0));
    if |r.at.bytes| < r.at.w * r.at.h * 3 {
      assert next.at.bytes == Snapshot(slot, |r.at.bytes| + 1);
      n := QuietCopy(s, next);
      n := n + 1;
    } else {
      n := 1;
      assert Quiet(s, r, 1) == Quiet(s, next, 0);
    }
  }

  /** A reader that polls a stable slot of sane size and runs undisturbed gets its frame if the slot
      holds that id, and nothing otherwise. */
  lemma QuietRead(s: State, r: Reader, row: nat) returns (n: nat)
    requires |s.rows| == MAX_STREAMS && r.at == Poll(row, 0)
    requires var slot := SlotAt(s, (row, Index(r.fid)));
      && slot.lock % 2 == 0 && slot.w * slot.h * 3 <= SLOT_BYTES
      && (r.kind == Python ==> Plausible(slot.w, slot.h, slot.c))
    ensures var slot := SlotAt(s, (row, Index(r.fid)));
      Quiet(s, r, n).at == Done(if slot.fid != r.fid then Miss
                                else Hit(slot.w, slot.h, Snapshot(slot, slot.w * slot.h * 3), slot.ver))
  {
    var r1 := r.(at := Advance(s, r, 0));
    var r2 := r1.(at := Advance(s, r1, 0));
    var r3 := r2.(at := Advance(s, r2, 0));
    var r4 := r3.(at := Advance(s, r3, 0));
    if r.kind == Cpp {
      n := QuietCopy(s, r4);
      FourMore(s, r, n);
      n := n + 4;
    } else {
      var r5 := r4.(at := Advance(s, r4, 0));
      n := QuietCopy(s, r5);
      FourMore(s, r, n + 1);
      n := n + 5;
    }
  }

  lemma FourMore(s: State, r: Reader, n: nat)
    requires |s.rows| == MAX_STREAMS
    ensures var r1 := r.(at := Advance(s, r, 0));
      var r2 := r1.(at := Advance(s, r1, 0));
      var r3 := r2.(at := Advance(s, r2, 0));
      Quiet(s, r, n + 4) == Quiet(s, r3.(at := Advance(s, r3, 0)), n)
  {
    hide Advance;
    var r1 := r.(at := Advance(s, r, 0));
    var r2 := r1.(at := Advance(s, r1, 0));
    assert Quiet(s, r, n + 4) == Quiet(s, r1, n + 3);
    assert Quiet(s, r1, n + 3) == Quiet(s, r2, n + 2);
  }

  /** The exception of `HitsAreWhole` is real: on a row where nothing was written at index 0, the C++
      reader answers a request for frame 0 with an empty image, the Python reader with nothing. */
  lemma NeverWrittenFrameZero(s: State, r: Reader, row: nat) returns (n: nat)
    requires |s.rows| == MAX_STREAMS && r.at == Poll(row, 0) && r.fid == 0 && SlotAt(s, (row, 0)) == ZERO
    ensures Quiet(s, r, n).at == Done(if r.kind == Cpp then Hit(0, 0, [], 0) else Miss)
  {
    if r.kind == Cpp {
      n := QuietRead(s, r, row);
      assert Snapshot(ZERO, 0) == [];
    } else {
      n := PythonGivesUp(s, r, row, 0);
    }
  }

  /** The Python reader gives up on a stable slot whose sizes make no image. */
  lemma {:induction false} PythonGivesUp(s: State, r: Reader, row: nat, t: nat) returns (n: nat)
    requires |s.rows| == MAX_STREAMS && r.kind == Python && r.at == Poll(row, t) && t <= 6
    requires var slot := SlotAt(s, (row, Index(r.fid))); slot.lock % 2 == 0 && !Plausible(slot.w, slot.h, slot.c)
    ensures Quiet(s, r, n).at == Done(Miss)
    decreases 6 - t
  {
    var r1 := r.(at := Advance(s, r, 0));
    if t == 6 {
      n := 1;
      assert Quiet(s, r, 1) == Quiet(s, r1, 0);
    } else {
      var r2 := r1.(at := Advance(s, r1, 0));
      var r3 := r2.(at := Advance(s, r2, 0));
      var r4 := r3.(at := Advance(s, r3, 0));
      var r5 := r4.(at := Advance(s, r4, 0));
      n := PythonGivesUp(s, r5, row, t + 1);
      FourMore(s, r, n + 1);
      n := n + 5;
    }
  }
}
