/** What a whole undisturbed call of `getFrame` or `get_frame` answers, from finding the row to the image. */
module SharedRingCalls {
  import opened SharedRing
  import opened SharedRingSafety
  import opened SharedRingRuns

  lemma {:induction false} QuietAdds(s: State, r: Reader, m: nat, n: nat)
    requires |s.rows| == MAX_STREAMS
    ensures Quiet(s, r, m + n) == Quiet(s, Quiet(s, r, m), n)
    decreases m
  {
    hide Advance;
    if m > 0 {
      QuietAdds(s, r.(at := Advance(s, r, 0)), m - 1, n);
    }
  }

  lemma {:induction false} QuietSame(s: State, r: Reader, n: nat)
    requires |s.rows| == MAX_STREAMS
    ensures Quiet(s, r, n) == r.(at := Quiet(s, r, n).at)
    decreases n
  {
    hide Advance;
    if n > 0 {
      QuietSame(s, r.(at := Advance(s, r, 0)), n - 1);
    }
  }

  /** The row a search from the first row finds. */
  ghost predicate FirstReady(s: State, a: string, row: nat) {
    Ready(s, row, a) && forall i: nat :: i < row ==> !Ready(s, i, a)
  }

  /** A search finds the stream's first ready row, and polls it. */
  lemma {:induction false} QuietFind(s: State, r: Reader, row: nat) returns (n: nat)
    requires |s.rows| == MAX_STREAMS && r.at.Find? && r.at.i <= row && FirstReady(s, r.stream, row)
    ensures Quiet(s, r, n) == r.(at := Poll(row, 0))
    decreases row - r.at.i
  {
    var next := r.(at := Advance(s, r, 0));
    if r.at.i == row {
      assert Ready(s, row, r.stream);
      n := 1;
      assert Quiet(s, r, 1) == Quiet(s, next, 0);
    } else {
      assert !Ready(s, r.at.i, r.stream);
      n := QuietFind(s, next, row);
      n := n + 1;
    }
  }

  /** Without a ready row of the stream, a search ends in a miss. */
  lemma {:induction false} QuietUnknown(s: State, r: Reader) returns (n: nat)
    requires |s.rows| == MAX_STREAMS && r.at.Find? && r.at.i <= MAX_STREAMS && NoneReady(s, MAX_STREAMS, r.stream)
    ensures Quiet(s, r, n).at == Done(Miss)
    decreases MAX_STREAMS - r.at.i
  {
    var next := r.(at := Advance(s, r, 0));
    if r.at.i == MAX_STREAMS {
      n := 1;
      assert Quiet(s, r, 1) == Quiet(s, next, 0);
    } else {
      assert !Ready(s, r.at.i, r.stream);
      n := QuietUnknown(s, next);
      n := n + 1;
    }
  }

  /** A slot left odd is polled as often as the reader tries, then given up. */
  lemma {:induction false} QuietOdd(s: State, r: Reader) returns (n: nat)
    requires |s.rows| == MAX_STREAMS && r.at.Poll? && r.at.t <= Tries(r.kind)
    requires SlotAt(s, (r.at.row, Index(r.fid))).lock % 2 == 1
    ensures Quiet(s, r, n).at == Done(Miss)
    decreases Tries(r.kind) - r.at.t
  {
    var next := r.(at := Advance(s, r, 0));
    if r.at.t == Tries(r.kind) {
      n := 1;
      assert Quiet(s, r, 1) == Quiet(s, next, 0);
    } else {
      n := QuietOdd(s, next);
      n := n + 1;
    }
  }

  /** How long it waits for a writer: C++ looks at the lock word four times, Python six times. */
  lemma {:induction false} PollsOn(s: State, r: Reader, k: nat)
    requires |s.rows| == MAX_STREAMS && r.at.Poll? && r.at.t + k <= (if r.kind == Cpp then 4 else 6)
    requires SlotAt(s, (r.at.row, Index(r.fid))).lock % 2 == 1
    ensures Quiet(s, r, k).at == Poll(r.at.row, r.at.t + k)
    ensures r.at.t + k == (if r.kind == Cpp then 4 else 6) ==> Quiet(s, r, k + 1).at == Done(Miss)
    decreases k
  {
    var next := r.(at := Advance(s, r, 0));
    if k > 0 {
      PollsOn(s, next, k - 1);
    } else {
      assert Quiet(s, r, 1) == Quiet(s, next, 0);
    }
  }

  /** What an undisturbed call answers: the frame the slot shows, if it is the one asked for. Python
      takes no empty image. */
  ghost function Expected(slot: Slot, r: Reader): Answer {
    if slot.lock % 2 == 1 || slot.fid != r.fid then Miss
    else if r.kind == Python && !(0 < slot.w && 0 < slot.h && slot.c == 3) then Miss
    else Hit(slot.w, slot.h, Snapshot(slot, slot.w * slot.h * 3), slot.ver)
  }

  /** A call that starts when nobody is writing to the slot it wants, and is not disturbed. */
  lemma QuietCall(s: State, r: Reader, row: nat) returns (n: nat)
    requires |s.rows| == MAX_STREAMS && r.at == Find(0) && FirstReady(s, r.stream, row)
    requires var slot := SlotAt(s, (row, Index(r.fid))); slot.lock % 2 == 0 ==> slot.w * slot.h * 3 <= SLOT_BYTES
    ensures Quiet(s, r, n).at == Done(Expected(SlotAt(s, (row, Index(r.fid))), r))
  {
    hide Advance, Quiet, Snapshot, FirstReady;
    var m := QuietFind(s, r, row);
    var p, slot := r.(at := Poll(row, 0)), SlotAt(s, (row, Index(r.fid)));
    if slot.lock % 2 == 1 {
      n := QuietOdd(s, p);
    } else if r.kind == Python && !Plausible(slot.w, slot.h, slot.c) {
      n := PythonGivesUp(s, p, row, 0);
    } else {
      n := QuietRead(s, p, row);
    }
    QuietAdds(s, r, m, n);
    n := m + n;
  }

  // ---- in any reachable state -----------------------------------------------

  /** What a reader gets out of a completed write. */
  ghost function Fetched(job: Write, r: Reader, ver: nat): Answer {
    if job.fid != r.fid || (r.kind == Python && (job.image.w == 0 || job.image.h == 0)) then Miss
    else Hit(job.image.w, job.image.h, job.image.pixels, ver)
  }

  lemma ShownIsFetched(slot: Slot, r: Reader, job: Write)
    requires Shows(slot, job) && Fits(job.image) && slot.lock % 2 == 0
    ensures slot.w * slot.h * 3 <= SLOT_BYTES && Expected(slot, r) == Fetched(job, r, slot.ver)
  {
    assert Snapshot(slot, slot.w * slot.h * 3) == job.image.pixels;
  }

  lemma OddIsMissed(slot: Slot, r: Reader)
    ensures slot.lock % 2 == 1 ==> Expected(slot, r) == Miss
  {}

  lemma ZeroIsExpected(r: Reader)
    ensures Expected(ZERO, r) == if r.kind == Cpp && r.fid == 0 then Hit(0, 0, [], 0) else Miss
  {
    assert Snapshot(ZERO, 0) == [];
  }

  lemma ReadyIsFirst(s: State, row: nat, a: string)
    requires TableOk(s) && Ready(s, row, a)
    ensures FirstReady(s, a, row)
  {}

  lemma SlotFacts(s: State, loc: Loc)
    requires Inv(s)
    ensures var slot := SlotAt(s, loc);
      && (slot.lock % 2 == 1 <==> slot.ver % 2 == 1)
      && (slot.ver == 0 ==> slot == ZERO)
      && (slot.ver > 0 && slot.ver % 2 == 0 ==>
            (loc, slot.ver) in s.log && Shows(slot, s.log[(loc, slot.ver)]) && Fits(s.log[(loc, slot.ver)].image))
  {
    assert SlotOk(s, loc);
  }

  /** In any reachable state, an undisturbed call for a registered stream answers exactly with the last
      completed write of the slot, if nobody has left the slot half written and that write was of the
      frame asked for. Otherwise it misses, but for the empty frame 0 that C++ takes from a slot never
      written. */
  lemma CallAnswers(states: seq<State>, acts: seq<Action>, k: nat, r: Reader, row: nat) returns (n: nat)
    requires IsRun(states, acts) && k < |states| && r.at == Find(0) && Ready(states[k], row, r.stream)
    ensures var s, loc := states[k], (row, Index(r.fid));
      var ver := SlotAt(s, loc).ver;
      && |s.rows| == MAX_STREAMS
      && (ver % 2 == 1 ==> Quiet(s, r, n).at == Done(Miss))
      && (ver == 0 ==> Quiet(s, r, n).at == Done(if r.kind == Cpp && r.fid == 0 then Hit(0, 0, [], 0) else Miss))
      && (ver > 0 && ver % 2 == 0 ==>
            (loc, ver) in s.log && Quiet(s, r, n).at == Done(Fetched(s.log[(loc, ver)], r, ver)))
  {
    RunInv(states, acts, k);
    var s, loc: Loc := states[k], (row, Index(r.fid));
    var slot := SlotAt(s, loc);
    SlotFacts(s, loc);
    ReadyIsFirst(s, row, r.stream);
    assert |s.rows| == MAX_STREAMS;
    ZeroIsExpected(r);
    OddIsMissed(slot, r);
    if slot.ver > 0 && slot.ver % 2 == 0 {
      ShownIsFetched(slot, r, s.log[(loc, slot.ver)]);
    }
    hide Inv, Shows, Expected, Quiet, Snapshot, FirstReady;
    n := QuietCall(s, r, row);
  }

  // ---- the newest frame of a stream -----------------------------------------

  ghost predicate Completed(s: State, row: nat, fid: nat) {
    exists i: nat, v: nat :: ((row, i), v) in s.log && s.log[((row, i), v)].fid == fid
  }

  /** A row names a frame only once its write is complete, and a writer is about to name its own. */
  ghost predicate LatestOk(s: State) {
    && (forall i :: 0 <= i < |s.rows| ==> s.rows[i].latest == 0 || Completed(s, i, s.rows[i].latest))
    && (forall a :: a in s.writers && s.writers[a].phase.Latest? ==>
          Completed(s, s.writers[a].phase.i, s.writers[a].job.fid))
  }

  lemma CompletedStays(s: State, t: State, row: nat, fid: nat)
    requires Completed(s, row, fid) && forall key :: key in s.log ==> key in t.log && t.log[key] == s.log[key]
    ensures Completed(t, row, fid)
  {
    var i: nat, v: nat :| ((row, i), v) in s.log && s.log[((row, i), v)].fid == fid;
    assert ((row, i), v) in t.log;
  }

  lemma LogGrows(s: State, t: State)
    requires Extends(s, t)
    ensures forall key :: key in s.log ==> key in t.log && t.log[key] == s.log[key]
  {}

  lemma NamedAfter(s: State, b: string)
    requires |s.rows| == MAX_STREAMS && b in s.writers
    ensures var w := s.writers[b];
      forall i :: 0 <= i < |s.rows| ==>
        WriterMove(s, b).rows[i].latest == if w.phase == Latest(i) then w.job.fid else s.rows[i].latest
  {
    if Storing(s.writers[b].phase) && !s.writers[b].phase.Latest? {
      StoreShape(s, b);
    }
  }

  /** Only the store that ends a write leads on to naming its frame. */
  lemma AboutToName(s: State, b: string)
    requires |s.rows| == MAX_STREAMS && b in s.writers && WriterMove(s, b).writers[b].phase.Latest?
    ensures s.writers[b].phase.Settle? || s.writers[b].phase.Latest?
  {
    hide SlotAt, StoreField, Stored;
  }

  lemma NamesItsOwn(s: State, b: string)
    requires |s.rows| == MAX_STREAMS && b in s.writers && s.writers[b].phase.Settle?
    ensures var t, w := WriterMove(s, b), s.writers[b];
      t.writers[b] == Writer(Latest(w.phase.i), w.job) && Completed(t, w.phase.i, w.job.fid)
  {
    var t, w := WriterMove(s, b), s.writers[b];
    SettleShape(s, b);
    StoreShape(s, b);
    var loc := LocOf(s, b);
    assert t.log[(loc, SlotAt(t, loc).ver)] == w.job;
  }

  lemma WriterKeepsLatest(s: State, b: string)
    requires LatestOk(s) && |s.rows| == MAX_STREAMS && b in s.writers && Extends(s, WriterMove(s, b))
    requires WriterMove(s, b).writers.Keys == s.writers.Keys
    ensures LatestOk(WriterMove(s, b))
  {
    var t := WriterMove(s, b);
    hide WriterMove, Completed, Extends;
    LogGrows(s, t);
    NamedAfter(s, b);
    SameCount(s, t);
    forall i | 0 <= i < |t.rows| ensures t.rows[i].latest == 0 || Completed(t, i, t.rows[i].latest) {
      if t.rows[i].latest != 0 {
        CompletedStays(s, t, i, t.rows[i].latest);
      }
    }
    forall a | a in t.writers && t.writers[a].phase.Latest?
      ensures Completed(t, t.writers[a].phase.i, t.writers[a].job.fid)
    {
      if a != b {
        OthersUnmoved(s, a, b);
        CompletedStays(s, t, t.writers[a].phase.i, t.writers[a].job.fid);
      } else {
        AboutToName(s, b);
        if s.writers[b].phase.Settle? {
          NamesItsOwn(s, b);
        } else {
          StillNaming(s, b);
          CompletedStays(s, t, t.writers[a].phase.i, t.writers[a].job.fid);
        }
      }
    }
  }

  lemma SameCount(s: State, t: State)
    requires Extends(s, t)
    ensures |t.rows| == |s.rows|
  {}

  lemma StillNaming(s: State, b: string)
    requires |s.rows| == MAX_STREAMS && b in s.writers
    requires s.writers[b].phase.Latest? && WriterMove(s, b).writers[b].phase.Latest?
    ensures WriterMove(s, b) == s
  {}

  lemma NextKeepsLatest(s: State, act: Action)
    requires LatestOk(s) && |s.rows| == MAX_STREAMS && Enabled(s, act) && Extends(s, Next(s, act))
    ensures LatestOk(Next(s, act))
  {
    match act {
      case WriterRuns(b) =>
        hide WriterMove, LatestOk, Extends;
        WriterKeepsLatest(s, b);
      case Submit(job) => SameNames(s, Next(s, act));
      case Crash(a) => SameNames(s, Next(s, act));
      case Ask(r, kind, stream, fid) => SameNames(s, Next(s, act));
      case ReaderRuns(r, stray) =>
        hide Advance;
        SameNames(s, Next(s, act));
    }
  }

  lemma SameNames(s: State, t: State)
    requires LatestOk(s) && t.rows == s.rows && t.log == s.log
    requires forall a :: a in t.writers && t.writers[a].phase.Latest? ==> a in s.writers && t.writers[a] == s.writers[a]
    ensures LatestOk(t)
  {
    forall row: nat, fid: nat | Completed(s, row, fid) ensures Completed(t, row, fid) {
      CompletedStays(s, t, row, fid);
    }
  }

  /** In every run, the newest frame a row names is one whose write was completed. */
  lemma {:induction false} LatestIsWritten(states: seq<State>, acts: seq<Action>, k: nat)
    requires IsRun(states, acts) && k < |states|
    ensures LatestOk(states[k])
    ensures forall i :: 0 <= i < |states[k].rows| && states[k].rows[i].latest != 0 ==>
      Completed(states[k], i, states[k].rows[i].latest)
  {
    hide Next, Extends, Completed;
    if k > 0 {
      LatestIsWritten(states, acts, k - 1);
      assert Stepped(states[k - 1], acts[k - 1], states[k]);
      Extended(states, acts, k - 1, k);
      NextKeepsLatest(states[k - 1], acts[k - 1]);
    }
  }
}
