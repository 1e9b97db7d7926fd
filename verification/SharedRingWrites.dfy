/** What a whole undisturbed call of `writeFrame` does, and for how long its frame can be read. */
module SharedRingWrites {
  import opened SharedRing
  import opened SharedRingSafety
  import opened SharedRingRuns
  import opened SharedRingCalls

  // ---- the writer's row -----------------------------------------------------

  lemma {:induction false} MovesAdd(s: State, a: string, m: nat, n: nat)
    requires a in s.writers && |s.rows| == MAX_STREAMS
    ensures Moves(s, a, m + n) == Moves(Moves(s, a, m), a, n)
    decreases m
  {
    hide WriterMove;
    if m > 0 {
      MovesAdd(WriterMove(s, a), a, m - 1, n);
    }
  }

  lemma {:induction false} MovesKeepInv(s: State, a: string, n: nat)
    requires Inv(s) && a in s.writers
    ensures |s.rows| == MAX_STREAMS && Inv(Moves(s, a, n))
    decreases n
  {
    assert |s.rows| == MAX_STREAMS;
    hide WriterMove, Inv;
    if n > 0 {
      WriterKeepsInv(s, a);
      MovesKeepInv(WriterMove(s, a), a, n - 1);
    }
  }

  lemma PhaseTwice(s: State, a: string, p: Phase, q: Phase)
    requires a in s.writers
    ensures WithPhase(WithPhase(s, a, p), a, q) == WithPhase(s, a, q)
  {}

  /** The search ends at the stream's first ready row, if there is one, and goes on to claim one otherwise. */
  lemma {:induction false} Searches(s: State, a: string, row: nat) returns (n: nat)
    requires |s.rows| == MAX_STREAMS && a in s.writers && s.writers[a].phase.Scan? && s.writers[a].phase.i <= row
    requires FirstReady(s, a, row) || (row == MAX_STREAMS && NoneReady(s, row, a))
    ensures Moves(s, a, n) == WithPhase(s, a, if row == MAX_STREAMS then Claim(0) else Load(row))
    decreases row - s.writers[a].phase.i
  {
    var i, t := s.writers[a].phase.i, WriterMove(s, a);
    if i == row {
      n := 1;
      assert Ready(s, row, a) || row == MAX_STREAMS;
      assert Moves(s, a, 1) == Moves(t, a, 0);
    } else {
      assert !Ready(s, i, a);
      assert t == WithPhase(s, a, Scan(i + 1));
      assert forall j: nat :: Ready(t, j, a) <==> Ready(s, j, a);
      n := Searches(t, a, row);
      PhaseTwice(s, a, Scan(i + 1), if row == MAX_STREAMS then Claim(0) else Load(row));
      n := n + 1;
    }
  }

  /** The row as registered. */
  function Registered(s: State, row: nat, a: string): State
    requires row < |s.rows|
  {
    WithRow(s, row, s.rows[row].(state := 2, id := Stored(a)))
  }

  ghost predicate FirstFree(s: State, row: nat) {
    row < |s.rows| && s.rows[row].state == 0 && forall i :: 0 <= i < row ==> s.rows[i].state != 0
  }

  lemma TwoMoves(s: State, a: string)
    requires a in s.writers && |s.rows| == MAX_STREAMS
    ensures Moves(s, a, 2) == WriterMove(WriterMove(s, a), a)
  {
    hide WriterMove;
    assert Moves(WriterMove(s, a), a, 1) == Moves(WriterMove(WriterMove(s, a), a), a, 0);
  }

  lemma RowMoves(s: State, a: string, row: nat)
    requires |s.rows| == MAX_STREAMS && a in s.writers && row < MAX_STREAMS
    ensures s.writers[a].phase == Name(row) ==>
      WriterMove(s, a) == WithPhase(WithRow(s, row, s.rows[row].(id := Stored(a))), a, Publish(row))
    ensures s.writers[a].phase == Publish(row) ==>
      WriterMove(s, a) == WithPhase(WithRow(s, row, s.rows[row].(state := 2)), a, Load(row))
  {}

  lemma Registers(s: State, a: string, row: nat)
    requires |s.rows| == MAX_STREAMS && a in s.writers && row < MAX_STREAMS
    requires s.writers[a].phase == Name(row)
    ensures Moves(s, a, 2) == WithPhase(Registered(s, row, a), a, Load(row))
  {
    hide WriterMove, Stored, Moves, Registered;
    RowMoves(s, a, row);
    NamedRow(s, a, row);
    RowMoves(WriterMove(s, a), a, row);
    TwoMoves(s, a);
  }

  lemma NamedRow(s: State, a: string, row: nat)
    requires a in s.writers && row < |s.rows|
    ensures var t := WithPhase(WithRow(s, row, s.rows[row].(id := Stored(a))), a, Publish(row));
      && |t.rows| == |s.rows| && t.writers[a].phase == Publish(row)
      && WithPhase(WithRow(t, row, t.rows[row].(state := 2)), a, Load(row))
         == WithPhase(Registered(s, row, a), a, Load(row))
  {
    var t := WithPhase(WithRow(s, row, s.rows[row].(id := Stored(a))), a, Publish(row));
    assert WithRow(t, row, t.rows[row].(state := 2)).rows == Registered(s, row, a).rows;
  }

  lemma ClaimsRow(s: State, a: string, row: nat)
    requires |s.rows| == MAX_STREAMS && a in s.writers && s.writers[a].phase == Claim(row)
    requires row < MAX_STREAMS && s.rows[row].state == 0
    ensures Moves(s, a, 3) == WithPhase(Registered(s, row, a), a, Load(row))
  {
    hide WriterMove, Moves, Registered;
    ClaimMove(s, a, row);
    ClaimedRow(s, a, row);
    Registers(WriterMove(s, a), a, row);
    OneMove(s, a);
    MovesAdd(s, a, 1, 2);
  }

  lemma ClaimMove(s: State, a: string, row: nat)
    requires |s.rows| == MAX_STREAMS && a in s.writers && s.writers[a].phase == Claim(row)
    requires row < MAX_STREAMS && s.rows[row].state == 0
    ensures WriterMove(s, a) == WithPhase(WithRow(s, row, s.rows[row].(state := 1)), a, Name(row))
  {}

  lemma OneMove(s: State, a: string)
    requires a in s.writers && |s.rows| == MAX_STREAMS
    ensures Moves(s, a, 1) == WriterMove(s, a)
  {
    hide WriterMove;
    assert Moves(s, a, 1) == Moves(WriterMove(s, a), a, 0);
  }

  lemma ClaimedRow(s: State, a: string, row: nat)
    requires a in s.writers && row < |s.rows|
    ensures var t := WithPhase(WithRow(s, row, s.rows[row].(state := 1)), a, Name(row));
      && |t.rows| == |s.rows| && t.writers[a].phase == Name(row)
      && WithPhase(Registered(t, row, a), a, Load(row)) == WithPhase(Registered(s, row, a), a, Load(row))
  {
    var t := WithPhase(WithRow(s, row, s.rows[row].(state := 1)), a, Name(row));
    assert Registered(t, row, a).rows == Registered(s, row, a).rows;
  }

  lemma ClaimGoesOn(s: State, a: string, i: nat)
    requires |s.rows| == MAX_STREAMS && a in s.writers && s.writers[a].phase == Claim(i)
    requires i < MAX_STREAMS ==> s.rows[i].state != 0
    ensures WriterMove(s, a) == WithPhase(s, a, if i < MAX_STREAMS then Claim(i + 1) else Idle)
  {}

  /** Claiming takes the first free row and registers the stream there, or gives up. */
  lemma {:induction false} Claims(s: State, a: string, row: nat) returns (n: nat)
    requires |s.rows| == MAX_STREAMS && a in s.writers && s.writers[a].phase.Claim? && s.writers[a].phase.i <= row
    requires FirstFree(s, row) || (row == MAX_STREAMS && forall i :: 0 <= i < row ==> s.rows[i].state != 0)
    ensures Moves(s, a, n) ==
      if row == MAX_STREAMS then WithPhase(s, a, Idle) else WithPhase(Registered(s, row, a), a, Load(row))
    decreases row - s.writers[a].phase.i
  {
    hide WriterMove, Stored;
    var i, t := s.writers[a].phase.i, WriterMove(s, a);
    if i < row {
      ClaimGoesOn(s, a, i);
      n := Claims(t, a, row);
      PhaseTwice(s, a, Claim(i + 1), Idle);
      SameRegistered(s, a, i + 1, row);
      n := n + 1;
    } else if row == MAX_STREAMS {
      ClaimGoesOn(s, a, i);
      n := 1;
      assert Moves(s, a, 1) == Moves(t, a, 0);
    } else {
      ClaimsRow(s, a, row);
      n := 3;
    }
  }

  lemma SameRegistered(s: State, a: string, i: nat, row: nat)
    requires a in s.writers
    ensures row < |s.rows| ==>
      WithPhase(Registered(WithPhase(s, a, Claim(i)), row, a), a, Load(row))
      == WithPhase(Registered(s, row, a), a, Load(row))
  {}

  // ---- names ----------------------------------------------------------------

  /** A name that fits is stored whole, a longer one cut. */
  lemma StoredIff(a: string)
    ensures Stored(a) == a <==> |a| <= 31
    ensures |Stored(a)| <= 31 && Stored(a) <= a
  {}

  /** A stream that has just registered is found under its name if and only if the name has at most 31
      bytes. A longer name is never found: its readers miss, and its next write claims another row. */
  lemma FoundIffNameFits(s: State, a: string, row: nat, r: Reader) returns (n: nat)
    requires |s.rows| == MAX_STREAMS && a in s.writers && row < MAX_STREAMS && s.writers[a].phase == Name(row)
    requires NoneReady(s, MAX_STREAMS, a) && r.at == Find(0) && r.stream == a
    ensures Quiet(Moves(s, a, 2), r, n).at == if |a| <= 31 then Poll(row, 0) else Done(Miss)
  {
    hide WriterMove, Advance, Moves;
    var t := Moves(s, a, 2);
    Registers(s, a, row);
    StoredIff(a);
    assert forall i: nat :: i != row ==> (Ready(t, i, a) <==> Ready(s, i, a));
    if |a| <= 31 {
      n := QuietFind(t, r, row);
    } else {
      assert NoneReady(t, MAX_STREAMS, a);
      n := QuietUnknown(t, r);
    }
  }

  // ---- the whole call -------------------------------------------------------

  /** The frame is written, and the row names it. */
  ghost predicate Written(s: State, row: nat, job: Write) {
    && Ready(s, row, job.stream) && s.rows[row].latest == job.fid
    && SlotAt(s, (row, job.fid % 100)).lock % 2 == 0 && Shows(SlotAt(s, (row, job.fid % 100)), job)
  }

  lemma NamesLatest(s: State, a: string, row: nat)
    requires |s.rows| == MAX_STREAMS && a in s.writers && s.writers[a].phase == Latest(row) && row < MAX_STREAMS
    ensures var t := WriterMove(s, a);
      && t.writers[a] == Writer(Idle, s.writers[a].job) && t.rows[row] == s.rows[row].(latest := s.writers[a].job.fid)
      && OnlyAt(s, t, a, (row, Home(s.writers[a].job))) && t.slots == s.slots
  {}

  lemma EndsWrite(s: State, a: string, row: nat)
    requires Inv(s) && a in s.writers && s.writers[a].phase.Settle? && s.writers[a].phase.i == row
    ensures |s.rows| == MAX_STREAMS && Ready(s, row, a)
    ensures var t, job := WriterMove(WriterMove(s, a), a), s.writers[a].job;
      t.writers[a] == Writer(Idle, job) && Written(t, row, job) && OnlyAt(s, t, a, (row, job.fid % 100))
  {
    assert |s.rows| == MAX_STREAMS && WriterAt(s, a);
    var loc: Loc := (row, Home(s.writers[a].job));
    hide Inv, TableOk, WriterMove, Shows, OnlyAt, SlotAt;
    StoresOnlyThere(s, a);
    SettleShape(s, a);
    SettleShows(s, a);
    StoreShape(s, a);
    var v := WriterMove(s, a);
    NamesLatest(v, a, row);
    var w := WriterMove(v, a);
    OnlyAtTransitive(s, v, w, a, loc);
    SameShown(v, w, loc);
  }

  /** From its row on, a writer left to run stores its frame there, names it, and changes nothing else. */
  lemma StoresFrame(s: State, a: string, row: nat) returns (n: nat)
    requires Inv(s) && a in s.writers && s.writers[a].phase == Load(row)
    ensures var t, job := Moves(s, a, n), s.writers[a].job;
      && |s.rows| == MAX_STREAMS && t.writers[a] == Writer(Idle, job) && Written(t, row, job)
      && OnlyAt(s, t, a, (row, job.fid % 100))
  {
    assert |s.rows| == MAX_STREAMS;
    hide Inv, WriterMove, Moves, OnlyAt, Written;
    n := ReachesSettle(s, a);
    var u := Moves(s, a, n);
    EndsWrite(u, a, row);
    MovesOneMore(s, a, n);
    MovesOneMore(s, a, n + 1);
    OnlyAtTransitive(s, u, Moves(s, a, n + 2), a, (row, Home(s.writers[a].job)));
    n := n + 2;
  }

  lemma SameShown(s: State, t: State, loc: Loc)
    requires t.slots == s.slots
    ensures SlotAt(t, loc) == SlotAt(s, loc)
  {}

  /** The image has the size it claims, and fits a slot. */
  ghost predicate Admitted(image: Image) {
    |image.pixels| == image.w * image.h * 3 && |image.pixels| <= 1228800
  }

  ghost predicate Full(s: State, a: string) {
    NoneReady(s, MAX_STREAMS, a) && forall i :: 0 <= i < |s.rows| ==> s.rows[i].state != 0
  }

  /** The row the call writes to: the stream's own, or else the first free one. */
  ghost predicate RowFor(s: State, a: string, row: nat) {
    FirstReady(s, a, row) || (NoneReady(s, MAX_STREAMS, a) && FirstFree(s, row))
  }

  lemma FreeRow(s: State, n: nat) returns (row: nat)
    requires n <= |s.rows| && exists i :: n <= i < |s.rows| && s.rows[i].state == 0
    requires forall i :: 0 <= i < n ==> s.rows[i].state != 0
    ensures FirstFree(s, row)
    decreases |s.rows| - n
  {
    if s.rows[n].state == 0 {
      row := n;
    } else {
      row := FreeRow(s, n + 1);
    }
  }

  lemma OwnRow(s: State, a: string) returns (row: nat)
    requires Inv(s) && !Full(s, a)
    ensures RowFor(s, a, row) && row < MAX_STREAMS
  {
    if NoneReady(s, MAX_STREAMS, a) {
      row := FreeRow(s, 0);
    } else {
      row :| row < MAX_STREAMS && Ready(s, row, a);
      ReadyIsFirst(s, row, a);
    }
  }

  lemma Starts(s: State, job: Write)
    requires Inv(s) && Enabled(s, Submit(job))
    ensures |s.rows| == MAX_STREAMS
    ensures var t := Next(s, Submit(job));
      && Inv(t) && t.rows == s.rows && job.stream in t.writers
      && t.writers[job.stream] == Writer(if Admitted(job.image) then Scan(0) else Idle, job)
  {
    assert |s.rows| == MAX_STREAMS;
    hide Inv;
    SubmitKeepsInv(s, job);
  }

  lemma SameTable(s: State, t: State, a: string, row: nat)
    requires t.rows == s.rows
    ensures RowFor(s, a, row) ==> RowFor(t, a, row)
    ensures Full(s, a) ==> Full(t, a)
  {
    assert forall i: nat :: Ready(t, i, a) <==> Ready(s, i, a);
  }

  /** A writer that starts searching reaches its row. */
  lemma ReachesRow(s: State, a: string, loc: Loc) returns (n: nat)
    requires |s.rows| == MAX_STREAMS && a in s.writers && s.writers[a].phase == Scan(0)
    requires RowFor(s, a, loc.0) && loc.0 < MAX_STREAMS
    ensures var t := Moves(s, a, n);
      t.writers[a] == s.writers[a].(phase := Load(loc.0)) && OnlyAt(s, t, a, loc)
  {
    hide WriterMove, Moves, Stored, SlotAt, OnlyAt;
    var row := loc.0;
    if FirstReady(s, a, row) {
      n := Searches(s, a, row);
      ReachedAtOnce(s, a, loc);
    } else {
      n := Searches(s, a, MAX_STREAMS);
      var t := Moves(s, a, n);
      assert FirstFree(t, row);
      var m := Claims(t, a, row);
      MovesAdd(s, a, n, m);
      n := n + m;
      hide FirstReady, NoneReady;
      ReachedByClaim(s, a, loc);
    }
  }

  lemma ReachedAtOnce(s: State, a: string, loc: Loc)
    requires a in s.writers
    ensures OnlyAt(s, WithPhase(s, a, Load(loc.0)), a, loc)
  {}

  lemma ReachedByClaim(s: State, a: string, loc: Loc)
    requires a in s.writers && loc.0 < |s.rows|
    ensures var t := WithPhase(Registered(WithPhase(s, a, Claim(0)), loc.0, a), a, Load(loc.0));
      t.writers[a] == s.writers[a].(phase := Load(loc.0)) && OnlyAt(s, t, a, loc)
  {}

  /** An undisturbed call with a three-channel image of at most 1228800 bytes, unless the table is full: the
      frame is in the stream's own row, or else in the first free one; that row names it; the writer is idle
      again; and no other row, slot, writer or reader has changed. */
  lemma WholeWrite(s: State, job: Write) returns (n: nat, row: nat)
    requires Inv(s) && Enabled(s, Submit(job)) && Admitted(job.image) && !Full(s, job.stream)
    ensures |s.rows| == MAX_STREAMS && job.stream in Next(s, Submit(job)).writers && RowFor(s, job.stream, row)
    ensures var t, a := Next(s, Submit(job)), job.stream;
      var u := Moves(t, a, n);
      u.writers[a] == Writer(Idle, job) && Written(u, row, job) && OnlyAt(t, u, a, (row, job.fid % 100))
  {
    hide Inv, Next, Moves, RowFor, Written, OnlyAt, Full, Admitted, Shows;
    Starts(s, job);
    row := OwnRow(s, job.stream);
    var t, a := Next(s, Submit(job)), job.stream;
    SameTable(s, t, a, row);
    n := ReachesRow(t, a, (row, job.fid % 100));
    var u := Moves(t, a, n);
    MovesKeepInv(t, a, n);
    var m := StoresFrame(u, a, row);
    MovesAdd(t, a, n, m);
    OnlyAtTransitive(t, u, Moves(u, a, m), a, (row, job.fid % 100));
    n := n + m;
  }

  /** Any other image, and a stream that finds the table full, leaves everything as it was. */
  lemma RefusedWrite(s: State, job: Write) returns (n: nat)
    requires Inv(s) && Enabled(s, Submit(job)) && (!Admitted(job.image) || Full(s, job.stream))
    ensures |s.rows| == MAX_STREAMS && job.stream in Next(s, Submit(job)).writers
    ensures Moves(Next(s, Submit(job)), job.stream, n) == s.(writers := s.writers[job.stream := Writer(Idle, job)])
  {
    hide Inv, NoneReady, WriterMove;
    Starts(s, job);
    var t, a := Next(s, Submit(job)), job.stream;
    n := 0;
    if Admitted(job.image) {
      SameTable(s, t, a, 0);
      hide Moves;
      n := Searches(t, a, MAX_STREAMS);
      var m := Claims(Moves(t, a, n), a, MAX_STREAMS);
      MovesAdd(t, a, n, m);
      PhaseTwice(t, a, Claim(0), Idle);
      n := n + m;
    }
  }

  // ---- how long a frame can be read -----------------------------------------

  lemma WriterFacts(states: seq<State>, acts: seq<Action>, k: nat, a: string)
    requires IsRun(states, acts) && k < |states| && UnderWay(states[k], a)
    ensures var w := states[k].writers[a]; Fits(w.job.image) && w.job.stream == a && Ready(states[k], w.phase.i, a)
  {
    RunInv(states, acts, k);
    assert WriterAt(states[k], a);
  }

  lemma RowStays(s: State, t: State, row: nat, a: string)
    requires Extends(s, t) && Ready(s, row, a)
    ensures Ready(t, row, a)
  {}

  /** The next access stores to a slot that frame `fid` of `a` would share. */
  ghost predicate Laps(s: State, act: Action, a: string, fid: nat) {
    act == WriterRuns(a) && UnderWay(s, a) && s.writers[a].job.fid % 100 == fid % 100
  }

  lemma SlotKept(s: State, act: Action, a: string, row: nat, fid: nat)
    requires Inv(s) && Enabled(s, act) && Ready(s, row, a) && !Laps(s, act, a, fid)
    ensures |s.rows| == MAX_STREAMS && SlotAt(Next(s, act), (row, Index(fid))) == SlotAt(s, (row, Index(fid)))
  {
    assert |s.rows| == MAX_STREAMS;
    if act.WriterRuns? {
      var b := act.stream;
      assert WriterAt(s, b);
      hide Inv, TableOk, WriterMove, SlotAt;
      if UnderWay(s, b) {
        StoresOnlyThere(s, b);
      } else {
        QuietShape(s, b);
        SameShown(s, WriterMove(s, b), (row, Index(fid)));
      }
    } else {
      hide WriterMove, Advance, Inv;
      SameShown(s, Next(s, act), (row, Index(fid)));
    }
  }

  lemma {:induction false} SlotKeptThrough(states: seq<State>, acts: seq<Action>, j: nat, k: nat, a: string, row: nat,
                                           fid: nat)
    requires IsRun(states, acts) && j <= k < |states| && Ready(states[j], row, a)
    requires forall m :: j <= m < k ==> !Laps(states[m], acts[m], a, fid)
    ensures SlotAt(states[k], (row, Index(fid))) == SlotAt(states[j], (row, Index(fid))) && Ready(states[k], row, a)
    decreases k
  {
    hide Next, SlotAt, Laps, Inv;
    if j < k {
      SlotKeptThrough(states, acts, j, k - 1, a, row, fid);
      assert Stepped(states[k - 1], acts[k - 1], states[k]);
      RunInv(states, acts, k - 1);
      SlotKept(states[k - 1], acts[k - 1], a, row, fid);
      Extended(states, acts, k - 1, k);
      RowStays(states[k - 1], states[k], row, a);
    }
  }

  /** What a call for a written frame returns: its image, in Python unless it is empty. */
  ghost predicate Fetches(answer: Progress, kind: Kind, image: Image) {
    kind == Cpp || (image.w > 0 && image.h > 0) ==>
      && answer.Done? && answer.answer.Hit? && answer.answer.w == image.w && answer.answer.h == image.h
      && answer.answer.pixels == image.pixels
  }

  /** A frame written whole can be read until it is lapped: in any run, an undisturbed call for it returns its
      image at any time after the store that ended its write (step `k`), up to the next store (if any) of a
      write whose frame id is the same modulo 100. */
  lemma ReadableUntilLapped(states: seq<State>, acts: seq<Action>, j: nat, k: nat, l: nat, a: string, r: Reader)
      returns (n: nat)
    requires IsRun(states, acts) && j <= k < l <= |acts| && UnderWay(states[j], a) && UnderWay(states[k], a)
    requires forall m :: j <= m <= k ==> UnderWay(states[m], a)
    requires acts[k] == WriterRuns(a) && states[k].writers[a].phase.Settle?
    requires r.at == Find(0) && r.stream == a && r.fid == states[j].writers[a].job.fid
    requires forall m :: k < m < l ==> !Laps(states[m], acts[m], a, r.fid)
    ensures |states[l].rows| == MAX_STREAMS
    ensures Fetches(Quiet(states[l], r, n).at, r.kind, states[j].writers[a].job.image)
  {
    var row := states[k].writers[a].phase.i;
    WrittenStays(states, acts, j, k, l, a, row, r.fid);
    RunInv(states, acts, l);
    var t, job := states[l], states[j].writers[a].job;
    ReadyIsFirst(t, row, a);
    assert |t.rows| == MAX_STREAMS;
    ShownIsFetched(SlotAt(t, (row, Index(r.fid))), r, job);
    hide Inv, Shows, Expected, Quiet, Snapshot, FirstReady;
    n := QuietCall(t, r, row);
  }

  lemma WrittenStays(states: seq<State>, acts: seq<Action>, j: nat, k: nat, l: nat, a: string, row: nat, fid: nat)
    requires IsRun(states, acts) && j <= k < l <= |acts| && UnderWay(states[j], a)
    requires forall m :: j <= m <= k ==> UnderWay(states[m], a)
    requires UnderWay(states[k], a) && states[k].writers[a].phase.Settle? && states[k].writers[a].phase.i == row
    requires acts[k] == WriterRuns(a) && fid == states[j].writers[a].job.fid
    requires forall m :: k < m < l ==> !Laps(states[m], acts[m], a, fid)
    ensures var slot, job := SlotAt(states[l], (row, Index(fid))), states[j].writers[a].job;
      Ready(states[l], row, a) && slot.lock % 2 == 0 && Shows(slot, job) && Fits(job.image)
  {
    hide Next, Inv, Shows, Extends, Laps;
    FinishedWriteHeals(states, acts, j, k, a);
    WriterFacts(states, acts, j, a);
    WriterFacts(states, acts, k, a);
    SameWriteThrough(states, acts, j, k, a);
    Extended(states, acts, k, k + 1);
    RowStays(states[k], states[k + 1], row, a);
    SlotKeptThrough(states, acts, k + 1, l, a, row, fid);
  }
}
