/** Attaching to the segment, fresh or left behind by an earlier run: racing creators stamp a fresh header once,
    and the peers that get past `checkTransport` were built for the same layout and selected the same transport. */
module Handshake {

  const MAGIC: nat := 0x53484D31
  const CLAIMING: nat := 0xFFFF_FFFF   // the header is being stamped

  /** The next access of a peer. A creator stamps or waits first; a consumer goes straight to the checks. */
  datatype Phase =
    | Stamp            // compare-and-swap magic 0 -> CLAIMING
    | StoreVersion | StoreMagic
    | Wait             // spin while magic is CLAIMING
    | CheckMagic | CheckVersion
    | Select           // compare-and-swap mode 0 -> want
    | Passed | Aborted

  /** `version` is the layout the peer was built for. */
  datatype Peer = Peer(phase: Phase, want: nat, version: nat, creator: bool)

  /** The header words, and every peer that ever attached. */
  datatype Segment = Segment(magic: nat, version: nat, mode: nat, peers: map<nat, Peer>)

  function At(s: Segment, p: nat, phase: Phase): Segment
    requires p in s.peers
  {
    s.(peers := s.peers[p := s.peers[p].(phase := phase)])
  }

  function Move(s: Segment, p: nat): (t: Segment)
    requires p in s.peers
    ensures t.peers.Keys == s.peers.Keys
  {
    var (want, version) := (s.peers[p].want, s.peers[p].version);
    match s.peers[p].phase
    case Stamp => if s.magic == 0 then At(s.(magic := CLAIMING), p, StoreVersion) else At(s, p, Wait)
    case StoreVersion => At(s.(version := version), p, StoreMagic)
    case StoreMagic => At(s.(magic := MAGIC), p, CheckMagic)
    case Wait => if s.magic == CLAIMING then s else At(s, p, CheckMagic)
    case CheckMagic => At(s, p, if s.magic == MAGIC then CheckVersion else Aborted)
    case CheckVersion => At(s, p, if s.version == version then Select else Aborted)
    case Select =>
      if s.mode == 0 then At(s.(mode := want), p, Passed)
      else At(s, p, if s.mode == want then Passed else Aborted)
    case _ => s
  }

  /** A peer attaches: transports are encoded 1 and 2. */
  function Attach(s: Segment, p: nat, creator: bool, want: nat, version: nat): Segment {
    s.(peers := s.peers[p := Peer(if creator then Stamp else CheckMagic, want, version, creator)])
  }

  datatype Action = Joins(peer: nat, creator: bool, want: nat, version: nat) | Runs(peer: nat)

  ghost predicate Steps(s: Segment, act: Action, t: Segment) {
    match act
    case Joins(p, creator, want, version) =>
      p !in s.peers && 1 <= want <= 2 && t == Attach(s, p, creator, want, version)
    case Runs(p) => p in s.peers && t == Move(s, p)
  }

  /** From a segment with whatever header it was left with; a new one holds zeros. */
  ghost predicate IsRun(states: seq<Segment>, acts: seq<Action>) {
    && |states| == |acts| + 1 && states[0].peers == map[]
    && forall k :: 0 <= k < |acts| ==> Steps(states[k], acts[k], states[k + 1])
  }

  predicate Stamping(phase: Phase) { phase == StoreVersion || phase == StoreMagic }

  ghost predicate PeerOk(s: Segment, p: nat)
    requires p in s.peers
  {
    var peer := s.peers[p];
    && 1 <= peer.want <= 2
    && (Stamping(peer.phase) ==> s.magic == CLAIMING)
    && (peer.phase == StoreMagic ==> s.version == peer.version)
    && (peer.phase == CheckVersion ==> s.magic == MAGIC)
    && (peer.phase == Select || peer.phase == Passed ==> s.magic == MAGIC && s.version == peer.version)
    && (peer.phase == Passed ==> s.mode == peer.want)
    && (peer.creator ==> CreatorOk(s, peer))
  }

  /** The segment is not for this peer: a foreign header, another layout, or another transport. */
  ghost predicate Mismatch(s: Segment, peer: Peer) {
    || (s.magic != 0 && s.magic != CLAIMING && s.magic != MAGIC)
    || (s.magic == MAGIC && s.version != peer.version)
    || (s.mode != 0 && s.mode != peer.want)
  }

  /** A creator has seen the header stamped before it checks, and fails only on a mismatch. */
  ghost predicate CreatorOk(s: Segment, peer: Peer) {
    && (peer.phase == Wait ==> s.magic != 0)
    && (peer.phase == CheckMagic ==> s.magic != 0 && s.magic != CLAIMING)
    && (peer.phase == Aborted ==> Mismatch(s, peer))
  }

  /** One peer stamps at a time. */
  ghost predicate HeaderOk(s: Segment) {
    && (forall p :: p in s.peers ==> PeerOk(s, p))
    && (forall p, q ::
          p in s.peers && q in s.peers && Stamping(s.peers[p].phase) && Stamping(s.peers[q].phase) ==> p == q)
  }

  /** Once published, the header and the transport never change again. */
  ghost predicate Later(s: Segment, t: Segment) {
    && (s.magic != 0 && s.magic != CLAIMING ==> t.magic == s.magic && t.version == s.version)
    && (s.mode != 0 ==> t.mode == s.mode)
  }

  lemma StepKeepsHeader(s: Segment, act: Action, t: Segment)
    requires HeaderOk(s) && Steps(s, act, t)
    ensures HeaderOk(t) && Later(s, t)
  {
    match act {
      case Joins(p, creator, want, version) =>
        forall q | q in t.peers ensures PeerOk(t, q) {
          assert q in s.peers ==> PeerOk(s, q);
        }
      case Runs(p) => MoveKeepsHeader(s, p);
    }
  }

  lemma MoveKeepsHeader(s: Segment, p: nat)
    requires HeaderOk(s) && p in s.peers
    ensures HeaderOk(Move(s, p)) && Later(s, Move(s, p))
  {
    hide Move, PeerOk;
    var t := Move(s, p);
    MoveKeepsOwn(s, p);
    forall q | q in t.peers && q != p
      ensures PeerOk(t, q) && t.peers[q] == s.peers[q] && !(Stamping(t.peers[p].phase) && Stamping(t.peers[q].phase))
    {
      OthersStay(s, p, q);
    }
  }

  lemma MoveKeepsOwn(s: Segment, p: nat)
    requires p in s.peers && PeerOk(s, p)
    ensures PeerOk(Move(s, p), p) && Later(s, Move(s, p))
  {}

  /** A step of one peer leaves the others where they may be. */
  lemma OthersStay(s: Segment, p: nat, q: nat)
    requires p in s.peers && q in s.peers && p != q && PeerOk(s, p) && PeerOk(s, q)
    requires !(Stamping(s.peers[p].phase) && Stamping(s.peers[q].phase))
    ensures PeerOk(Move(s, p), q) && Move(s, p).peers[q] == s.peers[q]
    ensures !(Stamping(Move(s, p).peers[p].phase) && Stamping(s.peers[q].phase))
  {}

  lemma {:induction false} RunKeepsHeader(states: seq<Segment>, acts: seq<Action>, k: nat)
    requires IsRun(states, acts) && k < |states|
    ensures HeaderOk(states[k])
  {
    hide Steps;
    if k > 0 {
      hide HeaderOk;
      RunKeepsHeader(states, acts, k - 1);
      assert Steps(states[k - 1], acts[k - 1], states[k]);
      StepKeepsHeader(states[k - 1], acts[k - 1], states[k]);
    }
  }

  lemma {:induction false} HeaderStays(states: seq<Segment>, acts: seq<Action>, j: nat, k: nat)
    requires IsRun(states, acts) && j <= k < |states|
    ensures Later(states[j], states[k])
    decreases k
  {
    hide Steps, HeaderOk;
    if j < k {
      HeaderStays(states, acts, j, k - 1);
      RunKeepsHeader(states, acts, k - 1);
      assert Steps(states[k - 1], acts[k - 1], states[k]);
      StepKeepsHeader(states[k - 1], acts[k - 1], states[k]);
    }
  }

  /** Peers that got through, at whatever moments of whatever interleaving, agree on the transport and on
      the layout, and saw a fully stamped header. */
  lemma PassedPeersAgree(states: seq<Segment>, acts: seq<Action>, j: nat, k: nat, p: nat, q: nat)
    requires IsRun(states, acts) && j <= k < |states|
    requires p in states[j].peers && states[j].peers[p].phase == Passed
    requires q in states[k].peers && states[k].peers[q].phase == Passed
    ensures states[j].peers[p].want == states[k].peers[q].want == states[k].mode
    ensures states[j].peers[p].version == states[k].peers[q].version == states[k].version
    ensures states[j].magic == states[k].magic == 0x53484D31
  {
    RunKeepsHeader(states, acts, j);
    RunKeepsHeader(states, acts, k);
    HeaderStays(states, acts, j, k);
    assert PeerOk(states[j], p) && PeerOk(states[k], q);
  }

  // ---- who gets through -----------------------------------------------------

  /** In any run, a peer that created or mapped the segment itself aborts only if the segment was left with a
      foreign header, or is stamped for another layout, or another transport was selected before. */
  lemma AbortsOnlyOnMismatch(states: seq<Segment>, acts: seq<Action>, k: nat, p: nat)
    requires IsRun(states, acts) && k < |states|
    requires p in states[k].peers && states[k].peers[p].creator && states[k].peers[p].phase == Aborted
    ensures Mismatch(states[k], states[k].peers[p])
  {
    RunKeepsHeader(states, acts, k);
    assert PeerOk(states[k], p);
  }

  /** Peer `p` running alone for `n` accesses. */
  function Alone(s: Segment, p: nat, n: nat): (t: Segment)
    requires p in s.peers
    ensures p in t.peers
    decreases n
  {
    if n == 0 then s else Alone(Move(s, p), p, n - 1)
  }

  /** How far a peer is from the end. */
  function ToGo(phase: Phase): nat {
    match phase
    case Stamp => 7
    case StoreVersion => 6
    case StoreMagic => 5
    case Wait => 4
    case CheckMagic => 3
    case CheckVersion => 2
    case Select => 1
    case _ => 0
  }

  /** A peer built for the layout, whose transport is the selected one or the first to select, gets through as
      soon as it is let run: a creator unless another one is still stamping, a consumer once the header is. */
  lemma {:induction false} MatchingPeerPasses(s: Segment, p: nat) returns (n: nat)
    requires HeaderOk(s) && p in s.peers && s.peers[p].phase != Aborted
    requires s.mode == 0 || s.mode == s.peers[p].want
    requires (s.magic == MAGIC && s.version == s.peers[p].version)
          || (s.peers[p].creator && (s.magic == 0 || Stamping(s.peers[p].phase)))
    ensures Alone(s, p, n).peers[p].phase == Passed && Alone(s, p, n).mode == s.peers[p].want
    decreases ToGo(s.peers[p].phase)
  {
    assert PeerOk(s, p);
    if s.peers[p].phase == Passed {
      n := 0;
    } else {
      var t := Move(s, p);
      MoveKeepsHeader(s, p);
      assert t.peers[p].want == s.peers[p].want && t.peers[p].creator == s.peers[p].creator;
      assert t.peers[p].version == s.peers[p].version;
      hide HeaderOk;
      n := MatchingPeerPasses(t, p);
      n := n + 1;
    }
  }
}
