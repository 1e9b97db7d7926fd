/** The event engine: suspicion per track, rules, cooldown, throttled evidence, pruning. */
module AlertEngine {
  import opened Geometry
  import opened Suspicion

  type TrackKey = (string, int)            // stream, track
  type AlertKey = (string, int, string)    // stream, track, rule

  /** A detection with the id tracking gave it. */
  datatype Tracked = Tracked(box: Box, cls: int, confidence: real, id: int)

  /** One call of `update`. `wall` is the engine's clock, `capture` the frame's own stamp, 0 if unset. */
  datatype Call = Call(stream: string, tracked: seq<Tracked>, frame: int, wall: int, capture: int)

  datatype Rule = Rule(name: string, sustain: int)

  datatype Config = Config(rules: seq<Rule>, cooldown: int, suppressedEvery: int)

  /** `age` is the frame's age in nanoseconds, -1 when it has no capture stamp. */
  datatype Alert = Alert(id: nat, rule: string, stream: string, track: int, score: real, last: Observation,
                         raisedFor: int, age: int, suppressed: bool, parent: int)

  datatype FireRecord = FireRecord(fired: int, alertId: nat, lastSuppressed: int)

  /** `nextId` numbers the alerts ever built; it stands for the random ids of the program. */
  datatype Engine = Engine(tracks: map<TrackKey, Track>, fired: map<AlertKey, FireRecord>, lastPrune: int, nextId: nat)

  const PRUNE_EVERY: int := 5_000_000_000

  /** Everything runs on the capture stamp, and on the clock only without one. */
  function Now(c: Call): int { if c.capture > 0 then c.capture else c.wall }

  function AgeOf(c: Call): int {
    if c.capture > 0 then (if c.wall > c.capture then c.wall - c.capture else 0) else -1
  }

  // ---- suspicion of one frame -----------------------------------------------

  function ObservationOf(c: Call, d: Tracked): Observation {
    Observation(c.frame, Now(c), d.cls, d.confidence, d.box)
  }

  function TrackOf(tracks: map<TrackKey, Track>, key: TrackKey): Track {
    if key in tracks then tracks[key] else FRESH
  }

  /** `observe_frame`: untracked detections are skipped, the others update their track in order. */
  function ObserveFrame(tracks: map<TrackKey, Track>, c: Call, n: nat): (r: (map<TrackKey, Track>, seq<TrackKey>))
    requires n <= |c.tracked|
    ensures forall key :: key in r.1 ==> key in r.0
    ensures forall key :: key in tracks ==> key in r.0
  {
    if n == 0 then (tracks, [])
    else
      var (before, touched) := ObserveFrame(tracks, c, n - 1);
      var d := c.tracked[n - 1];
      if d.id < 0 then (before, touched)
      else
        var key := (c.stream, d.id);
        (before[key := Observed(TrackOf(before, key), ObservationOf(c, d))], touched + [key])
  }

  function PruneTracks(tracks: map<TrackKey, Track>, now: int): map<TrackKey, Track> {
    map key | key in tracks && !(now - tracks[key].lastSeen > STALE_NS) :: tracks[key]
  }

  // ---- rules ----------------------------------------------------------------

  /** `SustainedSuspicionRule.evaluate` fires on this track. */
  predicate Fires(rule: Rule, t: Track, now: int) {
    t.raised && t.history != [] && now - t.since >= rule.sustain
  }

  function AlertFor(rule: Rule, key: TrackKey, t: Track, now: int, age: int, id: nat): Alert
    requires Fires(rule, t, now)
  {
    Alert(id, rule.name, key.0, key.1, t.ewma, t.history[|t.history| - 1], now - t.since, age, false, -1)
  }

  function KeyOf(key: TrackKey, rule: Rule): AlertKey { (key.0, key.1, rule.name) }

  /** What one evaluation adds: the records, and at most one alert or one piece of evidence. */
  datatype Outcome = Outcome(fired: map<AlertKey, FireRecord>, nextId: nat, alerts: seq<Alert>, evidence: seq<Alert>)

  predicate Cooling(fired: map<AlertKey, FireRecord>, key: AlertKey, now: int, cfg: Config) {
    key in fired && now - fired[key].fired < cfg.cooldown
  }

  /** One rule on one touched track. */
  function Consider(o: Outcome, key: TrackKey, t: Track, rule: Rule, now: int, age: int, cfg: Config): Outcome {
    if !Fires(rule, t, now) then o
    else
      var k, alert := KeyOf(key, rule), AlertFor(rule, key, t, now, age, o.nextId);
      if Cooling(o.fired, k, now, cfg) then
        var rec := o.fired[k];
        if now - rec.lastSuppressed >= cfg.suppressedEvery then
          Outcome(o.fired[k := rec.(lastSuppressed := now)], o.nextId + 1, o.alerts,
                  o.evidence + [alert.(suppressed := true, parent := rec.alertId)])
        else o.(nextId := o.nextId + 1)
      else
        Outcome(o.fired[k := FireRecord(now, alert.id, now)], o.nextId + 1, o.alerts + [alert], o.evidence)
  }

  /** All rules on one track, then on all touched tracks. */
  function ConsiderRules(o: Outcome, key: TrackKey, t: Track, now: int, age: int, cfg: Config, n: nat): Outcome
    requires n <= |cfg.rules|
  {
    if n == 0 then o
    else Consider(ConsiderRules(o, key, t, now, age, cfg, n - 1), key, t, cfg.rules[n - 1], now, age, cfg)
  }

  function ConsiderAll(o: Outcome, touched: seq<TrackKey>, tracks: map<TrackKey, Track>, now: int, age: int,
                       cfg: Config, n: nat): Outcome
    requires n <= |touched|
  {
    if n == 0 then o
    else
      ConsiderRules(ConsiderAll(o, touched, tracks, now, age, cfg, n - 1), touched[n - 1],
                    TrackOf(tracks, touched[n - 1]), now, age, cfg, |cfg.rules|)
  }

  // ---- update ---------------------------------------------------------------

  /** Entries past their cooldown no longer suppress anything. */
  function PruneFired(fired: map<AlertKey, FireRecord>, now: int, cfg: Config): map<AlertKey, FireRecord> {
    map k | k in fired && !(now - fired[k].fired >= cfg.cooldown) :: fired[k]
  }

  function Judged(e: Engine, c: Call, cfg: Config): Outcome {
    var (tracks, touched) := ObserveFrame(e.tracks, c, |c.tracked|);
    ConsiderAll(Outcome(e.fired, e.nextId, [], []), touched, tracks, Now(c), AgeOf(c), cfg, |touched|)
  }

  /** `update`, with the pruning of fire records switched on or off. */
  function UpdateWith(e: Engine, c: Call, cfg: Config, pruning: bool): (r: (Engine, seq<Alert>, seq<Alert>)) {
    var tracks, now := ObserveFrame(e.tracks, c, |c.tracked|).0, Now(c);
    var o := Judged(e, c, cfg);
    if now - e.lastPrune > PRUNE_EVERY then
      (Engine(PruneTracks(tracks, now), if pruning then PruneFired(o.fired, now, cfg) else o.fired, now, o.nextId),
       o.alerts, o.evidence)
    else (Engine(tracks, o.fired, e.lastPrune, o.nextId), o.alerts, o.evidence)
  }

  function Update(e: Engine, c: Call, cfg: Config): (Engine, seq<Alert>, seq<Alert>) { UpdateWith(e, c, cfg, true) }

  const NEW_ENGINE := Engine(map[], map[], 0, 0)

  // ---- the objects ----------------------------------------------------------

  ghost function Values(tracks: map<TrackKey, TrackState>): (r: map<TrackKey, Track>)
    reads tracks.Values
    ensures r.Keys == tracks.Keys
  {
    map key | key in tracks :: tracks[key].Value()
  }

  lemma OneTracked(tracks: map<TrackKey, TrackState>, was: map<TrackKey, Track>, key: TrackKey)
    requires key in tracks && was.Keys == tracks.Keys
    requires forall k :: k in tracks && k != key ==> tracks[k].Value() == was[k]
    ensures Values(tracks) == was[key := tracks[key].Value()]
  {}

  ghost predicate Separate(tracks: map<TrackKey, TrackState>) {
    forall j, k :: j in tracks && k in tracks && j != k ==> tracks[j] != tracks[k]
  }

  /** One held track takes an observation; the others are untouched. */
  method UpdateHeld(tracks: map<TrackKey, TrackState>, key: TrackKey, o: Observation)
    requires key in tracks && Separate(tracks)
    modifies tracks[key]
    ensures Values(tracks) == old(Values(tracks))[key := Observed(old(Values(tracks))[key], o)]
  {
    hide Observed;
    ghost var was := Values(tracks);
    assert forall k :: k in tracks ==> was[k] == tracks[k].Value();
    tracks[key].Observe(o);
    OneTracked(tracks, was, key);
  }

  lemma UpdatedTwice(m: map<TrackKey, Track>, key: TrackKey, a: Track, b: Track)
    ensures m[key := a][key := b] == m[key := b]
  {}

  /** The per-track buffer: a dictionary of track objects, each updated in place. */
  class SuspicionTracker {
    var tracks: map<TrackKey, TrackState>

    constructor ()
      ensures Valid() && Value() == map[] && tracks == map[]
    {
      tracks := map[];
    }

    /** Every key has its own object. */
    ghost predicate Valid()
      reads this
    {
      Separate(tracks)
    }

    ghost function Value(): map<TrackKey, Track>
      reads this, tracks.Values
    {
      Values(tracks)
    }

    /** The track's object, created the first time. */
    method StateFor(key: TrackKey) returns (state: TrackState)
      requires Valid()
      modifies this`tracks
      ensures Valid() && key in tracks && tracks[key] == state && state.Value() == TrackOf(old(Value()), key)
      ensures Value() == old(Value())[key := state.Value()]
      ensures if key in old(tracks) then tracks == old(tracks) else fresh(state) && tracks == old(tracks)[key := state]
    {
      if key !in tracks {
        state := new TrackState(key.0, key.1);
        tracks := tracks[key := state];
      }
      state := tracks[key];
    }

    /** One detection with a track id: its track takes the observation. */
    method ObserveOne(key: TrackKey, o: Observation)
      requires Valid()
      modifies this, tracks.Values
      ensures Valid() && Value() == old(Value())[key := Observed(TrackOf(old(Value()), key), o)]
      ensures key in tracks
      ensures if key in old(tracks) then tracks == old(tracks)
        else fresh(tracks[key]) && tracks == old(tracks)[key := tracks[key]]
    {
      hide Observed, TrackOf, Values;
      var state := StateFor(key);
      ghost var held := Value();
      UpdateHeld(tracks, key, o);
      UpdatedTwice(old(Value()), key, held[key], Observed(held[key], o));
    }

    method Frame(c: Call) returns (touched: seq<TrackKey>)
      requires Valid()
      modifies this, tracks.Values
      ensures Valid() && (Value(), touched) == ObserveFrame(old(Value()), c, |c.tracked|)
      ensures forall k :: k in tracks && k !in old(tracks) ==> fresh(tracks[k])
      ensures forall k :: k in old(tracks) ==> k in tracks && tracks[k] == old(tracks)[k]
    {
      hide Observed;
      touched := [];
      for n := 0 to |c.tracked|
        invariant Valid() && (Value(), touched) == ObserveFrame(old(Value()), c, n)
        invariant forall k :: k in tracks && k !in old(tracks) ==> fresh(tracks[k])
        invariant forall k :: k in old(tracks) ==> k in tracks && tracks[k] == old(tracks)[k]
      {
        var d := c.tracked[n];
        if d.id < 0 {
          continue;
        }
        var key := (c.stream, d.id);
        ObserveOne(key, ObservationOf(c, d));
        touched := touched + [key];
      }
    }

    method Prune(now: int)
      requires Valid()
      modifies this`tracks
      ensures Valid() && Value() == PruneTracks(old(Value()), now)
      ensures forall k :: k in tracks ==> k in old(tracks) && tracks[k] == old(tracks)[k]
    {
      tracks := map k | k in tracks && !(now - tracks[k].lastSeen > STALE_NS) :: tracks[k];
    }
  }

  class EventEngine {
    const cfg: Config
    const suspicion: SuspicionTracker
    var fired: map<AlertKey, FireRecord>
    var lastPrune: int
    var nextId: nat

    constructor (cfg: Config)
      ensures this.cfg == cfg && Valid() && fresh(suspicion) && Value() == NEW_ENGINE
      ensures suspicion.tracks == map[]
    {
      this.cfg, fired, lastPrune, nextId := cfg, map[], 0, 0;
      suspicion := new SuspicionTracker();
    }

    ghost predicate Valid()
      reads suspicion
    {
      suspicion.Valid()
    }

    ghost function Value(): Engine
      reads this, suspicion, suspicion.tracks.Values
    {
      Engine(suspicion.Value(), fired, lastPrune, nextId)
    }

    /** One rule on one track: a fresh alert, throttled evidence during the cooldown of an earlier one, or nothing. */
    method Try(alerts: seq<Alert>, evidence: seq<Alert>, key: TrackKey, t: Track, rule: Rule, now: int, age: int)
      returns (alerts': seq<Alert>, evidence': seq<Alert>)
      modifies this`fired, this`nextId
      ensures Outcome(fired, nextId, alerts', evidence')
           == Consider(Outcome(old(fired), old(nextId), alerts, evidence), key, t, rule, now, age, cfg)
    {
      alerts', evidence' := alerts, evidence;
      if !t.raised || t.history == [] || now - t.since < rule.sustain {
        return;
      }
      var k := (key.0, key.1, rule.name);
      var alert := AlertFor(rule, key, t, now, age, nextId);
      nextId := nextId + 1;
      if k in fired && now - fired[k].fired < cfg.cooldown {
        if now - fired[k].lastSuppressed >= cfg.suppressedEvery {
          fired := fired[k := fired[k].(lastSuppressed := now)];
          evidence' := evidence + [alert.(suppressed := true, parent := fired[k].alertId)];
        }
        return;
      }
      fired := fired[k := FireRecord(now, alert.id, now)];
      alerts' := alerts + [alert];
    }

    /** Rules, dedupe and cooldown for the touched tracks. */
    method Judge(touched: seq<TrackKey>, now: int, age: int) returns (alerts: seq<Alert>, evidence: seq<Alert>)
      requires Valid() && forall key :: key in touched ==> key in suspicion.tracks
      modifies this`fired, this`nextId
      ensures Outcome(fired, nextId, alerts, evidence)
           == ConsiderAll(Outcome(old(fired), old(nextId), [], []), touched, suspicion.Value(), now, age, cfg,
                          |touched|)
    {
      alerts, evidence := [], [];
      ghost var tracks := suspicion.Value();
      ghost var start := Outcome(fired, nextId, [], []);
      for i := 0 to |touched|
        invariant Outcome(fired, nextId, alerts, evidence) == ConsiderAll(start, touched, tracks, now, age, cfg, i)
      {
        var key := touched[i];
        assert key in suspicion.tracks;
        var t := suspicion.tracks[key].Value();
        ghost var before := ConsiderAll(start, touched, tracks, now, age, cfg, i);
        for j := 0 to |cfg.rules|
          invariant Outcome(fired, nextId, alerts, evidence) == ConsiderRules(before, key, t, now, age, cfg, j)
        {
          alerts, evidence := Try(alerts, evidence, key, t, cfg.rules[j], now, age);
        }
      }
    }

    /** One tracked frame: the engine becomes, and hands out, what the function on values computes. */
    method Process(c: Call) returns (alerts: seq<Alert>, evidence: seq<Alert>)
      requires Valid()
      modifies this, suspicion, suspicion.tracks.Values
      ensures Valid() && (Value(), alerts, evidence) == Update(old(Value()), c, cfg)
    {
      hide ObserveFrame, ConsiderAll, Values, Separate, PruneTracks, PruneFired;
      var now := Now(c);
      var touched := suspicion.Frame(c);
      TouchedKnown(old(suspicion.Value()), c);
      alerts, evidence := Judge(touched, now, AgeOf(c));
      if now - lastPrune > PRUNE_EVERY {
        suspicion.Prune(now);
        fired := PruneFired(fired, now, cfg);
        lastPrune := now;
      }
    }
  }

  lemma TouchedKnown(tracks: map<TrackKey, Track>, c: Call)
    ensures forall key :: key in ObserveFrame(tracks, c, |c.tracked|).1 ==>
      key in ObserveFrame(tracks, c, |c.tracked|).0
  {}
}
