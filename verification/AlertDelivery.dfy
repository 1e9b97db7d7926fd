/** Alerts that are due are delivered: what one call of the engine does for every stream, track and rule. */
module AlertDelivery {
  import opened Suspicion
  import opened AlertEngine
  import opened AlertRuns

  // ---- the records name the last alert of their key --------------------------

  /** `log[j]` is the last alert fired for `k`. */
  ghost predicate IsLast(log: seq<Entry>, k: AlertKey, j: int) {
    0 <= j < |log| && log[j].key == k && forall i :: j < i < |log| ==> log[i].key != k
  }

  /** When the alert, or evidence linked to it, was last recorded. */
  function LastRecorded(evidence: seq<Entry>, x: Entry): int {
    if evidence == [] then x.time
    else
      var last := evidence[|evidence| - 1];
      if last.key == x.key && last.parent == x.id then last.time
      else LastRecorded(evidence[..|evidence| - 1], x)
  }

  ghost predicate Recorded(log: seq<Entry>, evidence: seq<Entry>, k: AlertKey, rec: FireRecord) {
    exists j :: IsLast(log, k, j) && log[j].id == rec.alertId && log[j].time == rec.fired
                && rec.lastSuppressed == LastRecorded(evidence, log[j])
  }

  ghost predicate RecordsOk(fired: map<AlertKey, FireRecord>, nextId: nat, log: seq<Entry>, evidence: seq<Entry>) {
    && (forall i :: 0 <= i < |log| ==> log[i].id < nextId)
    && (forall i :: 0 <= i < |evidence| ==> evidence[i].parent < nextId)
    && (forall k :: k in fired ==> Recorded(log, evidence, k, fired[k]))
  }

  lemma {:induction false} NothingRecorded(evidence: seq<Entry>, x: Entry)
    requires forall i :: 0 <= i < |evidence| ==> evidence[i].parent < x.id
    ensures LastRecorded(evidence, x) == x.time
  {
    if evidence != [] {
      NothingRecorded(evidence[..|evidence| - 1], x);
    }
  }

  lemma RecordedOneMore(evidence: seq<Entry>, e: Entry, x: Entry)
    ensures LastRecorded(evidence + [e], x)
         == if e.key == x.key && e.parent == x.id then e.time else LastRecorded(evidence, x)
  {
    assert (evidence + [e])[..|evidence|] == evidence;
  }

  lemma AlertRecorded(fired: map<AlertKey, FireRecord>, nextId: nat, log: seq<Entry>, evidence: seq<Entry>, x: Entry)
    requires RecordsOk(fired, nextId, log, evidence) && x.id == nextId
    ensures RecordsOk(fired[x.key := FireRecord(x.time, x.id, x.time)], nextId + 1, log + [x], evidence)
  {
    hide LastRecorded;
    var all, now := log + [x], fired[x.key := FireRecord(x.time, x.id, x.time)];
    forall k | k in now ensures Recorded(all, evidence, k, now[k]) {
      if k == x.key {
        NothingRecorded(evidence, x);
        assert IsLast(all, k, |log|);
      } else {
        assert Recorded(log, evidence, k, fired[k]);
        var j :| IsLast(log, k, j) && log[j].id == fired[k].alertId && log[j].time == fired[k].fired
                 && fired[k].lastSuppressed == LastRecorded(evidence, log[j]);
        assert IsLast(all, k, j) && all[j] == log[j];
      }
    }
  }

  lemma EvidenceRecorded(fired: map<AlertKey, FireRecord>, nextId: nat, log: seq<Entry>, evidence: seq<Entry>, e: Entry)
    requires RecordsOk(fired, nextId, log, evidence) && e.key in fired && e.parent == fired[e.key].alertId
    ensures RecordsOk(fired[e.key := fired[e.key].(lastSuppressed := e.time)], nextId + 1, log, evidence + [e])
  {
    hide LastRecorded;
    var all, now := evidence + [e], fired[e.key := fired[e.key].(lastSuppressed := e.time)];
    assert e.parent < nextId by {
      assert Recorded(log, evidence, e.key, fired[e.key]);
    }
    forall k | k in now ensures Recorded(log, all, k, now[k]) {
      assert Recorded(log, evidence, k, fired[k]);
      var j :| IsLast(log, k, j) && log[j].id == fired[k].alertId && log[j].time == fired[k].fired
               && fired[k].lastSuppressed == LastRecorded(evidence, log[j]);
      RecordedOneMore(evidence, e, log[j]);
      assert IsLast(log, k, j);
    }
  }

  lemma MoreIdsRecorded(fired: map<AlertKey, FireRecord>, nextId: nat, log: seq<Entry>, evidence: seq<Entry>)
    requires RecordsOk(fired, nextId, log, evidence)
    ensures RecordsOk(fired, nextId + 1, log, evidence)
  {
    hide Recorded;
  }

  /** The history at some point inside a call. */
  ghost predicate RecordsSoFar(o: Outcome, log: seq<Entry>, evidence: seq<Entry>, now: int) {
    RecordsOk(o.fired, o.nextId, log + Entries(o.alerts, now), evidence + Entries(o.evidence, now))
  }

  lemma ConsiderRecords(o: Outcome, key: TrackKey, t: Track, rule: Rule, now: int, age: int, cfg: Config,
                        log: seq<Entry>, evidence: seq<Entry>)
    requires RecordsSoFar(o, log, evidence, now)
    ensures RecordsSoFar(Consider(o, key, t, rule, now, age, cfg), log, evidence, now)
  {
    hide RecordsOk;
    var r := Consider(o, key, t, rule, now, age, cfg);
    var fires, saved := log + Entries(o.alerts, now), evidence + Entries(o.evidence, now);
    if r.alerts != o.alerts {
      var x := EntryOf(r.alerts[|o.alerts|], now);
      assert log + Entries(r.alerts, now) == fires + [x];
      AlertRecorded(o.fired, o.nextId, fires, saved, x);
    } else if r.evidence != o.evidence {
      var e := EntryOf(r.evidence[|o.evidence|], now);
      assert evidence + Entries(r.evidence, now) == saved + [e];
      EvidenceRecorded(o.fired, o.nextId, fires, saved, e);
    } else if r.nextId != o.nextId {
      MoreIdsRecorded(o.fired, o.nextId, fires, saved);
    }
  }

  lemma {:induction false} RulesRecords(o: Outcome, key: TrackKey, t: Track, now: int, age: int, cfg: Config, n: nat,
                                        log: seq<Entry>, evidence: seq<Entry>)
    requires RecordsSoFar(o, log, evidence, now) && n <= |cfg.rules|
    ensures RecordsSoFar(ConsiderRules(o, key, t, now, age, cfg, n), log, evidence, now)
  {
    hide Consider, RecordsSoFar;
    if n > 0 {
      RulesRecords(o, key, t, now, age, cfg, n - 1, log, evidence);
      ConsiderRecords(ConsiderRules(o, key, t, now, age, cfg, n - 1), key, t, cfg.rules[n - 1], now, age, cfg, log,
                      evidence);
    }
  }

  lemma {:induction false} AllRecords(o: Outcome, touched: seq<TrackKey>, tracks: map<TrackKey, Track>, now: int,
                                      age: int, cfg: Config, n: nat, log: seq<Entry>, evidence: seq<Entry>)
    requires RecordsSoFar(o, log, evidence, now) && n <= |touched|
    ensures RecordsSoFar(ConsiderAll(o, touched, tracks, now, age, cfg, n), log, evidence, now)
  {
    hide ConsiderRules, RecordsSoFar;
    if n > 0 {
      AllRecords(o, touched, tracks, now, age, cfg, n - 1, log, evidence);
      RulesRecords(ConsiderAll(o, touched, tracks, now, age, cfg, n - 1), touched[n - 1],
                   TrackOf(tracks, touched[n - 1]), now, age, cfg, |cfg.rules|, log, evidence);
    }
  }

  lemma PruneKeepsRecords(fired: map<AlertKey, FireRecord>, nextId: nat, log: seq<Entry>, evidence: seq<Entry>,
                          now: int, cfg: Config)
    requires RecordsOk(fired, nextId, log, evidence)
    ensures RecordsOk(PruneFired(fired, now, cfg), nextId, log, evidence)
  {
    hide Recorded;
  }

  lemma {:induction false} HistoryRecords(calls: seq<Call>, cfg: Config, n: nat)
    requires n <= |calls|
    ensures var e, h := EngineAt(calls, cfg, true, n), History(calls, cfg, n); RecordsOk(e.fired, e.nextId, h.0, h.1)
  {
    if n > 0 {
      hide ConsiderAll, ObserveFrame, PruneTracks, PruneFired, RecordsOk;
      HistoryRecords(calls, cfg, n - 1);
      var e, h, c := EngineAt(calls, cfg, true, n - 1), History(calls, cfg, n - 1), calls[n - 1];
      var (tracks, touched) := ObserveFrame(e.tracks, c, |c.tracked|);
      assert h.0 + Entries([], Now(c)) == h.0 && h.1 + Entries([], Now(c)) == h.1;
      AllRecords(Outcome(e.fired, e.nextId, [], []), touched, tracks, Now(c), AgeOf(c), cfg, |touched|, h.0, h.1);
      var o := Judged(e, c, cfg);
      PruneKeepsRecords(o.fired, o.nextId, h.0 + Entries(o.alerts, Now(c)), h.1 + Entries(o.evidence, Now(c)), Now(c),
                        cfg);
    }
  }

  // ---- one key during one call ----------------------------------------------

  ghost predicate Delivered(alerts: seq<Alert>, k: AlertKey) {
    exists i :: 0 <= i < |alerts| && AlertKeyOf(alerts[i]) == k
  }

  ghost predicate Saved(evidence: seq<Alert>, k: AlertKey, parent: int) {
    exists i :: 0 <= i < |evidence| && AlertKeyOf(evidence[i]) == k && evidence[i].parent == parent
  }

  /** Where `k` stands inside a call that began with the records `before`: its alert has been delivered,
      or its record is the old one, up to evidence saved meanwhile. */
  ghost predicate Standing(o: Outcome, k: AlertKey, before: map<AlertKey, FireRecord>, now: int, cfg: Config) {
    || Delivered(o.alerts, k)
    || (k !in o.fired && k !in before)
    || (&& k in o.fired && k in before
        && if Saved(o.evidence, k, before[k].alertId) then
             now - before[k].lastSuppressed >= cfg.suppressedEvery && o.fired[k] == before[k].(lastSuppressed := now)
           else o.fired[k] == before[k])
  }

  /** What the call owes `k` once a rule of that key has fired. */
  ghost predicate Answered(o: Outcome, k: AlertKey, before: map<AlertKey, FireRecord>, now: int, cfg: Config) {
    || Delivered(o.alerts, k)
    || (&& k in before && now - before[k].fired < cfg.cooldown
        && (Saved(o.evidence, k, before[k].alertId) <==> now - before[k].lastSuppressed >= cfg.suppressedEvery))
  }

  lemma OneMore(s: seq<Alert>, a: Alert, k: AlertKey, parent: int)
    ensures Delivered(s + [a], k) <==> Delivered(s, k) || AlertKeyOf(a) == k
    ensures Saved(s + [a], k, parent) <==> Saved(s, k, parent) || (AlertKeyOf(a) == k && a.parent == parent)
  {
    var all := s + [a];
    assert all[|s|] == a;
    if Delivered(s, k) {
      var i :| 0 <= i < |s| && AlertKeyOf(s[i]) == k;
      assert all[i] == s[i];
    }
    if Saved(s, k, parent) {
      var i :| 0 <= i < |s| && AlertKeyOf(s[i]) == k && s[i].parent == parent;
      assert all[i] == s[i];
    }
  }

  lemma ConsiderStanding(o: Outcome, key: TrackKey, t: Track, rule: Rule, now: int, age: int, cfg: Config,
                         k: AlertKey, before: map<AlertKey, FireRecord>)
    requires Standing(o, k, before, now, cfg)
    ensures var r := Consider(o, key, t, rule, now, age, cfg);
      && Standing(r, k, before, now, cfg)
      && (Answered(o, k, before, now, cfg) ==> Answered(r, k, before, now, cfg))
      && (KeyOf(key, rule) == k && Fires(rule, t, now) ==> Answered(r, k, before, now, cfg))
  {
    hide Delivered, Saved, Fires;
    var r := Consider(o, key, t, rule, now, age, cfg);
    var parent := if k in before then before[k].alertId else 0;
    if r.alerts != o.alerts {
      OneMore(o.alerts, r.alerts[|o.alerts|], k, parent);
    } else if r.evidence != o.evidence {
      OneMore(o.evidence, r.evidence[|o.evidence|], k, parent);
    }
  }

  lemma {:induction false} RulesStanding(o: Outcome, key: TrackKey, t: Track, now: int, age: int, cfg: Config, n: nat,
                                         k: AlertKey, before: map<AlertKey, FireRecord>)
    requires Standing(o, k, before, now, cfg) && n <= |cfg.rules|
    ensures var r := ConsiderRules(o, key, t, now, age, cfg, n);
      && Standing(r, k, before, now, cfg)
      && (Answered(o, k, before, now, cfg) ==> Answered(r, k, before, now, cfg))
      && (forall j :: 0 <= j < n && KeyOf(key, cfg.rules[j]) == k && Fires(cfg.rules[j], t, now) ==>
            Answered(r, k, before, now, cfg))
  {
    hide Consider, Standing, Answered, Fires;
    if n > 0 {
      RulesStanding(o, key, t, now, age, cfg, n - 1, k, before);
      ConsiderStanding(ConsiderRules(o, key, t, now, age, cfg, n - 1), key, t, cfg.rules[n - 1], now, age, cfg, k,
                       before);
    }
  }

  lemma {:induction false} AllStanding(o: Outcome, touched: seq<TrackKey>, tracks: map<TrackKey, Track>, now: int,
                                       age: int, cfg: Config, n: nat, k: AlertKey, before: map<AlertKey, FireRecord>)
    requires Standing(o, k, before, now, cfg) && n <= |touched|
    ensures var r := ConsiderAll(o, touched, tracks, now, age, cfg, n);
      && Standing(r, k, before, now, cfg)
      && (forall i, j ::
            (0 <= i < n && 0 <= j < |cfg.rules| && KeyOf(touched[i], cfg.rules[j]) == k
             && Fires(cfg.rules[j], TrackOf(tracks, touched[i]), now)) ==> Answered(r, k, before, now, cfg))
  {
    hide ConsiderRules, Standing, Answered, Fires, TrackOf;
    if n > 0 {
      AllStanding(o, touched, tracks, now, age, cfg, n - 1, k, before);
      RulesStanding(ConsiderAll(o, touched, tracks, now, age, cfg, n - 1), touched[n - 1],
                    TrackOf(tracks, touched[n - 1]), now, age, cfg, |cfg.rules|, k, before);
    }
  }

  // ---- every call of every run ----------------------------------------------

  /** The call carries a detection of the track. */
  ghost predicate Shows(c: Call, key: TrackKey) {
    c.stream == key.0 && exists m :: 0 <= m < |c.tracked| && c.tracked[m].id == key.1 && key.1 >= 0
  }

  lemma {:induction false} TouchesShown(tracks: map<TrackKey, Track>, c: Call, n: nat, m: nat)
    requires m < n <= |c.tracked| && c.tracked[m].id >= 0
    ensures (c.stream, c.tracked[m].id) in ObserveFrame(tracks, c, n).1
  {
    hide Observed, TrackOf;
    if m < n - 1 {
      TouchesShown(tracks, c, n - 1, m);
    }
  }

  /** The track has stayed suspicious for the rule's time: raised by its `i`-th observation, above the
      clearing threshold ever since, for at least `sustain` until `now`. */
  ghost predicate Due(obs: seq<Observation>, now: int, sustain: int) {
    exists i: nat :: RaisedSince(obs, i, |obs|) && now - obs[i].mono >= sustain
  }

  lemma DueFires(rule: Rule, obs: seq<Observation>, now: int)
    requires obs != [] && Due(obs, now, rule.sustain)
    ensures Fires(rule, Replay(obs), now)
  {
    var i: nat :| RaisedSince(obs, i, |obs|) && now - obs[i].mono >= rule.sustain;
    HistoryEndsWithLast(obs, |obs|);
    assert Above(obs, |obs|);
  }

  /** What has been delivered and saved before a call decides what the call owes a key that is due. */
  ghost predicate Served(alerts: seq<Alert>, evidence: seq<Alert>, k: AlertKey, log: seq<Entry>, saved: seq<Entry>,
                         now: int, cfg: Config)
  {
    || Delivered(alerts, k)
    || exists j :: IsLast(log, k, j) && now - log[j].time < cfg.cooldown
                   && (Saved(evidence, k, log[j].id) <==> now - LastRecorded(saved, log[j]) >= cfg.suppressedEvery)
  }

  /** In every run, for any order of timestamps: whenever a call shows a track that has been suspicious
      for a rule's time, the call delivers an alert of that stream, track and rule, unless the last such
      alert fired less than a cooldown ago. Then the call saves evidence for that alert exactly if the
      throttling interval has passed since the alert or its evidence was last recorded. */
  lemma DueAlertsAreServed(calls: seq<Call>, cfg: Config, n: nat, key: TrackKey, j: nat)
    requires n < |calls| && j < |cfg.rules| && Shows(calls[n], key)
    requires var c, seen := calls[n], SeeFrame(SeenAt(calls, n), calls[n], |calls[n].tracked|);
      key in seen && Due(seen[key], if c.capture > 0 then c.capture else c.wall, cfg.rules[j].sustain)
    ensures var h, out, c := History(calls, cfg, n), OutputAt(calls, cfg, true, n), calls[n];
      Served(out.0, out.1, (key.0, key.1, cfg.rules[j].name), h.0, h.1,
             if c.capture > 0 then c.capture else c.wall, cfg)
  {
    hide ObserveFrame, ConsiderAll, Replays, RecordsOk, Standing, Answered, Due, History, Fires, Served, Replay;
    hide PruneTracks, PruneFired, EngineAt;
    var e, h, c, seen := EngineAt(calls, cfg, true, n), History(calls, cfg, n), calls[n], SeenAt(calls, n);
    var all, k := SeeFrame(seen, c, |c.tracked|), (key.0, key.1, cfg.rules[j].name);
    var (tracks, touched) := ObserveFrame(e.tracks, c, |c.tracked|);
    EngineReplays(calls, cfg, n);
    FrameReplays(e.tracks, seen, c, |c.tracked|);
    ReplayOf(tracks, all, key);
    DueFires(cfg.rules[j], all[key], Now(c));
    var m :| 0 <= m < |c.tracked| && c.tracked[m].id == key.1 && key.1 >= 0;
    TouchesShown(e.tracks, c, |c.tracked|, m);
    var i :| 0 <= i < |touched| && touched[i] == key;
    var start := Outcome(e.fired, e.nextId, [], []);
    StartStanding(start, k, Now(c), cfg);
    AllStanding(start, touched, tracks, Now(c), AgeOf(c), cfg, |touched|, k, e.fired);
    HistoryRecords(calls, cfg, n);
    AnsweredIsServed(Judged(e, c, cfg), k, e.fired, e.nextId, h.0, h.1, Now(c), cfg);
  }

  lemma ReplayOf(tracks: map<TrackKey, Track>, seen: Seen, key: TrackKey)
    requires Replays(tracks, seen) && key in seen
    ensures key in tracks && TrackOf(tracks, key) == Replay(seen[key]) && seen[key] != []
  {}

  lemma StartStanding(start: Outcome, k: AlertKey, now: int, cfg: Config)
    requires start.alerts == [] && start.evidence == []
    ensures Standing(start, k, start.fired, now, cfg)
  {}

  lemma AnsweredIsServed(o: Outcome, k: AlertKey, before: map<AlertKey, FireRecord>, nextId: nat, log: seq<Entry>,
                         saved: seq<Entry>, now: int, cfg: Config)
    requires Answered(o, k, before, now, cfg) && RecordsOk(before, nextId, log, saved)
    ensures Served(o.alerts, o.evidence, k, log, saved, now, cfg)
  {
    hide Delivered, Saved, LastRecorded;
    if !Delivered(o.alerts, k) {
      assert Recorded(log, saved, k, before[k]);
    }
  }

  // ---- what is stamped on an alert, and what the clock decides ---------------

  /** Delivered alerts stand alone, evidence is marked and linked; each carries the age of its frame. */
  ghost predicate Stamped(o: Outcome, age: int) {
    && (forall i :: 0 <= i < |o.alerts| ==> !o.alerts[i].suppressed && o.alerts[i].age == age)
    && (forall i :: 0 <= i < |o.evidence| ==> o.evidence[i].suppressed && o.evidence[i].age == age)
  }

  /** The same but for the ages stamped on alerts. */
  ghost predicate SameButAges(a: seq<Alert>, b: seq<Alert>) {
    |a| == |b| && forall i :: 0 <= i < |a| ==> b[i] == a[i].(age := b[i].age)
  }

  ghost predicate Alike(o: Outcome, p: Outcome) {
    o.fired == p.fired && o.nextId == p.nextId && SameButAges(o.alerts, p.alerts) && SameButAges(o.evidence, p.evidence)
  }

  lemma ConsiderAlike(o: Outcome, p: Outcome, key: TrackKey, t: Track, rule: Rule, now: int, age: int, aged: int,
                      cfg: Config)
    requires Alike(o, p)
    ensures Alike(Consider(o, key, t, rule, now, age, cfg), Consider(p, key, t, rule, now, aged, cfg))
    ensures Stamped(o, age) ==> Stamped(Consider(o, key, t, rule, now, age, cfg), age)
  {}

  lemma {:induction false} RulesAlike(o: Outcome, p: Outcome, key: TrackKey, t: Track, now: int, age: int, aged: int,
                                      cfg: Config, n: nat)
    requires Alike(o, p) && n <= |cfg.rules|
    ensures Alike(ConsiderRules(o, key, t, now, age, cfg, n), ConsiderRules(p, key, t, now, aged, cfg, n))
    ensures Stamped(o, age) ==> Stamped(ConsiderRules(o, key, t, now, age, cfg, n), age)
  {
    hide Consider, Alike, Stamped;
    if n > 0 {
      RulesAlike(o, p, key, t, now, age, aged, cfg, n - 1);
      ConsiderAlike(ConsiderRules(o, key, t, now, age, cfg, n - 1), ConsiderRules(p, key, t, now, aged, cfg, n - 1),
                    key, t, cfg.rules[n - 1], now, age, aged, cfg);
    }
  }

  lemma {:induction false} AllAlike(o: Outcome, p: Outcome, touched: seq<TrackKey>, tracks: map<TrackKey, Track>,
                                    now: int, age: int, aged: int, cfg: Config, n: nat)
    requires Alike(o, p) && n <= |touched|
    ensures Alike(ConsiderAll(o, touched, tracks, now, age, cfg, n), ConsiderAll(p, touched, tracks, now, aged, cfg, n))
    ensures Stamped(o, age) ==> Stamped(ConsiderAll(o, touched, tracks, now, age, cfg, n), age)
  {
    hide ConsiderRules, Alike, Stamped;
    if n > 0 {
      AllAlike(o, p, touched, tracks, now, age, aged, cfg, n - 1);
      RulesAlike(ConsiderAll(o, touched, tracks, now, age, cfg, n - 1),
                 ConsiderAll(p, touched, tracks, now, aged, cfg, n - 1),
                 touched[n - 1], TrackOf(tracks, touched[n - 1]), now, age, aged, cfg, |cfg.rules|);
    }
  }

  /** Alerts and evidence carry how old their frame was: never negative with a capture stamp, -1 without. */
  lemma AgesAreStamped(calls: seq<Call>, cfg: Config, n: nat)
    requires n < |calls|
    ensures var out, c := OutputAt(calls, cfg, true, n), calls[n];
      var age := if c.capture <= 0 then -1 else if c.wall <= c.capture then 0 else c.wall - c.capture;
      && (forall i :: 0 <= i < |out.0| ==> !out.0[i].suppressed && out.0[i].age == age)
      && (forall i :: 0 <= i < |out.1| ==> out.1[i].suppressed && out.1[i].age == age)
  {
    hide ObserveFrame, ConsiderAll, PruneTracks, PruneFired;
    var e, c := EngineAt(calls, cfg, true, n), calls[n];
    var (tracks, touched) := ObserveFrame(e.tracks, c, |c.tracked|);
    var start := Outcome(e.fired, e.nextId, [], []);
    AllAlike(start, start, touched, tracks, Now(c), AgeOf(c), AgeOf(c), cfg, |touched|);
  }

  /** The same frames, processed at other times. */
  ghost predicate Retimed(calls: seq<Call>, others: seq<Call>) {
    |others| == |calls|
    && forall i :: 0 <= i < |calls| ==> calls[i].capture > 0 && others[i] == calls[i].(wall := others[i].wall)
  }

  lemma {:induction false} SameSights(tracks: map<TrackKey, Track>, c: Call, d: Call, n: nat)
    requires n <= |c.tracked| && c.capture > 0 && d == c.(wall := d.wall)
    ensures ObserveFrame(tracks, c, n) == ObserveFrame(tracks, d, n)
  {
    hide Observed, TrackOf;
    if n > 0 {
      SameSights(tracks, c, d, n - 1);
    }
  }

  lemma {:induction false} SameEngines(calls: seq<Call>, others: seq<Call>, cfg: Config, n: nat)
    requires Retimed(calls, others) && n <= |calls|
    ensures EngineAt(calls, cfg, true, n) == EngineAt(others, cfg, true, n)
    ensures n < |calls| ==>
      && SameButAges(OutputAt(calls, cfg, true, n).0, OutputAt(others, cfg, true, n).0)
      && SameButAges(OutputAt(calls, cfg, true, n).1, OutputAt(others, cfg, true, n).1)
  {
    hide ObserveFrame, ConsiderAll, PruneTracks, PruneFired;
    if n > 0 {
      SameEngines(calls, others, cfg, n - 1);
      SameCalls(EngineAt(calls, cfg, true, n - 1), calls[n - 1], others[n - 1], cfg);
    }
    if n < |calls| {
      SameCalls(EngineAt(calls, cfg, true, n), calls[n], others[n], cfg);
    }
  }

  lemma SameCalls(e: Engine, c: Call, d: Call, cfg: Config)
    requires c.capture > 0 && d == c.(wall := d.wall)
    ensures var r, s := UpdateWith(e, c, cfg, true), UpdateWith(e, d, cfg, true);
      r.0 == s.0 && SameButAges(r.1, s.1) && SameButAges(r.2, s.2)
  {
    hide ObserveFrame, ConsiderAll, PruneTracks, PruneFired;
    SameSights(e.tracks, c, d, |c.tracked|);
    var (tracks, touched) := ObserveFrame(e.tracks, c, |c.tracked|);
    var start := Outcome(e.fired, e.nextId, [], []);
    AllAlike(start, start, touched, tracks, Now(c), AgeOf(c), AgeOf(d), cfg, |touched|);
  }

  /** When the frames carry capture stamps, the moment they are processed decides nothing but the ages
      stamped on alerts: a backlog delivered in a burst raises the very same alerts and evidence. */
  lemma BurstsChangeNothing(calls: seq<Call>, others: seq<Call>, cfg: Config, n: nat)
    requires Retimed(calls, others) && n < |calls|
    ensures SameButAges(OutputAt(calls, cfg, true, n).0, OutputAt(others, cfg, true, n).0)
    ensures SameButAges(OutputAt(calls, cfg, true, n).1, OutputAt(others, cfg, true, n).1)
  {
    SameEngines(calls, others, cfg, n);
  }

  // ---- what a clean-up leaves -----------------------------------------------

  /** A clean-up, due once 5 s have passed since the last one, bounds what the engine remembers: fire
      records younger than the cooldown, and tracks seen within 30 s. */
  lemma CleanUpForgets(calls: seq<Call>, cfg: Config, n: nat)
    requires n < |calls|
    ensures var c, e := calls[n], EngineAt(calls, cfg, true, n + 1);
      var now := if c.capture > 0 then c.capture else c.wall;
      now > CleanedAt(calls, n) + 5_000_000_000 ==>
        && (forall k :: k in e.fired ==> now - e.fired[k].fired < cfg.cooldown)
        && (forall key :: key in e.tracks ==> now - e.tracks[key].lastSeen <= 30_000_000_000)
  {
    hide ObserveFrame, ConsiderAll;
    EngineReplays(calls, cfg, n);
  }
}
