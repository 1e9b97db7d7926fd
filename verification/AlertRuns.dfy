/** Whole runs of the event engine: cooldown spacing, evidence, pruning, and what backs an alert. */
module AlertRuns {
  import opened Suspicion
  import opened AlertEngine

  /** The engine after the first `n` calls. */
  function EngineAt(calls: seq<Call>, cfg: Config, pruning: bool, n: nat): Engine
    requires n <= |calls|
  {
    if n == 0 then NEW_ENGINE else UpdateWith(EngineAt(calls, cfg, pruning, n - 1), calls[n - 1], cfg, pruning).0
  }

  /** The alerts and the evidence call `n` produces. */
  function OutputAt(calls: seq<Call>, cfg: Config, pruning: bool, n: nat): (seq<Alert>, seq<Alert>)
    requires n < |calls|
  {
    var r := UpdateWith(EngineAt(calls, cfg, pruning, n), calls[n], cfg, pruning);
    (r.1, r.2)
  }

  function AlertKeyOf(a: Alert): AlertKey { (a.stream, a.track, a.rule) }

  // ---- pruning fire records is unobservable ---------------------------------

  /** The pruned records are the others without some that suppress nothing any more. */
  ghost predicate SameLive(pruned: map<AlertKey, FireRecord>, all: map<AlertKey, FireRecord>, now: int, cfg: Config) {
    && (forall k :: k in pruned ==> k in all && all[k] == pruned[k])
    && (forall k :: k in all && k !in pruned ==> now - all[k].fired >= cfg.cooldown)
  }

  ghost predicate Twins(o: Outcome, p: Outcome, now: int, cfg: Config) {
    o.nextId == p.nextId && o.alerts == p.alerts && o.evidence == p.evidence && SameLive(o.fired, p.fired, now, cfg)
  }

  lemma ConsiderTwins(o: Outcome, p: Outcome, key: TrackKey, t: Track, rule: Rule, now: int, age: int, cfg: Config)
    requires Twins(o, p, now, cfg)
    ensures Twins(Consider(o, key, t, rule, now, age, cfg), Consider(p, key, t, rule, now, age, cfg), now, cfg)
  {
    assert Cooling(o.fired, KeyOf(key, rule), now, cfg) == Cooling(p.fired, KeyOf(key, rule), now, cfg);
  }

  lemma {:induction false} RulesTwins(o: Outcome, p: Outcome, key: TrackKey, t: Track, now: int, age: int, cfg: Config,
                                      n: nat)
    requires Twins(o, p, now, cfg) && n <= |cfg.rules|
    ensures Twins(ConsiderRules(o, key, t, now, age, cfg, n), ConsiderRules(p, key, t, now, age, cfg, n), now, cfg)
  {
    hide Consider, Twins;
    if n > 0 {
      RulesTwins(o, p, key, t, now, age, cfg, n - 1);
      ConsiderTwins(ConsiderRules(o, key, t, now, age, cfg, n - 1), ConsiderRules(p, key, t, now, age, cfg, n - 1),
                    key, t, cfg.rules[n - 1], now, age, cfg);
    }
  }

  lemma {:induction false} AllTwins(o: Outcome, p: Outcome, touched: seq<TrackKey>, tracks: map<TrackKey, Track>,
                                    now: int, age: int, cfg: Config, n: nat)
    requires Twins(o, p, now, cfg) && n <= |touched|
    ensures Twins(ConsiderAll(o, touched, tracks, now, age, cfg, n),
                  ConsiderAll(p, touched, tracks, now, age, cfg, n), now, cfg)
  {
    hide ConsiderRules, Twins;
    if n > 0 {
      AllTwins(o, p, touched, tracks, now, age, cfg, n - 1);
      RulesTwins(ConsiderAll(o, touched, tracks, now, age, cfg, n - 1),
                 ConsiderAll(p, touched, tracks, now, age, cfg, n - 1),
                 touched[n - 1], TrackOf(tracks, touched[n - 1]), now, age, cfg, |cfg.rules|);
    }
  }

  ghost predicate SameButRecords(e: Engine, f: Engine, now: int, cfg: Config) {
    e.tracks == f.tracks && e.lastPrune == f.lastPrune && e.nextId == f.nextId && SameLive(e.fired, f.fired, now, cfg)
  }

  lemma UpdateTwins(e: Engine, f: Engine, c: Call, cfg: Config)
    requires SameButRecords(e, f, Now(c), cfg)
    ensures var (e', alerts, evidence) := UpdateWith(e, c, cfg, true);
      UpdateWith(f, c, cfg, false) == (UpdateWith(f, c, cfg, false).0, alerts, evidence)
      && SameButRecords(e', UpdateWith(f, c, cfg, false).0, Now(c), cfg)
  {
    hide ConsiderAll, ObserveFrame, PruneTracks;
    var (tracks, touched) := ObserveFrame(e.tracks, c, |c.tracked|);
    AllTwins(Outcome(e.fired, e.nextId, [], []), Outcome(f.fired, f.nextId, [], []), touched, tracks, Now(c), AgeOf(c),
             cfg, |touched|);
  }

  ghost predicate NoSkew(calls: seq<Call>, skew: int) {
    forall i, j :: 0 <= i < j < |calls| ==> Now(calls[j]) >= Now(calls[i]) - skew
  }

  lemma {:induction false} EnginesTwin(calls: seq<Call>, cfg: Config, n: nat, now: int)
    requires NoSkew(calls, 0) && n <= |calls| && forall i :: 0 <= i < n ==> Now(calls[i]) <= now
    ensures SameButRecords(EngineAt(calls, cfg, true, n), EngineAt(calls, cfg, false, n), now, cfg)
    decreases n
  {
    hide UpdateWith, Now;
    if n > 0 {
      EnginesTwin(calls, cfg, n - 1, Now(calls[n - 1]));
      UpdateTwins(EngineAt(calls, cfg, true, n - 1), EngineAt(calls, cfg, false, n - 1), calls[n - 1], cfg);
      LiveLater(EngineAt(calls, cfg, true, n).fired, EngineAt(calls, cfg, false, n).fired, Now(calls[n - 1]), now, cfg);
    }
  }

  lemma LiveLater(pruned: map<AlertKey, FireRecord>, all: map<AlertKey, FireRecord>, now: int, later: int, cfg: Config)
    requires SameLive(pruned, all, now, cfg) && now <= later
    ensures SameLive(pruned, all, later, cfg)
  {}

  /** While timestamps never go backwards, the bounded map of fire records behaves exactly like one
      that is never pruned: every call produces the same alerts and the same evidence. */
  lemma PruningUnobservable(calls: seq<Call>, cfg: Config, n: nat)
    requires NoSkew(calls, 0) && n < |calls|
    ensures OutputAt(calls, cfg, true, n) == OutputAt(calls, cfg, false, n)
  {
    hide UpdateWith, Now;
    EnginesTwin(calls, cfg, n, Now(calls[n]));
    UpdateTwins(EngineAt(calls, cfg, true, n), EngineAt(calls, cfg, false, n), calls[n], cfg);
  }

  // ---- the history of alerts and evidence -----------------------------------

  /** An alert, or a piece of evidence with the alert it belongs to. */
  datatype Entry = Entry(key: AlertKey, time: int, id: nat, parent: int)

  function EntryOf(a: Alert, time: int): Entry { Entry(AlertKeyOf(a), time, a.id, a.parent) }

  function Entries(alerts: seq<Alert>, time: int): (r: seq<Entry>)
    ensures |r| == |alerts| && forall k :: 0 <= k < |r| ==> r[k] == EntryOf(alerts[k], time)
  {
    seq(|alerts|, k requires 0 <= k < |alerts| => EntryOf(alerts[k], time))
  }

  /** Everything fired, and everything saved as evidence, by the first `n` calls. */
  function History(calls: seq<Call>, cfg: Config, n: nat): (seq<Entry>, seq<Entry>)
    requires n <= |calls|
  {
    if n == 0 then ([], [])
    else
      var h, out := History(calls, cfg, n - 1), OutputAt(calls, cfg, true, n - 1);
      (h.0 + Entries(out.0, Now(calls[n - 1])), h.1 + Entries(out.1, Now(calls[n - 1])))
  }

  // ---- cooldown spacing -----------------------------------------------------

  /** Every alert fired so far is the current record of its key, or its cooldown is over at `latest`. */
  ghost predicate Covered(fired: map<AlertKey, FireRecord>, log: seq<Entry>, latest: int, cfg: Config) {
    forall i :: 0 <= i < |log| ==>
      (log[i].key in fired && fired[log[i].key].fired == log[i].time) || latest >= log[i].time + cfg.cooldown
  }

  ghost predicate Spaced(log: seq<Entry>, gap: int) {
    forall i, j :: 0 <= i < j < |log| && log[i].key == log[j].key ==> log[j].time - log[i].time >= gap
  }

  /** `o` continues a history that fired `log` before this call. */
  ghost predicate SpacedSoFar(o: Outcome, log: seq<Entry>, now: int, latest: int, skew: int, cfg: Config) {
    var all := log + Entries(o.alerts, now);
    Covered(o.fired, all, latest, cfg) && Spaced(all, cfg.cooldown - skew)
  }

  lemma ConsiderSpaced(o: Outcome, key: TrackKey, t: Track, rule: Rule, now: int, age: int, cfg: Config,
                       log: seq<Entry>, latest: int, skew: nat)
    requires SpacedSoFar(o, log, now, latest, skew, cfg) && latest - skew <= now <= latest
    ensures SpacedSoFar(Consider(o, key, t, rule, now, age, cfg), log, now, latest, skew, cfg)
  {
    var r := Consider(o, key, t, rule, now, age, cfg);
    var all := log + Entries(o.alerts, now);
    if r.alerts != o.alerts {
      var x := EntryOf(r.alerts[|o.alerts|], now);
      assert log + Entries(r.alerts, now) == all + [x];
      assert x.key == KeyOf(key, rule) && r.fired == o.fired[x.key := FireRecord(now, x.id, now)];
      SpacedMore(o.fired, all, x, latest, skew, cfg);
    } else {
      forall k | k in o.fired ensures k in r.fired && r.fired[k].fired == o.fired[k].fired {}
    }
  }

  lemma SpacedMore(fired: map<AlertKey, FireRecord>, all: seq<Entry>, x: Entry, latest: int, skew: nat, cfg: Config)
    requires Covered(fired, all, latest, cfg) && Spaced(all, cfg.cooldown - skew)
    requires latest - skew <= x.time <= latest && !Cooling(fired, x.key, x.time, cfg)
    ensures Covered(fired[x.key := FireRecord(x.time, x.id, x.time)], all + [x], latest, cfg)
    ensures Spaced(all + [x], cfg.cooldown - skew)
  {}

  lemma {:induction false} RulesSpaced(o: Outcome, key: TrackKey, t: Track, now: int, age: int, cfg: Config, n: nat,
                                       log: seq<Entry>, latest: int, skew: nat)
    requires SpacedSoFar(o, log, now, latest, skew, cfg) && latest - skew <= now <= latest && n <= |cfg.rules|
    ensures SpacedSoFar(ConsiderRules(o, key, t, now, age, cfg, n), log, now, latest, skew, cfg)
  {
    hide Consider, SpacedSoFar;
    if n > 0 {
      RulesSpaced(o, key, t, now, age, cfg, n - 1, log, latest, skew);
      ConsiderSpaced(ConsiderRules(o, key, t, now, age, cfg, n - 1), key, t, cfg.rules[n - 1], now, age, cfg, log,
                     latest, skew);
    }
  }

  lemma {:induction false} AllSpaced(o: Outcome, touched: seq<TrackKey>, tracks: map<TrackKey, Track>, now: int,
                                     age: int, cfg: Config, n: nat, log: seq<Entry>, latest: int, skew: nat)
    requires SpacedSoFar(o, log, now, latest, skew, cfg) && latest - skew <= now <= latest && n <= |touched|
    ensures SpacedSoFar(ConsiderAll(o, touched, tracks, now, age, cfg, n), log, now, latest, skew, cfg)
  {
    hide ConsiderRules, SpacedSoFar;
    if n > 0 {
      AllSpaced(o, touched, tracks, now, age, cfg, n - 1, log, latest, skew);
      RulesSpaced(ConsiderAll(o, touched, tracks, now, age, cfg, n - 1), touched[n - 1],
                  TrackOf(tracks, touched[n - 1]),
                  now, age, cfg, |cfg.rules|, log, latest, skew);
    }
  }

  function Latest(calls: seq<Call>, n: nat): int
    requires n <= |calls| && n > 0
  {
    if n == 1 then Now(calls[0])
    else if Latest(calls, n - 1) > Now(calls[n - 1]) then Latest(calls, n - 1) else Now(calls[n - 1])
  }

  lemma {:induction false} LatestBounds(calls: seq<Call>, n: nat, skew: nat)
    requires NoSkew(calls, skew) && 0 < n <= |calls|
    ensures Latest(calls, n) - skew <= Now(calls[n - 1]) <= Latest(calls, n)
    ensures exists i :: 0 <= i < n && Latest(calls, n) == Now(calls[i])
  {
    if n > 1 {
      LatestBounds(calls, n - 1, skew);
    } else {
      assert Latest(calls, n) == Now(calls[0]);
    }
  }

  lemma PruneKeepsCover(fired: map<AlertKey, FireRecord>, log: seq<Entry>, now: int, latest: int, cfg: Config)
    requires Covered(fired, log, latest, cfg) && now <= latest
    ensures Covered(PruneFired(fired, now, cfg), log, latest, cfg)
  {}

  lemma UpdateSpaced(e: Engine, c: Call, cfg: Config, log: seq<Entry>, latest: int, skew: nat)
    requires Covered(e.fired, log, latest, cfg) && Spaced(log, cfg.cooldown - skew) && latest - skew <= Now(c) <= latest
    ensures var (f, alerts, evidence) := UpdateWith(e, c, cfg, true);
      Covered(f.fired, log + Entries(alerts, Now(c)), latest, cfg)
        && Spaced(log + Entries(alerts, Now(c)), cfg.cooldown - skew)
  {
    hide ConsiderAll, ObserveFrame, PruneTracks, PruneFired, Covered, Spaced;
    var (tracks, touched) := ObserveFrame(e.tracks, c, |c.tracked|);
    var start := Outcome(e.fired, e.nextId, [], []);
    assert log + Entries([], Now(c)) == log;
    AllSpaced(start, touched, tracks, Now(c), AgeOf(c), cfg, |touched|, log, latest, skew);
    var o := Judged(e, c, cfg);
    PruneKeepsCover(o.fired, log + Entries(o.alerts, Now(c)), Now(c), latest, cfg);
  }

  lemma {:induction false} HistorySpaced(calls: seq<Call>, cfg: Config, skew: nat, n: nat)
    requires NoSkew(calls, skew) && n <= |calls|
    ensures Spaced(History(calls, cfg, n).0, cfg.cooldown - skew)
    ensures n > 0 ==> Covered(EngineAt(calls, cfg, true, n).fired, History(calls, cfg, n).0, Latest(calls, n), cfg)
  {
    hide UpdateWith, Covered, Spaced, Now;
    if n == 0 {
      NothingFired(cfg, skew, 0);
    } else {
      HistorySpaced(calls, cfg, skew, n - 1);
      LatestBounds(calls, n, skew);
      var e, log := EngineAt(calls, cfg, true, n - 1), History(calls, cfg, n - 1).0;
      if n == 1 {
        NothingFired(cfg, skew, Latest(calls, n));
      } else {
        CoverLater(e.fired, log, Latest(calls, n - 1), Latest(calls, n), cfg);
      }
      UpdateSpaced(e, calls[n - 1], cfg, log, Latest(calls, n), skew);
    }
  }

  lemma NothingFired(cfg: Config, skew: nat, latest: int)
    ensures Spaced([], cfg.cooldown - skew) && Covered(map[], [], latest, cfg)
  {}

  lemma CoverLater(fired: map<AlertKey, FireRecord>, log: seq<Entry>, latest: int, later: int, cfg: Config)
    requires Covered(fired, log, latest, cfg) && latest <= later
    ensures Covered(fired, log, later, cfg)
  {}

  /** If no call's timestamp falls more than `skew` below an earlier one, two alerts for the same
      stream, track and rule are at least cooldown - skew apart, in every run. */
  lemma CooldownSpacing(calls: seq<Call>, cfg: Config, skew: nat)
    requires NoSkew(calls, skew)
    ensures var log := History(calls, cfg, |calls|).0;
      forall i, j :: 0 <= i < j < |log| && log[i].key == log[j].key ==> log[j].time - log[i].time >= cfg.cooldown - skew
  {
    HistorySpaced(calls, cfg, skew, |calls|);
    hide UpdateWith, Covered;
  }

  // ---- evidence -------------------------------------------------------------

  /** How many pieces of evidence are linked to the alert `id`. */
  function Linked(evidence: seq<Entry>, id: int): (n: nat)
    ensures n <= |evidence|
  {
    if evidence == [] then 0
    else Linked(evidence[..|evidence| - 1], id) + if evidence[|evidence| - 1].parent == id then 1 else 0
  }

  lemma LinkedSnoc(evidence: seq<Entry>, x: Entry, id: int)
    ensures Linked(evidence + [x], id) == Linked(evidence, id) + if x.parent == id then 1 else 0
  {
    assert (evidence + [x])[..|evidence|] == evidence;
  }

  /** `n` intervals of length `every`. */
  function Intervals(n: nat, every: int): int { if n == 0 then 0 else Intervals(n - 1, every) + every }

  lemma {:induction false} IntervalsTimes(n: nat, every: int)
    ensures Intervals(n, every) == n * every
  {
    if n > 0 {
      IntervalsTimes(n - 1, every);
    }
  }

  ghost predicate Names(log: seq<Entry>, i: int, k: AlertKey, rec: FireRecord) {
    0 <= i < |log| && log[i].key == k && log[i].id == rec.alertId
  }

  /** The record of a key names a fired alert of that key, and its last evidence lies as many
      intervals after the alert as there are pieces of evidence. */
  ghost predicate RecordOk(log: seq<Entry>, evidence: seq<Entry>, k: AlertKey, rec: FireRecord, cfg: Config) {
    var n := Linked(evidence, rec.alertId);
    && (exists i :: Names(log, i, k, rec))
    && rec.lastSuppressed >= rec.fired + Intervals(n, cfg.suppressedEvery)
    && (n > 0 ==> rec.lastSuppressed - rec.fired < cfg.cooldown)
  }

  ghost predicate Bounded(evidence: seq<Entry>, id: int, cfg: Config) {
    var n := Linked(evidence, id);
    n > 0 ==> Intervals(n, cfg.suppressedEvery) < cfg.cooldown
  }

  /** A piece of evidence belongs to a fired alert of its own stream, track and rule. */
  ghost predicate Parented(log: seq<Entry>, x: Entry) {
    exists i :: 0 <= i < |log| && log[i].id == x.parent && log[i].key == x.key
  }

  ghost predicate EvidenceOk(fired: map<AlertKey, FireRecord>, nextId: nat, log: seq<Entry>, evidence: seq<Entry>,
                             cfg: Config) {
    && (forall i :: 0 <= i < |log| ==> log[i].id < nextId)
    && (forall i, j :: 0 <= i < j < |log| ==> log[i].id != log[j].id)
    && (forall k :: k in fired ==> RecordOk(log, evidence, k, fired[k], cfg))
    && (forall i :: 0 <= i < |log| ==> Bounded(evidence, log[i].id, cfg))
    && (forall j :: 0 <= j < |evidence| ==> Parented(log, evidence[j]))
  }

  lemma NewAlertOk(fired: map<AlertKey, FireRecord>, nextId: nat, log: seq<Entry>, evidence: seq<Entry>, x: Entry,
                   cfg: Config)
    requires EvidenceOk(fired, nextId, log, evidence, cfg) && x.id == nextId
    ensures EvidenceOk(fired[x.key := FireRecord(x.time, x.id, x.time)], nextId + 1, log + [x], evidence, cfg)
  {
    var all, now := log + [x], fired[x.key := FireRecord(x.time, x.id, x.time)];
    Unlinked(log, evidence, nextId);
    assert Bounded(evidence, x.id, cfg);
    forall k | k in now ensures RecordOk(all, evidence, k, now[k], cfg) {
      if k == x.key {
        assert Names(all, |log|, k, now[k]);
      } else {
        var i :| Names(log, i, k, fired[k]);
        assert Names(all, i, k, now[k]);
      }
    }
    forall j | 0 <= j < |evidence| ensures Parented(all, evidence[j]) {
      var i :| 0 <= i < |log| && log[i].id == evidence[j].parent && log[i].key == evidence[j].key;
      assert all[i] == log[i];
    }
  }

  lemma {:induction false} Unlinked(log: seq<Entry>, evidence: seq<Entry>, id: nat)
    requires forall i :: 0 <= i < |log| ==> log[i].id < id
    requires forall j :: 0 <= j < |evidence| ==> Parented(log, evidence[j])
    ensures Linked(evidence, id) == 0
  {
    if evidence != [] {
      assert Parented(log, evidence[|evidence| - 1]);
      Unlinked(log, evidence[..|evidence| - 1], id);
    }
  }

  /** Two records never name one alert. */
  lemma OwnAlerts(fired: map<AlertKey, FireRecord>, nextId: nat, log: seq<Entry>, evidence: seq<Entry>, cfg: Config,
                  j: AlertKey, k: AlertKey)
    requires EvidenceOk(fired, nextId, log, evidence, cfg) && j in fired && k in fired && j != k
    ensures fired[j].alertId != fired[k].alertId
  {
    assert RecordOk(log, evidence, j, fired[j], cfg) && RecordOk(log, evidence, k, fired[k], cfg);
    hide EvidenceOk;
    var i :| Names(log, i, j, fired[j]);
    var m :| Names(log, m, k, fired[k]);
  }

  lemma OthersEvidence(log: seq<Entry>, evidence: seq<Entry>, x: Entry, k: AlertKey, rec: FireRecord, cfg: Config)
    requires RecordOk(log, evidence, k, rec, cfg) && x.parent != rec.alertId
    ensures RecordOk(log, evidence + [x], k, rec, cfg)
  {
    LinkedSnoc(evidence, x, rec.alertId);
  }

  lemma OwnEvidence(log: seq<Entry>, evidence: seq<Entry>, x: Entry, k: AlertKey, rec: FireRecord, cfg: Config)
    requires RecordOk(log, evidence, k, rec, cfg) && x.parent == rec.alertId
    requires x.time - rec.lastSuppressed >= cfg.suppressedEvery && x.time - rec.fired < cfg.cooldown
    ensures RecordOk(log, evidence + [x], k, rec.(lastSuppressed := x.time), cfg)
    ensures Bounded(evidence + [x], x.parent, cfg)
    ensures x.key == k ==> Parented(log, x)
  {
    LinkedSnoc(evidence, x, rec.alertId);
    var i :| Names(log, i, k, rec);
    assert Names(log, i, k, rec.(lastSuppressed := x.time));
  }

  lemma BoundedOthers(evidence: seq<Entry>, x: Entry, id: int, cfg: Config)
    requires Bounded(evidence, id, cfg) && x.parent != id
    ensures Bounded(evidence + [x], id, cfg)
  {
    LinkedSnoc(evidence, x, id);
  }

  /** A piece of evidence saved at `now` for the record of `k`. */
  lemma NewEvidenceOk(fired: map<AlertKey, FireRecord>, nextId: nat, log: seq<Entry>, evidence: seq<Entry>,
                      k: AlertKey, x: Entry, cfg: Config)
    requires EvidenceOk(fired, nextId, log, evidence, cfg) && Cooling(fired, k, x.time, cfg)
    requires x.key == k && x.parent == fired[k].alertId && x.time - fired[k].lastSuppressed >= cfg.suppressedEvery
    ensures EvidenceOk(fired[k := fired[k].(lastSuppressed := x.time)], nextId + 1, log, evidence + [x], cfg)
  {
    hide RecordOk, Bounded, Parented;
    var all, now := evidence + [x], fired[k := fired[k].(lastSuppressed := x.time)];
    OwnEvidence(log, evidence, x, k, fired[k], cfg);
    forall j | j in now ensures RecordOk(log, all, j, now[j], cfg) {
      if j != k {
        OwnAlerts(fired, nextId, log, evidence, cfg, j, k);
        OthersEvidence(log, evidence, x, j, fired[j], cfg);
      }
    }
    forall m | 0 <= m < |log| ensures Bounded(all, log[m].id, cfg) {
      if log[m].id != x.parent {
        BoundedOthers(evidence, x, log[m].id, cfg);
      }
    }
  }

  /** The history at some point inside a call. */
  ghost predicate EvidenceSoFar(o: Outcome, log: seq<Entry>, evidence: seq<Entry>, now: int, cfg: Config) {
    EvidenceOk(o.fired, o.nextId, log + Entries(o.alerts, now), evidence + Entries(o.evidence, now), cfg)
  }

  lemma ConsiderEvidence(o: Outcome, key: TrackKey, t: Track, rule: Rule, now: int, age: int, cfg: Config,
                         log: seq<Entry>, evidence: seq<Entry>)
    requires EvidenceSoFar(o, log, evidence, now, cfg)
    ensures EvidenceSoFar(Consider(o, key, t, rule, now, age, cfg), log, evidence, now, cfg)
  {
    hide EvidenceOk;
    var r := Consider(o, key, t, rule, now, age, cfg);
    var fires, saved := log + Entries(o.alerts, now), evidence + Entries(o.evidence, now);
    if r.alerts != o.alerts {
      var x := EntryOf(r.alerts[|o.alerts|], now);
      assert log + Entries(r.alerts, now) == fires + [x];
      NewAlertOk(o.fired, o.nextId, fires, saved, x, cfg);
    } else if r.evidence != o.evidence {
      var x := EntryOf(r.evidence[|o.evidence|], now);
      assert evidence + Entries(r.evidence, now) == saved + [x];
      NewEvidenceOk(o.fired, o.nextId, fires, saved, KeyOf(key, rule), x, cfg);
    } else if r.nextId != o.nextId {
      MoreIdsOk(o.fired, o.nextId, fires, saved, cfg);
    }
  }

  lemma MoreIdsOk(fired: map<AlertKey, FireRecord>, nextId: nat, log: seq<Entry>, evidence: seq<Entry>, cfg: Config)
    requires EvidenceOk(fired, nextId, log, evidence, cfg)
    ensures EvidenceOk(fired, nextId + 1, log, evidence, cfg)
  {}

  lemma {:induction false} RulesEvidence(o: Outcome, key: TrackKey, t: Track, now: int, age: int, cfg: Config, n: nat,
                                         log: seq<Entry>, evidence: seq<Entry>)
    requires EvidenceSoFar(o, log, evidence, now, cfg) && n <= |cfg.rules|
    ensures EvidenceSoFar(ConsiderRules(o, key, t, now, age, cfg, n), log, evidence, now, cfg)
  {
    hide Consider, EvidenceSoFar;
    if n > 0 {
      RulesEvidence(o, key, t, now, age, cfg, n - 1, log, evidence);
      ConsiderEvidence(ConsiderRules(o, key, t, now, age, cfg, n - 1), key, t, cfg.rules[n - 1], now, age, cfg, log,
                       evidence);
    }
  }

  lemma {:induction false} AllEvidence(o: Outcome, touched: seq<TrackKey>, tracks: map<TrackKey, Track>, now: int,
                                       age: int, cfg: Config, n: nat, log: seq<Entry>, evidence: seq<Entry>)
    requires EvidenceSoFar(o, log, evidence, now, cfg) && n <= |touched|
    ensures EvidenceSoFar(ConsiderAll(o, touched, tracks, now, age, cfg, n), log, evidence, now, cfg)
  {
    hide ConsiderRules, EvidenceSoFar;
    if n > 0 {
      AllEvidence(o, touched, tracks, now, age, cfg, n - 1, log, evidence);
      RulesEvidence(ConsiderAll(o, touched, tracks, now, age, cfg, n - 1), touched[n - 1],
                    TrackOf(tracks, touched[n - 1]),
                    now, age, cfg, |cfg.rules|, log, evidence);
    }
  }

  lemma PruneKeepsEvidence(fired: map<AlertKey, FireRecord>, nextId: nat, log: seq<Entry>, evidence: seq<Entry>,
                           now: int, cfg: Config)
    requires EvidenceOk(fired, nextId, log, evidence, cfg)
    ensures EvidenceOk(PruneFired(fired, now, cfg), nextId, log, evidence, cfg)
  {}

  lemma {:induction false} HistoryEvidence(calls: seq<Call>, cfg: Config, n: nat)
    requires n <= |calls|
    ensures var e, h := EngineAt(calls, cfg, true, n), History(calls, cfg, n);
      EvidenceOk(e.fired, e.nextId, h.0, h.1, cfg)
  {
    if n > 0 {
      hide ConsiderAll, ObserveFrame, PruneTracks, PruneFired, EvidenceOk;
      HistoryEvidence(calls, cfg, n - 1);
      var e, h, c := EngineAt(calls, cfg, true, n - 1), History(calls, cfg, n - 1), calls[n - 1];
      var (tracks, touched) := ObserveFrame(e.tracks, c, |c.tracked|);
      var start := Outcome(e.fired, e.nextId, [], []);
      assert h.0 + Entries([], Now(c)) == h.0 && h.1 + Entries([], Now(c)) == h.1;
      AllEvidence(start, touched, tracks, Now(c), AgeOf(c), cfg, |touched|, h.0, h.1);
      var o := Judged(e, c, cfg);
      PruneKeepsEvidence(o.fired, o.nextId, h.0 + Entries(o.alerts, Now(c)), h.1 + Entries(o.evidence, Now(c)), Now(c),
                         cfg);
    }
  }

  /** In every run, whatever the order of timestamps: the pieces of evidence linked to an alert, times
      the throttling interval, stay below the cooldown; and each piece belongs to a fired alert of its
      own stream, track and rule. */
  lemma EvidenceBound(calls: seq<Call>, cfg: Config)
    ensures var h := History(calls, cfg, |calls|);
      && (forall i :: 0 <= i < |h.0| ==>
            Linked(h.1, h.0[i].id) == 0 || Linked(h.1, h.0[i].id) * cfg.suppressedEvery < cfg.cooldown)
      && (forall j :: 0 <= j < |h.1| ==> Parented(h.0, h.1[j]))
      && (forall i, j :: 0 <= i < j < |h.0| ==> h.0[i].id != h.0[j].id)
  {
    HistoryEvidence(calls, cfg, |calls|);
    hide UpdateWith, RecordOk, Parented, History, EngineAt, Linked;
    var h := History(calls, cfg, |calls|);
    forall i | 0 <= i < |h.0|
      ensures Linked(h.1, h.0[i].id) == 0 || Linked(h.1, h.0[i].id) * cfg.suppressedEvery < cfg.cooldown
    {
      assert Bounded(h.1, h.0[i].id, cfg);
      IntervalsTimes(Linked(h.1, h.0[i].id), cfg.suppressedEvery);
    }
  }

  // ---- what backs an alert --------------------------------------------------

  /** The observations of each live track since it was created. */
  type Seen = map<TrackKey, seq<Observation>>

  function SeenOf(seen: Seen, key: TrackKey): seq<Observation> { if key in seen then seen[key] else [] }

  /** A detection as its track sees it, at the capture stamp of the frame or, without one, at the clock. */
  function Sight(c: Call, d: Tracked): Observation {
    Observation(c.frame, if c.capture > 0 then c.capture else c.wall, d.cls, d.confidence, d.box)
  }

  function SeeFrame(seen: Seen, c: Call, n: nat): Seen
    requires n <= |c.tracked|
  {
    if n == 0 then seen
    else
      var before, d := SeeFrame(seen, c, n - 1), c.tracked[n - 1];
      if d.id < 0 then before
      else before[(c.stream, d.id) := SeenOf(before, (c.stream, d.id)) + [Sight(c, d)]]
  }

  /** The instant of the last clean-up among the first `n` calls: more than 5 s lie between two. */
  function CleanedAt(calls: seq<Call>, n: nat): int
    requires n <= |calls|
  {
    if n == 0 then 0
    else if Now(calls[n - 1]) > CleanedAt(calls, n - 1) + 5_000_000_000 then Now(calls[n - 1])
    else CleanedAt(calls, n - 1)
  }

  /** A track last seen within 30 s is still of interest. */
  predicate Recent(obs: seq<Observation>, now: int) { obs != [] && obs[|obs| - 1].mono >= now - 30_000_000_000 }

  /** What each live track has seen by the end of the first `n` calls. A clean-up forgets the tracks not
      seen for 30 s, which then start afresh. */
  function SeenAt(calls: seq<Call>, n: nat): Seen
    requires n <= |calls|
  {
    if n == 0 then map[]
    else
      var seen, now := SeeFrame(SeenAt(calls, n - 1), calls[n - 1], |calls[n - 1].tracked|), Now(calls[n - 1]);
      if now > CleanedAt(calls, n - 1) + 5_000_000_000 then map key | key in seen && Recent(seen[key], now) :: seen[key]
      else seen
  }

  /** Every live track is the replay of what it has seen. */
  ghost predicate Replays(tracks: map<TrackKey, Track>, seen: Seen) {
    && tracks.Keys == seen.Keys
    && (forall key :: key in seen ==> seen[key] != [] && tracks[key] == Replay(seen[key]))
  }

  lemma ReplaySnoc(obs: seq<Observation>, o: Observation)
    ensures Replay(obs + [o]) == Observed(Replay(obs), o)
  {
    hide Observed;
    StateStays(obs, obs + [o], |obs|);
  }

  lemma {:induction false} FrameReplays(tracks: map<TrackKey, Track>, seen: Seen, c: Call, n: nat)
    requires Replays(tracks, seen) && n <= |c.tracked|
    ensures Replays(ObserveFrame(tracks, c, n).0, SeeFrame(seen, c, n))
    ensures forall key :: key in ObserveFrame(tracks, c, n).1 ==> Touched(SeeFrame(seen, c, n), c, key)
  {
    hide Observed, Replay;
    if n > 0 {
      FrameReplays(tracks, seen, c, n - 1);
      var d := c.tracked[n - 1];
      if d.id >= 0 {
        var key, before := (c.stream, d.id), SeeFrame(seen, c, n - 1);
        ReplaySnoc(SeenOf(before, key), ObservationOf(c, d));
        ReplayFresh();
      }
    }
  }

  lemma ReplayFresh()
    ensures Replay([]) == FRESH
  {}

  /** The track's newest observation is of this call. */
  ghost predicate Touched(seen: Seen, c: Call, key: TrackKey) {
    key in seen && seen[key] != [] && seen[key][|seen[key]| - 1].mono == Now(c)
  }

  lemma {:induction false} EngineReplays(calls: seq<Call>, cfg: Config, n: nat)
    requires n <= |calls|
    ensures Replays(EngineAt(calls, cfg, true, n).tracks, SeenAt(calls, n))
    ensures EngineAt(calls, cfg, true, n).lastPrune == CleanedAt(calls, n)
  {
    hide ObserveFrame, Replay, Judged, PruneFired, PruneTracks;
    if n > 0 {
      EngineReplays(calls, cfg, n - 1);
      var e, c := EngineAt(calls, cfg, true, n - 1), calls[n - 1];
      FrameReplays(e.tracks, SeenAt(calls, n - 1), c, |c.tracked|);
      PruneReplays(ObserveFrame(e.tracks, c, |c.tracked|).0, SeeFrame(SeenAt(calls, n - 1), c, |c.tracked|), Now(c));
    }
  }

  lemma PruneReplays(tracks: map<TrackKey, Track>, seen: Seen, now: int)
    requires Replays(tracks, seen)
    ensures Replays(PruneTracks(tracks, now), map key | key in seen && Recent(seen[key], now) :: seen[key])
  {
    hide Replay;
    forall key | key in seen ensures tracks[key].lastSeen == seen[key][|seen[key]| - 1].mono {
      LastSeenIsLast(seen[key]);
    }
  }

  lemma LastSeenIsLast(obs: seq<Observation>)
    requires obs != []
    ensures Replay(obs).lastSeen == obs[|obs| - 1].mono
  {}

  /** An alert at `now` is backed by a span of observations of its track: raised at the start of the
      span, above the clearing threshold after every observation in it, and at least `sustain` long. */
  ghost predicate Backed(a: Alert, obs: seq<Observation>, now: int, sustain: int) {
    && obs != [] && obs[|obs| - 1].mono == now && a.last == obs[|obs| - 1]
    && a.score == Replay(obs).ewma > CLEAR_AT
    && exists i: nat :: RaisedSince(obs, i, |obs|) && now - obs[i].mono >= sustain && a.raisedFor == now - obs[i].mono
  }

  ghost predicate BackedBy(a: Alert, seen: Seen, now: int, cfg: Config) {
    && (a.stream, a.track) in seen
    && exists j :: 0 <= j < |cfg.rules| && cfg.rules[j].name == a.rule
                   && Backed(a, seen[(a.stream, a.track)], now, cfg.rules[j].sustain)
  }

  ghost predicate AllBacked(o: Outcome, seen: Seen, now: int, cfg: Config) {
    && (forall k :: 0 <= k < |o.alerts| ==> BackedBy(o.alerts[k], seen, now, cfg))
    && (forall k :: 0 <= k < |o.evidence| ==> BackedBy(o.evidence[k], seen, now, cfg))
  }

  lemma {:induction false} HistoryEndsWithLast(obs: seq<Observation>, n: nat)
    requires 0 < n <= |obs|
    ensures StateAt(obs, n).history != [] && StateAt(obs, n).history[|StateAt(obs, n).history| - 1] == obs[n - 1]
  {}

  lemma AlertBacked(rule: Rule, key: TrackKey, obs: seq<Observation>, now: int, age: int, id: nat)
    requires obs != [] && obs[|obs| - 1].mono == now && Fires(rule, Replay(obs), now)
    ensures Backed(AlertFor(rule, key, Replay(obs), now, age, id), obs, now, rule.sustain)
  {
    Hysteresis(obs, |obs|);
    HistoryEndsWithLast(obs, |obs|);
    var i := RaiseIsBacked(obs, |obs|);
    assert RaisedSince(obs, i, |obs|);
  }

  lemma ConsiderBacked(o: Outcome, key: TrackKey, j: nat, now: int, age: int, cfg: Config, seen: Seen)
    requires AllBacked(o, seen, now, cfg) && j < |cfg.rules|
    requires key in seen && seen[key] != [] && seen[key][|seen[key]| - 1].mono == now
    ensures AllBacked(Consider(o, key, Replay(seen[key]), cfg.rules[j], now, age, cfg), seen, now, cfg)
  {
    hide Replay, Fires, Backed;
    var t := Replay(seen[key]);
    if Fires(cfg.rules[j], t, now) {
      AlertBacked(cfg.rules[j], key, seen[key], now, age, o.nextId);
      var a := AlertFor(cfg.rules[j], key, t, now, age, o.nextId);
      forall parent ensures BackedBy(a.(suppressed := true, parent := parent), seen, now, cfg) {
        SameBacking(a, a.(suppressed := true, parent := parent), seen[key], now, cfg.rules[j].sustain);
      }
      assert BackedBy(a, seen, now, cfg);
    }
  }

  lemma SameBacking(a: Alert, b: Alert, obs: seq<Observation>, now: int, sustain: int)
    requires Backed(a, obs, now, sustain) && b.last == a.last && b.score == a.score && b.raisedFor == a.raisedFor
    ensures Backed(b, obs, now, sustain)
  {}

  lemma {:induction false} RulesBacked(o: Outcome, key: TrackKey, now: int, age: int, cfg: Config, n: nat, seen: Seen)
    requires AllBacked(o, seen, now, cfg) && n <= |cfg.rules|
    requires key in seen && seen[key] != [] && seen[key][|seen[key]| - 1].mono == now
    ensures AllBacked(ConsiderRules(o, key, Replay(seen[key]), now, age, cfg, n), seen, now, cfg)
  {
    hide Consider, AllBacked, Replay;
    if n > 0 {
      RulesBacked(o, key, now, age, cfg, n - 1, seen);
      ConsiderBacked(ConsiderRules(o, key, Replay(seen[key]), now, age, cfg, n - 1), key, n - 1, now, age, cfg, seen);
    }
  }

  lemma {:induction false} TouchedBacked(o: Outcome, touched: seq<TrackKey>, tracks: map<TrackKey, Track>, c: Call,
                                         cfg: Config, n: nat, seen: Seen)
    requires AllBacked(o, seen, Now(c), cfg) && n <= |touched| && Replays(tracks, seen)
    requires forall key :: key in touched ==> Touched(seen, c, key)
    ensures AllBacked(ConsiderAll(o, touched, tracks, Now(c), AgeOf(c), cfg, n), seen, Now(c), cfg)
  {
    hide ConsiderRules, AllBacked, Replay;
    if n > 0 {
      TouchedBacked(o, touched, tracks, c, cfg, n - 1, seen);
      var key := touched[n - 1];
      assert Touched(seen, c, key);
      RulesBacked(ConsiderAll(o, touched, tracks, Now(c), AgeOf(c), cfg, n - 1), key, Now(c), AgeOf(c), cfg,
                  |cfg.rules|, seen);
    }
  }

  /** Every alert of every run, delivered or saved as evidence, is backed by what its track has seen;
      the span is measured on the calls' own timestamps, capture stamps wherever present. */
  lemma AlertsAreBacked(calls: seq<Call>, cfg: Config, n: nat)
    requires n < |calls|
    ensures var seen := SeeFrame(SeenAt(calls, n), calls[n], |calls[n].tracked|);
      var out := OutputAt(calls, cfg, true, n);
      && (forall k :: 0 <= k < |out.0| ==> BackedBy(out.0[k], seen, Now(calls[n]), cfg))
      && (forall k :: 0 <= k < |out.1| ==> BackedBy(out.1[k], seen, Now(calls[n]), cfg))
  {
    hide ObserveFrame, ConsiderAll, Replays, BackedBy;
    EngineReplays(calls, cfg, n);
    var e, c := EngineAt(calls, cfg, true, n), calls[n];
    var (tracks, touched) := ObserveFrame(e.tracks, c, |c.tracked|);
    FrameReplays(e.tracks, SeenAt(calls, n), c, |c.tracked|);
    TouchedBacked(Outcome(e.fired, e.nextId, [], []), touched, tracks, c, cfg, |touched|,
                  SeeFrame(SeenAt(calls, n), c, |c.tracked|));
  }
}
