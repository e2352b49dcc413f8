/** Serial runs: ticks, evaluation errors and prunes, one after the other, with no store
    failure; and what every reachable store satisfies. */
module Serial {
  import opened Base
  import opened RuleState
  import opened Tables
  import opened Dispatch
  import opened Views

  datatype Event =
    | TickEvent(job: Job)
    | ErrorEvent(ruleId: RuleId, message: string, now: Time)
    | PruneEvent(at: Time, window: int)
  {
    function Clock(): Time {
      match this
      case TickEvent(j) => j.now
      case ErrorEvent(_, _, now) => now
      case PruneEvent(at, _) => at
    }
  }

  /** One event. A prune pass may find nothing to do or give up; it never does half. */
  ghost predicate Step(e: Env, w: World, ev: Event, w2: World) {
    match ev
    case TickEvent(j) => w2 == Tick(e, w, j).w
    case ErrorEvent(r, message, now) => w2 == EvalError(e, w, r, message, now)
    case PruneEvent(at, window) =>
      && w2 == w.(db := w2.db, calls := w2.calls)
      && (w2.db == Pruned(w.db, Millis(at - window)) || w2.db == w.db)
  }

  predicate Initial(w: World) {
    w.db.live == map[] && w.db.incidents == map[] && w.db.subStates == map[] && w.db.notes == [] && w.outbox == [] &&
    DistinctIds(w.db.subscriptions)
  }

  ghost predicate Run(e: Env, ws: seq<World>, evs: seq<Event>) {
    && |ws| == |evs| + 1
    && Initial(ws[0])
    && forall k :: 0 <= k < |evs| ==> Step(e, ws[k], evs[k], ws[k + 1])
  }

  /** Every clock reading is at least a millisecond after the epoch. */
  predicate AfterEpoch(evs: seq<Event>) {
    forall k :: 0 <= k < |evs| ==> evs[k].Clock() >= MS
  }

  predicate Monotone(evs: seq<Event>) {
    forall j, k :: 0 <= j <= k < |evs| ==> evs[j].Clock() <= evs[k].Clock()
  }

  // ----- a tick with no failing call -----

  function LiveBefore(w: World, j: Job): Live {
    StoredOrSeed(w.db, j.rule.id)
  }

  function LiveAfter(w: World, j: Job): Live {
    var l := LiveBefore(w, j);
    Applied(l, j.triggered, j.value, j.now, NewId(w, l, j))
  }

  function Change(w: World, j: Job): Transition {
    var l := LiveBefore(w, j);
    TransitionOf(l, j.triggered, j.value, j.now, NewId(w, l, j))
  }

  function MarkedDb(w: World, j: Job): Db {
    var t, db := Change(w, j), PutLive(w.db, LiveAfter(w, j));
    if t.Opened() then OpenIncident(db, t.incidentId, j.rule.id, t.triggeredAt, j.value)
    else if t.Closed() then ResolveIncident(db, t.incidentId, Millis(j.now))
    else db
  }

  /** The world once live state and incident are written, before any subscription is looked at. */
  function Marked(w: World, j: Job): World {
    World(MarkedDb(w, j), w.calls + if Change(w, j).IsTransition() then 4 else 3,
          if Mints(LiveBefore(w, j), j) then w.lastId + 1 else w.lastId, w.outbox)
  }

  lemma TickUnfolds(e: Env, w: World, j: Job)
    requires NoFailures(e) && (w.lastId + 1) !in w.db.incidents
    ensures Tick(e, w, j).w == EvaluateAll(e, Marked(w, j), j.rule.id, LiveAfter(w, j),
                                           ListForRule(w.db.subscriptions, j.rule), Change(w, j), j.now)
  {
  }

  // ----- what every reachable store satisfies -----

  /** A rule is FIRING exactly if it names an incident, and that incident is its own,
      unresolved, and started when the live state says. */
  ghost predicate LiveNamesIncident(db: Db) {
    forall r :: r in db.live ==>
      var row := db.live[r];
      && (row.state == Firing <==> row.incidentId != NO_ID)
      && (row.state == Firing ==>
            && row.triggeredMs > 0
            && row.incidentId in db.incidents
            && db.incidents[row.incidentId].ruleId == r
            && db.incidents[row.incidentId].resolvedMs == None
            && db.incidents[row.incidentId].triggeredMs == row.triggeredMs)
  }

  /** An unresolved incident is the one its rule is firing for. */
  ghost predicate UnresolvedIsLive(db: Db) {
    forall i :: i in db.incidents && db.incidents[i].resolvedMs == None ==>
      db.incidents[i].ruleId in db.live && db.live[db.incidents[i].ruleId].incidentId == i
  }

  /** Audit rows and sub-states belong to stored incidents, and a resolution is only
      marked as sent for an incident that is resolved. */
  ghost predicate ChildrenHaveParents(db: Db) {
    && (forall k :: k in db.subStates ==> k.0 in db.incidents)
    && (forall n :: n in db.notes ==> n.incidentId in db.incidents)
    && (forall k :: k in db.subStates && db.subStates[k].resolved ==> db.incidents[k.0].resolvedMs.Some?)
  }

  ghost predicate Consistent(w: World) {
    && LiveNamesIncident(w.db)
    && UnresolvedIsLive(w.db)
    && ChildrenHaveParents(w.db)
    && (forall i :: i in w.db.incidents ==> 0 < i <= w.lastId)
    && DistinctIds(w.db.subscriptions)
  }

  /** What a tick's transition means when the store is consistent. */
  lemma ChangeMeaning(w: World, j: Job)
    requires Consistent(w)
    ensures var t, ls, l := Change(w, j), LiveAfter(w, j), LiveBefore(w, j);
            && (ls.state == Firing <==> j.triggered) && (ls.state == Firing <==> ls.incidentId != NO_ID)
            && (t.Opened() <==> j.triggered && l.state != Firing)
            && (t.Closed() <==> !j.triggered && l.state == Firing)
            && (t.Opened() ==> t.incidentId == ls.incidentId == w.lastId + 1 && ls.triggeredAt == t.triggeredAt == j.now)
            && (t.Closed() ==> t.incidentId == l.incidentId != NO_ID && ls.incidentId == NO_ID)
            && (!t.IsTransition() ==> ls.incidentId == l.incidentId && ls.triggeredAt == l.triggeredAt)
            && ls.ruleId == j.rule.id && ls.lastValue == j.value
  {
    var l := LiveBefore(w, j);
    ApplyMeaning(l, j.triggered, j.value, j.now, NewId(w, l, j));
    if j.rule.id in w.db.live {
      assert w.db.live[j.rule.id].state == Firing <==> w.db.live[j.rule.id].incidentId != NO_ID;
    }
  }

  /** Writing live state and incident keeps the store consistent. */
  lemma MarkedConsistent(w: World, j: Job)
    requires Consistent(w) && j.now >= MS
    ensures Consistent(Marked(w, j))
    ensures var i := Focus(LiveAfter(w, j), Change(w, j));
            i == NO_ID || i in Marked(w, j).db.incidents
    ensures Change(w, j).Closed() ==>
              Marked(w, j).db.incidents[Change(w, j).incidentId].resolvedMs == Some(Millis(j.now))
  {
    ChangeMeaning(w, j);
    assert j.now / MS > 0;
    var l, m := LiveBefore(w, j), Marked(w, j);
    if j.rule.id in w.db.live && w.db.live[j.rule.id].state == Firing {
      var ms := w.db.live[j.rule.id].triggeredMs;
      assert StoredMs(LoadedTime(ms)) == ms;
    }
  }

  /** When nothing fires and nothing was closed, the subscriptions are not even looked at. */
  lemma {:induction false} QuietTick(e: Env, w: World, r: RuleId, ls: Live, subs: seq<Subscription>, t: Transition, now: Time)
    requires ls.state != Firing && !(t.Closed() && t.incidentId != NO_ID)
    ensures EvaluateAll(e, w, r, ls, subs, t, now) == w
    decreases |subs|
  {
    if subs != [] {
      QuietTick(e, w, r, ls, subs[1..], t, now);
    }
  }

  lemma SentWhenClosed(e: Env, w: World, r: RuleId, ls: Live, s: Subscription, t: Transition, now: Time)
    ensures var w2 := EvaluateSubscription(e, w, r, ls, s, t, now).w;
            forall k :: k in w2.db.subStates && w2.db.subStates[k].resolved ==>
              (k in w.db.subStates && w.db.subStates[k].resolved) || (t.Closed() && k.0 == Focus(ls, t))
  {
    if Target(ls, t, s, now).Some? && !e.fails(w.calls) {
      var i := Focus(ls, t);
      match Decide(i, t, s, GetSub(w.db, i, s.id), now)
      case None =>
      case Some(p) => DeliverTouches(e, Call(w), r, s, i, p.kind, ls.lastValue, now);
    }
  }

  lemma {:induction false} AllSentWhenClosed(e: Env, w: World, r: RuleId, ls: Live, subs: seq<Subscription>, t: Transition, now: Time)
    ensures var w2 := EvaluateAll(e, w, r, ls, subs, t, now);
            forall k :: k in w2.db.subStates && w2.db.subStates[k].resolved ==>
              (k in w.db.subStates && w.db.subStates[k].resolved) || (t.Closed() && k.0 == Focus(ls, t))
    decreases |subs|
  {
    if subs != [] {
      SentWhenClosed(e, w, r, ls, subs[0], t, now);
      AllSentWhenClosed(e, EvaluateSubscription(e, w, r, ls, subs[0], t, now).w, r, ls, subs[1..], t, now);
    }
  }

  lemma TickConsistent(e: Env, w: World, j: Job)
    requires NoFailures(e) && Consistent(w) && j.now >= MS
    ensures Consistent(Tick(e, w, j).w)
    ensures OnlyAbout(Marked(w, j), Tick(e, w, j).w, j.rule.id, Focus(LiveAfter(w, j), Change(w, j)))
  {
    var ls, t, subs := LiveAfter(w, j), Change(w, j), ListForRule(w.db.subscriptions, j.rule);
    TickUnfolds(e, w, j);
    MarkedConsistent(w, j);
    EvaluateAllAbout(e, Marked(w, j), j.rule.id, ls, subs, t, j.now);
    AllSentWhenClosed(e, Marked(w, j), j.rule.id, ls, subs, t, j.now);
    ChangeMeaning(w, j);
    if Focus(ls, t) == NO_ID {
      QuietTick(e, Marked(w, j), j.rule.id, ls, subs, t, j.now);
    }
  }

  lemma ErrorConsistent(e: Env, w: World, r: RuleId, message: string, now: Time)
    requires NoFailures(e) && Consistent(w) && now >= MS
    ensures Consistent(EvalError(e, w, r, message, now))
  {
    if r in w.db.live && w.db.live[r].state == Firing {
      assert StoredMs(LoadedTime(w.db.live[r].triggeredMs)) == w.db.live[r].triggeredMs;
    }
  }

  lemma PruneConsistent(w: World, before: int)
    requires Consistent(w)
    ensures Consistent(w.(db := Pruned(w.db, before)))
  {
    NotesExceptMembers(w.db.notes, ResolvedBefore(w.db, before));
  }

  lemma StepConsistent(e: Env, w: World, ev: Event, w2: World)
    requires NoFailures(e) && Step(e, w, ev, w2) && ev.Clock() >= MS && Consistent(w)
    ensures Consistent(w2)
    ensures w2.db.subscriptions == w.db.subscriptions && w2.db.subscribers == w.db.subscribers
  {
    match ev
    case TickEvent(j) => TickConsistent(e, w, j);
    case ErrorEvent(r, message, now) => ErrorConsistent(e, w, r, message, now);
    case PruneEvent(at, window) => PruneConsistent(w, Millis(at - window));
  }

  /** Every store reached by a serial run is consistent, and runs do not touch the configuration. */
  lemma {:induction false} RunConsistent(e: Env, ws: seq<World>, evs: seq<Event>, k: nat)
    requires NoFailures(e) && Run(e, ws, evs) && AfterEpoch(evs) && k <= |evs|
    ensures Consistent(ws[k])
    ensures ws[k].db.subscriptions == ws[0].db.subscriptions && ws[k].db.subscribers == ws[0].db.subscribers
  {
    if k > 0 {
      RunConsistent(e, ws, evs, k - 1);
      assert Step(e, ws[k - 1], evs[k - 1], ws[k - 1 + 1]);
      StepConsistent(e, ws[k - 1], evs[k - 1], ws[k]);
    }
  }

  predicate OpenFor(db: Db, r: RuleId, i: Id) {
    i in db.incidents && db.incidents[i].ruleId == r && db.incidents[i].resolvedMs == None
  }

  /** At all times a rule is FIRING exactly if one of its incidents is unresolved; then there is
      only that one, and the live state carries its id and start. */
  lemma FiringIffUnresolved(e: Env, ws: seq<World>, evs: seq<Event>, k: nat, r: RuleId)
    requires NoFailures(e) && Run(e, ws, evs) && AfterEpoch(evs) && k <= |evs|
    ensures var db := ws[k].db;
            && ((r in db.live && db.live[r].state == Firing) <==> exists i :: OpenFor(db, r, i))
            && (forall i :: OpenFor(db, r, i) ==>
                  r in db.live && db.live[r].incidentId == i && db.live[r].triggeredMs == db.incidents[i].triggeredMs)
  {
    RunConsistent(e, ws, evs, k);
    var db := ws[k].db;
    if r in db.live && db.live[r].state == Firing {
      assert OpenFor(db, r, db.live[r].incidentId);
    }
  }

  // ----- incidents as intervals -----

  /** Incidents of one rule are intervals, in the order of their ids, that do not overlap. */
  ghost predicate OrderedIntervals(incidents: map<Id, IncidentRow>, clock: Time) {
    && (forall i :: i in incidents ==> incidents[i].triggeredMs <= Millis(clock))
    && (forall i :: i in incidents && incidents[i].resolvedMs.Some? ==>
          incidents[i].triggeredMs <= incidents[i].resolvedMs.value <= Millis(clock))
    && (forall i, j :: i in incidents && j in incidents && i < j && incidents[i].ruleId == incidents[j].ruleId ==>
          incidents[i].resolvedMs.Some? && incidents[i].resolvedMs.value <= incidents[j].triggeredMs)
  }

  lemma IntervalsLater(incidents: map<Id, IncidentRow>, clock: Time, later: Time)
    requires OrderedIntervals(incidents, clock) && clock <= later
    ensures OrderedIntervals(incidents, later)
  {
    MillisMonotone(clock, later);
  }

  lemma OpenedIntervals(incidents: map<Id, IncidentRow>, id: Id, row: IncidentRow, now: Time)
    requires OrderedIntervals(incidents, now) && row.triggeredMs == Millis(now) && row.resolvedMs == None
    requires forall i :: i in incidents ==> i < id && (incidents[i].ruleId == row.ruleId ==> incidents[i].resolvedMs.Some?)
    ensures OrderedIntervals(incidents[id := row], now)
  {
  }

  lemma ResolvedIntervals(incidents: map<Id, IncidentRow>, id: Id, now: Time)
    requires OrderedIntervals(incidents, now) && id in incidents && incidents[id].resolvedMs == None
    ensures OrderedIntervals(incidents[id := incidents[id].(resolvedMs := Some(Millis(now)))], now)
  {
    var after := incidents[id := incidents[id].(resolvedMs := Some(Millis(now)))];
    forall i, j | i in after && j in after && i < j && after[i].ruleId == after[j].ruleId
      ensures after[i].resolvedMs.Some? && after[i].resolvedMs.value <= after[j].triggeredMs
    {
      assert incidents[i].resolvedMs.Some?;
    }
  }

  lemma MarkedIntervals(w: World, j: Job)
    requires Consistent(w) && OrderedIntervals(w.db.incidents, j.now)
    ensures OrderedIntervals(MarkedDb(w, j).incidents, j.now)
  {
    ChangeMeaning(w, j);
    var t := Change(w, j);
    if t.Opened() {
      OpenedIntervals(w.db.incidents, t.incidentId, IncidentRow(j.rule.id, Millis(j.now), None, j.value), j.now);
    } else if t.Closed() {
      ResolvedIntervals(w.db.incidents, t.incidentId, j.now);
    }
  }

  lemma StepIntervals(e: Env, w: World, ev: Event, w2: World, clock: Time)
    requires NoFailures(e) && Step(e, w, ev, w2) && Consistent(w)
    requires OrderedIntervals(w.db.incidents, clock) && MS <= ev.Clock() && clock <= ev.Clock()
    ensures OrderedIntervals(w2.db.incidents, ev.Clock())
  {
    IntervalsLater(w.db.incidents, clock, ev.Clock());
    match ev
    case TickEvent(j) =>
      assert w2.db.incidents == MarkedDb(w, j).incidents by { TickConsistent(e, w, j); }
      MarkedIntervals(w, j);
    case ErrorEvent(_, _, _) => assert w2.db.incidents == w.db.incidents;
    case PruneEvent(_, _) => assert forall i :: i in w2.db.incidents ==> i in w.db.incidents && w2.db.incidents[i] == w.db.incidents[i];
  }

  /** The clock after `k` events. */
  function ClockAfter(evs: seq<Event>, k: nat): Time
    requires k <= |evs|
  {
    if k == 0 then MS else evs[k - 1].Clock()
  }

  /** With a clock that does not run backwards, the incidents of a rule are at all times
      ordered, non-overlapping intervals. */
  lemma {:induction false} IncidentHistory(e: Env, ws: seq<World>, evs: seq<Event>, k: nat)
    requires NoFailures(e) && Run(e, ws, evs) && AfterEpoch(evs) && Monotone(evs) && k <= |evs|
    ensures OrderedIntervals(ws[k].db.incidents, ClockAfter(evs, k))
  {
    if k > 0 {
      var n := k - 1;
      IncidentHistory(e, ws, evs, n);
      RunConsistent(e, ws, evs, n);
      assert ClockAfter(evs, n) <= evs[n].Clock();
      StepIntervals(e, ws[n], evs[n], ws[n + 1], ClockAfter(evs, n));
    }
  }
}
