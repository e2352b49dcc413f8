/** The dispatcher refines the reference: what it sends, with its compressed state, is what
    the history calls for. */
module Refinement {
  import opened Base
  import opened RuleState
  import opened Conditions
  import opened Tables
  import opened Dispatch
  import opened Views
  import opened Serial
  import opened DeliveryLog
  import opened Reference

  function ObsOf(j: Job): Obs {
    Obs(j.triggered, j.value, j.now)
  }

  /** The evaluation outcomes of one rule, in order. */
  function HistoryOf(evs: seq<Event>, r: RuleId): seq<Obs> {
    if evs == [] then []
    else
      HistoryOf(evs[..|evs| - 1], r) +
      match evs[|evs| - 1]
      case TickEvent(j) => if j.rule.id == r then [ObsOf(j)] else []
      case ErrorEvent(_, _, _) => []
      case PruneEvent(_, _) => []
  }

  /** A subscription that listens to rule `r`, and the bindings it is sent to. */
  ghost predicate Listens(w: World, r: Rule, s: Subscription) {
    && s in w.db.subscriptions
    && (DirectMatch(s, r) || LabelMatch(s, r))
    && s.subscriberId in w.db.subscribers
  }

  function BindingsOf(e: Env, w: World, s: Subscription): seq<Binding>
    requires s.subscriberId in w.db.subscribers
  {
    EligibleOf(e, s, w.db.subscribers[s.subscriberId].channels)
  }

  /** How the live state summarizes the history. */
  ghost predicate LiveTracks(l: Live, h: seq<Obs>) {
    && (l.state == Firing <==> InRun(h))
    && (InRun(h) ==> l.triggeredAt == FloorMs(h[Start(h)].now))
  }

  /** How the sub-state of the live incident summarizes the alerts of the run. */
  ghost predicate SubTracks(stored: Option<SubState>, h: seq<Obs>, s: Subscription) {
    InRun(h) ==>
      match LastAlert(h, s)
      case None => stored.None?
      case Some(m) => stored.Some? && stored.value.notifyCount > 0 && !stored.value.resolutionSent
                      && stored.value.lastNotifiedAt == FloorMs(h[m].now)
  }

  ghost predicate Tracks(e: Env, w: World, r: Rule, s: Subscription, h: seq<Obs>)
    requires s.subscriberId in w.db.subscribers
  {
    var l := StoredOrSeed(w.db, r.id);
    && LiveTracks(l, h)
    && SubTracks(GetSub(w.db, l.incidentId, s.id), h, s)
    && (!s.oneShot ==> DeliveriesTo(w.outbox, r.id, s.id) == Due(h, s, BindingsOf(e, w, s)))
  }

  /** One tick, seen by the subscription: its new sub-state summarizes the longer history, and
      it was sent what that history calls for, unless the gate of a one-shot subscription was
      closed. */
  ghost predicate Refines(e: Env, bs: seq<Binding>, v: SubView, v2: SubView, j: Job, s: Subscription, h: seq<Obs>) {
    var h2 := h + [ObsOf(j)];
    && SubTracks(v2.stored, h2, s)
    && v2.sent == v.sent + match BatchDue(h2, s)
                           case None => []
                           case Some(k) => if s.oneShot && v.seen then [] else BatchDeliveries(k, j.value, j.now, bs)
  }

  ghost predicate DecisionPre(subscribers: map<string, Subscriber>, l: Live, id: Id, j: Job, s: Subscription, h: seq<Obs>) {
    && LiveTracks(l, h) && j.now >= MS && id != NO_ID
    && (l.state == Firing <==> l.incidentId != NO_ID)
    && s.subscriberId in subscribers
  }

  lemma OpeningRefines(e: Env, subscribers: map<string, Subscriber>, v: SubView, l: Live, id: Id, j: Job, s: Subscription, h: seq<Obs>)
    requires DecisionPre(subscribers, l, id, j, s, h)
    requires j.triggered && !InRun(h) && v.stored.None?
    ensures var ls, t := Applied(l, j.triggered, j.value, j.now, id), TransitionOf(l, j.triggered, j.value, j.now, id);
            Refines(e, EligibleOf(e, s, subscribers[s.subscriberId].channels), v,
                    ViewStep(e, subscribers, v, ls, s, t, j.now), j, s, h)
  {
    var h2 := h + [ObsOf(j)];
    assert Front(h2) == h && Last(h2) == ObsOf(j);
    StoreRoundTrip(j.now);
    assert v.sent + [] == v.sent;
    assert LastAlert(Front(h2), s) == None && Start(h2) == |h|;
    assert AlertDue(h2, s) <==> s.dwell <= 0;
  }

  lemma OngoingRefines(e: Env, subscribers: map<string, Subscriber>, v: SubView, l: Live, id: Id, j: Job, s: Subscription, h: seq<Obs>)
    requires DecisionPre(subscribers, l, id, j, s, h)
    requires j.triggered && InRun(h) && SubTracks(v.stored, h, s)
    ensures var ls, t := Applied(l, j.triggered, j.value, j.now, id), TransitionOf(l, j.triggered, j.value, j.now, id);
            Refines(e, EligibleOf(e, s, subscribers[s.subscriberId].channels), v,
                    ViewStep(e, subscribers, v, ls, s, t, j.now), j, s, h)
  {
    var h2 := h + [ObsOf(j)];
    assert Front(h2) == h && Last(h2) == ObsOf(j);
    OngoingDue(j, s, h);
    StoreRoundTrip(j.now);
    assert v.sent + [] == v.sent;
  }

  /** In an ongoing run an alert takes the dwell and, after the first one, the repeat interval. */
  lemma OngoingDue(j: Job, s: Subscription, h: seq<Obs>)
    requires j.triggered && InRun(h)
    ensures var h2 := h + [ObsOf(j)];
            && InRun(h2) && Front(h2) == h
            && (AlertDue(h2, s) <==>
                  && j.now - FloorMs(h[Start(h)].now) >= s.dwell
                  && (LastAlert(h, s).Some? ==>
                        s.repeatInterval > 0 && j.now - FloorMs(h[LastAlert(h, s).value].now) >= s.repeatInterval))
  {
    var h2 := h + [ObsOf(j)];
    assert Front(h2) == h && Last(h2) == ObsOf(j);
    assert Start(h2) == Start(h) && h2[Start(h)] == h[Start(h)];
    if LastAlert(h, s).Some? {
      assert h2[LastAlert(h, s).value] == h[LastAlert(h, s).value];
    }
  }

  lemma QuietRefines(e: Env, subscribers: map<string, Subscriber>, v: SubView, l: Live, id: Id, j: Job, s: Subscription, h: seq<Obs>)
    requires DecisionPre(subscribers, l, id, j, s, h)
    requires !j.triggered && SubTracks(v.stored, h, s)
    ensures var ls, t := Applied(l, j.triggered, j.value, j.now, id), TransitionOf(l, j.triggered, j.value, j.now, id);
            Refines(e, EligibleOf(e, s, subscribers[s.subscriberId].channels), v,
                    ViewStep(e, subscribers, v, ls, s, t, j.now), j, s, h)
  {
    var h2 := h + [ObsOf(j)];
    assert Front(h2) == h && Last(h2) == ObsOf(j);
    assert v.sent + [] == v.sent;
  }

  /** The stored live state keeps summarizing the history of its rule. */
  lemma LiveKeepsTracking(w: World, j: Job, h: seq<Obs>)
    requires Consistent(w) && j.now >= MS && LiveTracks(LiveBefore(w, j), h)
    ensures var l := StoredOrSeed(MarkedDb(w, j), j.rule.id);
            LiveTracks(l, h + [ObsOf(j)]) && l.incidentId == LiveAfter(w, j).incidentId
  {
    var h2, l := h + [ObsOf(j)], LiveBefore(w, j);
    assert Front(h2) == h && Last(h2) == ObsOf(j);
    ChangeMeaning(w, j);
    StoreRoundTrip(j.now);
    if InRun(h) {
      assert h2[Start(h)] == h[Start(h)];
      var ms := w.db.live[j.rule.id].triggeredMs;
      assert ms > 0 && LoadedTime(StoredMs(LoadedTime(ms))) == LoadedTime(ms);
    }
  }

  /** A tick of the rule itself: what the subscription is sent is due. */
  lemma OwnTickRefines(e: Env, w: World, j: Job, s: Subscription, h: seq<Obs>)
    requires NoFailures(e) && Consistent(w) && j.now >= MS && Listens(w, j.rule, s)
    requires Tracks(e, w, j.rule, s, h)
    ensures var i := Focus(LiveAfter(w, j), Change(w, j));
            Refines(e, BindingsOf(e, w, s), ViewOf(Marked(w, j), j.rule.id, i, s.id), ViewOf(Tick(e, w, j).w, j.rule.id, i, s.id), j, s, h)
  {
    var l, ls, t, m := LiveBefore(w, j), LiveAfter(w, j), Change(w, j), Marked(w, j);
    var i := Focus(ls, t);
    var v := ViewOf(m, j.rule.id, i, s.id);
    ChangeMeaning(w, j);
    ListForRuleExact(w.db.subscriptions, j.rule);
    TickOwnView(e, w, j, s);
    var id := if Mints(l, j) then w.lastId + 1 else 1;
    assert ls == Applied(l, j.triggered, j.value, j.now, id) && t == TransitionOf(l, j.triggered, j.value, j.now, id);
    if !j.triggered {
      QuietRefines(e, w.db.subscribers, v, l, id, j, s, h);
    } else if InRun(h) {
      OngoingRefines(e, w.db.subscribers, v, l, id, j, s, h);
    } else {
      assert (i, s.id) !in w.db.subStates;
      OpeningRefines(e, w.db.subscribers, v, l, id, j, s, h);
    }
  }

  lemma OwnTickTracks(e: Env, w: World, j: Job, s: Subscription, h: seq<Obs>)
    requires NoFailures(e) && Consistent(w) && j.now >= MS && Listens(w, j.rule, s)
    requires Tracks(e, w, j.rule, s, h)
    ensures var w2 := Tick(e, w, j).w;
            w2.db.subscribers == w.db.subscribers && Tracks(e, w2, j.rule, s, h + [ObsOf(j)])
  {
    var h2, w2 := h + [ObsOf(j)], Tick(e, w, j).w;
    TickConsistent(e, w, j);
    LiveKeepsTracking(w, j, h);
    OwnTickRefines(e, w, j, s, h);
    assert Front(h2) == h && Last(h2) == ObsOf(j);
    assert w2.db.live == MarkedDb(w, j).live;
    if InRun(h2) {
      ChangeMeaning(w, j);
    }
  }

  /** A tick of another rule. */
  lemma OtherTickTracks(e: Env, w: World, j: Job, r: Rule, s: Subscription, h: seq<Obs>)
    requires NoFailures(e) && Consistent(w) && j.now >= MS && Listens(w, r, s)
    requires Tracks(e, w, r, s, h) && j.rule.id != r.id
    ensures var w2 := Tick(e, w, j).w;
            w2.db.subscribers == w.db.subscribers && Tracks(e, w2, r, s, h)
  {
    var w2, i, l := Tick(e, w, j).w, Focus(LiveAfter(w, j), Change(w, j)), StoredOrSeed(w.db, r.id);
    ChangeMeaning(w, j);
    TickConsistent(e, w, j);
    assert StoredOrSeed(w2.db, r.id) == l by {
      assert w2.db.live == MarkedDb(w, j).live;
    }
    if InRun(h) {
      assert l.incidentId in w.db.incidents && w.db.incidents[l.incidentId].ruleId == r.id;
      assert l.incidentId != i;
      assert GetSub(w2.db, l.incidentId, s.id) == GetSub(w.db, l.incidentId, s.id);
    }
  }

  lemma ErrorTracks(e: Env, w: World, ruleId: RuleId, message: string, now: Time, r: Rule, s: Subscription, h: seq<Obs>)
    requires NoFailures(e) && Consistent(w) && Listens(w, r, s) && Tracks(e, w, r, s, h)
    ensures Tracks(e, EvalError(e, w, ruleId, message, now), r, s, h)
  {
    var w2 := EvalError(e, w, ruleId, message, now);
    if r.id in w.db.live && w.db.live[r.id].state == Firing {
      var ms := w.db.live[r.id].triggeredMs;
      assert ms > 0 && LoadedTime(StoredMs(LoadedTime(ms))) == LoadedTime(ms);
    }
    assert w2.outbox == w.outbox && w2.db.subStates == w.db.subStates;
  }

  lemma PruneTracks(e: Env, w: World, before: int, w2: World, r: Rule, s: Subscription, h: seq<Obs>)
    requires Consistent(w) && Listens(w, r, s) && Tracks(e, w, r, s, h)
    requires w2 == w.(db := Pruned(w.db, before), calls := w2.calls)
    ensures Tracks(e, w2, r, s, h)
  {
    var l := StoredOrSeed(w.db, r.id);
    if InRun(h) {
      assert l.incidentId in w.db.incidents && w.db.incidents[l.incidentId].resolvedMs == None;
      assert l.incidentId !in ResolvedBefore(w.db, before);
    }
  }

  lemma StepTracks(e: Env, w: World, ev: Event, w2: World, r: Rule, s: Subscription, h: seq<Obs>)
    requires NoFailures(e) && Step(e, w, ev, w2) && Consistent(w) && ev.Clock() >= MS && Listens(w, r, s)
    requires Tracks(e, w, r, s, h)
    requires ev.TickEvent? && ev.job.rule.id == r.id ==> ev.job.rule == r
    ensures w2.db.subscribers == w.db.subscribers
    ensures Tracks(e, w2, r, s, if ev.TickEvent? && ev.job.rule.id == r.id then h + [ObsOf(ev.job)] else h)
  {
    match ev
    case TickEvent(j) =>
      if j.rule.id == r.id {
        OwnTickTracks(e, w, j, s, h);
      } else {
        OtherTickTracks(e, w, j, r, s, h);
      }
    case ErrorEvent(ruleId, message, now) => ErrorTracks(e, w, ruleId, message, now, r, s, h);
    case PruneEvent(at, window) =>
      if w2.db != w.db {
        PruneTracks(e, w, Millis(at - window), w2, r, s, h);
      }
  }

  /** The rule is evaluated with the same definition throughout. */
  predicate SameRule(evs: seq<Event>, r: Rule) {
    forall k :: 0 <= k < |evs| && evs[k].TickEvent? && evs[k].job.rule.id == r.id ==> evs[k].job.rule == r
  }

  lemma {:induction false} RunTracks(e: Env, ws: seq<World>, evs: seq<Event>, k: nat, r: Rule, s: Subscription)
    requires NoFailures(e) && Run(e, ws, evs) && AfterEpoch(evs) && SameRule(evs, r) && k <= |evs|
    requires Listens(ws[0], r, s)
    ensures ws[k].db.subscribers == ws[0].db.subscribers
    ensures Tracks(e, ws[k], r, s, HistoryOf(evs[..k], r.id))
  {
    if k > 0 {
      var n := k - 1;
      RunTracks(e, ws, evs, n, r, s);
      RunConsistent(e, ws, evs, n);
      assert evs[..k][..n] == evs[..n] && evs[..k][n] == evs[n];
      assert HistoryOf(evs[..n], r.id) + [] == HistoryOf(evs[..n], r.id);
      StepTracks(e, ws[n], evs[n], ws[n + 1], r, s, HistoryOf(evs[..n], r.id));
    }
  }

  /** Refinement. Over every serial run of ticks of any rules, evaluation errors and prunes,
      the messages sent for a recurring subscription about a rule are exactly the messages
      that the history of the rule's evaluation outcomes calls for. */
  lemma DispatcherRefinesReference(e: Env, ws: seq<World>, evs: seq<Event>, k: nat, r: Rule, s: Subscription)
    requires NoFailures(e) && Run(e, ws, evs) && AfterEpoch(evs) && SameRule(evs, r) && k <= |evs|
    requires Listens(ws[0], r, s) && !s.oneShot
    ensures DeliveriesTo(ws[k].outbox, r.id, s.id) == Due(HistoryOf(evs[..k], r.id), s, BindingsOf(e, ws[0], s))
  {
    RunTracks(e, ws, evs, k, r, s);
  }
}
