/** What is documented of one-shot subscriptions, exactly one notification, or one successful
    notification, over the whole lifetime: runs in which it fails, and exactly when it holds. */
module OneShotPromise {
  import opened Base
  import opened RuleState
  import opened Conditions
  import opened Tables
  import opened Dispatch
  import opened Serial
  import opened OneShot
  import Reasons
  import Views

  // ----- a run that sends the batch -----

  /** A rule that the subscription listens to. */
  function HeardRule(s: Subscription): Rule {
    var id := if s.ruleId.Some? then s.ruleId.value else "rule";
    Rule(id, "rule", true, s.selector, "orders", Threshold("total", GT, 1.0), 0)
  }

  /** A valid subscription names a rule or selects labels. */
  predicate ListensAtAll(s: Subscription) {
    s.ruleId.Some? || s.selector != map[]
  }

  function Check(r: Rule, triggered: bool, now: Time): Job {
    Job(r, triggered, "", now)
  }

  lemma HeardRuleListed(subs: seq<Subscription>, s: Subscription)
    requires DistinctIds(subs) && s in subs && ListensAtAll(s)
    ensures s in ListForRule(subs, HeardRule(s))
  {
    ListForRuleExact(subs, HeardRule(s));
  }

  /** The subscription has not heard of the incident that a tick is about. */
  predicate Unheard(w: World, j: Job, s: SubId) {
    GetSub(MarkedDb(w, j), LiveAfter(w, j).incidentId, s) == None
  }

  /** A tick that finds its rule firing, the dwell met, and neither a row nor a notification yet,
      sends a one-shot subscription its batch. */
  lemma TickFires(e: Env, w: World, j: Job, s: Subscription)
    requires NoFailures(e) && Consistent(w) && s in ListForRule(w.db.subscriptions, j.rule) && s.oneShot
    requires j.triggered && j.now - LiveAfter(w, j).triggeredAt >= s.dwell && Unheard(w, j, s.id)
    requires RowsTo(w.db.notes, s.id) == []
    ensures Grows(e, LogOf(e, w, s.id), LogOf(e, Tick(e, w, j).w, s.id),
                  BatchTo(j.rule.id, s.id, LiveAfter(w, j).incidentId, FiringKind, j.value, j.now, BindingsOf(e, w.db.subscribers, s)))
  {
    ChangeMeaning(w, j);
    ListForRuleExact(w.db.subscriptions, j.rule);
    Reasons.TickTells(e, w, j, s, FiringKind);
    assert LogOf(e, w, s.id).messages + [] == LogOf(e, w, s.id).messages;
  }

  /** A tick before the dwell is met leaves the log and the counters of the subscription alone. */
  lemma TickWaits(e: Env, w: World, j: Job, s: Subscription)
    requires Consistent(w) && s in w.db.subscriptions
    requires j.triggered && j.now - LiveAfter(w, j).triggeredAt < s.dwell
    ensures LogOf(e, Tick(e, w, j).w, s.id) == LogOf(e, w, s.id)
    ensures GetSub(Tick(e, w, j).w.db, LiveAfter(w, j).incidentId, s.id) == GetSub(MarkedDb(w, j), LiveAfter(w, j).incidentId, s.id)
  {
    ChangeMeaning(w, j);
    Reasons.TickExplained(e, w, j, s);
  }

  /** A new incident is unheard of. */
  lemma OpeningUnheard(w: World, j: Job, s: SubId)
    requires Consistent(w) && j.triggered && LiveBefore(w, j).state != Firing
    ensures Unheard(w, j, s) && LiveAfter(w, j).triggeredAt == j.now
  {
    ChangeMeaning(w, j);
    assert forall k :: k in w.db.subStates ==> k.0 in w.db.incidents;
  }

  /** So a tick that opens an incident sends the batch at once if there is no dwell and no row. */
  lemma OpeningFires(e: Env, w: World, j: Job, s: Subscription)
    requires NoFailures(e) && Consistent(w) && s in ListForRule(w.db.subscriptions, j.rule) && s.oneShot && s.dwell <= 0
    requires j.triggered && LiveBefore(w, j).state != Firing && RowsTo(w.db.notes, s.id) == []
    ensures Grows(e, LogOf(e, w, s.id), LogOf(e, Tick(e, w, j).w, s.id),
                  BatchTo(j.rule.id, s.id, w.lastId + 1, FiringKind, j.value, j.now, BindingsOf(e, w.db.subscribers, s)))
  {
    ChangeMeaning(w, j);
    OpeningUnheard(w, j, s.id);
    TickFires(e, w, j, s);
  }

  /** What a tick leaves of its rule and its incidents. */
  lemma TickLeaves(e: Env, w: World, j: Job)
    requires NoFailures(e) && Consistent(w) && j.now >= MS
    ensures var w2, l := Tick(e, w, j).w, LiveBefore(w, j);
            && Consistent(w2) && w2.db.subscriptions == w.db.subscriptions && w2.db.subscribers == w.db.subscribers
            && w2.db.incidents == MarkedDb(w, j).incidents
            && (LiveBefore(w2, j).state == Firing <==> j.triggered)
            && LiveBefore(w2, j).incidentId == LiveAfter(w, j).incidentId
  {
    TickConsistent(e, w, j);
    ChangeMeaning(w, j);
    assert Tick(e, w, j).w.db.live == MarkedDb(w, j).live;
  }

  /** A second triggered tick of a rule goes on with the incident of the first. */
  lemma SecondTick(e: Env, w: World, j1: Job, j2: Job, s: SubId)
    requires NoFailures(e) && Consistent(w) && j1.now == MS && j1.triggered && j2.triggered && j1.rule == j2.rule
    requires LiveBefore(w, j1).state != Firing
    ensures var w1 := Tick(e, w, j1).w;
            && LiveAfter(w1, j2).incidentId == LiveAfter(w, j1).incidentId
            && LiveAfter(w1, j2).triggeredAt == MS
            && MarkedDb(w1, j2).subStates == w1.db.subStates
            && w1.db.subscriptions == w.db.subscriptions && w1.db.subscribers == w.db.subscribers
  {
    ChangeMeaning(w, j1);
    TickConsistent(e, w, j1);
    assert Tick(e, w, j1).w.db.live == MarkedDb(w, j1).live;
    ChangeMeaning(Tick(e, w, j1).w, j2);
  }

  /** From `w0` to `w` the subscription was sent its batch. */
  ghost predicate SentBatch(e: Env, w0: World, w: World, s: Subscription) {
    exists r: RuleId, i: Id, k: Kind, value: string, now: Time ::
      Grows(e, LogOf(e, w0, s.id), LogOf(e, w, s.id), BatchTo(r, s.id, i, k, value, now, BindingsOf(e, w0.db.subscribers, s)))
  }

  lemma RunOfOne(e: Env, w0: World, w1: World, ev: Event)
    requires Initial(w0) && Step(e, w0, ev, w1)
    ensures Run(e, [w0, w1], [ev])
  {
  }

  lemma RunGoesOn(e: Env, ws: seq<World>, evs: seq<Event>, ev: Event, w: World)
    requires Run(e, ws, evs) && Step(e, ws[|evs|], ev, w)
    ensures Run(e, ws + [w], evs + [ev])
  {
    var ws2, evs2 := ws + [w], evs + [ev];
    forall k | 0 <= k < |evs2| ensures Step(e, ws2[k], evs2[k], ws2[k + 1]) {
      assert k < |evs| ==> Step(e, ws[k], evs[k], ws[k + 1]);
    }
  }

  lemma InitialIsConsistent(w0: World)
    requires Initial(w0)
    ensures Consistent(w0) && forall s: SubId :: RowsTo(w0.db.notes, s) == [] && MessagesTo(w0.outbox, s) == []
  {
  }

  lemma BatchAtOnce(e: Env, w0: World, s: Subscription)
    requires NoFailures(e) && Initial(w0) && s in w0.db.subscriptions && s.oneShot && ListensAtAll(s) && s.dwell <= 0
    ensures SentBatch(e, w0, Tick(e, w0, Check(HeardRule(s), true, MS)).w, s)
  {
    InitialIsConsistent(w0);
    HeardRuleListed(w0.db.subscriptions, s);
    OpeningUnheard(w0, Check(HeardRule(s), true, MS), s.id);
    TickFires(e, w0, Check(HeardRule(s), true, MS), s);
  }

  lemma BatchAfterDwell(e: Env, w0: World, s: Subscription)
    requires NoFailures(e) && Initial(w0) && s in w0.db.subscriptions && s.oneShot && ListensAtAll(s) && s.dwell > 0
    ensures SentBatch(e, w0, Tick(e, Tick(e, w0, Check(HeardRule(s), true, MS)).w, Check(HeardRule(s), true, MS + s.dwell)).w, s)
  {
    var j1, j2 := Check(HeardRule(s), true, MS), Check(HeardRule(s), true, MS + s.dwell);
    var w1 := Tick(e, w0, j1).w;
    InitialIsConsistent(w0);
    HeardRuleListed(w0.db.subscriptions, s);
    OpeningUnheard(w0, j1, s.id);
    TickWaits(e, w0, j1, s);
    TickConsistent(e, w0, j1);
    SecondTick(e, w0, j1, j2, s.id);
    TickFires(e, w1, j2, s);
  }

  /** A run of ticks, from the store `w0` on, that has sent the batch. */
  ghost predicate BatchRun(e: Env, w0: World, ws: seq<World>, evs: seq<Event>, s: Subscription) {
    Run(e, ws, evs) && AfterEpoch(evs) && NoPrunes(evs) && ws[0] == w0 && SentBatch(e, w0, ws[|evs|], s)
  }

  lemma OneTickRun(e: Env, w0: World, s: Subscription) returns (ws: seq<World>, evs: seq<Event>)
    requires NoFailures(e) && Initial(w0) && s in w0.db.subscriptions && s.oneShot && ListensAtAll(s) && s.dwell <= 0
    ensures BatchRun(e, w0, ws, evs, s)
  {
    var j1 := Check(HeardRule(s), true, MS);
    var w1 := Tick(e, w0, j1).w;
    BatchAtOnce(e, w0, s);
    RunOfOne(e, w0, w1, TickEvent(j1));
    ws, evs := [w0, w1], [TickEvent(j1)];
  }

  lemma TwoTickRun(e: Env, w0: World, s: Subscription) returns (ws: seq<World>, evs: seq<Event>)
    requires NoFailures(e) && Initial(w0) && s in w0.db.subscriptions && s.oneShot && ListensAtAll(s) && s.dwell > 0
    ensures BatchRun(e, w0, ws, evs, s)
  {
    var j1, j2 := Check(HeardRule(s), true, MS), Check(HeardRule(s), true, MS + s.dwell);
    var w1 := Tick(e, w0, j1).w;
    var w2 := Tick(e, w1, j2).w;
    BatchAfterDwell(e, w0, s);
    RunOfTwo(e, w0, w1, w2, TickEvent(j1), TickEvent(j2));
    ws, evs := [w0, w1, w2], [TickEvent(j1), TickEvent(j2)];
  }

  lemma RunOfTwo(e: Env, w0: World, w1: World, w2: World, ev1: Event, ev2: Event)
    requires Initial(w0) && Step(e, w0, ev1, w1) && Step(e, w1, ev2, w2)
    ensures Run(e, [w0, w1, w2], [ev1, ev2])
  {
    RunOfOne(e, w0, w1, ev1);
    RunGoesOn(e, [w0, w1], [ev1], ev2, w2);
    assert [w0, w1] + [w2] == [w0, w1, w2] && [ev1] + [ev2] == [ev1, ev2];
  }

  /** From any initial store there is a short run that sends a one-shot subscription its batch. */
  lemma BatchGoesOut(e: Env, w0: World, s: Subscription) returns (ws: seq<World>, evs: seq<Event>)
    requires NoFailures(e) && Initial(w0) && s in w0.db.subscriptions && s.oneShot && ListensAtAll(s)
    ensures BatchRun(e, w0, ws, evs, s)
  {
    if s.dwell <= 0 {
      ws, evs := OneTickRun(e, w0, s);
    } else {
      ws, evs := TwoTickRun(e, w0, s);
    }
  }

  // ----- exactly one notification -----

  /** In every run from this store, without prunes, at most one message is ever sent for `s`. */
  ghost predicate AtMostOneMessage(e: Env, w0: World, s: Subscription) {
    forall ws: seq<World>, evs: seq<Event> :: Run(e, ws, evs) && AfterEpoch(evs) && NoPrunes(evs) && ws[0] == w0 ==>
      |LogAt(e, ws, |evs|, s).messages| <= 1
  }

  lemma RunLength(e: Env, w0: World, ws: seq<World>, evs: seq<Event>, s: Subscription)
    requires NoFailures(e) && OneShotIn(e, ws, evs, s) && NoPrunes(evs) && ws[0] == w0
    ensures var log, bs := LogAt(e, ws, |evs|, s), BindingsOf(e, w0.db.subscribers, s);
            log.messages == [] || exists r: RuleId, i: Id, k: Kind, value: string, now: Time :: log.messages == BatchTo(r, s.id, i, k, value, now, bs)
  {
    CalmRun(e, ws, evs, s);
    OneBatchPerRun(e, ws, evs, |evs|, s);
  }

  /** At most one notification over the whole lifetime: exactly if the subscription has at most
      one eligible binding. */
  lemma AtMostOneExactly(e: Env, w0: World, s: Subscription)
    requires NoFailures(e) && Initial(w0) && s in w0.db.subscriptions && s.oneShot && ListensAtAll(s)
    ensures AtMostOneMessage(e, w0, s) <==> |BindingsOf(e, w0.db.subscribers, s)| <= 1
  {
    var bs := BindingsOf(e, w0.db.subscribers, s);
    if |bs| <= 1 {
      forall ws: seq<World>, evs: seq<Event> | Run(e, ws, evs) && AfterEpoch(evs) && NoPrunes(evs) && ws[0] == w0
        ensures |LogAt(e, ws, |evs|, s).messages| <= 1
      {
        RunLength(e, w0, ws, evs, s);
      }
    } else {
      var ws, evs := BatchGoesOut(e, w0, s);
      InitialIsConsistent(w0);
      assert |LogAt(e, ws, |evs|, s).messages| == |bs|;
    }
  }

  // ----- a successful one -----

  /** Channels of `good` accept every message to `s`. */
  ghost predicate Reliable(e: Env, outbox: seq<Sent>, s: SubId, good: set<string>) {
    forall n :: 0 <= n < |outbox| && outbox[n].subscriptionId == s && outbox[n].channel in good ==> e.sendOk(n)
  }

  /** In every run from this store, without prunes, whatever other channels do: if anything is
      sent for `s`, some of it is accepted. */
  ghost predicate SuccessGuaranteed(channels: set<string>, w0: World, s: Subscription, good: set<string>) {
    forall e: Env, ws: seq<World>, evs: seq<Event> ::
      NoFailures(e) && e.channels == channels && Run(e, ws, evs) && AfterEpoch(evs) && NoPrunes(evs) && ws[0] == w0
      && Reliable(e, ws[|evs|].outbox, s.id, good) && LogAt(e, ws, |evs|, s).messages != [] ==>
        LogAt(e, ws, |evs|, s).accepted > 0
  }

  lemma {:induction false} GoodMessageAccepted(e: Env, outbox: seq<Sent>, s: SubId, good: set<string>, m: Sent)
    requires Reliable(e, outbox, s, good) && m in MessagesTo(outbox, s) && m.channel in good
    ensures Accepted(e.sendOk, outbox, s) > 0
  {
    var front := outbox[..|outbox| - 1];
    if m in MessagesTo(front, s) {
      GoodMessageAccepted(e, front, s, good, m);
    }
  }

  lemma {:induction false} NoneAccepted(sendOk: nat -> bool, outbox: seq<Sent>, s: SubId)
    requires forall n: nat :: n < |outbox| ==> !sendOk(n)
    ensures Accepted(sendOk, outbox, s) == 0
  {
    if outbox != [] {
      NoneAccepted(sendOk, outbox[..|outbox| - 1], s);
    }
  }

  lemma {:induction false} SameEligible(e: Env, e2: Env, s: Subscription, bindings: seq<Binding>)
    requires e.channels == e2.channels
    ensures Views.EligibleOf(e, s, bindings) == Views.EligibleOf(e2, s, bindings)
    decreases |bindings|
  {
    if bindings != [] {
      SameEligible(e, e2, s, bindings[1..]);
    }
  }

  /** Nothing fails, and no message is accepted. */
  function Deaf(channels: set<string>): Env {
    Env(n => false, n => false, channels)
  }

  predicate SomeGood(bs: seq<Binding>, good: set<string>) {
    exists j :: 0 <= j < |bs| && bs[j].channel in good
  }

  lemma GoodBindingSucceeds(e: Env, ws: seq<World>, evs: seq<Event>, s: Subscription, good: set<string>)
    requires NoFailures(e) && OneShotIn(e, ws, evs, s) && NoPrunes(evs)
    requires SomeGood(BindingsOf(e, ws[0].db.subscribers, s), good) && Reliable(e, ws[|evs|].outbox, s.id, good)
    requires LogAt(e, ws, |evs|, s).messages != []
    ensures LogAt(e, ws, |evs|, s).accepted > 0
  {
    var bs := BindingsOf(e, ws[0].db.subscribers, s);
    RunLength(e, ws[0], ws, evs, s);
    var r: RuleId, i: Id, k: Kind, value: string, now: Time :|
      LogAt(e, ws, |evs|, s).messages == BatchTo(r, s.id, i, k, value, now, bs);
    var j :| 0 <= j < |bs| && bs[j].channel in good;
    GoodMessageAccepted(e, ws[|evs|].outbox, s.id, good, BatchTo(r, s.id, i, k, value, now, bs)[j]);
  }

  /** A successful notification is guaranteed exactly if some eligible binding is on a channel
      that always accepts, or there is no eligible binding and nothing is ever sent. */
  lemma SuccessExactly(e: Env, w0: World, s: Subscription, good: set<string>)
    requires Initial(w0) && s in w0.db.subscriptions && s.oneShot && ListensAtAll(s)
    ensures var bs := BindingsOf(e, w0.db.subscribers, s);
            SuccessGuaranteed(e.channels, w0, s, good) <==> bs == [] || SomeGood(bs, good)
  {
    var bs := BindingsOf(e, w0.db.subscribers, s);
    if bs == [] || SomeGood(bs, good) {
      forall e2: Env, ws: seq<World>, evs: seq<Event> |
        NoFailures(e2) && e2.channels == e.channels && Run(e2, ws, evs) && AfterEpoch(evs) && NoPrunes(evs) && ws[0] == w0
        && Reliable(e2, ws[|evs|].outbox, s.id, good) && LogAt(e2, ws, |evs|, s).messages != []
        ensures LogAt(e2, ws, |evs|, s).accepted > 0
      {
        SameBindings(e, e2, w0, s);
        RunLength(e2, w0, ws, evs, s);
        GoodBindingSucceeds(e2, ws, evs, s, good);
      }
    } else {
      NothingGoodFails(e, w0, s, good);
    }
  }

  lemma SameBindings(e: Env, e2: Env, w0: World, s: Subscription)
    requires e.channels == e2.channels
    ensures BindingsOf(e, w0.db.subscribers, s) == BindingsOf(e2, w0.db.subscribers, s)
  {
    if s.subscriberId in w0.db.subscribers {
      SameEligible(e, e2, s, w0.db.subscribers[s.subscriberId].channels);
    }
  }

  lemma NothingGoodFails(e: Env, w0: World, s: Subscription, good: set<string>)
    requires Initial(w0) && s in w0.db.subscriptions && s.oneShot && ListensAtAll(s)
    requires BindingsOf(e, w0.db.subscribers, s) != [] && !SomeGood(BindingsOf(e, w0.db.subscribers, s), good)
    ensures !SuccessGuaranteed(e.channels, w0, s, good)
  {
    var e2, bs := Deaf(e.channels), BindingsOf(e, w0.db.subscribers, s);
    SameBindings(e, e2, w0, s);
    var ws, evs := BatchGoesOut(e2, w0, s);
    InitialIsConsistent(w0);
    var outbox := ws[|evs|].outbox;
    var r: RuleId, i: Id, k: Kind, value: string, now: Time :|
      Grows(e2, LogOf(e2, w0, s.id), LogAt(e2, ws, |evs|, s), BatchTo(r, s.id, i, k, value, now, bs));
    var batch := BatchTo(r, s.id, i, k, value, now, bs);
    assert LogAt(e2, ws, |evs|, s).messages == [] + batch == batch;
    MessagesMembers(outbox, s.id);
    forall n | 0 <= n < |outbox| && outbox[n].subscriptionId == s.id ensures outbox[n].channel !in good {
      assert outbox[n] in batch;
    }
    NoneAccepted(e2.sendOk, outbox, s.id);
    assert Reliable(e2, outbox, s.id, good);
  }
}
