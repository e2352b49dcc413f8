/** Why a subscription is told something: what has to hold before a tick for a message of each
    kind to be sent, over every serial run and whatever store calls fail in it. */
module Reasons {
  import opened Base
  import opened RuleState
  import opened Tables
  import opened Dispatch
  import opened Serial
  import opened OneShot
  import DeliveryLog
  import Views

  // ----- one tick -----

  /** How long the rule has been firing at the tick; the tick that opens an incident starts it. */
  function HeldFor(l: Live, j: Job): int {
    if l.state == Firing then j.now - l.triggeredAt else 0
  }

  /** What a message of kind `k` takes: the live state before the tick, its outcome, and the
      counters stored for the incident. */
  predicate Reason(k: Kind, l: Live, j: Job, s: Subscription, stored: Option<SubState>) {
    match k
    case FiringKind =>
      j.triggered && HeldFor(l, j) >= s.dwell && (stored.Some? ==> stored.value.notifyCount == 0)
    case RepeatKind =>
      && j.triggered && HeldFor(l, j) >= s.dwell && stored.Some? && stored.value.notifyCount > 0
      && s.repeatInterval > 0 && j.now - stored.value.lastNotifiedAt >= s.repeatInterval
    case ResolvedKind =>
      && !j.triggered && l.state == Firing && s.notifyOnResolve
      && stored.Some? && stored.value.notifyCount > 0 && !stored.value.resolutionSent
  }

  ghost predicate NoReason(l: Live, j: Job, s: Subscription, stored: Option<SubState>) {
    forall k: Kind :: !Reason(k, l, j, s, stored)
  }

  /** The time that is read back for `t`. */
  function Kept(t: Time): Time {
    if t >= MS then FloorMs(t) else ZERO_TIME
  }

  /** The counters after a telling of kind `k`. */
  function Counted(k: Kind, stored: Option<SubState>, i: Id, s: SubId, now: Time): SubState {
    if stored.None? then SubState(i, s, Kept(now), 1, false)
    else
      match k
      case ResolvedKind => stored.value.(resolutionSent := true, lastNotifiedAt := Kept(stored.value.lastNotifiedAt))
      case _ => stored.value.(lastNotifiedAt := Kept(now), notifyCount := stored.value.notifyCount + 1)
  }

  /** One telling: a batch, unless the gate of a one-shot subscription is closed or something
      fails; the counters are moved on only if the batch went out or the gate stopped it. */
  ghost predicate Tells(e: Env, before: Log, after: Log, stored: Option<SubState>, stored2: Option<SubState>,
                        r: RuleId, s: Subscription, i: Id, k: Kind, value: string, now: Time, bs: seq<Binding>) {
    var sends, closed := Grows(e, before, after, BatchTo(r, s.id, i, k, value, now, bs)), s.oneShot && before.rows != [];
    && (if closed then after == before else after == before || sends)
    && (stored2 == stored || (stored2 == Some(Counted(k, stored, i, s.id, now)) && (closed || sends)))
    && (NoFailures(e) && (bs != [] || closed) ==> stored2 == Some(Counted(k, stored, i, s.id, now)) && (closed || sends))
  }

  lemma SavedSub(e: Env, w: World, r: RuleId, x: Subscription, p: Pending, value: string, now: Time)
    requires p.state.incidentId == p.incidentId && p.state.subscriptionId == x.id
    ensures var d, w2 := Deliver(e, w, r, x, p.incidentId, p.kind, value, now), DeliverAndSave(e, w, r, x, p, value, now).w;
            var stored, stored2 := GetSub(w.db, p.incidentId, x.id), GetSub(w2.db, p.incidentId, x.id);
            && (stored2 == stored || (!d.err && stored2 == Some(p.state.(lastNotifiedAt := Kept(p.state.lastNotifiedAt)))))
            && (NoFailures(e) && !d.err ==> stored2 == Some(p.state.(lastNotifiedAt := Kept(p.state.lastNotifiedAt))))
  {
    var d := Deliver(e, w, r, x, p.incidentId, p.kind, value, now);
    Views.DeliverTouches(e, w, r, x, p.incidentId, p.kind, value, now);
    SubRoundTrip(d.w.db, p.state, p.incidentId, x.id);
  }

  /** The decision, in terms of the live state before the tick. */
  lemma DecideReason(l: Live, j: Job, id: Id, s: Subscription, stored: Option<SubState>, ls: Live, t: Transition)
    requires ls == Applied(l, j.triggered, j.value, j.now, id) && t == TransitionOf(l, j.triggered, j.value, j.now, id)
    requires stored.Some? ==> stored.value.subscriptionId == s.id && stored.value.incidentId == Views.Focus(ls, t)
    ensures var i, target := Views.Focus(ls, t), Target(ls, t, s, j.now);
            var p := if target.Some? then Decide(i, t, s, stored, j.now) else None;
            && (target.Some? ==> target.value == i)
            && match p
               case None => (l.state == Firing ==> l.incidentId != NO_ID) ==> NoReason(l, j, s, stored)
               case Some(d) =>
                 && Reason(d.kind, l, j, s, stored) && d.incidentId == d.state.incidentId == i && d.state.subscriptionId == s.id
                 && d.state.(lastNotifiedAt := Kept(d.state.lastNotifiedAt)) == Counted(d.kind, stored, i, s.id, j.now)
  {
  }

  /** Log and counters are left alone, which without failures takes that there is no reason to tell
      anything, or there is a reason and it is told. */
  ghost predicate Explained(e: Env, before: Log, after: Log, stored: Option<SubState>, stored2: Option<SubState>,
                            l: Live, j: Job, s: Subscription, i: Id, bs: seq<Binding>) {
    || (after == before && stored2 == stored &&
        (NoFailures(e) && (l.state == Firing ==> l.incidentId != NO_ID) ==> NoReason(l, j, s, stored)))
    || exists k :: Reason(k, l, j, s, stored) && Tells(e, before, after, stored, stored2, j.rule.id, s, i, k, j.value, j.now, bs)
  }

  lemma EvaluateExplained(e: Env, w: World, l: Live, j: Job, id: Id, s: Subscription, ls: Live, t: Transition)
    requires ls == Applied(l, j.triggered, j.value, j.now, id) && t == TransitionOf(l, j.triggered, j.value, j.now, id)
    ensures var i, w2 := Views.Focus(ls, t), EvaluateSubscription(e, w, j.rule.id, ls, s, t, j.now).w;
            Explained(e, LogOf(e, w, s.id), LogOf(e, w2, s.id), GetSub(w.db, i, s.id), GetSub(w2.db, i, s.id),
                      l, j, s, i, BindingsOf(e, w.db.subscribers, s))
  {
    var i, w1 := Views.Focus(ls, t), Call(w);
    CallLog(e, w, s.id);
    DecideReason(l, j, id, s, GetSub(w.db, i, s.id), ls, t);
    assert NoFailures(e) ==> !e.fails(w.calls);
    if e.fails(w.calls) || Target(ls, t, s, j.now).None? || Decide(i, t, s, GetSub(w.db, i, s.id), j.now).None? {
      assert LogOf(e, EvaluateSubscription(e, w, j.rule.id, ls, s, t, j.now).w, s.id) == LogOf(e, w, s.id);
    } else {
      var p := Decide(i, t, s, GetSub(w.db, i, s.id), j.now).value;
      DeliverLog(e, w1, j.rule.id, s, i, p.kind, j.value, j.now);
      SavedLog(e, w1, j.rule.id, s, p, j.value, j.now, s.id);
      SavedSub(e, w1, j.rule.id, s, p, j.value, j.now);
      assert Reason(p.kind, l, j, s, GetSub(w.db, i, s.id));
    }
  }

  /** Whatever fails in it, a tick leaves the log and the counters of a subscription alone, or
      there is a reason for the one batch it sends; the counters kept for other incidents stay. */
  lemma TickExplained(e: Env, w: World, j: Job, s: Subscription)
    requires DistinctIds(w.db.subscriptions) && s in w.db.subscriptions
    ensures var i, w2 := Views.Focus(LiveAfter(w, j), Change(w, j)), Tick(e, w, j).w;
            && (forall i0 :: i0 != i ==> GetSub(w2.db, i0, s.id) == GetSub(w.db, i0, s.id))
            && ((LogOf(e, w2, s.id) == LogOf(e, w, s.id) && GetSub(w2.db, i, s.id) == GetSub(w.db, i, s.id)) ||
                (s in ListForRule(w.db.subscriptions, j.rule) &&
                 Explained(e, LogOf(e, w, s.id), LogOf(e, w2, s.id), GetSub(w.db, i, s.id), GetSub(w2.db, i, s.id),
                           LiveBefore(w, j), j, s, i, BindingsOf(e, w.db.subscribers, s))))
  {
    var start := TickReaches(e, w, j);
    if !SameLog(w, Tick(e, w, j).w) {
      EvaluatedExplained(e, w, start, j, s);
    }
  }

  /** A tick returns an error exactly if one of the calls before the evaluation of subscriptions
      fails or the new incident is there already; then it has sent and recorded nothing. */
  lemma TickErrs(e: Env, w: World, j: Job)
    ensures var t := Change(w, j);
            Tick(e, w, j).err <==>
              || !Views.Clear(e, w.calls, w.calls + if t.Opened() || t.Closed() then 4 else 3)
              || (t.Opened() && t.incidentId in w.db.incidents)
    ensures Tick(e, w, j).err ==> SameLog(w, Tick(e, w, j).w)
  {
    if !e.fails(w.calls) {
      SaveErrs(e, Call(w).(lastId := if Mints(LiveBefore(w, j), j) then w.lastId + 1 else w.lastId), j, LiveAfter(w, j), Change(w, j));
    }
  }

  lemma SaveErrs(e: Env, w: World, j: Job, ls: Live, t: Transition)
    ensures TickSave(e, w, j, ls, t).err <==>
              || !Views.Clear(e, w.calls, w.calls + if t.Opened() || t.Closed() then 3 else 2)
              || (t.Opened() && t.incidentId in w.db.incidents)
    ensures TickSave(e, w, j, ls, t).err ==> SameLog(w, TickSave(e, w, j, ls, t).w)
  {
    if !e.fails(w.calls) {
      var m := MarkIncident(e, Call(w).(db := PutLive(w.db, ls)), j, t);
      assert m.w.calls == w.calls + if t.Opened() || t.Closed() then 2 else 1;
      assert SameLog(w, m.w);
    }
  }

  /** A tick that comes to evaluating subscriptions. */
  lemma EvaluatedExplained(e: Env, w: World, start: World, j: Job, s: Subscription)
    requires DistinctIds(w.db.subscriptions) && s in w.db.subscriptions && SameLog(w, start)
    ensures var ls, t, subs := LiveAfter(w, j), Change(w, j), ListForRule(w.db.subscriptions, j.rule);
            var i, w2 := Views.Focus(ls, t), EvaluateAll(e, start, j.rule.id, ls, subs, t, j.now);
            && (forall i0 :: i0 != i ==> GetSub(w2.db, i0, s.id) == GetSub(w.db, i0, s.id))
            && if s in subs then
                 Explained(e, LogOf(e, w, s.id), LogOf(e, w2, s.id), GetSub(w.db, i, s.id), GetSub(w2.db, i, s.id),
                           LiveBefore(w, j), j, s, i, BindingsOf(e, w.db.subscribers, s))
               else
                 LogOf(e, w2, s.id) == LogOf(e, w, s.id) && GetSub(w2.db, i, s.id) == GetSub(w.db, i, s.id)
  {
    var l, ls, t, subs, r := LiveBefore(w, j), LiveAfter(w, j), Change(w, j), ListForRule(w.db.subscriptions, j.rule), j.rule.id;
    var i := Views.Focus(ls, t);
    assert LogOf(e, start, s.id) == LogOf(e, w, s.id);
    Views.EvaluateAllAbout(e, start, r, ls, subs, t, j.now);
    if s in subs {
      var n := DeliveryLog.ListedAt(w.db.subscriptions, j.rule, s);
      var at := ListedLog(e, start, r, ls, subs, n, t, j.now);
      EvaluateExplained(e, at, l, j, NewId(w, l, j), s, ls, t);
    } else {
      DeliveryLog.NotListed(w.db.subscriptions, j.rule, s);
      OthersLog(e, start, r, ls, subs, t, j.now, s.id);
      Views.Bystander(e, start, r, ls, subs, t, j.now, i, s.id);
    }
  }

  /** A closing tick, whatever fails in it, leaves the log and the counters of a subscription alone,
      one-shot or not, if it was not counted as told of the incident, was told of its end before, or
      does not want to know. */
  lemma ClosingSilent(e: Env, w: World, j: Job, s: Subscription)
    requires DistinctIds(w.db.subscriptions) && s in w.db.subscriptions
    requires LiveBefore(w, j).state == Firing && !j.triggered
    requires var stored := GetSub(w.db, LiveBefore(w, j).incidentId, s.id);
             stored.None? || stored.value.notifyCount == 0 || stored.value.resolutionSent || !s.notifyOnResolve
    ensures var w2 := Tick(e, w, j).w;
            LogOf(e, w2, s.id) == LogOf(e, w, s.id) && forall i :: GetSub(w2.db, i, s.id) == GetSub(w.db, i, s.id)
  {
    TickExplained(e, w, j, s);
  }

  /** There is at most one reason, and without failing calls it is acted on. */
  lemma ReasonTells(e: Env, before: Log, after: Log, stored: Option<SubState>, stored2: Option<SubState>,
                    l: Live, j: Job, s: Subscription, i: Id, bs: seq<Binding>, k: Kind)
    requires NoFailures(e) && (l.state == Firing ==> l.incidentId != NO_ID) && Reason(k, l, j, s, stored)
    requires Explained(e, before, after, stored, stored2, l, j, s, i, bs)
    ensures Tells(e, before, after, stored, stored2, j.rule.id, s, i, k, j.value, j.now, bs)
  {
  }

  lemma MarkedSameLog(w: World, j: Job)
    ensures SameLog(w, Marked(w, j))
  {
  }

  /** Without failing calls, a reason to tell a listed subscription something is acted on. */
  lemma TickTells(e: Env, w: World, j: Job, s: Subscription, k: Kind)
    requires NoFailures(e) && Consistent(w) && s in w.db.subscriptions && s in ListForRule(w.db.subscriptions, j.rule)
    requires Reason(k, LiveBefore(w, j), j, s, GetSub(w.db, Views.Focus(LiveAfter(w, j), Change(w, j)), s.id))
    ensures var i, w2 := Views.Focus(LiveAfter(w, j), Change(w, j)), Tick(e, w, j).w;
            Tells(e, LogOf(e, w, s.id), LogOf(e, w2, s.id), GetSub(w.db, i, s.id), GetSub(w2.db, i, s.id),
                  j.rule.id, s, i, k, j.value, j.now, BindingsOf(e, w.db.subscribers, s))
  {
    var i, w2 := Views.Focus(LiveAfter(w, j), Change(w, j)), Tick(e, w, j).w;
    MarkedSameLog(w, j);
    EvaluatedExplained(e, w, Marked(w, j), j, s);
    assert w2 == EvaluateAll(e, Marked(w, j), j.rule.id, LiveAfter(w, j), ListForRule(w.db.subscriptions, j.rule), Change(w, j), j.now) by {
      assert (w.lastId + 1) !in w.db.incidents;
      TickUnfolds(e, w, j);
    }
    assert LiveBefore(w, j).state == Firing ==> LiveBefore(w, j).incidentId != NO_ID by {
      ChangeMeaning(w, j);
    }
    ReasonTells(e, LogOf(e, w, s.id), LogOf(e, w2, s.id), GetSub(w.db, i, s.id), GetSub(w2.db, i, s.id),
                LiveBefore(w, j), j, s, i, BindingsOf(e, w.db.subscribers, s), k);
  }

  // ----- runs -----

  /** The subscription is counted as told of incident `i`. */
  predicate Counts(db: Db, i: Id, s: SubId) {
    GetSub(db, i, s).Some? && GetSub(db, i, s).value.notifyCount > 0
  }

  /** A firing message about `i` is among the messages. */
  ghost predicate HeardOf(messages: seq<Sent>, i: Id) {
    exists m :: m in messages && m.kind == FiringKind && m.incidentId == i
  }

  /** Every repeat and every resolution comes after a firing message about the same incident. */
  ghost predicate FiringFirst(messages: seq<Sent>) {
    forall x :: 0 <= x < |messages| && messages[x].kind != FiringKind ==> HeardOf(messages[..x], messages[x].incidentId)
  }

  /** Repeats and resolutions are only for those that want them. */
  ghost predicate Wanted(messages: seq<Sent>, s: Subscription) {
    forall m :: m in messages ==>
      (m.kind == ResolvedKind ==> s.notifyOnResolve) && (m.kind == RepeatKind ==> s.repeatInterval > 0)
  }

  /** Who is counted as told was told, or its gate is closed, or there is nobody to tell. */
  ghost predicate CountedIsTold(db: Db, log: Log, s: Subscription, bs: seq<Binding>) {
    forall i :: Counts(db, i, s.id) ==> bs == [] || HeardOf(log.messages, i) || (s.oneShot && log.rows != [])
  }

  lemma BatchHeard(messages: seq<Sent>, batch: seq<Sent>, r: RuleId, s: SubId, i: Id, k: Kind, value: string, now: Time, bs: seq<Binding>)
    requires batch == BatchTo(r, s, i, k, value, now, bs)
    ensures forall i0 :: HeardOf(messages + batch, i0) <==> HeardOf(messages, i0) || (i0 == i && k == FiringKind && bs != [])
    ensures FiringFirst(messages) && (k == FiringKind || bs == [] || HeardOf(messages, i)) ==> FiringFirst(messages + batch)
  {
    var all := messages + batch;
    forall i0 ensures HeardOf(all, i0) <==> HeardOf(messages, i0) || (i0 == i && k == FiringKind && bs != []) {
      if m :| m in messages && m.kind == FiringKind && m.incidentId == i0 {
        assert m in all;
      }
      if i0 == i && k == FiringKind && bs != [] {
        assert batch[0] in all;
      }
    }
    if FiringFirst(messages) && (k == FiringKind || bs == [] || HeardOf(messages, i)) {
      forall x | 0 <= x < |all| && all[x].kind != FiringKind ensures HeardOf(all[..x], all[x].incidentId) {
        if x < |messages| {
          assert all[..x] == messages[..x];
        } else {
          assert all[..x] == messages + batch[..x - |messages|];
          var m :| m in messages && m.kind == FiringKind && m.incidentId == i;
          assert m in all[..x];
        }
      }
    }
  }

  /** Nothing is told out of order. */
  ghost predicate InOrder(e: Env, w: World, s: Subscription) {
    var log := LogOf(e, w, s.id);
    && FiringFirst(log.messages) && Wanted(log.messages, s)
    && CountedIsTold(w.db, log, s, BindingsOf(e, w.db.subscribers, s))
  }

  /** A telling keeps the order if those counted as told were told. */
  lemma TellsInOrder(e: Env, before: Log, after: Log, stored: Option<SubState>, stored2: Option<SubState>,
                     l: Live, j: Job, s: Subscription, i: Id, bs: seq<Binding>)
    requires Explained(e, before, after, stored, stored2, l, j, s, i, bs)
    requires FiringFirst(before.messages) && Wanted(before.messages, s)
    requires stored.Some? && stored.value.notifyCount > 0 ==> bs == [] || HeardOf(before.messages, i) || (s.oneShot && before.rows != [])
    ensures FiringFirst(after.messages) && Wanted(after.messages, s)
    ensures forall i0 :: HeardOf(before.messages, i0) ==> HeardOf(after.messages, i0)
    ensures before.rows != [] ==> after.rows != []
    ensures stored2.Some? && stored2.value.notifyCount > 0 ==> bs == [] || HeardOf(after.messages, i) || (s.oneShot && after.rows != [])
  {
    if !(after == before && stored2 == stored) {
      var k :| Reason(k, l, j, s, stored) && Tells(e, before, after, stored, stored2, j.rule.id, s, i, k, j.value, j.now, bs);
      var batch := BatchTo(j.rule.id, s.id, i, k, j.value, j.now, bs);
      BatchHeard(before.messages, batch, j.rule.id, s.id, i, k, j.value, j.now, bs);
      assert after.messages == before.messages || after.messages == before.messages + batch;
    }
  }

  lemma TickInOrder(e: Env, w: World, j: Job, s: Subscription)
    requires DistinctIds(w.db.subscriptions) && s in w.db.subscriptions && InOrder(e, w, s)
    ensures InOrder(e, Tick(e, w, j).w, s)
  {
    var w2, i, bs := Tick(e, w, j).w, Views.Focus(LiveAfter(w, j), Change(w, j)), BindingsOf(e, w.db.subscribers, s);
    TickAdds(e, w, j, s);
    TickExplained(e, w, j, s);
    assert Counts(w.db, i, s.id) ==> bs == [] || HeardOf(LogOf(e, w, s.id).messages, i) || (s.oneShot && LogOf(e, w, s.id).rows != []);
    if LogOf(e, w2, s.id) != LogOf(e, w, s.id) || GetSub(w2.db, i, s.id) != GetSub(w.db, i, s.id) {
      TellsInOrder(e, LogOf(e, w, s.id), LogOf(e, w2, s.id), GetSub(w.db, i, s.id), GetSub(w2.db, i, s.id), LiveBefore(w, j), j, s, i, bs);
    }
    forall i0 | Counts(w2.db, i0, s.id)
      ensures bs == [] || HeardOf(LogOf(e, w2, s.id).messages, i0) || (s.oneShot && LogOf(e, w2, s.id).rows != [])
    {
      assert i0 != i ==> Counts(w.db, i0, s.id);
    }
  }

  /** An event that keeps the rows of a one-shot subscription keeps the order. */
  lemma EventInOrder(e: Env, w: World, ev: Event, w2: World, s: Subscription)
    requires Step(e, w, ev, w2) && DistinctIds(w.db.subscriptions) && s in w.db.subscriptions && InOrder(e, w, s)
    requires s.oneShot && LogOf(e, w, s.id).rows != [] ==> LogOf(e, w2, s.id).rows != []
    ensures InOrder(e, w2, s)
  {
    EventLog(e, w, ev, w2, s);
    match ev
    case TickEvent(j) => TickInOrder(e, w, j, s);
    case _ => assert forall i :: Counts(w2.db, i, s.id) ==> Counts(w.db, i, s.id);
  }

  /** Over every run, whatever fails: a subscription is sent a repeat or a resolution of an incident
      only after a firing message about it, and only if it wants repeats or resolutions; for a
      one-shot subscription as long as no prune takes its last row. */
  lemma {:induction false} ToldInOrder(e: Env, ws: seq<World>, evs: seq<Event>, k: nat, s: Subscription)
    requires ListedIn(e, ws, evs, s) && k <= |evs| && (s.oneShot ==> RowsAreKept(e, ws, s))
    ensures InOrder(e, ws[k], s)
  {
    if k > 0 {
      var n := k - 1;
      ToldInOrder(e, ws, evs, n, s);
      Unconfigured(e, ws, evs, n, s);
      assert s.oneShot ==> !Clears(e, ws, n, s);
      EventInOrder(e, ws[n], evs[n], ws[n + 1], s);
    }
  }

  /** Over every run, whatever fails and whatever is pruned, repeats and resolutions are only sent to
      subscriptions that want them. */
  lemma {:induction false} OnlyWanted(e: Env, ws: seq<World>, evs: seq<Event>, k: nat, s: Subscription)
    requires ListedIn(e, ws, evs, s) && k <= |evs|
    ensures Wanted(LogAt(e, ws, k, s).messages, s)
  {
    if k > 0 {
      var n := k - 1;
      OnlyWanted(e, ws, evs, n, s);
      Unconfigured(e, ws, evs, n, s);
      assert Step(e, ws[n], evs[n], ws[n + 1]);
      EventLog(e, ws[n], evs[n], ws[n + 1], s);
      if evs[n].TickEvent? {
        TickExplained(e, ws[n], evs[n].job, s);
      }
    }
  }

  // ----- one-shot subscriptions and prunes -----

  /** Event `m` is the one that counted the subscription as told of `i`, and it stayed counted up
      to event `k`. */
  ghost predicate CountedFrom(ws: seq<World>, m: nat, k: nat, i: Id, s: Subscription)
    requires m < k < |ws|
  {
    !Counts(ws[m].db, i, s.id) && forall x :: m < x <= k ==> Counts(ws[x].db, i, s.id)
  }

  lemma {:induction false} CountBegan(ws: seq<World>, k: nat, i: Id, s: Subscription) returns (m: nat)
    requires k < |ws| && Initial(ws[0]) && Counts(ws[k].db, i, s.id)
    ensures m < k && CountedFrom(ws, m, k, i, s)
  {
    m := k - 1;
    if Counts(ws[m].db, i, s.id) {
      m := CountBegan(ws, m, i, s);
    }
  }

  /** What an event does to having heard of `i`: only a tick that was not counted as told before
      and is now makes a difference, and it does if the gate was open and there is a binding. */
  lemma EventHeard(e: Env, w: World, ev: Event, w2: World, i: Id, s: Subscription)
    requires Step(e, w, ev, w2) && DistinctIds(w.db.subscriptions) && s in w.db.subscriptions && Counts(w2.db, i, s.id)
    ensures var before, after := LogOf(e, w, s.id), LogOf(e, w2, s.id);
            HeardOf(after.messages, i) <==>
              || HeardOf(before.messages, i)
              || (!Counts(w.db, i, s.id) && BindingsOf(e, w.db.subscribers, s) != [] && (s.oneShot ==> before.rows == []))
  {
    EventLog(e, w, ev, w2, s);
    match ev
    case TickEvent(j) =>
      var focus, bs := Views.Focus(LiveAfter(w, j), Change(w, j)), BindingsOf(e, w.db.subscribers, s);
      var before, after := LogOf(e, w, s.id), LogOf(e, w2, s.id);
      TickExplained(e, w, j, s);
      if after != before || GetSub(w2.db, focus, s.id) != GetSub(w.db, focus, s.id) {
        var k :| Reason(k, LiveBefore(w, j), j, s, GetSub(w.db, focus, s.id)) &&
                 Tells(e, before, after, GetSub(w.db, focus, s.id), GetSub(w2.db, focus, s.id), j.rule.id, s, focus, k, j.value, j.now, bs);
        BatchHeard(before.messages, BatchTo(j.rule.id, s.id, focus, k, j.value, j.now, bs), j.rule.id, s.id, focus, k, j.value, j.now, bs);
      }
    case _ =>
      assert Counts(w.db, i, s.id);
  }

  /** Over every run, whatever fails and whatever is pruned: a subscription counted as told of an
      incident was sent a firing message about it exactly if it has a binding and no audit row of it was
      kept when the count began, or it was sent one before. For a recurring subscription the rows
      make no difference. */
  lemma {:induction false} HeardExactly(e: Env, ws: seq<World>, evs: seq<Event>, m: nat, k: nat, i: Id, s: Subscription)
    requires ListedIn(e, ws, evs, s) && m < k <= |evs| && CountedFrom(ws, m, k, i, s)
    ensures HeardOf(LogAt(e, ws, k, s).messages, i) <==>
              || HeardOf(LogAt(e, ws, m, s).messages, i)
              || (BindingsOf(e, ws[0].db.subscribers, s) != [] && (s.oneShot ==> LogAt(e, ws, m, s).rows == []))
    decreases k
  {
    var n := k - 1;
    Unconfigured(e, ws, evs, n, s);
    assert Step(e, ws[n], evs[n], ws[n + 1]);
    EventHeard(e, ws[n], evs[n], ws[n + 1], i, s);
    if m < n {
      HeardExactly(e, ws, evs, m, n, i, s);
    }
  }

  /** A resolution that is sent, whatever fails and whatever is pruned, is about an incident that the
      subscription is counted as told of since some event `m`; it comes after a firing message
      about it exactly if no audit row was kept at `m`, or there was one before. */
  lemma ResolvedHeardExactly(e: Env, ws: seq<World>, evs: seq<Event>, n: nat, s: Subscription, x: nat) returns (m: nat)
    requires ListedIn(e, ws, evs, s) && n < |evs|
    requires |LogAt(e, ws, n, s).messages| <= x < |LogAt(e, ws, n + 1, s).messages|
    requires LogAt(e, ws, n + 1, s).messages[x].kind == ResolvedKind
    ensures var i := LogAt(e, ws, n + 1, s).messages[x].incidentId;
            && m < n && CountedFrom(ws, m, n, i, s)
            && (HeardOf(LogAt(e, ws, n, s).messages, i) <==>
                  HeardOf(LogAt(e, ws, m, s).messages, i) || (s.oneShot ==> LogAt(e, ws, m, s).rows == []))
  {
    var i := LogAt(e, ws, n + 1, s).messages[x].incidentId;
    Unconfigured(e, ws, evs, n, s);
    assert Step(e, ws[n], evs[n], ws[n + 1]);
    EventLog(e, ws[n], evs[n], ws[n + 1], s);
    assert evs[n].TickEvent?;
    var j := evs[n].job;
    TickExplained(e, ws[n], j, s);
    assert Counts(ws[n].db, i, s.id);
    m := CountBegan(ws, n, i, s);
    HeardExactly(e, ws, evs, m, n, i, s);
  }

  /** Messages are about incidents of the past; and who heard of a stored one is counted. */
  ghost predicate HeardIsCounted(w: World, messages: seq<Sent>, s: SubId) {
    forall m :: m in messages ==>
      m.incidentId <= w.lastId && (m.kind == FiringKind && m.incidentId in w.db.incidents ==> Counts(w.db, m.incidentId, s))
  }

  lemma EventCounts(e: Env, w: World, ev: Event, w2: World, s: Subscription)
    requires NoFailures(e) && Step(e, w, ev, w2) && Consistent(w) && ev.Clock() >= MS && s in w.db.subscriptions
    requires HeardIsCounted(w, LogOf(e, w, s.id).messages, s.id)
    ensures HeardIsCounted(w2, LogOf(e, w2, s.id).messages, s.id)
    ensures w.lastId <= w2.lastId && forall i :: i in w2.db.incidents ==> i in w.db.incidents || i > w.lastId
  {
    EventLog(e, w, ev, w2, s);
    match ev
    case TickEvent(j) => TickCounts(e, w, j, s);
    case _ => assert forall i :: i in w2.db.incidents && Counts(w.db, i, s.id) ==> Counts(w2.db, i, s.id);
  }

  /** What a telling adds is about the one incident, which is counted from then on. */
  lemma TellingCounts(e: Env, before: Log, after: Log, stored: Option<SubState>, stored2: Option<SubState>,
                      l: Live, j: Job, s: Subscription, i: Id, bs: seq<Binding>)
    requires NoFailures(e) && Explained(e, before, after, stored, stored2, l, j, s, i, bs)
    ensures forall m :: m in after.messages ==>
              m in before.messages || (m.incidentId == i && stored2.Some? && stored2.value.notifyCount > 0)
    ensures stored.Some? && stored.value.notifyCount > 0 ==> stored2.Some? && stored2.value.notifyCount > 0
  {
    if !(after == before && stored2 == stored) {
      var k :| Reason(k, l, j, s, stored) && Tells(e, before, after, stored, stored2, j.rule.id, s, i, k, j.value, j.now, bs);
      var batch := BatchTo(j.rule.id, s.id, i, k, j.value, j.now, bs);
      assert after.messages == before.messages || (after.messages == before.messages + batch && (batch != [] ==> bs != []));
    }
  }

  /** The incidents that a tick leaves. */
  lemma TickIncidents(e: Env, w: World, j: Job)
    requires NoFailures(e) && Consistent(w) && j.now >= MS
    ensures var w2 := Tick(e, w, j).w;
            && w.lastId <= w2.lastId && Views.Focus(LiveAfter(w, j), Change(w, j)) <= w2.lastId
            && forall i :: i in w2.db.incidents ==> i in w.db.incidents || i > w.lastId
  {
    ChangeMeaning(w, j);
    MarkedConsistent(w, j);
    TickConsistent(e, w, j);
  }

  lemma CountsKept(w: World, w2: World, before: seq<Sent>, after: seq<Sent>, i: Id, s: SubId)
    requires HeardIsCounted(w, before, s) && w.lastId <= w2.lastId && i <= w2.lastId
    requires forall i0 :: i0 in w2.db.incidents ==> i0 in w.db.incidents || i0 > w.lastId
    requires forall i0 :: i0 != i ==> GetSub(w2.db, i0, s) == GetSub(w.db, i0, s)
    requires Counts(w.db, i, s) ==> Counts(w2.db, i, s)
    requires forall m :: m in after ==> m in before || (m.incidentId == i && Counts(w2.db, i, s))
    ensures HeardIsCounted(w2, after, s)
  {
    forall m | m in after && m.kind == FiringKind && m.incidentId in w2.db.incidents ensures Counts(w2.db, m.incidentId, s) {
      if m in before {
        assert Counts(w.db, m.incidentId, s);
      }
    }
  }

  lemma TickCounts(e: Env, w: World, j: Job, s: Subscription)
    requires NoFailures(e) && Consistent(w) && j.now >= MS && s in w.db.subscriptions
    requires HeardIsCounted(w, LogOf(e, w, s.id).messages, s.id)
    ensures HeardIsCounted(Tick(e, w, j).w, LogOf(e, Tick(e, w, j).w, s.id).messages, s.id)
    ensures w.lastId <= Tick(e, w, j).w.lastId && forall i :: i in Tick(e, w, j).w.db.incidents ==> i in w.db.incidents || i > w.lastId
  {
    var w2, i := Tick(e, w, j).w, Views.Focus(LiveAfter(w, j), Change(w, j));
    TickIncidents(e, w, j);
    TickExplained(e, w, j, s);
    if LogOf(e, w2, s.id) != LogOf(e, w, s.id) || GetSub(w2.db, i, s.id) != GetSub(w.db, i, s.id) {
      TellingCounts(e, LogOf(e, w, s.id), LogOf(e, w2, s.id), GetSub(w.db, i, s.id), GetSub(w2.db, i, s.id),
                    LiveBefore(w, j), j, s, i, BindingsOf(e, w.db.subscribers, s));
    }
    CountsKept(w, w2, LogOf(e, w, s.id).messages, LogOf(e, w2, s.id).messages, i, s.id);
  }

  lemma {:induction false} RunCounts(e: Env, ws: seq<World>, evs: seq<Event>, k: nat, s: Subscription)
    requires NoFailures(e) && AfterEpoch(evs) && ListedIn(e, ws, evs, s) && k <= |evs|
    ensures HeardIsCounted(ws[k], LogAt(e, ws, k, s).messages, s.id)
  {
    if k > 0 {
      var n := k - 1;
      RunCounts(e, ws, evs, n, s);
      RunConsistent(e, ws, evs, n);
      EventCounts(e, ws[n], evs[n], ws[n + 1], s);
    }
  }

  /** So without failing calls nobody heard of an incident before the count began, and a resolution
      comes after a firing message about its incident exactly if no audit row was kept then. */
  lemma CalmResolvedHeardExactly(e: Env, ws: seq<World>, evs: seq<Event>, n: nat, s: Subscription, x: nat) returns (m: nat)
    requires NoFailures(e) && AfterEpoch(evs) && ListedIn(e, ws, evs, s) && n < |evs|
    requires |LogAt(e, ws, n, s).messages| <= x < |LogAt(e, ws, n + 1, s).messages|
    requires LogAt(e, ws, n + 1, s).messages[x].kind == ResolvedKind
    ensures var i := LogAt(e, ws, n + 1, s).messages[x].incidentId;
            && m < n && CountedFrom(ws, m, n, i, s)
            && (HeardOf(LogAt(e, ws, n, s).messages, i) <==> (s.oneShot ==> LogAt(e, ws, m, s).rows == []))
  {
    var i := LogAt(e, ws, n + 1, s).messages[x].incidentId;
    m := ResolvedHeardExactly(e, ws, evs, n, s, x);
    RunCounts(e, ws, evs, m, s);
    RunConsistent(e, ws, evs, m);
    RunConsistent(e, ws, evs, m + 1);
    EventCounts(e, ws[m], evs[m], ws[m + 1], s);
    assert Counts(ws[m + 1].db, i, s.id) && (i, s.id) in ws[m + 1].db.subStates;
    assert i in ws[m + 1].db.incidents;
  }
}
