/** What one subscription can see of the world, and what its own evaluation does to that
    view. Other subscriptions evaluated in the same tick do not reach it, whatever their
    order and whatever goes wrong in them. */
module Views {
  import opened Base
  import opened RuleState
  import opened Tables
  import opened Dispatch

  /** An audit row without its id and delivery status. */
  datatype Audit = Audit(kind: Kind, channel: string, address: string, sentMs: int)

  /** A message without the ids it carries. */
  datatype Delivery = Delivery(kind: Kind, value: string, channel: string, address: string, now: Time)

  function AuditsOf(notes: seq<NoteRow>, i: Id, s: SubId): seq<Audit> {
    if notes == [] then []
    else
      var n := notes[|notes| - 1];
      AuditsOf(notes[..|notes| - 1], i, s) +
      if n.incidentId == i && n.subscriptionId == s then [Audit(n.kind, n.channel, n.address, n.sentMs)] else []
  }

  function DeliveriesTo(outbox: seq<Sent>, r: RuleId, s: SubId): seq<Delivery> {
    if outbox == [] then []
    else
      var m := outbox[|outbox| - 1];
      DeliveriesTo(outbox[..|outbox| - 1], r, s) +
      if m.ruleId == r && m.subscriptionId == s then [Delivery(m.kind, m.value, m.channel, m.address, m.now)] else []
  }

  /** The bindings a subscription uses, in the subscriber's order. */
  function EligibleOf(e: Env, s: Subscription, bindings: seq<Binding>): seq<Binding>
    decreases |bindings|
  {
    if bindings == [] then []
    else (if Eligible(e, s, bindings[0]) then [bindings[0]] else []) + EligibleOf(e, s, bindings[1..])
  }

  /** One batch as audit rows and as messages: one per binding. */
  function BatchAudits(k: Kind, ms: int, bs: seq<Binding>): seq<Audit> {
    seq(|bs|, j requires 0 <= j < |bs| => Audit(k, bs[j].channel, bs[j].address, ms))
  }

  function BatchDeliveries(k: Kind, value: string, now: Time, bs: seq<Binding>): seq<Delivery> {
    seq(|bs|, j requires 0 <= j < |bs| => Delivery(k, value, bs[j].channel, bs[j].address, now))
  }

  /** No store call numbered `lo` to `hi` fails. */
  ghost predicate Clear(e: Env, lo: nat, hi: nat) {
    forall n: nat :: lo <= n < hi ==> !e.fails(n)
  }

  /** `w2` has only grown from `w` by rows and messages of subscription `s` for incident `i`. */
  ghost predicate OnlyTouches(w: World, w2: World, r: RuleId, i: Id, s: SubId) {
    && w2.db == w.db.(notes := w2.db.notes, subStates := w2.db.subStates)
    && w.calls <= w2.calls && w.lastId <= w2.lastId
    && w2.db.subStates - {(i, s)} == w.db.subStates - {(i, s)}
    && (forall n :: n in w2.db.notes ==> n in w.db.notes || (n.incidentId == i && n.subscriptionId == s))
    && w.db.notes <= w2.db.notes && w.outbox <= w2.outbox
    && (forall i0: Id, s0: SubId {:trigger AuditsOf(w2.db.notes, i0, s0)} :: (i0, s0) != (i, s) ==>
          AuditsOf(w2.db.notes, i0, s0) == AuditsOf(w.db.notes, i0, s0))
    && (forall r0: RuleId, s0: SubId {:trigger DeliveriesTo(w2.outbox, r0, s0)} :: (r0, s0) != (r, s) ==>
          DeliveriesTo(w2.outbox, r0, s0) == DeliveriesTo(w.outbox, r0, s0))
  }

  lemma AppendAudit(notes: seq<NoteRow>, n: NoteRow, i: Id, s: SubId)
    ensures AuditsOf(notes + [n], i, s) == AuditsOf(notes, i, s) +
            if n.incidentId == i && n.subscriptionId == s then [Audit(n.kind, n.channel, n.address, n.sentMs)] else []
  {
    assert (notes + [n])[..|notes|] == notes;
  }

  lemma AppendDelivery(outbox: seq<Sent>, m: Sent, r: RuleId, s: SubId)
    ensures DeliveriesTo(outbox + [m], r, s) == DeliveriesTo(outbox, r, s) +
            if m.ruleId == r && m.subscriptionId == s then [Delivery(m.kind, m.value, m.channel, m.address, m.now)] else []
  {
    assert (outbox + [m])[..|outbox|] == outbox;
  }

  lemma PostOneTouches(e: Env, w: World, r: RuleId, s: Subscription, subscriberId: string,
                       i: Id, k: Kind, value: string, now: Time, b: Binding)
    ensures var w2 := PostOne(e, w, r, s, subscriberId, i, k, value, now, b);
            OnlyTouches(w, w2, r, i, s.id) && w2.db.subStates == w.db.subStates
  {
    var w2 := PostOne(e, w, r, s, subscriberId, i, k, value, now, b);
    if Eligible(e, s, b) {
      forall i0: Id, s0: SubId | (i0, s0) != (i, s.id)
        ensures AuditsOf(w2.db.notes, i0, s0) == AuditsOf(w.db.notes, i0, s0)
      {
        if w2.db.notes != w.db.notes {
          AppendAudit(w.db.notes, w2.db.notes[|w.db.notes|], i0, s0);
        }
      }
      forall r0: RuleId, s0: SubId | (r0, s0) != (r, s.id)
        ensures DeliveriesTo(w2.outbox, r0, s0) == DeliveriesTo(w.outbox, r0, s0)
      {
        AppendDelivery(w.outbox, w2.outbox[|w.outbox|], r0, s0);
      }
    }
  }

  /** A batch to one binding. */
  lemma BatchOfOne(k: Kind, value: string, now: Time, b: Binding)
    ensures BatchDeliveries(k, value, now, [b]) == [Delivery(k, value, b.channel, b.address, now)]
    ensures BatchAudits(k, Millis(now), [b]) == [Audit(k, b.channel, b.address, Millis(now))]
    ensures BatchDeliveries(k, value, now, []) == [] && BatchAudits(k, Millis(now), []) == []
  {
  }

  lemma PostOneBatch(e: Env, w: World, r: RuleId, s: Subscription, subscriberId: string,
                     i: Id, k: Kind, value: string, now: Time, b: Binding)
    ensures var w2 := PostOne(e, w, r, s, subscriberId, i, k, value, now, b);
            DeliveriesTo(w2.outbox, r, s.id) == DeliveriesTo(w.outbox, r, s.id)
              + BatchDeliveries(k, value, now, if Eligible(e, s, b) then [b] else [])
  {
    var w2 := PostOne(e, w, r, s, subscriberId, i, k, value, now, b);
    BatchOfOne(k, value, now, b);
    if Eligible(e, s, b) {
      AppendDelivery(w.outbox, w2.outbox[|w.outbox|], r, s.id);
    }
  }

  lemma PostOneRow(e: Env, w: World, r: RuleId, s: Subscription, subscriberId: string,
                   i: Id, k: Kind, value: string, now: Time, b: Binding)
    requires Eligible(e, s, b) ==> !e.fails(w.calls)
    ensures var w2 := PostOne(e, w, r, s, subscriberId, i, k, value, now, b);
            AuditsOf(w2.db.notes, i, s.id) == AuditsOf(w.db.notes, i, s.id)
              + BatchAudits(k, Millis(now), if Eligible(e, s, b) then [b] else [])
  {
    var w2 := PostOne(e, w, r, s, subscriberId, i, k, value, now, b);
    BatchOfOne(k, value, now, b);
    if Eligible(e, s, b) {
      AppendAudit(w.db.notes, w2.db.notes[|w.db.notes|], i, s.id);
    }
  }

  lemma TouchesTransitive(w: World, w1: World, w2: World, r: RuleId, i: Id, s: SubId)
    requires OnlyTouches(w, w1, r, i, s) && OnlyTouches(w1, w2, r, i, s)
    ensures OnlyTouches(w, w2, r, i, s)
  {
  }

  /** Posting to a list of bindings touches only this subscription's rows and messages. */
  lemma {:induction false} PostTouches(e: Env, w: World, r: RuleId, s: Subscription, subscriberId: string,
                                       i: Id, k: Kind, value: string, now: Time, bindings: seq<Binding>)
    ensures var w2 := Post(e, w, r, s, subscriberId, i, k, value, now, bindings);
            OnlyTouches(w, w2, r, i, s.id) && w2.db.subStates == w.db.subStates
    decreases |bindings|
  {
    if bindings != [] {
      var w1 := PostOne(e, w, r, s, subscriberId, i, k, value, now, bindings[0]);
      PostOneTouches(e, w, r, s, subscriberId, i, k, value, now, bindings[0]);
      PostTouches(e, w1, r, s, subscriberId, i, k, value, now, bindings[1..]);
      TouchesTransitive(w, w1, Post(e, w1, r, s, subscriberId, i, k, value, now, bindings[1..]), r, i, s.id);
    }
  }

  lemma BatchesConcat(k: Kind, value: string, now: Time, b1: seq<Binding>, bs: seq<Binding>)
    ensures BatchDeliveries(k, value, now, b1 + bs) == BatchDeliveries(k, value, now, b1) + BatchDeliveries(k, value, now, bs)
    ensures BatchAudits(k, Millis(now), b1 + bs) == BatchAudits(k, Millis(now), b1) + BatchAudits(k, Millis(now), bs)
  {
  }

  /** Posting sends one message per eligible binding, in order. */
  lemma {:induction false} PostSends(e: Env, w: World, r: RuleId, s: Subscription, subscriberId: string,
                                     i: Id, k: Kind, value: string, now: Time, bindings: seq<Binding>)
    ensures DeliveriesTo(Post(e, w, r, s, subscriberId, i, k, value, now, bindings).outbox, r, s.id)
            == DeliveriesTo(w.outbox, r, s.id) + BatchDeliveries(k, value, now, EligibleOf(e, s, bindings))
    decreases |bindings|
  {
    if bindings != [] {
      var w1 := PostOne(e, w, r, s, subscriberId, i, k, value, now, bindings[0]);
      PostOneBatch(e, w, r, s, subscriberId, i, k, value, now, bindings[0]);
      PostSends(e, w1, r, s, subscriberId, i, k, value, now, bindings[1..]);
      BatchesConcat(k, value, now, if Eligible(e, s, bindings[0]) then [bindings[0]] else [], EligibleOf(e, s, bindings[1..]));
    }
  }

  lemma PostCalls(e: Env, w: World, r: RuleId, s: Subscription, subscriberId: string,
                  i: Id, k: Kind, value: string, now: Time, bindings: seq<Binding>)
    ensures Post(e, w, r, s, subscriberId, i, k, value, now, bindings).calls >= w.calls
  {
    PostTouches(e, w, r, s, subscriberId, i, k, value, now, bindings);
  }

  /** Posting records one row per eligible binding, in order, if no record fails. */
  lemma {:induction false} PostRecords(e: Env, w: World, r: RuleId, s: Subscription, subscriberId: string,
                                       i: Id, k: Kind, value: string, now: Time, bindings: seq<Binding>)
    requires Clear(e, w.calls, Post(e, w, r, s, subscriberId, i, k, value, now, bindings).calls)
    ensures AuditsOf(Post(e, w, r, s, subscriberId, i, k, value, now, bindings).db.notes, i, s.id)
            == AuditsOf(w.db.notes, i, s.id) + BatchAudits(k, Millis(now), EligibleOf(e, s, bindings))
    decreases |bindings|
  {
    if bindings != [] {
      var w1 := PostOne(e, w, r, s, subscriberId, i, k, value, now, bindings[0]);
      var w2 := Post(e, w1, r, s, subscriberId, i, k, value, now, bindings[1..]);
      var b1, bs := if Eligible(e, s, bindings[0]) then [bindings[0]] else [], EligibleOf(e, s, bindings[1..]);
      assert Clear(e, w.calls, w1.calls) && Clear(e, w1.calls, w2.calls) by {
        PostCalls(e, w1, r, s, subscriberId, i, k, value, now, bindings[1..]);
      }
      calc {
        AuditsOf(w2.db.notes, i, s.id);
        { PostRecords(e, w1, r, s, subscriberId, i, k, value, now, bindings[1..]); }
        AuditsOf(w1.db.notes, i, s.id) + BatchAudits(k, Millis(now), bs);
        { PostOneRow(e, w, r, s, subscriberId, i, k, value, now, bindings[0]); }
        AuditsOf(w.db.notes, i, s.id) + BatchAudits(k, Millis(now), b1) + BatchAudits(k, Millis(now), bs);
        { BatchesConcat(k, value, now, b1, bs); }
        AuditsOf(w.db.notes, i, s.id) + BatchAudits(k, Millis(now), b1 + bs);
      }
    }
  }

  /** The one-shot gate sees a batch exactly if it had an eligible binding or was closed before. */
  lemma {:induction false} PostSeen(e: Env, w: World, r: RuleId, s: Subscription, subscriberId: string,
                                    i: Id, k: Kind, value: string, now: Time, bindings: seq<Binding>)
    requires Clear(e, w.calls, Post(e, w, r, s, subscriberId, i, k, value, now, bindings).calls)
    ensures ExistsForSubscription(Post(e, w, r, s, subscriberId, i, k, value, now, bindings).db.notes, s.id)
            <==> ExistsForSubscription(w.db.notes, s.id) || EligibleOf(e, s, bindings) != []
    decreases |bindings|
  {
    if bindings != [] {
      var w1 := PostOne(e, w, r, s, subscriberId, i, k, value, now, bindings[0]);
      PostOneTouches(e, w, r, s, subscriberId, i, k, value, now, bindings[0]);
      PostCalls(e, w1, r, s, subscriberId, i, k, value, now, bindings[1..]);
      PostSeen(e, w1, r, s, subscriberId, i, k, value, now, bindings[1..]);
      if Eligible(e, s, bindings[0]) {
        assert w1.db.notes[|w.db.notes|].subscriptionId == s.id;
      }
    }
  }

  // ----- one evaluation, seen by its own subscription -----

  datatype SubView = SubView(stored: Option<SubState>, audits: seq<Audit>, sent: seq<Delivery>, seen: bool)

  function ViewOf(w: World, r: RuleId, i: Id, s: SubId): SubView {
    SubView(GetSub(w.db, i, s), AuditsOf(w.db.notes, i, s), DeliveriesTo(w.outbox, r, s),
            ExistsForSubscription(w.db.notes, s))
  }

  /** The incident that a tick is about. */
  function Focus(ls: Live, t: Transition): Id {
    if t.Closed() && t.incidentId != NO_ID then t.incidentId else ls.incidentId
  }

  /** A sub-state as it is read back after it was saved. */
  function Reloaded(st: SubState): SubState {
    st.(lastNotifiedAt := LoadedTime(StoredMs(st.lastNotifiedAt)))
  }

  /** What the evaluation of `s` does to its own view. */
  function ViewStep(e: Env, subscribers: map<string, Subscriber>, v: SubView, ls: Live, s: Subscription, t: Transition, now: Time): SubView {
    if Target(ls, t, s, now).None? then v
    else
      match Decide(Focus(ls, t), t, s, v.stored, now)
      case None => v
      case Some(p) =>
        if s.oneShot && v.seen then v.(stored := Some(Reloaded(p.state)))
        else if s.subscriberId !in subscribers then v
        else
          var bs := EligibleOf(e, s, subscribers[s.subscriberId].channels);
          SubView(Some(Reloaded(p.state)),
                  v.audits + BatchAudits(p.kind, Millis(now), bs),
                  v.sent + BatchDeliveries(p.kind, ls.lastValue, now, bs),
                  v.seen || bs != [])
  }

  lemma DeliverTouches(e: Env, w: World, r: RuleId, s: Subscription, i: Id, k: Kind, value: string, now: Time)
    ensures var d := Deliver(e, w, r, s, i, k, value, now);
            OnlyTouches(w, d.w, r, i, s.id) && d.w.db.subStates == w.db.subStates && d.w.calls >= w.calls
  {
    var w1 := if s.oneShot then Call(w) else w;
    if s.subscriberId in w.db.subscribers {
      var subscriber := w.db.subscribers[s.subscriberId];
      PostTouches(e, Call(w1), r, s, subscriber.id, i, k, value, now, subscriber.channels);
    }
  }

  lemma SaveTouches(e: Env, w: World, st: SubState, r: RuleId)
    ensures OnlyTouches(w, SaveSub(e, w, st).w, r, st.incidentId, st.subscriptionId)
  {
    var w2 := SaveSub(e, w, st).w;
    assert w2.db.subStates - {(st.incidentId, st.subscriptionId)} == w.db.subStates - {(st.incidentId, st.subscriptionId)};
  }

  /** What is decided for a subscription is saved under its own id. */
  lemma DecideOwn(i: Id, t: Transition, s: Subscription, stored: Option<SubState>, now: Time)
    requires stored.Some? ==> stored.value.incidentId == i && stored.value.subscriptionId == s.id
    ensures var p := Decide(i, t, s, stored, now);
            p.Some? ==> p.value.incidentId == i && p.value.state.incidentId == i && p.value.state.subscriptionId == s.id
  {
  }

  lemma EvaluateTouches(e: Env, w: World, r: RuleId, ls: Live, s: Subscription, t: Transition, now: Time)
    ensures OnlyTouches(w, EvaluateSubscription(e, w, r, ls, s, t, now).w, r, Focus(ls, t), s.id)
  {
    var i := Focus(ls, t);
    if Target(ls, t, s, now).Some? && !e.fails(w.calls) && Decide(i, t, s, GetSub(w.db, i, s.id), now).Some? {
      var p := Decide(i, t, s, GetSub(w.db, i, s.id), now).value;
      var d := Deliver(e, Call(w), r, s, i, p.kind, ls.lastValue, now);
      DecideOwn(i, t, s, GetSub(w.db, i, s.id), now);
      DeliverTouches(e, Call(w), r, s, i, p.kind, ls.lastValue, now);
      TouchesTransitive(w, Call(w), d.w, r, i, s.id);
      SaveTouches(e, d.w, p.state, r);
      TouchesTransitive(w, d.w, SaveSub(e, d.w, p.state).w, r, i, s.id);
    }
  }

  /** Posting with no failing call adds one complete batch to the view. */
  lemma PostOwn(e: Env, w: World, r: RuleId, s: Subscription, subscriber: Subscriber, i: Id, k: Kind, value: string, now: Time)
    requires Clear(e, w.calls, Post(e, w, r, s, subscriber.id, i, k, value, now, subscriber.channels).calls)
    ensures var v, bs := ViewOf(w, r, i, s.id), EligibleOf(e, s, subscriber.channels);
            ViewOf(Post(e, w, r, s, subscriber.id, i, k, value, now, subscriber.channels), r, i, s.id)
            == SubView(v.stored, v.audits + BatchAudits(k, Millis(now), bs), v.sent + BatchDeliveries(k, value, now, bs), v.seen || bs != [])
  {
    PostTouches(e, w, r, s, subscriber.id, i, k, value, now, subscriber.channels);
    PostSends(e, w, r, s, subscriber.id, i, k, value, now, subscriber.channels);
    PostRecords(e, w, r, s, subscriber.id, i, k, value, now, subscriber.channels);
    PostSeen(e, w, r, s, subscriber.id, i, k, value, now, subscriber.channels);
  }

  /** A delivery with no failing call: suppressed by the gate, refused for want of a
      subscriber, or one complete batch. */
  lemma DeliverOwn(e: Env, w: World, r: RuleId, s: Subscription, i: Id, k: Kind, value: string, now: Time)
    requires Clear(e, w.calls, Deliver(e, w, r, s, i, k, value, now).w.calls)
    ensures var d := Deliver(e, w, r, s, i, k, value, now);
            var v, v2 := ViewOf(w, r, i, s.id), ViewOf(d.w, r, i, s.id);
            if s.oneShot && v.seen then !d.err && v2 == v
            else if s.subscriberId !in w.db.subscribers then d.err && v2 == v
            else
              var bs := EligibleOf(e, s, w.db.subscribers[s.subscriberId].channels);
              !d.err && v2 == SubView(v.stored, v.audits + BatchAudits(k, Millis(now), bs),
                                      v.sent + BatchDeliveries(k, value, now, bs), v.seen || bs != [])
  {
    var w1 := if s.oneShot then Call(w) else w;
    DeliverCalls(e, w, r, s, i, k, value, now);
    CallKeepsView(w, r, i, s.id);
    CallKeepsView(w1, r, i, s.id);
    if s.subscriberId in w.db.subscribers && !(s.oneShot && ExistsForSubscription(w.db.notes, s.id)) {
      var subscriber := w.db.subscribers[s.subscriberId];
      PostCalls(e, Call(w1), r, s, subscriber.id, i, k, value, now, subscriber.channels);
      assert Deliver(e, w, r, s, i, k, value, now) ==
        Outcome(Post(e, Call(w1), r, s, subscriber.id, i, k, value, now, subscriber.channels), false);
      PostOwn(e, Call(w1), r, s, subscriber, i, k, value, now);
    }
  }

  lemma DeliverCalls(e: Env, w: World, r: RuleId, s: Subscription, i: Id, k: Kind, value: string, now: Time)
    ensures Deliver(e, w, r, s, i, k, value, now).w.calls > w.calls
    ensures s.subscriberId in w.db.subscribers && s.oneShot && !e.fails(w.calls) && !ExistsForSubscription(w.db.notes, s.id) ==>
              Deliver(e, w, r, s, i, k, value, now).w.calls > w.calls + 1
  {
    var w1 := if s.oneShot then Call(w) else w;
    if s.subscriberId in w.db.subscribers {
      var subscriber := w.db.subscribers[s.subscriberId];
      PostCalls(e, Call(w1), r, s, subscriber.id, i, k, value, now, subscriber.channels);
    }
  }

  lemma CallKeepsView(w: World, r: RuleId, i: Id, s: SubId)
    ensures ViewOf(Call(w), r, i, s) == ViewOf(w, r, i, s)
  {
  }

  lemma SaveOwn(e: Env, w: World, st: SubState, r: RuleId)
    requires !e.fails(w.calls)
    ensures ViewOf(SaveSub(e, w, st).w, r, st.incidentId, st.subscriptionId)
            == ViewOf(w, r, st.incidentId, st.subscriptionId).(stored := Some(Reloaded(st)))
  {
  }

  /** The evaluation once it is decided to deliver. */
  lemma DecidedOwn(e: Env, w: World, r: RuleId, s: Subscription, p: Pending, value: string, now: Time)
    requires p.state.incidentId == p.incidentId && p.state.subscriptionId == s.id
    requires Clear(e, w.calls, DeliverAndSave(e, w, r, s, p, value, now).w.calls)
    ensures var v, v2 := ViewOf(w, r, p.incidentId, s.id), ViewOf(DeliverAndSave(e, w, r, s, p, value, now).w, r, p.incidentId, s.id);
            v2 == if s.oneShot && v.seen then v.(stored := Some(Reloaded(p.state)))
                  else if s.subscriberId !in w.db.subscribers then v
                  else
                    var bs := EligibleOf(e, s, w.db.subscribers[s.subscriberId].channels);
                    SubView(Some(Reloaded(p.state)), v.audits + BatchAudits(p.kind, Millis(now), bs),
                            v.sent + BatchDeliveries(p.kind, value, now, bs), v.seen || bs != [])
  {
    var d := Deliver(e, w, r, s, p.incidentId, p.kind, value, now);
    DeliverTouches(e, w, r, s, p.incidentId, p.kind, value, now);
    DeliverOwn(e, w, r, s, p.incidentId, p.kind, value, now);
    if !d.err {
      SaveOwn(e, d.w, p.state, r);
    }
  }

  /** An evaluation whose own store calls succeed does exactly `ViewStep` to its own view. */
  lemma EvaluateOwn(e: Env, w: World, r: RuleId, ls: Live, s: Subscription, t: Transition, now: Time)
    requires Clear(e, w.calls, EvaluateSubscription(e, w, r, ls, s, t, now).w.calls)
    ensures ViewOf(EvaluateSubscription(e, w, r, ls, s, t, now).w, r, Focus(ls, t), s.id)
            == ViewStep(e, w.db.subscribers, ViewOf(w, r, Focus(ls, t), s.id), ls, s, t, now)
  {
    if Target(ls, t, s, now).Some? {
      var i := Focus(ls, t);
      CallKeepsView(w, r, i, s.id);
      assert EvaluateSubscription(e, w, r, ls, s, t, now).w.calls > w.calls by {
        EvaluateCalls(e, w, r, ls, s, t, now);
      }
      var p := Decide(i, t, s, GetSub(w.db, i, s.id), now);
      if p.Some? {
        DecideOwn(i, t, s, GetSub(w.db, i, s.id), now);
        DecidedOwn(e, Call(w), r, s, p.value, ls.lastValue, now);
      }
    }
  }

  lemma EvaluateCalls(e: Env, w: World, r: RuleId, ls: Live, s: Subscription, t: Transition, now: Time)
    requires Target(ls, t, s, now).Some?
    ensures EvaluateSubscription(e, w, r, ls, s, t, now).w.calls > w.calls
  {
    var i := Focus(ls, t);
    var p := Decide(i, t, s, GetSub(w.db, i, s.id), now);
    if p.Some? {
      DeliverTouches(e, Call(w), r, s, i, p.value.kind, ls.lastValue, now);
    }
  }

  // ----- all subscriptions of one tick -----

  /** `w2` differs from `w` only by rows of incident `i` and messages of rule `r`. */
  ghost predicate OnlyAbout(w: World, w2: World, r: RuleId, i: Id) {
    && w2.db == w.db.(notes := w2.db.notes, subStates := w2.db.subStates)
    && w.calls <= w2.calls && w.lastId <= w2.lastId
    && (forall k :: k in w2.db.subStates && k.0 != i ==> k in w.db.subStates && w2.db.subStates[k] == w.db.subStates[k])
    && (forall k :: k in w.db.subStates && k.0 != i ==> k in w2.db.subStates)
    && (forall n :: n in w2.db.notes ==> n in w.db.notes || n.incidentId == i)
    && w.db.notes <= w2.db.notes && w.outbox <= w2.outbox
    && (forall i0: Id, s0: SubId {:trigger AuditsOf(w2.db.notes, i0, s0)} :: i0 != i ==>
          AuditsOf(w2.db.notes, i0, s0) == AuditsOf(w.db.notes, i0, s0))
    && (forall r0: RuleId, s0: SubId {:trigger DeliveriesTo(w2.outbox, r0, s0)} :: r0 != r ==>
          DeliveriesTo(w2.outbox, r0, s0) == DeliveriesTo(w.outbox, r0, s0))
  }

  lemma TouchesIsAbout(w: World, w2: World, r: RuleId, i: Id, s: SubId)
    requires OnlyTouches(w, w2, r, i, s)
    ensures OnlyAbout(w, w2, r, i)
  {
    forall k | k in w2.db.subStates && k.0 != i ensures k in w.db.subStates && w2.db.subStates[k] == w.db.subStates[k] {
      assert k in w2.db.subStates - {(i, s)};
    }
    forall k | k in w.db.subStates && k.0 != i ensures k in w2.db.subStates {
      assert k in w.db.subStates - {(i, s)};
    }
  }

  lemma AboutTransitive(w: World, w1: World, w2: World, r: RuleId, i: Id)
    requires OnlyAbout(w, w1, r, i) && OnlyAbout(w1, w2, r, i)
    ensures OnlyAbout(w, w2, r, i)
  {
  }

  lemma {:induction false} EvaluateAllAbout(e: Env, w: World, r: RuleId, ls: Live, subs: seq<Subscription>, t: Transition, now: Time)
    ensures OnlyAbout(w, EvaluateAll(e, w, r, ls, subs, t, now), r, Focus(ls, t))
    decreases |subs|
  {
    if subs != [] {
      var w1 := EvaluateSubscription(e, w, r, ls, subs[0], t, now).w;
      EvaluateTouches(e, w, r, ls, subs[0], t, now);
      TouchesIsAbout(w, w1, r, Focus(ls, t), subs[0].id);
      EvaluateAllAbout(e, w1, r, ls, subs[1..], t, now);
      AboutTransitive(w, w1, EvaluateAll(e, w1, r, ls, subs[1..], t, now), r, Focus(ls, t));
    }
  }

  lemma OtherView(w: World, w2: World, r: RuleId, i: Id, s: SubId, i0: Id, s0: SubId)
    requires OnlyTouches(w, w2, r, i, s) && s0 != s
    ensures ViewOf(w2, r, i0, s0) == ViewOf(w, r, i0, s0)
  {
    assert (i0, s0) in w2.db.subStates <==> (i0, s0) in w2.db.subStates - {(i, s)};
    assert (i0, s0) in w.db.subStates <==> (i0, s0) in w.db.subStates - {(i, s)};
    if ExistsForSubscription(w.db.notes, s0) {
      var k :| 0 <= k < |w.db.notes| && w.db.notes[k].subscriptionId == s0;
      assert w2.db.notes[k].subscriptionId == s0;
    }
    if ExistsForSubscription(w2.db.notes, s0) {
      var k :| 0 <= k < |w2.db.notes| && w2.db.notes[k].subscriptionId == s0;
      assert w2.db.notes[k] in w2.db.notes;
    }
  }

  /** A subscription that is not evaluated keeps its view. */
  lemma {:induction false} Bystander(e: Env, w: World, r: RuleId, ls: Live, subs: seq<Subscription>, t: Transition, now: Time, i: Id, s: SubId)
    requires forall k :: 0 <= k < |subs| ==> subs[k].id != s
    ensures ViewOf(EvaluateAll(e, w, r, ls, subs, t, now), r, i, s) == ViewOf(w, r, i, s)
    decreases |subs|
  {
    if subs != [] {
      var w1 := EvaluateSubscription(e, w, r, ls, subs[0], t, now).w;
      EvaluateTouches(e, w, r, ls, subs[0], t, now);
      OtherView(w, w1, r, Focus(ls, t), subs[0].id, i, s);
      Bystander(e, w1, r, ls, subs[1..], t, now, i, s);
    }
  }

  /** Independence: whatever the other subscriptions of the tick are, in whatever order they
      come and whichever of their store calls fail, subscription `subs[n]` is evaluated at a
      world `at` that looks to it as the world did before the tick; if its own calls
      succeed, the tick does to it exactly what its own evaluation does. */
  lemma {:induction false} Independence(e: Env, w: World, r: RuleId, ls: Live, subs: seq<Subscription>, n: nat, t: Transition, now: Time)
    returns (at: World)
    requires DistinctIds(subs) && n < |subs|
    ensures ViewOf(at, r, Focus(ls, t), subs[n].id) == ViewOf(w, r, Focus(ls, t), subs[n].id)
    ensures w.calls <= at.calls
            && EvaluateSubscription(e, at, r, ls, subs[n], t, now).w.calls <= EvaluateAll(e, w, r, ls, subs, t, now).calls
    ensures Clear(e, at.calls, EvaluateSubscription(e, at, r, ls, subs[n], t, now).w.calls) ==>
              ViewOf(EvaluateAll(e, w, r, ls, subs, t, now), r, Focus(ls, t), subs[n].id)
              == ViewStep(e, w.db.subscribers, ViewOf(w, r, Focus(ls, t), subs[n].id), ls, subs[n], t, now)
    decreases |subs|
  {
    var w1 := EvaluateSubscription(e, w, r, ls, subs[0], t, now).w;
    EvaluateTouches(e, w, r, ls, subs[0], t, now);
    EvaluateAllAbout(e, w1, r, ls, subs[1..], t, now);
    if n == 0 {
      at := w;
      Bystander(e, w1, r, ls, subs[1..], t, now, Focus(ls, t), subs[0].id);
      if Clear(e, w.calls, w1.calls) {
        EvaluateOwn(e, w, r, ls, subs[0], t, now);
      }
    } else {
      at := Independence(e, w1, r, ls, subs[1..], n - 1, t, now);
      OtherView(w, w1, r, Focus(ls, t), subs[0].id, Focus(ls, t), subs[n].id);
    }
  }

  /** The order in which a tick visits its subscriptions makes no difference to any of them. */
  lemma OrderIrrelevant(e: Env, w: World, r: RuleId, ls: Live, xs: seq<Subscription>, ys: seq<Subscription>, s: Subscription, t: Transition, now: Time)
    requires DistinctIds(xs) && DistinctIds(ys)
    requires s in xs && s in ys
    requires forall n: nat :: !e.fails(n)
    ensures ViewOf(EvaluateAll(e, w, r, ls, xs, t, now), r, Focus(ls, t), s.id)
            == ViewOf(EvaluateAll(e, w, r, ls, ys, t, now), r, Focus(ls, t), s.id)
  {
    var m :| 0 <= m < |xs| && xs[m] == s;
    var n :| 0 <= n < |ys| && ys[n] == s;
    var _ := Independence(e, w, r, ls, xs, m, t, now);
    var _ := Independence(e, w, r, ls, ys, n, t, now);
  }
}
