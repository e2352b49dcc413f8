/** A tick under way, seen by one subscription: what it will have been told, and what will be
    kept for it, once the tick is done. The steps of the tick leave this as it is. */
module Underway {
  import opened Base
  import opened RuleState
  import opened Tables
  import opened Dispatch
  import opened Views
  import opened Machine
  import Safety

  /** What is kept for and was sent to a subscription, for one incident of a rule. */
  datatype Told = Told(stored: Option<SubState>, sent: seq<Delivery>)

  function ToldOf(w: World, r: RuleId, i: Id, s: SubId): Told {
    Told(GetSub(w.db, i, s), DeliveriesTo(w.outbox, r, s))
  }

  /** A recurring subscription and its subscriber. */
  datatype Listener = Listener(s: Subscription, subscriber: Subscriber)

  function Users(n: Listener): map<string, Subscriber> {
    map[n.s.subscriberId := n.subscriber]
  }

  /** The whole evaluation of the subscription by a tick. */
  function Evaluated(e: Env, n: Listener, v: Told, ls: Live, t: Transition, now: Time): Told {
    var v2 := ViewStep(e, Users(n), SubView(v.stored, [], v.sent, false), ls, n.s, t, now);
    Told(v2.stored, v2.sent)
  }

  /** What a task will have made of `v` by its end. */
  function Finish(e: Env, n: Listener, v: Told, k: Task): Told
    requires WellFormed(k)
  {
    match k
    case Save(j, ls, t) => Evaluated(e, n, v, ls, t, j.now)
    case Mark(j, ls, t) => Evaluated(e, n, v, ls, t, j.now)
    case List(j, ls, t) => Evaluated(e, n, v, ls, t, j.now)
    case Scan(j, ls, t, subs) => if n.s in subs then Evaluated(e, n, v, ls, t, j.now) else v
    case Gate(j, ls, t, subs, p) => if n.s in subs[1..] then Evaluated(e, n, v, ls, t, j.now) else v
    case Find(j, ls, t, subs, p) =>
      if subs[0] == n.s then Delivered(e, n, v, p, ls.lastValue, j.now, n.subscriber.channels)
      else if n.s in subs[1..] then Evaluated(e, n, v, ls, t, j.now) else v
    case Send(j, ls, t, subs, p, _, bindings) =>
      if subs[0] == n.s then Delivered(e, n, v, p, ls.lastValue, j.now, bindings)
      else if n.s in subs[1..] then Evaluated(e, n, v, ls, t, j.now) else v
    case Keep(j, ls, t, subs, p) =>
      if subs[0] == n.s then v.(stored := Some(Reloaded(p.state)))
      else if n.s in subs[1..] then Evaluated(e, n, v, ls, t, j.now) else v
    case _ => v
  }

  /** A delivery to the given bindings, and the sub-state saved after it. */
  function Delivered(e: Env, n: Listener, v: Told, p: Pending, value: string, now: Time, bindings: seq<Binding>): Told {
    Told(Some(Reloaded(p.state)), v.sent + BatchDeliveries(p.kind, value, now, EligibleOf(e, n.s, bindings)))
  }

  /** What holds of a task on its way, for the sake of one subscription. */
  ghost predicate InOrder(k: Task, n: Listener) {
    && WellFormed(k)
    && (Notifying(k) ==> DistinctIds(k.subs) && forall x :: x in k.subs && x.id == n.s.id ==> x == n.s)
    && (Delivering(k) ==>
          && k.p.incidentId == Focus(k.ls, k.t)
          && k.p.state.incidentId == k.p.incidentId && k.p.state.subscriptionId == k.subs[0].id)
    && (k.Gate? ==> k.subs[0].oneShot)
  }

  ghost predicate Known(w: World, n: Listener) {
    !n.s.oneShot && n.s.subscriberId in w.db.subscribers && w.db.subscribers[n.s.subscriberId] == n.subscriber
  }

  lemma HeadAndTail(subs: seq<Subscription>, n: Listener)
    requires subs != [] && DistinctIds(subs)
    ensures DistinctIds(subs[1..]) && (subs[0] == n.s ==> n.s !in subs[1..])
    ensures n.s in subs <==> subs[0] == n.s || n.s in subs[1..]
  {
    if n.s in subs[1..] {
      var m :| 0 <= m < |subs[1..]| && subs[1..][m] == n.s;
      assert subs[m + 1] == n.s;
    }
  }

  lemma NextInOrder(k: Task, n: Listener)
    requires InOrder(k, n) && Notifying(k) && k.subs != []
    ensures InOrder(NextSub(k), n)
  {
    HeadAndTail(k.subs, n);
  }

  /** A delivery is decided for the subscription whose turn it is. */
  lemma ScanInOrder(e: Env, w: World, k: Task, n: Listener)
    requires InOrder(k, n) && k.Scan? && k.subs != []
    ensures InOrder(Step(e, w, k).k, n)
  {
    var i, s := Focus(k.ls, k.t), k.subs[0];
    NextInOrder(k, n);
    DecideOwn(i, k.t, s, GetSub(w.db, i, s.id), k.j.now);
  }

  lemma OrderKept(e: Env, w: World, k: Task, n: Listener)
    requires InOrder(k, n) && Notifying(k)
    ensures InOrder(Step(e, w, k).k, n)
  {
    if k.subs != [] {
      if k.Scan? {
        ScanInOrder(e, w, k, n);
      } else {
        NextInOrder(k, n);
      }
    }
  }

  // ----- the steps of the tick -----

  lemma SaveTold(e: Env, w: World, st: SubState, r: RuleId, i: Id, s: SubId)
    requires !e.fails(w.calls)
    ensures var v := ToldOf(w, r, i, s);
            ToldOf(SaveSub(e, w, st).w, r, i, s) ==
              if (st.incidentId, st.subscriptionId) == (i, s) then v.(stored := Some(Reloaded(st))) else v
  {
  }

  lemma PostOneTold(e: Env, w: World, r: RuleId, x: Subscription, subscriberId: string, i: Id, k: Kind, value: string, now: Time,
                    b: Binding, r0: RuleId, i0: Id, s0: SubId)
    ensures var v := ToldOf(w, r0, i0, s0);
            var more := if (r0, s0) == (r, x.id) && Eligible(e, x, b) then [b] else [];
            ToldOf(PostOne(e, w, r, x, subscriberId, i, k, value, now, b), r0, i0, s0)
            == v.(sent := v.sent + BatchDeliveries(k, value, now, more))
  {
    BatchOfOne(k, value, now, b);
    var w2 := PostOne(e, w, r, x, subscriberId, i, k, value, now, b);
    if Eligible(e, x, b) {
      AppendDelivery(w.outbox, w2.outbox[|w.outbox|], r0, s0);
    }
    assert DeliveriesTo(w.outbox, r0, s0) + [] == DeliveriesTo(w.outbox, r0, s0);
  }

  /** The evaluation of this subscription begins. */
  lemma ScanOwn(e: Env, w: World, k: Task, n: Listener)
    requires !e.fails(w.calls) && Known(w, n) && InOrder(k, n) && k.Scan? && k.subs != [] && k.subs[0] == n.s
    ensures var st, r, i := Step(e, w, k), k.j.rule.id, Focus(k.ls, k.t);
            Finish(e, n, ToldOf(st.w, r, i, n.s.id), st.k) == Finish(e, n, ToldOf(w, r, i, n.s.id), k)
  {
    HeadAndTail(k.subs, n);
    var st, r, i := Step(e, w, k), k.j.rule.id, Focus(k.ls, k.t);
    assert ToldOf(st.w, r, i, n.s.id) == ToldOf(w, r, i, n.s.id);
  }

  /** Delivering to the first binding, and then to the rest. */
  lemma DeliveredInTurn(e: Env, n: Listener, v: Told, p: Pending, value: string, now: Time, bindings: seq<Binding>)
    requires bindings != []
    ensures var b1 := if Eligible(e, n.s, bindings[0]) then [bindings[0]] else [];
            Delivered(e, n, v.(sent := v.sent + BatchDeliveries(p.kind, value, now, b1)), p, value, now, bindings[1..])
            == Delivered(e, n, v, p, value, now, bindings)
  {
    var b1, b2 := if Eligible(e, n.s, bindings[0]) then [bindings[0]] else [], EligibleOf(e, n.s, bindings[1..]);
    assert EligibleOf(e, n.s, bindings) == b1 + b2;
    BatchesConcat(p.kind, value, now, b1, b2);
    var first, second := BatchDeliveries(p.kind, value, now, b1), BatchDeliveries(p.kind, value, now, b2);
    assert (v.sent + first) + second == v.sent + (first + second);
  }

  /** One binding of the delivery to this subscription is dealt with. */
  lemma SendOwn(e: Env, w: World, k: Task, n: Listener)
    requires InOrder(k, n) && k.Send? && k.subs[0] == n.s && k.bindings != []
    ensures var st, r, i := Step(e, w, k), k.j.rule.id, Focus(k.ls, k.t);
            Finish(e, n, ToldOf(st.w, r, i, n.s.id), st.k) == Finish(e, n, ToldOf(w, r, i, n.s.id), k)
  {
    var r, i := k.j.rule.id, Focus(k.ls, k.t);
    PostOneTold(e, w, r, n.s, k.subscriberId, i, k.p.kind, k.ls.lastValue, k.j.now, k.bindings[0], r, i, n.s.id);
    DeliveredInTurn(e, n, ToldOf(w, r, i, n.s.id), k.p, k.ls.lastValue, k.j.now, k.bindings);
  }

  /** A step of the delivery to this subscription. */
  lemma DeliveringOwn(e: Env, w: World, k: Task, n: Listener)
    requires !e.fails(w.calls) && Known(w, n) && InOrder(k, n) && (k.Find? || k.Send? || k.Keep?) && k.subs[0] == n.s
    ensures var st, r, i := Step(e, w, k), k.j.rule.id, Focus(k.ls, k.t);
            Finish(e, n, ToldOf(st.w, r, i, n.s.id), st.k) == Finish(e, n, ToldOf(w, r, i, n.s.id), k)
  {
    var r, i, v := k.j.rule.id, Focus(k.ls, k.t), ToldOf(w, k.j.rule.id, Focus(k.ls, k.t), n.s.id);
    HeadAndTail(k.subs, n);
    if k.Keep? {
      SaveTold(e, w, k.p.state, r, i, n.s.id);
    } else if k.Send? && k.bindings != [] {
      SendOwn(e, w, k, n);
    } else {
      assert v.sent + [] == v.sent;
      assert ToldOf(Step(e, w, k).w, r, i, n.s.id) == v;
    }
  }

  /** A step that evaluates another subscription tells this one nothing. */
  lemma OtherTold(e: Env, w: World, k: Task, n: Listener, r: RuleId, i: Id)
    requires !e.fails(w.calls) && InOrder(k, n) && Notifying(k) && k.subs != [] && k.subs[0].id != n.s.id
    ensures ToldOf(Step(e, w, k).w, r, i, n.s.id) == ToldOf(w, r, i, n.s.id)
  {
    var x := k.subs[0];
    if k.Keep? {
      SaveTold(e, w, k.p.state, r, i, n.s.id);
    } else if k.Send? && k.bindings != [] {
      PostOneTold(e, w, k.j.rule.id, x, k.subscriberId, k.p.incidentId, k.p.kind, k.ls.lastValue, k.j.now, k.bindings[0], r, i, n.s.id);
      assert ToldOf(w, r, i, n.s.id).sent + [] == ToldOf(w, r, i, n.s.id).sent;
    }
  }

  /** And does not change what is still to come for it. */
  lemma OtherFinish(e: Env, k: Task, k2: Task, n: Listener, v: Told)
    requires InOrder(k, n) && Notifying(k) && k.subs != [] && k.subs[0] != n.s && Safety.GoesOn(k, k2)
    ensures WellFormed(k2) && Finish(e, n, v, k2) == Finish(e, n, v, k)
  {
    HeadAndTail(k.subs, n);
  }

  /** A step that evaluates another subscription. */
  lemma StepForOther(e: Env, w: World, k: Task, n: Listener)
    requires !e.fails(w.calls) && InOrder(k, n) && Notifying(k) && k.subs != [] && k.subs[0] != n.s
    ensures var st, r, i := Step(e, w, k), k.j.rule.id, Focus(k.ls, k.t);
            Finish(e, n, ToldOf(st.w, r, i, n.s.id), st.k) == Finish(e, n, ToldOf(w, r, i, n.s.id), k)
  {
    assert k.subs[0].id != n.s.id by { assert k.subs[0] in k.subs; }
    OtherTold(e, w, k, n, k.j.rule.id, Focus(k.ls, k.t));
    Safety.StepGoesOn(e, w, k);
    OtherFinish(e, k, Step(e, w, k).k, n, ToldOf(w, k.j.rule.id, Focus(k.ls, k.t), n.s.id));
  }

  /** The steps of a notifying task leave what it comes to as it is. */
  lemma FinishKept(e: Env, w: World, k: Task, n: Listener)
    requires !e.fails(w.calls) && Known(w, n) && InOrder(k, n) && Notifying(k)
    ensures var st, r, i := Step(e, w, k), k.j.rule.id, Focus(k.ls, k.t);
            Finish(e, n, ToldOf(st.w, r, i, n.s.id), st.k) == Finish(e, n, ToldOf(w, r, i, n.s.id), k)
  {
    if k.subs != [] {
      if k.subs[0] != n.s {
        StepForOther(e, w, k, n);
      } else if k.Scan? {
        ScanOwn(e, w, k, n);
      } else {
        DeliveringOwn(e, w, k, n);
      }
    }
  }
}
