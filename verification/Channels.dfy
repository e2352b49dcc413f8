/** Where messages go and what the audit rows say of them, over every serial run and whatever
    store calls fail in it. */
module Channels {
  import opened Base
  import opened RuleState
  import opened Tables
  import opened Dispatch
  import opened Serial
  import opened OneShot
  import Views

  // ----- the bindings of a batch -----

  /** `idx` are the positions, in order, of the bindings whose channel is configured and, unless
      the filter is empty, in the filter. */
  ghost predicate Selects(idx: seq<nat>, channels: set<string>, filter: seq<string>, bindings: seq<Binding>) {
    && (forall a, b :: 0 <= a < b < |idx| ==> idx[a] < idx[b])
    && (forall j: nat :: j in idx <==>
          j < |bindings| && bindings[j].channel in channels && (filter == [] || bindings[j].channel in filter))
  }

  /** The `idx`-th bindings, in order, are `chosen`. */
  ghost predicate At(chosen: seq<Binding>, idx: seq<nat>, bindings: seq<Binding>) {
    |chosen| == |idx| && forall m :: 0 <= m < |idx| ==> idx[m] < |bindings| && chosen[m] == bindings[idx[m]]
  }

  /** Exactly those are eligible. */
  lemma {:induction false} EligibleExactly(e: Env, s: Subscription, bindings: seq<Binding>) returns (idx: seq<nat>)
    ensures Selects(idx, e.channels, s.channelFilter, bindings)
    ensures At(Views.EligibleOf(e, s, bindings), idx, bindings)
    decreases |bindings|
  {
    if bindings == [] {
      idx := [];
    } else {
      var tail := EligibleExactly(e, s, bindings[1..]);
      var chosen := bindings[0].channel in e.channels && (s.channelFilter == [] || bindings[0].channel in s.channelFilter);
      idx := Shifted(chosen, tail);
      SelectsShifted(chosen, tail, e.channels, s.channelFilter, bindings);
      AtShifted(chosen, Views.EligibleOf(e, s, bindings[1..]), tail, bindings);
    }
  }

  lemma AtShifted(chosen: bool, rest: seq<Binding>, tail: seq<nat>, bindings: seq<Binding>)
    requires bindings != [] && At(rest, tail, bindings[1..])
    ensures At((if chosen then [bindings[0]] else []) + rest, Shifted(chosen, tail), bindings)
  {
    var idx, c := Shifted(chosen, tail), if chosen then 1 else 0;
    forall m | c <= m < |idx| ensures idx[m] < |bindings| && rest[m - c] == bindings[idx[m]] {
      assert idx[m] == tail[m - c] + 1 && bindings[1..][tail[m - c]] == bindings[idx[m]];
    }
  }

  /** The positions after one more binding in front, which is chosen or not. */
  function Shifted(chosen: bool, tail: seq<nat>): seq<nat> {
    (if chosen then [0] else []) + seq(|tail|, m requires 0 <= m < |tail| => tail[m] + 1)
  }

  lemma SelectsShifted(chosen: bool, tail: seq<nat>, channels: set<string>, filter: seq<string>, bindings: seq<Binding>)
    requires bindings != [] && Selects(tail, channels, filter, bindings[1..])
    requires chosen <==> bindings[0].channel in channels && (filter == [] || bindings[0].channel in filter)
    ensures Selects(Shifted(chosen, tail), channels, filter, bindings)
  {
    var idx, c := Shifted(chosen, tail), if chosen then 1 else 0;
    forall j: nat
      ensures j in idx <==> j < |bindings| && bindings[j].channel in channels && (filter == [] || bindings[j].channel in filter)
    {
      if j == 0 {
        assert 0 in idx <==> chosen;
      } else {
        if j in idx {
          var m :| 0 <= m < |idx| && idx[m] == j;
          assert tail[m - c] == j - 1;
        }
        if j - 1 in tail {
          var m :| 0 <= m < |tail| && tail[m] == j - 1;
          assert idx[m + c] == j;
        }
      }
    }
  }

  /** One message for each selected binding, in order. */
  function MessagesAt(idx: seq<nat>, bindings: seq<Binding>, r: RuleId, s: SubId, i: Id, k: Kind, value: string, now: Time): seq<Sent>
    requires forall m :: 0 <= m < |idx| ==> idx[m] < |bindings|
  {
    seq(|idx|, m requires 0 <= m < |idx| => Sent(r, s, i, k, value, bindings[idx[m]].channel, bindings[idx[m]].address, now))
  }

  /** A tick, whatever fails in it, sends a subscription nothing or exactly one message for each
      binding of its subscriber whose channel is configured and, unless the filter is empty,
      in the filter: in order, to the address of the binding, with the value and time of the
      tick, about the incident of the tick. */
  lemma TickMessages(e: Env, w: World, j: Job, s: Subscription) returns (idx: seq<nat>, k: Kind)
    requires DistinctIds(w.db.subscriptions) && s in w.db.subscriptions
    ensures s.subscriberId in w.db.subscribers ==>
              && Selects(idx, e.channels, s.channelFilter, w.db.subscribers[s.subscriberId].channels)
              && forall m :: 0 <= m < |idx| ==> idx[m] < |w.db.subscribers[s.subscriberId].channels|
    ensures var before, after := MessagesTo(w.outbox, s.id), MessagesTo(Tick(e, w, j).w.outbox, s.id);
            || after == before
            || (s.subscriberId in w.db.subscribers &&
                after == before + MessagesAt(idx, w.db.subscribers[s.subscriberId].channels, j.rule.id, s.id,
                                             Views.Focus(LiveAfter(w, j), Change(w, j)), k, j.value, j.now))
  {
    idx, k := [], FiringKind;
    TickAdds(e, w, j, s);
    var before, after, i := LogOf(e, w, s.id), LogOf(e, Tick(e, w, j).w, s.id), Views.Focus(LiveAfter(w, j), Change(w, j));
    if s.subscriberId in w.db.subscribers {
      var bindings := w.db.subscribers[s.subscriberId].channels;
      var bs := Views.EligibleOf(e, s, bindings);
      idx := EligibleExactly(e, s, bindings);
      if after != before {
        k :| Grows(e, before, after, BatchTo(j.rule.id, s.id, i, k, j.value, j.now, bs));
        assert BatchTo(j.rule.id, s.id, i, k, j.value, j.now, bs) == MessagesAt(idx, bindings, j.rule.id, s.id, i, k, j.value, j.now);
      }
    } else if after != before {
      var k0: Kind :| Grows(e, before, after, BatchTo(j.rule.id, s.id, i, k0, j.value, j.now, []));
      assert before.messages + [] == before.messages;
    }
  }

  /** A message is meant for an existing subscription, goes to a binding of its subscriber, on a
      configured channel, and on one of the filter unless that is empty. */
  ghost predicate Allowed(e: Env, db: Db, m: Sent, s: Subscription) {
    && s in db.subscriptions && s.id == m.subscriptionId && s.subscriberId in db.subscribers
    && m.channel in e.channels && (s.channelFilter == [] || m.channel in s.channelFilter)
    && Binding(m.channel, m.address) in db.subscribers[s.subscriberId].channels
  }

  ghost predicate AllAllowed(e: Env, db: Db, outbox: seq<Sent>) {
    forall m :: m in outbox ==> exists s :: Allowed(e, db, m, s)
  }

  /** A tick sends nothing to subscriptions that do not exist. */
  lemma NobodyElse(e: Env, w: World, j: Job, s: SubId)
    requires forall x :: x in w.db.subscriptions ==> x.id != s
    ensures MessagesTo(Tick(e, w, j).w.outbox, s) == MessagesTo(w.outbox, s)
  {
    var start := TickReaches(e, w, j);
    var subs := ListForRule(w.db.subscriptions, j.rule);
    forall k | 0 <= k < |subs| ensures subs[k].id != s {
      ListedExactly(w.db.subscriptions, j.rule, subs[k]);
    }
    OthersLog(e, start, j.rule.id, LiveAfter(w, j), subs, Change(w, j), j.now, s);
    assert LogOf(e, start, s) == LogOf(e, w, s);
  }

  lemma NewMessageAllowed(e: Env, w: World, j: Job, m: Sent)
    requires DistinctIds(w.db.subscriptions) && m in Tick(e, w, j).w.outbox && m !in w.outbox
    ensures exists s :: Allowed(e, w.db, m, s)
  {
    var id, outbox2 := m.subscriptionId, Tick(e, w, j).w.outbox;
    MessagesMembers(w.outbox, id);
    MessagesMembers(outbox2, id);
    if forall x :: x in w.db.subscriptions ==> x.id != id {
      NobodyElse(e, w, j, id);
      assert false;
    } else {
      var s :| s in w.db.subscriptions && s.id == id;
      var idx, k := TickMessages(e, w, j, s);
      var bindings := w.db.subscribers[s.subscriberId].channels;
      var n :| 0 <= n < |idx| && m.channel == bindings[idx[n]].channel && m.address == bindings[idx[n]].address;
      assert idx[n] in idx && bindings[idx[n]] == Binding(m.channel, m.address);
      assert Allowed(e, w.db, m, s);
    }
  }

  lemma EventAllowed(e: Env, w: World, ev: Event, w2: World)
    requires Step(e, w, ev, w2) && DistinctIds(w.db.subscriptions) && AllAllowed(e, w.db, w.outbox)
    ensures AllAllowed(e, w.db, w2.outbox)
  {
    match ev
    case TickEvent(j) =>
      forall m | m in w2.outbox ensures exists s :: Allowed(e, w.db, m, s) {
        if m !in w.outbox {
          NewMessageAllowed(e, w, j, m);
        }
      }
    case ErrorEvent(_, _, _) => assert w2.outbox == w.outbox;
    case PruneEvent(_, _) => assert w2.outbox == w.outbox;
  }

  /** No event touches the configuration. */
  lemma EventKeepsConfiguration(e: Env, w: World, ev: Event, w2: World)
    requires Step(e, w, ev, w2)
    ensures w2.db.subscriptions == w.db.subscriptions && w2.db.subscribers == w.db.subscribers
  {
    match ev
    case TickEvent(j) =>
      var start := TickReaches(e, w, j);
      Views.EvaluateAllAbout(e, start, j.rule.id, LiveAfter(w, j), ListForRule(w.db.subscriptions, j.rule), Change(w, j), j.now);
    case ErrorEvent(r, message, now) => ErrorLog(e, w, r, message, now, "");
    case PruneEvent(_, _) =>
  }

  lemma {:induction false} SameConfiguration(e: Env, ws: seq<World>, evs: seq<Event>, k: nat)
    requires Run(e, ws, evs) && k <= |evs|
    ensures ws[k].db.subscriptions == ws[0].db.subscriptions && ws[k].db.subscribers == ws[0].db.subscribers
  {
    if k > 0 {
      var n := k - 1;
      SameConfiguration(e, ws, evs, n);
      EventKeepsConfiguration(e, ws[n], evs[n], ws[n + 1]);
    }
  }

  /** In every run, whatever fails, each message goes where it may. */
  lemma {:induction false} EveryMessageAllowed(e: Env, ws: seq<World>, evs: seq<Event>, k: nat)
    requires Run(e, ws, evs) && k <= |evs|
    ensures AllAllowed(e, ws[0].db, ws[k].outbox)
  {
    if k > 0 {
      var n := k - 1;
      EveryMessageAllowed(e, ws, evs, n);
      SameConfiguration(e, ws, evs, n);
      assert AllAllowed(e, ws[n].db, ws[n].outbox) by { SameAllowed(e, ws[0].db, ws[n].db, ws[n].outbox); }
      EventAllowed(e, ws[n], evs[n], ws[n + 1]);
      SameAllowed(e, ws[n].db, ws[0].db, ws[k].outbox);
    }
  }

  lemma SameAllowed(e: Env, db: Db, db2: Db, outbox: seq<Sent>)
    requires AllAllowed(e, db, outbox) && db2.subscriptions == db.subscriptions && db2.subscribers == db.subscribers
    ensures AllAllowed(e, db2, outbox)
  {
    forall m | m in outbox ensures exists s :: Allowed(e, db2, m, s) {
      var s :| Allowed(e, db, m, s);
      assert Allowed(e, db2, m, s);
    }
  }
}
