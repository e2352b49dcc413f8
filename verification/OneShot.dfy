/** One-shot subscriptions: one batch across rules, incidents and kinds, for as long as an
    audit row of it is kept. */
module OneShot {
  import opened Base
  import opened RuleState
  import opened Tables
  import opened Dispatch
  import opened Serial
  import DeliveryLog
  import Views

  // ----- what was sent to and recorded for one subscription -----

  function MessagesTo(outbox: seq<Sent>, s: SubId): seq<Sent> {
    if outbox == [] then []
    else
      var m := outbox[|outbox| - 1];
      MessagesTo(outbox[..|outbox| - 1], s) + if m.subscriptionId == s then [m] else []
  }

  /** How many of these messages their channel accepted. */
  function Accepted(sendOk: nat -> bool, outbox: seq<Sent>, s: SubId): nat {
    if outbox == [] then 0
    else
      var n := |outbox| - 1;
      Accepted(sendOk, outbox[..n], s) + if outbox[n].subscriptionId == s && sendOk(n) then 1 else 0
  }

  function RowsTo(notes: seq<NoteRow>, s: SubId): seq<NoteRow> {
    if notes == [] then []
    else
      var n := notes[|notes| - 1];
      RowsTo(notes[..|notes| - 1], s) + if n.subscriptionId == s then [n] else []
  }

  datatype Log = Log(messages: seq<Sent>, accepted: nat, rows: seq<NoteRow>)

  function LogOf(e: Env, w: World, s: SubId): Log {
    Log(MessagesTo(w.outbox, s), Accepted(e.sendOk, w.outbox, s), RowsTo(w.db.notes, s))
  }

  /** The bindings that a batch for `s` goes to. */
  function BindingsOf(e: Env, subscribers: map<string, Subscriber>, s: Subscription): seq<Binding> {
    if s.subscriberId in subscribers then Views.EligibleOf(e, s, subscribers[s.subscriberId].channels) else []
  }

  /** One complete batch: one message per binding, in order. */
  function BatchTo(r: RuleId, s: SubId, i: Id, k: Kind, value: string, now: Time, bs: seq<Binding>): seq<Sent> {
    seq(|bs|, j requires 0 <= j < |bs| => Sent(r, s, i, k, value, bs[j].channel, bs[j].address, now))
  }

  /** `n` records the sending of `m`. */
  predicate Records(n: NoteRow, m: Sent) {
    && n.incidentId == m.incidentId && n.subscriptionId == m.subscriptionId && n.kind == m.kind
    && n.channel == m.channel && n.address == m.address && n.sentMs == Millis(m.now)
  }

  ghost predicate RecordsOne(n: NoteRow, batch: seq<Sent>) {
    exists m :: m in batch && Records(n, m)
  }

  /** The log has grown by the messages `batch` and by rows for some of them; if no call fails,
      by as many rows as messages. */
  ghost predicate Grows(e: Env, before: Log, after: Log, batch: seq<Sent>) {
    && after.messages == before.messages + batch
    && before.accepted <= after.accepted <= before.accepted + |batch|
    && before.rows <= after.rows && |after.rows| <= |before.rows| + |batch|
    && (NoFailures(e) ==> |after.rows| == |before.rows| + |batch|)
    && (forall x :: |before.rows| <= x < |after.rows| ==> RecordsOne(after.rows[x], batch))
  }

  lemma {:induction false} ExistsIffRows(notes: seq<NoteRow>, s: SubId)
    ensures ExistsForSubscription(notes, s) <==> RowsTo(notes, s) != []
  {
    if notes != [] {
      var front := notes[..|notes| - 1];
      ExistsIffRows(front, s);
      if ExistsForSubscription(front, s) {
        var k :| 0 <= k < |front| && front[k].subscriptionId == s;
        assert notes[k].subscriptionId == s;
      }
      if k :| 0 <= k < |notes| && notes[k].subscriptionId == s {
        assert k < |front| ==> front[k].subscriptionId == s;
      }
    }
  }

  lemma {:induction false} RowsMembers(notes: seq<NoteRow>, s: SubId)
    ensures forall n :: n in RowsTo(notes, s) <==> n in notes && n.subscriptionId == s
  {
    if notes != [] {
      RowsMembers(notes[..|notes| - 1], s);
      forall n ensures n in notes <==> n in notes[..|notes| - 1] || n == notes[|notes| - 1] {}
    }
  }

  lemma {:induction false} MessagesMembers(outbox: seq<Sent>, s: SubId)
    ensures forall m :: m in MessagesTo(outbox, s) <==> m in outbox && m.subscriptionId == s
  {
    if outbox != [] {
      MessagesMembers(outbox[..|outbox| - 1], s);
      forall m ensures m in outbox <==> m in outbox[..|outbox| - 1] || m == outbox[|outbox| - 1] {}
    }
  }

  // ----- one batch -----

  lemma PostOneLog(e: Env, w: World, r: RuleId, x: Subscription, subscriberId: string,
                   i: Id, k: Kind, value: string, now: Time, b: Binding, s: SubId)
    ensures var w2 := PostOne(e, w, r, x, subscriberId, i, k, value, now, b);
            Grows(e, LogOf(e, w, s), LogOf(e, w2, s),
                  if x.id == s && Eligible(e, x, b) then BatchTo(r, s, i, k, value, now, [b]) else [])
  {
    var w2 := PostOne(e, w, r, x, subscriberId, i, k, value, now, b);
    assert MessagesTo(w.outbox, s) + [] == MessagesTo(w.outbox, s);
    assert RowsTo(w.db.notes, s) + [] == RowsTo(w.db.notes, s);
    if Eligible(e, x, b) {
      assert w2.outbox[..|w.outbox|] == w.outbox;
      var m := w2.outbox[|w.outbox|];
      if x.id == s {
        assert BatchTo(r, s, i, k, value, now, [b]) == [m];
      }
      if w2.db.notes != w.db.notes {
        var row := w2.db.notes[|w.db.notes|];
        assert w2.db.notes[..|w.db.notes|] == w.db.notes;
        assert Records(row, m) && (x.id == s ==> RecordsOne(row, [m]));
      }
    }
  }

  lemma GrowsTwice(e: Env, a: Log, b: Log, c: Log, first: seq<Sent>, second: seq<Sent>)
    requires Grows(e, a, b, first) && Grows(e, b, c, second)
    ensures Grows(e, a, c, first + second)
  {
    forall x | |a.rows| <= x < |c.rows| ensures RecordsOne(c.rows[x], first + second) {
      if x < |b.rows| {
        assert c.rows[x] == b.rows[x] && RecordsOne(b.rows[x], first);
        var m :| m in first && Records(b.rows[x], m);
        assert m in first + second;
      } else {
        assert RecordsOne(c.rows[x], second);
        var m :| m in second && Records(c.rows[x], m);
        assert m in first + second;
      }
    }
  }

  lemma GrowsByNothing(e: Env, before: Log, after: Log)
    requires Grows(e, before, after, [])
    ensures after == before
  {
    assert before.messages + [] == before.messages;
  }

  lemma BatchesJoin(r: RuleId, s: SubId, i: Id, k: Kind, value: string, now: Time, b1: seq<Binding>, b2: seq<Binding>)
    ensures BatchTo(r, s, i, k, value, now, b1 + b2) == BatchTo(r, s, i, k, value, now, b1) + BatchTo(r, s, i, k, value, now, b2)
  {
  }

  /** Posting adds one batch to the log of its own subscription, whatever records fail. */
  lemma {:induction false} PostLog(e: Env, w: World, r: RuleId, x: Subscription, subscriberId: string,
                                   i: Id, k: Kind, value: string, now: Time, bindings: seq<Binding>)
    ensures var w2 := Post(e, w, r, x, subscriberId, i, k, value, now, bindings);
            Grows(e, LogOf(e, w, x.id), LogOf(e, w2, x.id),
                  BatchTo(r, x.id, i, k, value, now, Views.EligibleOf(e, x, bindings)))
    decreases |bindings|
  {
    if bindings == [] {
      assert MessagesTo(w.outbox, x.id) + [] == MessagesTo(w.outbox, x.id);
    } else {
      var b, rest := bindings[0], bindings[1..];
      var w1 := PostOne(e, w, r, x, subscriberId, i, k, value, now, b);
      var w2 := Post(e, w1, r, x, subscriberId, i, k, value, now, rest);
      var b1, b2 := if Eligible(e, x, b) then [b] else [], Views.EligibleOf(e, x, rest);
      PostOneLog(e, w, r, x, subscriberId, i, k, value, now, b, x.id);
      PostLog(e, w1, r, x, subscriberId, i, k, value, now, rest);
      BatchesJoin(r, x.id, i, k, value, now, b1, b2);
      GrowsTwice(e, LogOf(e, w, x.id), LogOf(e, w1, x.id), LogOf(e, w2, x.id),
                 BatchTo(r, x.id, i, k, value, now, b1), BatchTo(r, x.id, i, k, value, now, b2));
    }
  }

  /** And nothing to the log of any other. */
  lemma {:induction false} PostOtherLog(e: Env, w: World, r: RuleId, x: Subscription, subscriberId: string,
                                        i: Id, k: Kind, value: string, now: Time, bindings: seq<Binding>, s: SubId)
    requires x.id != s
    ensures LogOf(e, Post(e, w, r, x, subscriberId, i, k, value, now, bindings), s) == LogOf(e, w, s)
    decreases |bindings|
  {
    if bindings != [] {
      var w1 := PostOne(e, w, r, x, subscriberId, i, k, value, now, bindings[0]);
      PostOneLog(e, w, r, x, subscriberId, i, k, value, now, bindings[0], s);
      GrowsByNothing(e, LogOf(e, w, s), LogOf(e, w1, s));
      PostOtherLog(e, w1, r, x, subscriberId, i, k, value, now, bindings[1..], s);
    }
  }

  // ----- one evaluation -----

  /** The log stays as it is, or grows by one batch about `i`; that of a one-shot subscription only
      if it had no row. */
  ghost predicate AtMostOneBatch(e: Env, before: Log, after: Log, r: RuleId, s: Subscription, i: Id, value: string, now: Time, bs: seq<Binding>) {
    || after == before
    || ((s.oneShot ==> before.rows == []) && exists k: Kind :: Grows(e, before, after, BatchTo(r, s.id, i, k, value, now, bs)))
  }

  lemma DeliverOtherLog(e: Env, w: World, r: RuleId, x: Subscription, i: Id, k: Kind, value: string, now: Time, s: SubId)
    requires x.id != s
    ensures LogOf(e, Deliver(e, w, r, x, i, k, value, now).w, s) == LogOf(e, w, s)
  {
    if x.subscriberId in w.db.subscribers {
      var subscriber, start := w.db.subscribers[x.subscriberId], if x.oneShot then Call(Call(w)) else Call(w);
      PostOtherLog(e, start, r, x, subscriber.id, i, k, value, now, subscriber.channels, s);
    }
  }

  /** A delivery past the gate sends one batch or gives up with an error; one stopped at the gate
      sends nothing, which is no error. */
  lemma DeliverLog(e: Env, w: World, r: RuleId, x: Subscription, i: Id, k: Kind, value: string, now: Time)
    ensures var d := Deliver(e, w, r, x, i, k, value, now);
            var before, after := LogOf(e, w, x.id), LogOf(e, d.w, x.id);
            var closed := x.oneShot && before.rows != [];
            && (NoFailures(e) && d.err ==> !closed && x.subscriberId !in w.db.subscribers)
            && if d.err || closed then after == before
               else Grows(e, before, after, BatchTo(r, x.id, i, k, value, now, BindingsOf(e, w.db.subscribers, x)))
  {
    ExistsIffRows(w.db.notes, x.id);
    if x.subscriberId in w.db.subscribers {
      var subscriber, start := w.db.subscribers[x.subscriberId], if x.oneShot then Call(Call(w)) else Call(w);
      PostLog(e, start, r, x, subscriber.id, i, k, value, now, subscriber.channels);
      assert LogOf(e, start, x.id) == LogOf(e, w, x.id);
    }
  }

  lemma SavedLog(e: Env, w: World, r: RuleId, x: Subscription, p: Pending, value: string, now: Time, s: SubId)
    ensures LogOf(e, DeliverAndSave(e, w, r, x, p, value, now).w, s)
            == LogOf(e, Deliver(e, w, r, x, p.incidentId, p.kind, value, now).w, s)
  {
  }

  lemma CallLog(e: Env, w: World, s: SubId)
    ensures LogOf(e, Call(w), s) == LogOf(e, w, s)
  {
  }

  /** The evaluation of one subscription adds nothing to the log of another. */
  lemma EvaluateOtherLog(e: Env, w: World, r: RuleId, ls: Live, x: Subscription, t: Transition, now: Time, s: SubId)
    requires x.id != s
    ensures LogOf(e, EvaluateSubscription(e, w, r, ls, x, t, now).w, s) == LogOf(e, w, s)
  {
    CallLog(e, w, s);
    if Target(ls, t, x, now).Some? && !e.fails(w.calls) {
      var i := Target(ls, t, x, now).value;
      var p := Decide(i, t, x, GetSub(w.db, i, x.id), now);
      if p.Some? {
        DeliverOtherLog(e, Call(w), r, x, p.value.incidentId, p.value.kind, ls.lastValue, now, s);
        SavedLog(e, Call(w), r, x, p.value, ls.lastValue, now, s);
      }
    }
  }

  /** The evaluation of a subscription adds at most one batch to its own log. */
  lemma EvaluateLog(e: Env, w: World, r: RuleId, ls: Live, x: Subscription, t: Transition, now: Time)
    ensures AtMostOneBatch(e, LogOf(e, w, x.id), LogOf(e, EvaluateSubscription(e, w, r, ls, x, t, now).w, x.id),
                           r, x, Views.Focus(ls, t), ls.lastValue, now, BindingsOf(e, w.db.subscribers, x))
  {
    CallLog(e, w, x.id);
    if Target(ls, t, x, now).Some? && !e.fails(w.calls) {
      var i := Views.Focus(ls, t);
      var p := Decide(i, t, x, GetSub(w.db, i, x.id), now);
      if p.Some? {
        DeliverLog(e, Call(w), r, x, i, p.value.kind, ls.lastValue, now);
        Views.DecideOwn(i, t, x, GetSub(w.db, i, x.id), now);
        SavedLog(e, Call(w), r, x, p.value, ls.lastValue, now, x.id);
      }
    }
  }

  // ----- one tick -----

  lemma {:induction false} OthersLog(e: Env, w: World, r: RuleId, ls: Live, subs: seq<Subscription>, t: Transition, now: Time, s: SubId)
    requires forall k :: 0 <= k < |subs| ==> subs[k].id != s
    ensures LogOf(e, EvaluateAll(e, w, r, ls, subs, t, now), s) == LogOf(e, w, s)
    decreases |subs|
  {
    if subs != [] {
      EvaluateOtherLog(e, w, r, ls, subs[0], t, now, s);
      OthersLog(e, EvaluateSubscription(e, w, r, ls, subs[0], t, now).w, r, ls, subs[1..], t, now, s);
    }
  }

  /** A subscription is evaluated at a world `at` that, as far as it is concerned, is the one
      before the tick; what the others do reaches neither its log nor its counters. */
  lemma {:induction false} ListedLog(e: Env, w: World, r: RuleId, ls: Live, subs: seq<Subscription>, n: nat, t: Transition, now: Time)
    returns (at: World)
    requires DistinctIds(subs) && n < |subs|
    ensures LogOf(e, at, subs[n].id) == LogOf(e, w, subs[n].id)
    ensures at.db.subscribers == w.db.subscribers
    ensures GetSub(at.db, Views.Focus(ls, t), subs[n].id) == GetSub(w.db, Views.Focus(ls, t), subs[n].id)
    ensures n == 0 ==> at == w
    ensures var w2, own := EvaluateAll(e, w, r, ls, subs, t, now), EvaluateSubscription(e, at, r, ls, subs[n], t, now).w;
            && LogOf(e, w2, subs[n].id) == LogOf(e, own, subs[n].id)
            && GetSub(w2.db, Views.Focus(ls, t), subs[n].id) == GetSub(own.db, Views.Focus(ls, t), subs[n].id)
    decreases |subs|
  {
    var w1 := EvaluateSubscription(e, w, r, ls, subs[0], t, now).w;
    if n == 0 {
      at := w;
      OthersLog(e, w1, r, ls, subs[1..], t, now, subs[0].id);
      Views.Bystander(e, w1, r, ls, subs[1..], t, now, Views.Focus(ls, t), subs[0].id);
    } else {
      at := ListedLog(e, w1, r, ls, subs[1..], n - 1, t, now);
      EvaluateOtherLog(e, w, r, ls, subs[0], t, now, subs[n].id);
      Views.EvaluateTouches(e, w, r, ls, subs[0], t, now);
      Views.OtherView(w, w1, r, Views.Focus(ls, t), subs[0].id, Views.Focus(ls, t), subs[n].id);
    }
  }

  predicate SameLog(w: World, w2: World) {
    && w2.db.notes == w.db.notes && w2.outbox == w.outbox && w2.db.subStates == w.db.subStates
    && w2.db.subscriptions == w.db.subscriptions && w2.db.subscribers == w.db.subscribers
  }

  lemma SaveReaches(e: Env, w: World, j: Job, ls: Live, t: Transition) returns (start: World)
    ensures SameLog(w, start) && start.lastId == w.lastId
    ensures var w2 := TickSave(e, w, j, ls, t).w;
            (SameLog(w, w2) && w2.lastId == w.lastId) || w2 == EvaluateAll(e, start, j.rule.id, ls, ListForRule(w.db.subscriptions, j.rule), t, j.now)
  {
    start := w;
    if !e.fails(w.calls) {
      var m := MarkIncident(e, Call(w).(db := PutLive(w.db, ls)), j, t);
      assert SameLog(w, m.w);
      if !m.err && !e.fails(m.w.calls) {
        start := Call(m.w);
      }
    }
  }

  /** A tick either gives up before it sends anything or evaluates every listed subscription. */
  lemma TickReaches(e: Env, w: World, j: Job) returns (start: World)
    ensures SameLog(w, start) && w.lastId <= start.lastId
    ensures var w2 := Tick(e, w, j).w;
            (SameLog(w, w2) && w.lastId <= w2.lastId) ||
            w2 == EvaluateAll(e, start, j.rule.id, LiveAfter(w, j), ListForRule(w.db.subscriptions, j.rule), Change(w, j), j.now)
  {
    start := w;
    if !e.fails(w.calls) {
      var w1 := Call(w).(lastId := if Mints(LiveBefore(w, j), j) then w.lastId + 1 else w.lastId);
      start := SaveReaches(e, w1, j, LiveAfter(w, j), Change(w, j));
    }
  }

  /** One tick, whatever fails in it, leaves the log of a subscription as it is, or sends it one
      batch, with one message per binding, and to a one-shot subscription that only if it had no
      row; the rows it records are rows of that batch, at most one per message. */
  lemma TickAdds(e: Env, w: World, j: Job, s: Subscription)
    requires DistinctIds(w.db.subscriptions) && s in w.db.subscriptions
    ensures AtMostOneBatch(e, LogOf(e, w, s.id), LogOf(e, Tick(e, w, j).w, s.id), j.rule.id, s,
                           Views.Focus(LiveAfter(w, j), Change(w, j)), j.value, j.now, BindingsOf(e, w.db.subscribers, s))
    ensures var w2 := Tick(e, w, j).w;
            w2.db.subscriptions == w.db.subscriptions && w2.db.subscribers == w.db.subscribers
  {
    var ls, t, r, subs := LiveAfter(w, j), Change(w, j), j.rule.id, ListForRule(w.db.subscriptions, j.rule);
    var start := TickReaches(e, w, j);
    if Tick(e, w, j).w == EvaluateAll(e, start, r, ls, subs, t, j.now) {
      Views.EvaluateAllAbout(e, start, r, ls, subs, t, j.now);
      if s in subs {
        var n := DeliveryLog.ListedAt(w.db.subscriptions, j.rule, s);
        var at := ListedLog(e, start, r, ls, subs, n, t, j.now);
        EvaluateLog(e, at, r, ls, s, t, j.now);
      } else {
        DeliveryLog.NotListed(w.db.subscriptions, j.rule, s);
        OthersLog(e, start, r, ls, subs, t, j.now, s.id);
      }
    }
  }

  // ----- runs -----

  /** The log after event `k`. */
  function LogAt(e: Env, ws: seq<World>, k: nat, s: Subscription): Log
    requires k < |ws|
  {
    LogOf(e, ws[k], s.id)
  }

  /** A subscription of a run. */
  ghost predicate ListedIn(e: Env, ws: seq<World>, evs: seq<Event>, s: Subscription) {
    Run(e, ws, evs) && s in ws[0].db.subscriptions
  }

  /** A one-shot subscription of a run. */
  ghost predicate OneShotIn(e: Env, ws: seq<World>, evs: seq<Event>, s: Subscription) {
    ListedIn(e, ws, evs, s) && s.oneShot
  }

  lemma {:induction false} PrunedRows(notes: seq<NoteRow>, incidents: set<Id>, s: SubId)
    ensures forall n :: n in RowsTo(NotesExcept(notes, incidents), s) ==> n in RowsTo(notes, s)
  {
    RowsMembers(notes, s);
    RowsMembers(NotesExcept(notes, incidents), s);
    NotesExceptMembers(notes, incidents);
  }

  lemma PruneLog(e: Env, w: World, before: int, w2: World, s: SubId)
    requires w2 == w.(db := w2.db, calls := w2.calls) && (w2.db == Pruned(w.db, before) || w2.db == w.db)
    ensures w2.db.subscriptions == w.db.subscriptions && w2.db.subscribers == w.db.subscribers
    ensures LogOf(e, w2, s) == LogOf(e, w, s).(rows := RowsTo(w2.db.notes, s))
    ensures forall n :: n in RowsTo(w2.db.notes, s) ==> n in RowsTo(w.db.notes, s)
  {
    PrunedRows(w.db.notes, ResolvedBefore(w.db, before), s);
  }

  lemma ErrorLog(e: Env, w: World, r: RuleId, message: string, now: Time, s: SubId)
    ensures var w2 := EvalError(e, w, r, message, now);
            && w2.db.subscriptions == w.db.subscriptions && w2.db.subscribers == w.db.subscribers
            && LogOf(e, w2, s) == LogOf(e, w, s)
  {
    var w2 := EvalError(e, w, r, message, now);
    assert w2.outbox == w.outbox && w2.db.notes == w.db.notes;
  }

  /** What one event does to the log: a tick adds at most one batch, an evaluation error nothing,
      and a prune sends nothing and records nothing. */
  lemma EventLog(e: Env, w: World, ev: Event, w2: World, s: Subscription)
    requires Step(e, w, ev, w2) && DistinctIds(w.db.subscriptions) && s in w.db.subscriptions
    ensures w2.db.subscriptions == w.db.subscriptions && w2.db.subscribers == w.db.subscribers
    ensures ev.TickEvent? ==>
              AtMostOneBatch(e, LogOf(e, w, s.id), LogOf(e, w2, s.id), ev.job.rule.id, s,
                             Views.Focus(LiveAfter(w, ev.job), Change(w, ev.job)), ev.job.value, ev.job.now,
                             BindingsOf(e, w.db.subscribers, s))
    ensures ev.ErrorEvent? ==> LogOf(e, w2, s.id) == LogOf(e, w, s.id)
    ensures ev.PruneEvent? ==>
              && LogOf(e, w2, s.id).messages == LogOf(e, w, s.id).messages && LogOf(e, w2, s.id).accepted == LogOf(e, w, s.id).accepted
              && forall n :: n in LogOf(e, w2, s.id).rows ==> n in LogOf(e, w, s.id).rows
  {
    match ev
    case TickEvent(j) => TickAdds(e, w, j, s);
    case ErrorEvent(r, message, now) => ErrorLog(e, w, r, message, now, s.id);
    case PruneEvent(at, window) => PruneLog(e, w, Millis(at - window), w2, s.id);
  }

  lemma {:induction false} Unconfigured(e: Env, ws: seq<World>, evs: seq<Event>, k: nat, s: Subscription)
    requires ListedIn(e, ws, evs, s) && k <= |evs|
    ensures ws[k].db.subscriptions == ws[0].db.subscriptions && ws[k].db.subscribers == ws[0].db.subscribers
  {
    if k > 0 {
      Unconfigured(e, ws, evs, k - 1, s);
      EventLog(e, ws[k - 1], evs[k - 1], ws[k - 1 + 1], s);
    }
  }

  /** All rows are of one batch. */
  ghost predicate OneBatchRecorded(rows: seq<NoteRow>) {
    forall m, n :: m in rows && n in rows ==>
      m.incidentId == n.incidentId && m.kind == n.kind && m.sentMs == n.sentMs
  }

  lemma OneBatchKept(e: Env, before: Log, after: Log, r: RuleId, s: Subscription, i: Id, value: string, now: Time, bs: seq<Binding>)
    requires AtMostOneBatch(e, before, after, r, s, i, value, now, bs) && s.oneShot && OneBatchRecorded(before.rows)
    ensures OneBatchRecorded(after.rows)
  {
    if after != before {
      var k: Kind :| Grows(e, before, after, BatchTo(r, s.id, i, k, value, now, bs));
      forall n | n in after.rows ensures n.incidentId == i && n.kind == k && n.sentMs == Millis(now) {
        var x :| 0 <= x < |after.rows| && after.rows[x] == n;
        assert RecordsOne(n, BatchTo(r, s.id, i, k, value, now, bs));
        var m :| m in BatchTo(r, s.id, i, k, value, now, bs) && Records(n, m);
      }
    }
  }

  /** In every reachable store, whatever fails on the way there, the audit rows of a one-shot
      subscription are all of one batch. */
  lemma {:induction false} OneBatchInStore(e: Env, ws: seq<World>, evs: seq<Event>, k: nat, s: Subscription)
    requires OneShotIn(e, ws, evs, s) && k <= |evs|
    ensures OneBatchRecorded(LogAt(e, ws, k, s).rows)
  {
    if k > 0 {
      var n := k - 1;
      OneBatchInStore(e, ws, evs, n, s);
      Unconfigured(e, ws, evs, n, s);
      EventLog(e, ws[n], evs[n], ws[n + 1], s);
      if evs[n].TickEvent? {
        var j := evs[n].job;
        OneBatchKept(e, LogAt(e, ws, n, s), LogAt(e, ws, k, s), j.rule.id, s, Views.Focus(LiveAfter(ws[n], j), Change(ws[n], j)),
                     j.value, j.now, BindingsOf(e, ws[n].db.subscribers, s));
      }
    }
  }

  /** Event `k` sends something to the subscription. */
  predicate Sends(e: Env, ws: seq<World>, k: nat, s: Subscription)
    requires k + 1 < |ws|
  {
    LogAt(e, ws, k + 1, s).messages != LogAt(e, ws, k, s).messages
  }

  /** Event `k` removes the last audit row of the subscription. */
  predicate Clears(e: Env, ws: seq<World>, k: nat, s: Subscription)
    requires k + 1 < |ws|
  {
    LogAt(e, ws, k, s).rows != [] && LogAt(e, ws, k + 1, s).rows == []
  }

  /** Something is sent only by a tick, as one batch, and only if no row is kept; and only a
      prune removes the last row. */
  lemma SendsAndClears(e: Env, ws: seq<World>, evs: seq<Event>, k: nat, s: Subscription)
    requires OneShotIn(e, ws, evs, s) && k < |evs|
    ensures Sends(e, ws, k, s) ==> evs[k].TickEvent? && LogAt(e, ws, k, s).rows == []
    ensures Clears(e, ws, k, s) ==> evs[k].PruneEvent?
    ensures !Sends(e, ws, k, s) ==> LogAt(e, ws, k + 1, s).accepted == LogAt(e, ws, k, s).accepted
  {
    Unconfigured(e, ws, evs, k, s);
    assert Step(e, ws[k], evs[k], ws[k + 1]);
    EventLog(e, ws[k], evs[k], ws[k + 1], s);
    var before, after := LogAt(e, ws, k, s), LogAt(e, ws, k + 1, s);
    if batch: seq<Sent> :| Grows(e, before, after, batch) && after.messages == before.messages {
      assert |batch| == 0;
    }
  }

  lemma {:induction false} RowsLost(e: Env, ws: seq<World>, evs: seq<Event>, a: nat, b: nat, s: Subscription) returns (p: nat)
    requires OneShotIn(e, ws, evs, s) && a < b <= |evs|
    requires LogAt(e, ws, a, s).rows != [] && LogAt(e, ws, b, s).rows == []
    ensures a <= p < b && Clears(e, ws, p, s)
    decreases b
  {
    p := b - 1;
    if LogAt(e, ws, p, s).rows == [] {
      p := RowsLost(e, ws, evs, a, p, s);
    }
  }

  /** A second batch takes a prune, whatever else fails: if the first sending left a row, then a
      prune strictly between the two removed the last row. */
  lemma SecondBatchTakesPrune(e: Env, ws: seq<World>, evs: seq<Event>, a: nat, b: nat, s: Subscription) returns (p: nat)
    requires OneShotIn(e, ws, evs, s) && a < b < |evs|
    requires Sends(e, ws, a, s) && LogAt(e, ws, a + 1, s).rows != [] && Sends(e, ws, b, s)
    ensures a < p < b && evs[p].PruneEvent? && Clears(e, ws, p, s)
  {
    SendsAndClears(e, ws, evs, b, s);
    p := RowsLost(e, ws, evs, a + 1, b, s);
    SendsAndClears(e, ws, evs, p, s);
  }

  /** Whatever is sent leaves a row: no batch has all its records failing. */
  ghost predicate SendingLeavesRows(e: Env, ws: seq<World>, s: Subscription) {
    forall k: nat :: k + 1 < |ws| && Sends(e, ws, k, s) ==> LogAt(e, ws, k + 1, s).rows != []
  }

  /** No prune removes the last row. */
  ghost predicate RowsAreKept(e: Env, ws: seq<World>, s: Subscription) {
    forall k: nat :: k + 1 < |ws| ==> !Clears(e, ws, k, s)
  }

  /** A log is untouched, or holds rows and exactly one batch was sent. */
  ghost predicate OneBatchAtMost(log: Log, s: SubId, bs: seq<Binding>) {
    if log.rows == [] then log.messages == [] && log.accepted == 0
    else
      log.accepted <= |bs| &&
      exists r: RuleId, i: Id, k: Kind, value: string, now: Time :: log.messages == BatchTo(r, s, i, k, value, now, bs)
  }

  lemma OneBatchStays(e: Env, before: Log, after: Log, r: RuleId, s: Subscription, i: Id, value: string, now: Time, bs: seq<Binding>)
    requires AtMostOneBatch(e, before, after, r, s, i, value, now, bs) && s.oneShot && OneBatchAtMost(before, s.id, bs)
    requires after.messages != before.messages ==> after.rows != []
    ensures OneBatchAtMost(after, s.id, bs)
  {
    if after != before {
      var k: Kind :| Grows(e, before, after, BatchTo(r, s.id, i, k, value, now, bs));
      assert [] + BatchTo(r, s.id, i, k, value, now, bs) == BatchTo(r, s.id, i, k, value, now, bs);
    }
  }

  /** As long as what is sent leaves rows and rows are kept, and whatever else fails, all that
      is ever sent for a one-shot subscription, across rules, incidents and kinds, is nothing
      or exactly one batch. */
  lemma {:induction false} OneBatchPerRun(e: Env, ws: seq<World>, evs: seq<Event>, k: nat, s: Subscription)
    requires OneShotIn(e, ws, evs, s) && k <= |evs|
    requires SendingLeavesRows(e, ws, s) && RowsAreKept(e, ws, s)
    ensures OneBatchAtMost(LogAt(e, ws, k, s), s.id, BindingsOf(e, ws[0].db.subscribers, s))
  {
    if k > 0 {
      var n := k - 1;
      OneBatchPerRun(e, ws, evs, n, s);
      Unconfigured(e, ws, evs, n, s);
      SendsAndClears(e, ws, evs, n, s);
      assert Step(e, ws[n], evs[n], ws[n + 1]);
      EventLog(e, ws[n], evs[n], ws[n + 1], s);
      assert !Clears(e, ws, n, s) && (Sends(e, ws, n, s) ==> LogAt(e, ws, n + 1, s).rows != []);
      if evs[n].PruneEvent? {
        var rows := LogAt(e, ws, k, s).rows;
        assert rows != [] ==> rows[0] in LogAt(e, ws, n, s).rows;
      }
      if evs[n].TickEvent? {
        var j := evs[n].job;
        OneBatchStays(e, LogAt(e, ws, n, s), LogAt(e, ws, k, s), j.rule.id, s, Views.Focus(LiveAfter(ws[n], j), Change(ws[n], j)),
                      j.value, j.now, BindingsOf(e, ws[0].db.subscribers, s));
      }
    }
  }

  /** Nothing more was sent, and rows are still kept. */
  predicate Silent(before: Log, after: Log) {
    after.rows != [] && after.messages == before.messages && after.accepted == before.accepted
  }

  lemma SilentStep(e: Env, ws: seq<World>, evs: seq<Event>, n: nat, s: Subscription)
    requires OneShotIn(e, ws, evs, s) && n < |evs| && RowsAreKept(e, ws, s)
    requires LogAt(e, ws, n, s).rows != []
    ensures Silent(LogAt(e, ws, n, s), LogAt(e, ws, n + 1, s))
  {
    SendsAndClears(e, ws, evs, n, s);
    assert !Clears(e, ws, n, s);
  }

  lemma SilentTwice(a: Log, b: Log, c: Log)
    requires Silent(a, b) && Silent(b, c)
    ensures Silent(a, c)
  {
  }

  lemma {:induction false} SilentAfter(e: Env, ws: seq<World>, evs: seq<Event>, a: nat, k: nat, s: Subscription)
    requires OneShotIn(e, ws, evs, s) && a <= k <= |evs| && RowsAreKept(e, ws, s)
    requires LogAt(e, ws, a, s).rows != []
    ensures Silent(LogAt(e, ws, a, s), LogAt(e, ws, k, s))
    decreases k
  {
    if a < k {
      var n := k - 1;
      SilentAfter(e, ws, evs, a, n, s);
      SilentStep(e, ws, evs, n, s);
      SilentTwice(LogAt(e, ws, a, s), LogAt(e, ws, n, s), LogAt(e, ws, k, s));
    }
  }

  /** Success is decided by the one batch: whether and how often any message to the subscription
      is ever accepted is settled by the tick that sends the batch. */
  lemma SuccessIsDecidedOnce(e: Env, ws: seq<World>, evs: seq<Event>, a: nat, k: nat, s: Subscription)
    requires OneShotIn(e, ws, evs, s) && a < k <= |evs| && SendingLeavesRows(e, ws, s) && RowsAreKept(e, ws, s)
    requires Sends(e, ws, a, s)
    ensures LogAt(e, ws, a, s).messages == [] && LogAt(e, ws, a, s).accepted == 0
    ensures LogAt(e, ws, k, s).messages == LogAt(e, ws, a + 1, s).messages
    ensures LogAt(e, ws, k, s).accepted == LogAt(e, ws, a + 1, s).accepted
  {
    SendsAndClears(e, ws, evs, a, s);
    OneBatchPerRun(e, ws, evs, a, s);
    SilentAfter(e, ws, evs, a + 1, k, s);
  }

  /** Without failing calls, whatever is sent leaves rows; and without prunes, rows are kept. */
  lemma CalmRun(e: Env, ws: seq<World>, evs: seq<Event>, s: Subscription)
    requires OneShotIn(e, ws, evs, s)
    ensures NoFailures(e) ==> SendingLeavesRows(e, ws, s)
    ensures NoPrunes(evs) ==> RowsAreKept(e, ws, s)
  {
    forall k: nat | k + 1 < |ws|
      ensures NoFailures(e) && Sends(e, ws, k, s) ==> LogAt(e, ws, k + 1, s).rows != []
      ensures NoPrunes(evs) ==> !Clears(e, ws, k, s)
    {
      SendsAndClears(e, ws, evs, k, s);
      Unconfigured(e, ws, evs, k, s);
      assert Step(e, ws[k], evs[k], ws[k + 1]);
      EventLog(e, ws[k], evs[k], ws[k + 1], s);
    }
  }

  predicate NoPrunes(evs: seq<Event>) {
    forall k :: 0 <= k < |evs| ==> !evs[k].PruneEvent?
  }
}
