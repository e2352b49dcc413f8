/** What one dispatcher tick does to the store and to the outside world, as functions.
    The `Dispatcher` class in Dispatchers.dfy is proved to compute exactly these. */
module Dispatch {
  import opened Base
  import opened RuleState
  import opened Conditions
  import opened Tables

  /** Everything the dispatcher does not decide: which store calls fail, which channel
      sends succeed, and which channels are configured. */
  datatype Env = Env(fails: nat -> bool, sendOk: nat -> bool, channels: set<string>)

  /** No store call fails. */
  ghost predicate NoFailures(e: Env) {
    forall n: nat :: !e.fails(n)
  }

  /** One message handed to a channel, annotated with the subscription it was sent for. */
  datatype Sent = Sent(
    ruleId: RuleId, subscriptionId: SubId, incidentId: Id, kind: Kind, value: string,
    channel: string, address: string, now: Time)

  /** The tables, the number of store calls and ids used so far, and every message sent. */
  datatype World = World(db: Db, calls: nat, lastId: nat, outbox: seq<Sent>)

  datatype Outcome = Outcome(w: World, err: bool)

  /** One evaluation outcome handed to Tick, with the clock reading it takes. */
  datatype Job = Job(rule: Rule, triggered: bool, value: string, now: Time)

  /** A delivery that has been decided: the batch to send and the sub-state to save after it. */
  datatype Pending = Pending(incidentId: Id, kind: Kind, state: SubState)

  function Call(w: World): World {
    w.(calls := w.calls + 1)
  }

  // ----- deciding -----

  /** The incident whose sub-state the evaluation of `s` has to look at, if any. */
  function Target(ls: Live, t: Transition, s: Subscription, now: Time): Option<Id> {
    if t.Closed() && t.incidentId != NO_ID then Some(t.incidentId)
    else if ls.state != Firing then None
    else if now - ls.triggeredAt < s.dwell then None
    else Some(ls.incidentId)
  }

  /** Resolution path: only a subscriber that heard of the incident hears of its end, once. */
  function DecideResolved(i: Id, s: Subscription, stored: Option<SubState>): Option<Pending> {
    if stored.None? || stored.value.notifyCount == 0 || stored.value.resolutionSent || !s.notifyOnResolve then None
    else Some(Pending(i, ResolvedKind, stored.value.(resolutionSent := true)))
  }

  /** Firing path: a first notification, then repeats at the repeat interval. */
  function DecideFiring(i: Id, s: Subscription, stored: Option<SubState>, now: Time): Option<Pending> {
    var st := if stored.Some? then stored.value else SubState(i, s.id, ZERO_TIME, 0, false);
    if st.notifyCount == 0 then
      Some(Pending(i, FiringKind, st.(lastNotifiedAt := now, notifyCount := 1)))
    else if s.repeatInterval > 0 && now - st.lastNotifiedAt >= s.repeatInterval then
      Some(Pending(i, RepeatKind, st.(lastNotifiedAt := now, notifyCount := st.notifyCount + 1)))
    else
      None
  }

  function Decide(i: Id, t: Transition, s: Subscription, stored: Option<SubState>, now: Time): Option<Pending> {
    if t.Closed() && t.incidentId != NO_ID then DecideResolved(i, s, stored) else DecideFiring(i, s, stored, now)
  }

  // ----- delivering -----

  /** A binding is used if the filter admits it and its channel is configured. */
  predicate Eligible(e: Env, s: Subscription, b: Binding) {
    (s.channelFilter == [] || b.channel in s.channelFilter) && b.channel in e.channels
  }

  /** Send to one binding and record the attempt; a failed record is only logged. */
  function PostOne(e: Env, w: World, ruleId: RuleId, s: Subscription, subscriberId: string,
                   i: Id, k: Kind, value: string, now: Time, b: Binding): World {
    if !Eligible(e, s, b) then w
    else
      var id := w.lastId + 1;
      var row := NoteRow(id, i, s.id, subscriberId, b.channel, b.address, k, Millis(now), e.sendOk(|w.outbox|));
      World(if e.fails(w.calls) then w.db else w.db.(notes := w.db.notes + [row]),
            w.calls + 1, id,
            w.outbox + [Sent(ruleId, s.id, i, k, value, b.channel, b.address, now)])
  }

  function Post(e: Env, w: World, ruleId: RuleId, s: Subscription, subscriberId: string,
                i: Id, k: Kind, value: string, now: Time, bindings: seq<Binding>): World
    decreases |bindings|
  {
    if bindings == [] then w
    else Post(e, PostOne(e, w, ruleId, s, subscriberId, i, k, value, now, bindings[0]),
              ruleId, s, subscriberId, i, k, value, now, bindings[1..])
  }

  /** Past the one-shot gate: look the subscriber up and post to its bindings. */
  function DeliverOpen(e: Env, w: World, ruleId: RuleId, s: Subscription, i: Id, k: Kind, value: string, now: Time): Outcome {
    if e.fails(w.calls) || s.subscriberId !in w.db.subscribers then Outcome(Call(w), true)
    else
      var subscriber := w.db.subscribers[s.subscriberId];
      Outcome(Post(e, Call(w), ruleId, s, subscriber.id, i, k, value, now, subscriber.channels), false)
  }

  function Deliver(e: Env, w: World, ruleId: RuleId, s: Subscription, i: Id, k: Kind, value: string, now: Time): Outcome {
    if s.oneShot && e.fails(w.calls) then Outcome(Call(w), true)
    else if s.oneShot && ExistsForSubscription(w.db.notes, s.id) then Outcome(Call(w), false)
    else DeliverOpen(e, if s.oneShot then Call(w) else w, ruleId, s, i, k, value, now)
  }

  // ----- one subscription, all subscriptions, one tick -----

  function SaveSub(e: Env, w: World, st: SubState): Outcome {
    if e.fails(w.calls) then Outcome(Call(w), true)
    else Outcome(Call(w).(db := PutSub(w.db, st)), false)
  }

  /** Deliver, then save the sub-state that the delivery leaves behind. */
  function DeliverAndSave(e: Env, w: World, ruleId: RuleId, s: Subscription, p: Pending, value: string, now: Time): Outcome {
    var d := Deliver(e, w, ruleId, s, p.incidentId, p.kind, value, now);
    if d.err then d else SaveSub(e, d.w, p.state)
  }

  function EvaluateSubscription(e: Env, w: World, ruleId: RuleId, ls: Live, s: Subscription, t: Transition, now: Time): Outcome {
    match Target(ls, t, s, now)
    case None => Outcome(w, false)
    case Some(i) =>
      if e.fails(w.calls) then Outcome(Call(w), true)
      else
        match Decide(i, t, s, GetSub(w.db, i, s.id), now)
        case None => Outcome(Call(w), false)
        case Some(p) => DeliverAndSave(e, Call(w), ruleId, s, p, ls.lastValue, now)
  }

  /** An error in one subscription is logged and the next one is evaluated. */
  function EvaluateAll(e: Env, w: World, ruleId: RuleId, ls: Live, subs: seq<Subscription>, t: Transition, now: Time): World
    decreases |subs|
  {
    if subs == [] then w
    else EvaluateAll(e, EvaluateSubscription(e, w, ruleId, ls, subs[0], t, now).w, ruleId, ls, subs[1..], t, now)
  }

  /** Open or resolve the incident that the transition opens or closes. */
  function MarkIncident(e: Env, w: World, j: Job, t: Transition): Outcome {
    if t.Opened() then
      if e.fails(w.calls) || t.incidentId in w.db.incidents then Outcome(Call(w), true)
      else Outcome(Call(w).(db := OpenIncident(w.db, t.incidentId, j.rule.id, t.triggeredAt, j.value)), false)
    else if t.Closed() then
      if e.fails(w.calls) then Outcome(Call(w), true)
      else Outcome(Call(w).(db := ResolveIncident(w.db, t.incidentId, Millis(j.now))), false)
    else
      Outcome(w, false)
  }

  function StoredOrSeed(db: Db, ruleId: RuleId): Live {
    var stored := GetLive(db, ruleId);
    if stored.Some? then stored.value else Seed(ruleId)
  }

  /** The id for a new incident is minted before the state is applied. */
  predicate Mints(l: Live, j: Job) {
    j.triggered && l.state != Firing
  }

  function NewId(w: World, l: Live, j: Job): Id {
    if Mints(l, j) then w.lastId + 1 else NO_ID
  }

  function Tick(e: Env, w: World, j: Job): Outcome {
    if e.fails(w.calls) then Outcome(Call(w), true)
    else
      var l := StoredOrSeed(w.db, j.rule.id);
      var id := NewId(w, l, j);
      var ls := Applied(l, j.triggered, j.value, j.now, id);
      var t := TransitionOf(l, j.triggered, j.value, j.now, id);
      TickSave(e, Call(w).(lastId := if Mints(l, j) then id else w.lastId), j, ls, t)
  }

  function TickSave(e: Env, w: World, j: Job, ls: Live, t: Transition): Outcome {
    if e.fails(w.calls) then Outcome(Call(w), true)
    else
      var m := MarkIncident(e, Call(w).(db := PutLive(w.db, ls)), j, t);
      if m.err then m else TickNotify(e, m.w, j, ls, t)
  }

  function TickNotify(e: Env, w: World, j: Job, ls: Live, t: Transition): Outcome {
    if e.fails(w.calls) then Outcome(Call(w), true)
    else Outcome(EvaluateAll(e, Call(w), j.rule.id, ls, ListForRule(w.db.subscriptions, j.rule), t, j.now), false)
  }

  /** The scheduled evaluator's error path: the error is stored, the state is not flipped.
      A failed read is treated like a missing row. */
  function EvalError(e: Env, w: World, ruleId: RuleId, message: string, now: Time): World {
    var l := if e.fails(w.calls) then Seed(ruleId) else StoredOrSeed(w.db, ruleId);
    EvalErrorSave(e, Call(w), l.(lastEvalAt := now, lastError := message))
  }

  function EvalErrorSave(e: Env, w: World, ls: Live): World {
    if e.fails(w.calls) then Call(w) else Call(w).(db := PutLive(w.db, ls))
  }
}
