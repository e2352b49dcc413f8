/** A tick cut into its store calls. Two evaluator goroutines and the retention loop take
    such steps in any order over one store. Run alone, the steps of a tick add up to `Tick`. */
module Machine {
  import opened Base
  import opened RuleState
  import opened Tables
  import opened Dispatch

  /** Where an evaluator goroutine stands: the store call it makes next. */
  datatype Task =
    | Idle
    | Load(j: Job)
    | Save(j: Job, ls: Live, t: Transition)
    | Mark(j: Job, ls: Live, t: Transition)
    | List(j: Job, ls: Live, t: Transition)
    | Scan(j: Job, ls: Live, t: Transition, subs: seq<Subscription>)
    | Gate(j: Job, ls: Live, t: Transition, subs: seq<Subscription>, p: Pending)
    | Find(j: Job, ls: Live, t: Transition, subs: seq<Subscription>, p: Pending)
    | Send(j: Job, ls: Live, t: Transition, subs: seq<Subscription>, p: Pending, subscriberId: string, bindings: seq<Binding>)
    | Keep(j: Job, ls: Live, t: Transition, subs: seq<Subscription>, p: Pending)
    | ErrLoad(ruleId: RuleId, message: string, now: Time)
    | ErrSave(ls: Live, blind: bool)

  /** The rule a goroutine is working on. */
  function AboutRule(k: Task): Option<RuleId> {
    match k
    case Idle => None
    case ErrLoad(r, _, _) => Some(r)
    case ErrSave(ls, _) => Some(ls.ruleId)
    case _ => Some(k.j.rule.id)
  }

  /** The transition is settled in the store and subscriptions are being notified. */
  predicate Notifying(k: Task) {
    (k.Scan? || k.Gate? || k.Find? || k.Send? || k.Keep?)
  }

  /** A delivery to the first of `subs` is under way. */
  predicate Delivering(k: Task) {
    (k.Gate? || k.Find? || k.Send? || k.Keep?) && k.subs != []
  }

  predicate WellFormed(k: Task) {
    Notifying(k) && !k.Scan? ==> Delivering(k)
  }

  datatype Stepped = Stepped(w: World, k: Task)

  function NextSub(k: Task): Task
    requires Notifying(k) && k.subs != []
  {
    Scan(k.j, k.ls, k.t, k.subs[1..])
  }

  /** The next step of a goroutine; a step without a store call only moves its own position. */
  function Step(e: Env, w: World, k: Task): (st: Stepped)
    requires WellFormed(k)
    ensures WellFormed(st.k)
  {
    match k
    case Idle => Stepped(w, Idle)
    case Load(j) =>
      if e.fails(w.calls) then Stepped(Call(w), Idle)
      else
        var l := StoredOrSeed(w.db, j.rule.id);
        var id := NewId(w, l, j);
        Stepped(Call(w).(lastId := if Mints(l, j) then id else w.lastId),
                Save(j, Applied(l, j.triggered, j.value, j.now, id), TransitionOf(l, j.triggered, j.value, j.now, id)))
    case Save(j, ls, t) =>
      if e.fails(w.calls) then Stepped(Call(w), Idle)
      else Stepped(Call(w).(db := PutLive(w.db, ls)), Mark(j, ls, t))
    case Mark(j, ls, t) =>
      var m := MarkIncident(e, w, j, t);
      Stepped(m.w, if m.err then Idle else List(j, ls, t))
    case List(j, ls, t) =>
      if e.fails(w.calls) then Stepped(Call(w), Idle)
      else Stepped(Call(w), Scan(j, ls, t, ListForRule(w.db.subscriptions, j.rule)))
    case Scan(j, ls, t, subs) =>
      if subs == [] then Stepped(w, Idle)
      else
        (match Target(ls, t, subs[0], j.now)
         case None => Stepped(w, NextSub(k))
         case Some(i) =>
           if e.fails(w.calls) then Stepped(Call(w), NextSub(k))
           else
             match Decide(i, t, subs[0], GetSub(w.db, i, subs[0].id), j.now)
             case None => Stepped(Call(w), NextSub(k))
             case Some(p) => Stepped(Call(w), if subs[0].oneShot then Gate(j, ls, t, subs, p) else Find(j, ls, t, subs, p)))
    case Gate(j, ls, t, subs, p) =>
      if e.fails(w.calls) then Stepped(Call(w), NextSub(k))
      else if ExistsForSubscription(w.db.notes, subs[0].id) then Stepped(Call(w), Keep(j, ls, t, subs, p))
      else Stepped(Call(w), Find(j, ls, t, subs, p))
    case Find(j, ls, t, subs, p) =>
      if e.fails(w.calls) || subs[0].subscriberId !in w.db.subscribers then Stepped(Call(w), NextSub(k))
      else
        var subscriber := w.db.subscribers[subs[0].subscriberId];
        Stepped(Call(w), Send(j, ls, t, subs, p, subscriber.id, subscriber.channels))
    case Send(j, ls, t, subs, p, subscriberId, bindings) =>
      if bindings == [] then Stepped(w, Keep(j, ls, t, subs, p))
      else Stepped(PostOne(e, w, j.rule.id, subs[0], subscriberId, p.incidentId, p.kind, ls.lastValue, j.now, bindings[0]),
                   Send(j, ls, t, subs, p, subscriberId, bindings[1..]))
    case Keep(j, ls, t, subs, p) =>
      Stepped(SaveSub(e, w, p.state).w, NextSub(k))
    case ErrLoad(ruleId, message, now) =>
      var l := if e.fails(w.calls) then Seed(ruleId) else StoredOrSeed(w.db, ruleId);
      Stepped(Call(w), ErrSave(l.(lastEvalAt := now, lastError := message), e.fails(w.calls)))
    case ErrSave(ls, _) =>
      Stepped(EvalErrorSave(e, w, ls), Idle)
  }

  // ----- alone, the steps add up -----

  function Stage(k: Task): nat {
    match k
    case Idle => 0
    case Load(_) => 5
    case Save(_, _, _) => 4
    case Mark(_, _, _) => 3
    case List(_, _, _) => 2
    case ErrLoad(_, _, _) => 2
    case _ => 1
  }

  function Left(k: Task): nat {
    if Notifying(k) then |k.subs| else 0
  }

  function Turn(k: Task): nat {
    match k
    case Scan(_, _, _, _) => 4
    case Gate(_, _, _, _, _) => 3
    case Find(_, _, _, _, _) => 2
    case Send(_, _, _, _, _, _, _) => 1
    case _ => 0
  }

  /** Run a task to its end with nobody else stepping in between. */
  function RunAlone(e: Env, w: World, k: Task): World
    requires WellFormed(k)
    decreases Stage(k), Left(k), Turn(k), if k.Send? then |k.bindings| else 0
  {
    if k.Idle? then w
    else
      var st := Step(e, w, k);
      RunAlone(e, st.w, st.k)
  }

  lemma {:induction false} SendAlone(e: Env, w: World, k: Task)
    requires WellFormed(k) && k.Send?
    ensures RunAlone(e, w, k) ==
            RunAlone(e, Post(e, w, k.j.rule.id, k.subs[0], k.subscriberId, k.p.incidentId, k.p.kind, k.ls.lastValue, k.j.now, k.bindings),
                     Keep(k.j, k.ls, k.t, k.subs, k.p))
    decreases |k.bindings|
  {
    if k.bindings != [] {
      var st := Step(e, w, k);
      SendAlone(e, st.w, st.k);
    }
  }

  lemma FindAlone(e: Env, w: World, k: Task)
    requires WellFormed(k) && k.Find?
    ensures var d := DeliverOpen(e, w, k.j.rule.id, k.subs[0], k.p.incidentId, k.p.kind, k.ls.lastValue, k.j.now);
            RunAlone(e, w, k) == RunAlone(e, if d.err then d.w else SaveSub(e, d.w, k.p.state).w, NextSub(k))
  {
    var st := Step(e, w, k);
    if st.k.Send? {
      SendAlone(e, st.w, st.k);
    }
  }

  /** Both entries to a delivery: through the one-shot gate, and past it. */
  lemma DeliveryAlone(e: Env, w: World, k: Task)
    requires WellFormed(k) && (if k.Gate? then k.subs[0].oneShot else k.Find? && !k.subs[0].oneShot)
    ensures var d := Deliver(e, w, k.j.rule.id, k.subs[0], k.p.incidentId, k.p.kind, k.ls.lastValue, k.j.now);
            RunAlone(e, w, k) == RunAlone(e, if d.err then d.w else SaveSub(e, d.w, k.p.state).w, NextSub(k))
  {
    if k.Find? {
      FindAlone(e, w, k);
    } else {
      var st := Step(e, w, k);
      if st.k.Find? {
        FindAlone(e, st.w, st.k);
      } else if st.k.Keep? {
        assert RunAlone(e, st.w, st.k) == RunAlone(e, SaveSub(e, st.w, k.p.state).w, NextSub(k));
      }
    }
  }

  lemma ScanAlone(e: Env, w: World, k: Task)
    requires WellFormed(k) && k.Scan? && k.subs != []
    ensures RunAlone(e, w, k) ==
            RunAlone(e, EvaluateSubscription(e, w, k.j.rule.id, k.ls, k.subs[0], k.t, k.j.now).w, NextSub(k))
  {
    var st := Step(e, w, k);
    if st.k.Find? || st.k.Gate? {
      DeliveryAlone(e, st.w, st.k);
    }
  }

  lemma {:induction false} ScanAllAlone(e: Env, w: World, k: Task)
    requires WellFormed(k) && k.Scan?
    ensures RunAlone(e, w, k) == EvaluateAll(e, w, k.j.rule.id, k.ls, k.subs, k.t, k.j.now)
    decreases |k.subs|
  {
    if k.subs != [] {
      ScanAlone(e, w, k);
      ScanAllAlone(e, EvaluateSubscription(e, w, k.j.rule.id, k.ls, k.subs[0], k.t, k.j.now).w, NextSub(k));
    }
  }

  lemma ListAlone(e: Env, w: World, k: Task)
    requires k.List?
    ensures RunAlone(e, w, k) == TickNotify(e, w, k.j, k.ls, k.t).w
  {
    var st := Step(e, w, k);
    if st.k.Scan? {
      ScanAllAlone(e, st.w, st.k);
    }
  }

  lemma MarkAlone(e: Env, w: World, k: Task)
    requires k.Mark?
    ensures var m := MarkIncident(e, w, k.j, k.t);
            RunAlone(e, w, k) == if m.err then m.w else TickNotify(e, m.w, k.j, k.ls, k.t).w
  {
    var st := Step(e, w, k);
    if st.k.List? {
      ListAlone(e, st.w, st.k);
    }
  }

  lemma SaveAlone(e: Env, w: World, k: Task)
    requires k.Save?
    ensures RunAlone(e, w, k) == TickSave(e, w, k.j, k.ls, k.t).w
  {
    var st := Step(e, w, k);
    if st.k.Mark? {
      MarkAlone(e, st.w, st.k);
    }
  }

  /** The steps of a tick, with no other goroutine in between, are the tick, failures included. */
  lemma TickAlone(e: Env, w: World, j: Job)
    ensures RunAlone(e, w, Load(j)) == Tick(e, w, j).w
  {
    var st := Step(e, w, Load(j));
    if st.k.Save? {
      SaveAlone(e, st.w, st.k);
    }
  }

  /** Likewise for the error path of the scheduled evaluator. */
  lemma ErrorAlone(e: Env, w: World, ruleId: RuleId, message: string, now: Time)
    ensures RunAlone(e, w, ErrLoad(ruleId, message, now)) == EvalError(e, w, ruleId, message, now)
  {
    var st := Step(e, w, ErrLoad(ruleId, message, now));
    var st2 := Step(e, st.w, st.k);
    assert RunAlone(e, st.w, st.k) == RunAlone(e, st2.w, st2.k) == st2.w;
  }
}
