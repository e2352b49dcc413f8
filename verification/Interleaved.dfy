/** The dispatcher refines the reference under every interleaving: whatever the goroutines do in
    between, the completed ticks of a rule have told a recurring subscription exactly what
    the history of the rule calls for. */
module Interleaved {
  import opened Base
  import opened RuleState
  import opened Conditions
  import opened Tables
  import opened Dispatch
  import opened Machine
  import opened Concurrent
  import opened Safety
  import opened Reference
  import opened Underway
  import Guarantees
  import Refinement
  import Views

  // ----- what is kept for the rule and the subscription -----

  /** The rule and a recurring subscription that listens to it, as they are configured. */
  ghost predicate Configured(w: World, r: Rule, n: Listener) {
    n.s in w.db.subscriptions && (DirectMatch(n.s, r) || LabelMatch(n.s, r)) && Known(w, n)
  }

  function BindingsOf(e: Env, n: Listener): seq<Binding> {
    Views.EligibleOf(e, n.s, n.subscriber.channels)
  }

  /** No tick of the rule is past its load: the store summarizes the history `h`. */
  ghost predicate Tracking(e: Env, w: World, r: RuleId, n: Listener, h: seq<Obs>) {
    var l := StoredOrSeed(w.db, r);
    var v := ToldOf(w, r, l.incidentId, n.s.id);
    && Refinement.LiveTracks(l, h)
    && Refinement.SubTracks(v.stored, h, n.s)
    && v.sent == Due(h, n.s, BindingsOf(e, n))
  }

  /** A tick is under way: what it will have made of the store by its end summarizes `h`. */
  ghost predicate Ending(e: Env, w: World, r: RuleId, n: Listener, k: Task, h: seq<Obs>)
    requires HasJob(k) && !k.Load? && WellFormed(k)
  {
    var v := Finish(e, n, ToldOf(w, r, Views.Focus(k.ls, k.t), n.s.id), k);
    && Refinement.LiveTracks(if k.Save? then StoredOrSeed(PutLive(w.db, k.ls), r) else StoredOrSeed(w.db, r), h)
    && Refinement.SubTracks(v.stored, h, n.s)
    && v.sent == Due(h, n.s, BindingsOf(e, n))
  }

  predicate UnderWay(k: Task) {
    HasJob(k) && !k.Load?
  }

  /** An evaluation error about to be stored has the state and the incident as they are stored. */
  predicate ErrorKeeps(w: World, r: RuleId, k: Task) {
    k.ErrSave? ==>
      var l := StoredOrSeed(w.db, r);
      k.ls.ruleId == r && k.ls.state == l.state && k.ls.incidentId == l.incidentId && k.ls.triggeredAt == l.triggeredAt
  }

  ghost predicate Faithful(e: Env, w: World, r: RuleId, n: Listener, k: Task, h: seq<Obs>)
    requires WellFormed(k)
  {
    ErrorKeeps(w, r, k) && if UnderWay(k) then Ending(e, w, r, n, k, h) else Tracking(e, w, r, n, h)
  }

  predicate RightRule(k: Task, r: Rule) {
    HasJob(k) && k.j.rule.id == r.id ==> k.j.rule == r && (k.Load? ==> k.j.now >= MS)
  }

  /** Sub-states belong to minted incidents. */
  ghost predicate SubsBorn(w: World, past: Past) {
    forall key :: key in w.db.subStates ==> key.0 in past.born
  }

  // ----- the steps of a tick of the rule -----

  lemma StoredTimes(db: Db, r: RuleId)
    ensures var l := StoredOrSeed(db, r);
            LoadedTime(StoredMs(l.triggeredAt)) == l.triggeredAt
  {
  }

  lemma LoadLive(l: Live, j: Job, id: Id, db: Db, h: seq<Obs>)
    requires Refinement.LiveTracks(l, h) && j.now >= MS && LoadedTime(StoredMs(l.triggeredAt)) == l.triggeredAt
    requires l.ruleId == j.rule.id
    ensures Refinement.LiveTracks(StoredOrSeed(PutLive(db, Applied(l, j.triggered, j.value, j.now, id)), j.rule.id), h + [Refinement.ObsOf(j)])
  {
    var h2 := h + [Refinement.ObsOf(j)];
    assert Front(h2) == h && Last(h2) == Refinement.ObsOf(j);
    StoreRoundTrip(j.now);
    if InRun(h) {
      assert h2[Reference.Start(h)] == h[Reference.Start(h)];
    }
  }

  /** The decision of a tick, from what is stored: it tells the subscription what the longer
      history calls for. */
  lemma LoadDecides(e: Env, w: World, r: Rule, n: Listener, j: Job, id: Id, h: seq<Obs>)
    requires Tracking(e, w, r.id, n, h) && !n.s.oneShot && j.now >= MS && j.rule == r && id != NO_ID
    requires var l := StoredOrSeed(w.db, r.id);
             && (l.state == Firing <==> l.incidentId != NO_ID)
             && (l.state != Firing && j.triggered ==> GetSub(w.db, id, n.s.id) == None)
    ensures var l := StoredOrSeed(w.db, r.id);
            var ls, t := Applied(l, j.triggered, j.value, j.now, id), TransitionOf(l, j.triggered, j.value, j.now, id);
            var v := Evaluated(e, n, ToldOf(w, r.id, Views.Focus(ls, t), n.s.id), ls, t, j.now);
            var h2 := h + [Refinement.ObsOf(j)];
            Refinement.SubTracks(v.stored, h2, n.s) && v.sent == Due(h2, n.s, BindingsOf(e, n))
  {
    var l, h2 := StoredOrSeed(w.db, r.id), h + [Refinement.ObsOf(j)];
    var ls, t := Applied(l, j.triggered, j.value, j.now, id), TransitionOf(l, j.triggered, j.value, j.now, id);
    var v := ToldOf(w, r.id, Views.Focus(ls, t), n.s.id);
    var view := Views.SubView(v.stored, [], v.sent, false);
    assert Front(h2) == h && Last(h2) == Refinement.ObsOf(j);
    assert Refinement.DecisionPre(Users(n), l, id, j, n.s, h);
    if !j.triggered {
      Refinement.QuietRefines(e, Users(n), view, l, id, j, n.s, h);
    } else if InRun(h) {
      Refinement.OngoingRefines(e, Users(n), view, l, id, j, n.s, h);
    } else {
      Refinement.OpeningRefines(e, Users(n), view, l, id, j, n.s, h);
    }
  }

  lemma FreshUnheard(w: World, past: Past, r: RuleId, k: Task, s: SubId)
    requires Ready(w, past, r, k) && SubsBorn(w, past)
    ensures var l := StoredOrSeed(w.db, r);
            (l.state == Firing <==> l.incidentId != NO_ID) && GetSub(w.db, w.lastId + 1, s) == None
  {
    assert (w.lastId + 1, s) in w.db.subStates ==> w.lastId + 1 in past.born;
  }

  /** The id handed to a state that opens nothing makes no difference. */
  lemma LoadStep(e: Env, w: World, j: Job, id: Id)
    requires !e.fails(w.calls) && (Mints(StoredOrSeed(w.db, j.rule.id), j) ==> id == w.lastId + 1)
    ensures var l, st := StoredOrSeed(w.db, j.rule.id), Step(e, w, Load(j));
            && st.k == Save(j, Applied(l, j.triggered, j.value, j.now, id), TransitionOf(l, j.triggered, j.value, j.now, id))
            && st.w.db == w.db && st.w.outbox == w.outbox
  {
  }

  /** What has been decided at the load is what the tick about to be saved comes to. */
  lemma SaveEnds(e: Env, w: World, w2: World, r: RuleId, n: Listener, k: Task, h: seq<Obs>)
    requires k.Save? && w2.db == w.db && w2.outbox == w.outbox
    requires Refinement.LiveTracks(StoredOrSeed(PutLive(w.db, k.ls), r), h)
    requires var v := Evaluated(e, n, ToldOf(w, r, Views.Focus(k.ls, k.t), n.s.id), k.ls, k.t, k.j.now);
             Refinement.SubTracks(v.stored, h, n.s) && v.sent == Due(h, n.s, BindingsOf(e, n))
    ensures Ending(e, w2, r, n, k, h)
  {
    assert ToldOf(w2, r, Views.Focus(k.ls, k.t), n.s.id) == ToldOf(w, r, Views.Focus(k.ls, k.t), n.s.id);
  }

  lemma LoadEnds(e: Env, w: World, r: Rule, n: Listener, j: Job, id: Id, h: seq<Obs>)
    requires !e.fails(w.calls) && j.rule == r && j.now >= MS && !n.s.oneShot && id != NO_ID && Tracking(e, w, r.id, n, h)
    requires var l := StoredOrSeed(w.db, r.id);
             && (l.state == Firing <==> l.incidentId != NO_ID)
             && (Mints(l, j) ==> id == w.lastId + 1 && GetSub(w.db, id, n.s.id) == None)
    ensures var st := Step(e, w, Load(j));
            UnderWay(st.k) && Ending(e, st.w, r.id, n, st.k, h + [Refinement.ObsOf(j)])
  {
    var st := Step(e, w, Load(j));
    LoadStep(e, w, j, id);
    StoredTimes(w.db, r.id);
    LoadLive(StoredOrSeed(w.db, r.id), j, id, w.db, h);
    LoadDecides(e, w, r, n, j, id, h);
    SaveEnds(e, w, st.w, r.id, n, st.k, h + [Refinement.ObsOf(j)]);
  }

  lemma LoadFaithful(e: Env, w: World, past: Past, r: Rule, n: Listener, j: Job, h: seq<Obs>)
    requires Ready(w, past, r.id, Load(j)) && SubsBorn(w, past) && !e.fails(w.calls)
    requires j.rule == r && j.now >= MS && Known(w, n) && Tracking(e, w, r.id, n, h)
    ensures var st := Step(e, w, Load(j));
            UnderWay(st.k) && Ending(e, st.w, r.id, n, st.k, h + [Refinement.ObsOf(j)])
  {
    FreshUnheard(w, past, r.id, Load(j), n.s.id);
    LoadEnds(e, w, r, n, j, w.lastId + 1, h);
  }

  lemma SaveFaithful(e: Env, w: World, past: Past, r: RuleId, n: Listener, k: Task, h: seq<Obs>)
    requires Ready(w, past, r, k) && k.Save? && !e.fails(w.calls) && Ending(e, w, r, n, k, h)
    ensures var st := Step(e, w, k);
            UnderWay(st.k) && Ending(e, st.w, r, n, st.k, h)
  {
    var st := Step(e, w, k);
    assert ToldOf(st.w, r, Views.Focus(k.ls, k.t), n.s.id) == ToldOf(w, r, Views.Focus(k.ls, k.t), n.s.id);
  }

  lemma MarkFaithful(e: Env, w: World, past: Past, r: RuleId, n: Listener, k: Task, h: seq<Obs>)
    requires Ready(w, past, r, k) && k.Mark? && !e.fails(w.calls) && Ending(e, w, r, n, k, h)
    ensures var st := Step(e, w, k);
            UnderWay(st.k) && Ending(e, st.w, r, n, st.k, h)
  {
    var st := Step(e, w, k);
    assert k.t.Opened() ==> k.t.incidentId !in w.db.incidents;
    assert st.k == List(k.j, k.ls, k.t) && st.w.db == w.db.(incidents := st.w.db.incidents) && st.w.outbox == w.outbox;
    assert ToldOf(st.w, r, Views.Focus(k.ls, k.t), n.s.id) == ToldOf(w, r, Views.Focus(k.ls, k.t), n.s.id);
  }

  lemma ListFaithful(e: Env, w: World, r: Rule, n: Listener, k: Task, h: seq<Obs>)
    requires k.List? && !e.fails(w.calls) && k.j.rule == r && Configured(w, r, n) && DistinctIds(w.db.subscriptions)
    requires Ending(e, w, r.id, n, k, h)
    ensures var st := Step(e, w, k);
            UnderWay(st.k) && InOrder(st.k, n) && Ending(e, st.w, r.id, n, st.k, h)
  {
    var st := Step(e, w, k);
    ListForRuleExact(w.db.subscriptions, r);
    forall x | x in st.k.subs && x.id == n.s.id ensures x == n.s {
      SameId(w.db.subscriptions, x, n.s);
    }
    assert ToldOf(st.w, r.id, Views.Focus(k.ls, k.t), n.s.id) == ToldOf(w, r.id, Views.Focus(k.ls, k.t), n.s.id);
  }

  lemma SameId(subs: seq<Subscription>, x: Subscription, y: Subscription)
    requires DistinctIds(subs) && x in subs && y in subs && x.id == y.id
    ensures x == y
  {
    var a :| 0 <= a < |subs| && subs[a] == x;
    var b :| 0 <= b < |subs| && subs[b] == y;
  }

  lemma NotifyFaithful(e: Env, w: World, past: Past, r: RuleId, n: Listener, k: Task, h: seq<Obs>)
    requires Ready(w, past, r, k) && Notifying(k) && !e.fails(w.calls) && Known(w, n) && InOrder(k, n) && k.j.rule.id == r
    requires Ending(e, w, r, n, k, h)
    ensures var st := Step(e, w, k);
            !st.k.ErrSave? && if UnderWay(st.k) then Ending(e, st.w, r, n, st.k, h) else Tracking(e, st.w, r, n, h)
  {
    var st := Step(e, w, k);
    FinishKept(e, w, k, n);
    NotifyingWrites(e, w, k);
    StepGoesOn(e, w, k);
    assert StoredOrSeed(st.w.db, r) == StoredOrSeed(w.db, r);
    if st.k.Idle? {
      EndFaithful(e, w, past, r, n, k, h);
      assert st.w == w;
    }
  }

  /** After its last subscription a tick has nothing left to do. */
  lemma EndFaithful(e: Env, w: World, past: Past, r: RuleId, n: Listener, k: Task, h: seq<Obs>)
    requires Ready(w, past, r, k) && Notifying(k) && WellFormed(k) && k.subs == [] && Ending(e, w, r, n, k, h)
    ensures Tracking(e, w, r, n, h)
  {
    var l := StoredOrSeed(w.db, r);
    assert l.incidentId == LiveId(w.db, r) == k.ls.incidentId;
    if InRun(h) {
      assert l.state == Firing && l.incidentId != NO_ID && !k.t.Closed();
      assert Views.Focus(k.ls, k.t) == l.incidentId;
    }
  }

  lemma ErrorFaithful(e: Env, w: World, r: RuleId, n: Listener, k: Task, h: seq<Obs>)
    requires (k.ErrLoad? || k.ErrSave?) && AboutRule(k) == Some(r) && !e.fails(w.calls)
    requires Tracking(e, w, r, n, h) && ErrorKeeps(w, r, k)
    ensures var st := Step(e, w, k);
            !UnderWay(st.k) && ErrorKeeps(st.w, r, st.k) && Tracking(e, st.w, r, n, h)
  {
    var st := Step(e, w, k);
    StoredTimes(w.db, r);
    var l, l2 := StoredOrSeed(w.db, r), StoredOrSeed(st.w.db, r);
    assert l2.state == l.state && l2.incidentId == l.incidentId && l2.triggeredAt == l.triggeredAt;
    assert ToldOf(st.w, r, l.incidentId, n.s.id) == ToldOf(w, r, l.incidentId, n.s.id);
  }

  /** The history after a step of a task of the rule. */
  function Longer(k: Task, h: seq<Obs>): seq<Obs> {
    if k.Load? then h + [Refinement.ObsOf(k.j)] else h
  }

  lemma EarlyStepFaithful(e: Env, w: World, past: Past, r: Rule, n: Listener, k: Task, h: seq<Obs>)
    requires Ready(w, past, r.id, k) && SubsBorn(w, past) && !e.fails(w.calls) && Configured(w, r, n)
    requires AboutRule(k) == Some(r.id) && RightRule(k, r) && WellFormed(k) && Faithful(e, w, r.id, n, k, h)
    requires k.Load? || k.Save? || k.Mark? || k.List?
    ensures var st := Step(e, w, k);
            UnderWay(st.k) && Ending(e, st.w, r.id, n, st.k, Longer(k, h))
  {
    if k.Load? {
      LoadFaithful(e, w, past, r, n, k.j, h);
    } else if k.Save? {
      SaveFaithful(e, w, past, r.id, n, k, h);
    } else if k.Mark? {
      MarkFaithful(e, w, past, r.id, n, k, h);
    } else {
      ListFaithful(e, w, r, n, k, h);
    }
  }

  lemma OwnStepFaithful(e: Env, w: World, past: Past, r: Rule, n: Listener, k: Task, h: seq<Obs>)
    requires Ready(w, past, r.id, k) && SubsBorn(w, past) && !e.fails(w.calls) && Configured(w, r, n)
    requires AboutRule(k) == Some(r.id) && RightRule(k, r) && InOrder(k, n) && Faithful(e, w, r.id, n, k, h)
    ensures var st := Step(e, w, k);
            Faithful(e, st.w, r.id, n, st.k, Longer(k, h))
  {
    if k.ErrLoad? || k.ErrSave? {
      ErrorFaithful(e, w, r.id, n, k, h);
    } else if Notifying(k) {
      NotifyFaithful(e, w, past, r.id, n, k, h);
    } else {
      EarlyStepFaithful(e, w, past, r, n, k, h);
    }
  }

  // ----- what others do meanwhile -----

  /** The incident that matters: the one of the tick under way, or else the live one. */
  function Concern(w: World, r: RuleId, k: Task): Id {
    if UnderWay(k) then Views.Focus(k.ls, k.t) else LiveId(w.db, r)
  }

  lemma ConcernBorn(w: World, past: Past, r: RuleId, k: Task)
    requires Ready(w, past, r, k)
    ensures var i := Concern(w, r, k);
            i == NO_ID || (i in past.born && past.born[i] == r)
  {
  }

  /** Nothing that concerns the rule and the subscription has changed. */
  lemma Unconcerned(e: Env, w: World, w2: World, r: RuleId, n: Listener, k: Task, h: seq<Obs>)
    requires WellFormed(k) && Faithful(e, w, r, n, k, h)
    requires r in w2.db.live <==> r in w.db.live
    requires r in w.db.live ==> w2.db.live[r] == w.db.live[r]
    requires ToldOf(w2, r, Concern(w, r, k), n.s.id) == ToldOf(w, r, Concern(w, r, k), n.s.id)
    ensures Faithful(e, w2, r, n, k, h)
  {
    assert StoredOrSeed(w2.db, r) == StoredOrSeed(w.db, r);
    assert StoredOrSeed(w.db, r).incidentId == LiveId(w.db, r);
    if k.Save? {
      assert StoredOrSeed(PutLive(w2.db, k.ls), r) == StoredOrSeed(PutLive(w.db, k.ls), r);
    }
  }

  /** A step of a task of another rule leaves the incidents of this rule alone. */
  lemma OtherStepTold(e: Env, w: World, past: Past, q: RuleId, k: Task, n: Listener, r: RuleId, i: Id, s: SubId)
    requires Ready(w, past, q, k) && AboutRule(k) == Some(q) && q != r && InOrder(k, n)
    requires i == NO_ID || (i in past.born && past.born[i] == r)
    ensures ToldOf(Step(e, w, k).w, r, i, s) == ToldOf(w, r, i, s)
  {
    if k.Keep? && !e.fails(w.calls) {
      DeliveryElsewhere(w, past, q, k, r, i);
      SaveTold(e, w, k.p.state, r, i, s);
    } else if k.Send? && k.bindings != [] {
      PostOneTold(e, w, q, k.subs[0], k.subscriberId, k.p.incidentId, k.p.kind, k.ls.lastValue, k.j.now, k.bindings[0], r, i, s);
      assert ToldOf(w, r, i, s).sent + [] == ToldOf(w, r, i, s).sent;
    } else {
      StepTellsNothing(e, w, k);
    }
  }

  lemma DeliveryElsewhere(w: World, past: Past, q: RuleId, k: Task, r: RuleId, i: Id)
    requires Ready(w, past, q, k) && AboutRule(k) == Some(q) && q != r && Delivering(k)
    requires i == NO_ID || (i in past.born && past.born[i] == r)
    ensures k.p.incidentId != i
  {
    ConcernBorn(w, past, q, k);
  }

  lemma StepTellsNothing(e: Env, w: World, k: Task)
    requires WellFormed(k) && (k.Keep? ==> e.fails(w.calls)) && (k.Send? ==> k.bindings == [])
    ensures var w2 := Step(e, w, k).w;
            w2.db.subStates == w.db.subStates && w2.outbox == w.outbox
  {
  }

  /** The incident that matters is not below the cutoff of a timely prune. */
  lemma ConcernNotPruned(w: World, past: Past, r: RuleId, k: Task, cutoff: int)
    requires Ready(w, past, r, k) && NotBefore(k, cutoff)
    ensures Concern(w, r, k) !in ResolvedBefore(w.db, cutoff)
  {
    var i := Concern(w, r, k);
    ConcernBorn(w, past, r, k);
    if i in w.db.incidents {
      assert i in past.inserted && i in past.born && past.born[i] == r;
      if !(UnderWay(k) && k.t.Closed() && !k.Save? && !k.Mark?) {
        assert Unsettled(w, past, r, k, i);
        assert UnresolvedOk(w, past, r, k);
      }
    }
  }

  lemma PrunedTold(w: World, cutoff: int, r: RuleId, i: Id, s: SubId)
    requires i !in ResolvedBefore(w.db, cutoff)
    ensures ToldOf(w.(db := Pruned(w.db, cutoff)), r, i, s) == ToldOf(w, r, i, s)
  {
  }

  // ----- whole runs -----

  ghost predicate Orderly(sys: System, r: Rule, n: Listener) {
    && InOrder(sys.push, n) && InOrder(sys.scheduled, n)
    && RightRule(sys.push, r) && RightRule(sys.scheduled, r)
    && SubsBorn(sys.w, sys.past) && Configured(sys.w, r, n)
  }

  /** What is asked of the actions of a run: the definition of the rule stays the same, its
      clock readings are at least a millisecond after the epoch, the subscription and its
      subscriber stay configured, and no prune deletes while a tick of the rule is under way
      that read its clock before the cutoff. */
  ghost predicate Tame(sys: System, a: Action, r: Rule, n: Listener) {
    match a
    case Begin(_, j) => j.rule.id == r.id ==> j.rule == r && j.now >= MS
    case PruneDelete => sys.prune.Archiving? ==> NotBefore(Current(sys, r.id), sys.prune.cutoff)
    case Configure(subscriptions, subscribers) =>
      n.s in subscriptions && n.s.subscriberId in subscribers && subscribers[n.s.subscriberId] == n.subscriber
    case _ => true
  }

  /** The outcomes of the rule that have been loaded so far, in order. */
  function Heard(c: Config, sys: System, actions: seq<Action>, r: RuleId): seq<Obs> {
    if actions == [] then []
    else
      var before, a := actions[..|actions| - 1], actions[|actions| - 1];
      Heard(c, sys, before, r) + HeardBy(Exec(c, sys, before), a, r)
  }

  function HeardBy(sys: System, a: Action, r: RuleId): seq<Obs> {
    if a.Work? && TaskOf(sys, a.g).Load? && TaskOf(sys, a.g).j.rule.id == r then [Refinement.ObsOf(TaskOf(sys, a.g).j)] else []
  }

  lemma ListInOrder(e: Env, w: World, k: Task, n: Listener)
    requires k.List? && n.s in w.db.subscriptions && DistinctIds(w.db.subscriptions)
    ensures InOrder(Step(e, w, k).k, n)
  {
    var k2 := Step(e, w, k).k;
    if k2.Scan? {
      ListForRuleExact(w.db.subscriptions, k.j.rule);
      forall x | x in k2.subs && x.id == n.s.id ensures x == n.s {
        SameId(w.db.subscriptions, x, n.s);
      }
    }
  }

  lemma OtherInOrder(e: Env, w: World, k: Task, n: Listener)
    requires WellFormed(k) && !Notifying(k) && !k.List?
    ensures InOrder(Step(e, w, k).k, n)
  {
  }

  /** A step goes on with the same job. */
  lemma SameJob(e: Env, w: World, k: Task)
    requires WellFormed(k)
    ensures var k2 := Step(e, w, k).k;
            HasJob(k2) ==> HasJob(k) && k2.j == k.j && !k2.Load?
  {
    if Notifying(k) {
      StepGoesOn(e, w, k);
    }
  }

  /** A step of any task keeps it in order. */
  lemma StepInOrder(e: Env, w: World, past: Past, q: RuleId, k: Task, r: Rule, n: Listener)
    requires Ready(w, past, q, k) && AboutRule(k) == Some(q) && InOrder(k, n) && RightRule(k, r) && n.s in w.db.subscriptions
    ensures InOrder(Step(e, w, k).k, n) && RightRule(Step(e, w, k).k, r)
  {
    SameJob(e, w, k);
    if Notifying(k) {
      OrderKept(e, w, k, n);
    } else if k.List? {
      ListInOrder(e, w, k, n);
    } else {
      OtherInOrder(e, w, k, n);
    }
  }

  lemma StepSubsBorn(e: Env, w: World, past: Past, q: RuleId, k: Task, n: Listener)
    requires Ready(w, past, q, k) && AboutRule(k) == Some(q) && InOrder(k, n) && SubsBorn(w, past)
    ensures var st := Step(e, w, k);
            SubsBorn(st.w, Remember(e, w, past, k, st.k))
  {
    if k.Keep? {
      ConcernBorn(w, past, q, k);
      assert k.p.incidentId != NO_ID;
    }
  }

  lemma StepConfigured(e: Env, w: World, k: Task, r: Rule, n: Listener)
    requires WellFormed(k) && Configured(w, r, n)
    ensures Configured(Step(e, w, k).w, r, n)
  {
    assert Step(e, w, k).w.db.subscriptions == w.db.subscriptions && Step(e, w, k).w.db.subscribers == w.db.subscribers;
  }

  /** The store, together with what the tick of the rule under way has still to do, summarizes
      the history `h` of the rule. */
  ghost predicate Follows(c: Config, sys: System, r: Rule, n: Listener, h: seq<Obs>) {
    && Inv(sys) && Guarantees.Clean(sys) && Orderly(sys, r, n)
    && Faithful(c.e, sys.w, r.id, n, Current(sys, r.id), h)
  }

  lemma ActWork(c: Config, sys: System, g: Worker)
    requires WellFormed(TaskOf(sys, g))
    ensures var k, sys2 := TaskOf(sys, g), Act(c, sys, Work(g));
            var st := Step(c.e, sys.w, k);
            && sys2.w == st.w && sys2.past == Remember(c.e, sys.w, sys.past, k, st.k) && sys2.owner == sys.owner
            && TaskOf(sys2, g) == st.k && (forall g2 :: g2 != g ==> TaskOf(sys2, g2) == TaskOf(sys, g2))
  {
  }

  /** A task of a rule is replaced by its next one. */
  lemma NextCurrent(sys: System, sys2: System, g: Worker, r: RuleId)
    requires OwnTask(sys.owner, g, TaskOf(sys, g)) && AboutRule(TaskOf(sys, g)) == Some(r) && sys2.owner == sys.owner
    requires AboutRule(TaskOf(sys2, g)) == None || AboutRule(TaskOf(sys2, g)) == Some(r)
    ensures Current(sys, r) == TaskOf(sys, g) && Current(sys2, r) == TaskOf(sys2, g)
  {
  }

  lemma OtherCurrent(sys: System, sys2: System, g: Worker, q: RuleId, r: RuleId)
    requires AboutRule(TaskOf(sys, g)) == Some(q) && q != r && sys2.owner == sys.owner
    requires AboutRule(TaskOf(sys2, g)) == None || AboutRule(TaskOf(sys2, g)) == Some(q)
    requires forall g2 :: g2 != g ==> TaskOf(sys2, g2) == TaskOf(sys, g2)
    ensures Current(sys2, r) == Current(sys, r)
  {
  }

  lemma OwnWorkFollows(c: Config, sys: System, g: Worker, r: Rule, n: Listener, h: seq<Obs>)
    requires NoFailures(c.e) && Follows(c, sys, r, n, h) && AboutRule(TaskOf(sys, g)) == Some(r.id)
    ensures var sys2 := Act(c, sys, Work(g));
            && WellFormed(Current(sys2, r.id))
            && Faithful(c.e, sys2.w, r.id, n, Current(sys2, r.id), h + HeardBy(sys, Work(g), r.id))
  {
    var k, sys2 := TaskOf(sys, g), Act(c, sys, Work(g));
    assert OwnTask(sys.owner, g, k);
    assert Current(sys, r.id) == k && RuleOk(sys.w, sys.past, r.id, k);
    assert InOrder(k, n) && RightRule(k, r);
    ActWork(c, sys, g);
    StepAbout(c.e, sys.w, sys.past, r.id, k);
    NextCurrent(sys, sys2, g, r.id);
    OwnStepFaithful(c.e, sys.w, sys.past, r, n, k, h);
    assert h + HeardBy(sys, Work(g), r.id) == Longer(k, h) by {
      assert h + [] == h;
    }
  }

  /** A task works on one rule until it is done; other live states stay as they are. */
  lemma StepAbout(e: Env, w: World, past: Past, q: RuleId, k: Task)
    requires Ready(w, past, q, k) && WellFormed(k) && AboutRule(k) == Some(q)
    ensures var st := Step(e, w, k);
            && (AboutRule(st.k) == None || AboutRule(st.k) == Some(q))
            && st.w.db.live - {q} == w.db.live - {q}
  {
    GoodStep(e, w, past, q, k);
  }

  lemma OtherWorkFollows(c: Config, sys: System, g: Worker, q: RuleId, r: Rule, n: Listener, h: seq<Obs>)
    requires NoFailures(c.e) && Follows(c, sys, r, n, h) && AboutRule(TaskOf(sys, g)) == Some(q) && q != r.id
    ensures var sys2 := Act(c, sys, Work(g));
            && WellFormed(Current(sys2, r.id))
            && Faithful(c.e, sys2.w, r.id, n, Current(sys2, r.id), h + HeardBy(sys, Work(g), r.id))
  {
    var k, kr, sys2 := TaskOf(sys, g), Current(sys, r.id), Act(c, sys, Work(g));
    assert Current(sys, q) == k && RuleOk(sys.w, sys.past, q, k) && RuleOk(sys.w, sys.past, r.id, kr);
    ActWork(c, sys, g);
    StepAbout(c.e, sys.w, sys.past, q, k);
    OtherLive(sys.w, sys2.w, q, r.id);
    OtherCurrent(sys, sys2, g, q, r.id);
    ConcernBorn(sys.w, sys.past, r.id, kr);
    OtherStepTold(c.e, sys.w, sys.past, q, k, n, r.id, Concern(sys.w, r.id, kr), n.s.id);
    Unconcerned(c.e, sys.w, sys2.w, r.id, n, kr, h);
    assert h + [] == h;
  }

  lemma WorkOrderly(c: Config, sys: System, g: Worker, r: Rule, n: Listener)
    requires Inv(sys) && Orderly(sys, r, n)
    ensures Orderly(Act(c, sys, Work(g)), r, n)
  {
    var k := TaskOf(sys, g);
    StepConfigured(c.e, sys.w, k, r, n);
    if !k.Idle? {
      var q := AboutRule(k).value;
      assert Current(sys, q) == k && RuleOk(sys.w, sys.past, q, k);
      StepInOrder(c.e, sys.w, sys.past, q, k, r, n);
      StepSubsBorn(c.e, sys.w, sys.past, q, k, n);
    }
  }

  lemma WorkFollows(c: Config, sys: System, g: Worker, r: Rule, n: Listener, h: seq<Obs>)
    requires NoFailures(c.e) && Follows(c, sys, r, n, h)
    ensures var sys2 := Act(c, sys, Work(g));
            && Orderly(sys2, r, n) && WellFormed(Current(sys2, r.id))
            && Faithful(c.e, sys2.w, r.id, n, Current(sys2, r.id), h + HeardBy(sys, Work(g), r.id))
  {
    WorkOrderly(c, sys, g, r, n);
    match AboutRule(TaskOf(sys, g))
    case None =>
      assert Act(c, sys, Work(g)).w == sys.w && h + [] == h;
    case Some(q) =>
      if q == r.id {
        OwnWorkFollows(c, sys, g, r, n, h);
      } else {
        OtherWorkFollows(c, sys, g, q, r, n, h);
      }
  }

  lemma BeginCurrent(sys: System, g: Worker, k: Task, r: RuleId)
    requires TaskOf(sys, g).Idle?
    ensures var sys2 := WithTask(sys, g, k);
            Current(sys2, r) == Current(sys, r) || (Current(sys, r).Idle? && Current(sys2, r) == k)
  {
  }

  lemma BeginOrderly(sys: System, g: Worker, k: Task, r: Rule, n: Listener)
    requires Orderly(sys, r, n) && (k.Load? || k.ErrLoad?) && RightRule(k, r)
    ensures Orderly(WithTask(sys, g, k), r, n)
  {
  }

  /** A new task of the rule has done nothing yet; one of another rule is no concern. */
  lemma BeginFollows(c: Config, sys: System, g: Worker, k: Task, r: Rule, n: Listener, h: seq<Obs>)
    requires Follows(c, sys, r, n, h) && TaskOf(sys, g).Idle? && (k.Load? || k.ErrLoad?) && RightRule(k, r)
    ensures var sys2 := WithTask(sys, g, k);
            && Orderly(sys2, r, n) && WellFormed(Current(sys2, r.id))
            && Faithful(c.e, sys2.w, r.id, n, Current(sys2, r.id), h)
  {
    BeginCurrent(sys, g, k, r.id);
    BeginOrderly(sys, g, k, r, n);
    if Current(sys, r.id).Idle? {
      FreshFaithful(c.e, sys.w, r.id, n, k, h);
    }
  }

  lemma FreshFaithful(e: Env, w: World, r: RuleId, n: Listener, k: Task, h: seq<Obs>)
    requires Faithful(e, w, r, n, Idle, h) && (k.Load? || k.ErrLoad?)
    ensures Faithful(e, w, r, n, k, h)
  {
  }

  lemma DeleteFollows(c: Config, sys: System, cutoff: int, sys2: System, r: Rule, n: Listener, h: seq<Obs>)
    requires Follows(c, sys, r, n, h) && NotBefore(Current(sys, r.id), cutoff)
    requires sys2.push == sys.push && sys2.scheduled == sys.scheduled && sys2.owner == sys.owner && sys2.past == sys.past
    requires sys2.w == Call(sys.w).(db := Pruned(sys.w.db, cutoff))
    ensures Orderly(sys2, r, n) && Faithful(c.e, sys2.w, r.id, n, Current(sys2, r.id), h)
  {
    var kr := Current(sys, r.id);
    assert RuleOk(sys.w, sys.past, r.id, kr);
    ConcernNotPruned(sys.w, sys.past, r.id, kr, cutoff);
    PrunedTold(sys.w, cutoff, r.id, Concern(sys.w, r.id, kr), n.s.id);
    Unconcerned(c.e, sys.w, sys2.w, r.id, n, kr, h);
    assert Current(sys2, r.id) == kr;
  }

  lemma AsideOrderly(sys: System, sys2: System, r: Rule, n: Listener)
    requires Orderly(sys, r, n) && Configured(sys2.w, r, n)
    requires sys2.push == sys.push && sys2.scheduled == sys.scheduled && sys2.past == sys.past
    requires sys2.w.db.subStates == sys.w.db.subStates
    ensures Orderly(sys2, r, n)
  {
  }

  /** Actions that leave tasks, live states, sub-states and messages as they are. */
  lemma AsideFollows(c: Config, sys: System, sys2: System, r: Rule, n: Listener, h: seq<Obs>)
    requires Follows(c, sys, r, n, h) && Configured(sys2.w, r, n)
    requires sys2.push == sys.push && sys2.scheduled == sys.scheduled && sys2.past == sys.past
    requires Current(sys2, r.id) == Current(sys, r.id)
    requires sys2.w.db.live == sys.w.db.live && sys2.w.db.subStates == sys.w.db.subStates && sys2.w.outbox == sys.w.outbox
    ensures Orderly(sys2, r, n) && Faithful(c.e, sys2.w, r.id, n, Current(sys2, r.id), h)
  {
    AsideOrderly(sys, sys2, r, n);
    var i := Concern(sys.w, r.id, Current(sys, r.id));
    assert ToldOf(sys2.w, r.id, i, n.s.id) == ToldOf(sys.w, r.id, i, n.s.id);
    Unconcerned(c.e, sys.w, sys2.w, r.id, n, Current(sys, r.id), h);
  }

  /** Reassigning a rule, or configuring, leaves the tasks at work as they are. */
  lemma SameCurrent(c: Config, sys: System, a: Action, r: RuleId)
    requires Inv(sys) && (a.Reassign? || a.Configure? || a.PruneBegin? || a.PruneList? || a.PruneOffer?)
    ensures var sys2 := Act(c, sys, a);
            && sys2.push == sys.push && sys2.scheduled == sys.scheduled && sys2.past == sys.past
            && Current(sys2, r) == Current(sys, r)
            && sys2.w.db.live == sys.w.db.live && sys2.w.db.subStates == sys.w.db.subStates && sys2.w.outbox == sys.w.outbox
  {
  }

  lemma ActFollows(c: Config, sys: System, a: Action, r: Rule, n: Listener, h: seq<Obs>)
    requires NoFailures(c.e) && Follows(c, sys, r, n, h) && Tame(sys, a, r, n)
    ensures var sys2 := Act(c, sys, a);
            && Orderly(sys2, r, n) && WellFormed(Current(sys2, r.id))
            && Faithful(c.e, sys2.w, r.id, n, Current(sys2, r.id), h + HeardBy(sys, a, r.id))
  {
    var sys2 := Act(c, sys, a);
    assert h + [] == h;
    if a.Work? {
      WorkFollows(c, sys, a.g, r, n, h);
    } else if a.Begin? || a.BeginError? {
      if sys2 != sys {
        TaskBegins(c, sys, a, r, n, h);
      }
    } else if a.PruneDelete? {
      if sys2 != sys {
        DeleteFollows(c, sys, sys.prune.cutoff, sys2, r, n, h);
      }
    } else {
      SameCurrent(c, sys, a, r.id);
      AsideFollows(c, sys, sys2, r, n, h);
    }
  }

  lemma TaskBegins(c: Config, sys: System, a: Action, r: Rule, n: Listener, h: seq<Obs>)
    requires Follows(c, sys, r, n, h) && Tame(sys, a, r, n) && (a.Begin? || a.BeginError?) && Act(c, sys, a) != sys
    ensures var sys2 := Act(c, sys, a);
            && Orderly(sys2, r, n) && WellFormed(Current(sys2, r.id))
            && Faithful(c.e, sys2.w, r.id, n, Current(sys2, r.id), h)
  {
    match a
    case Begin(g, j) => BeginFollows(c, sys, g, Load(j), r, n, h);
    case BeginError(q, message, now) => BeginFollows(c, sys, ScheduledWorker, ErrLoad(q, message, now), r, n, h);
  }

  lemma NextFollows(c: Config, sys: System, a: Action, r: Rule, n: Listener, h: seq<Obs>)
    requires NoFailures(c.e) && Follows(c, sys, r, n, h) && Tame(sys, a, r, n)
    ensures Follows(c, Next(c, sys, a), r, n, h + HeardBy(sys, a, r.id))
  {
    NextKeeps(c, sys, a);
    Guarantees.NextClean(c, sys, a);
    ActFollows(c, sys, a, r, n, h);
    var sys2 := Act(c, sys, a);
    assert Next(c, sys, a) == Watch(sys2);
  }

  ghost predicate TameRun(c: Config, sys: System, actions: seq<Action>, r: Rule, n: Listener) {
    forall k :: 0 <= k < |actions| ==> Tame(Exec(c, sys, actions[..k]), actions[k], r, n)
  }

  lemma {:induction false} RunFollows(c: Config, subscriptions: seq<Subscription>, subscribers: map<string, Subscriber>, actions: seq<Action>,
                                      r: Rule, n: Listener)
    requires NoFailures(c.e) && DistinctIds(subscriptions)
    requires Configured(Concurrent.Start(subscriptions, subscribers).w, r, n)
    requires TameRun(c, Concurrent.Start(subscriptions, subscribers), actions, r, n)
    ensures var start := Concurrent.Start(subscriptions, subscribers);
            Follows(c, Exec(c, start, actions), r, n, Heard(c, start, actions, r.id))
  {
    var start := Concurrent.Start(subscriptions, subscribers);
    if actions == [] {
      Always(c, subscriptions, subscribers, []);
    } else {
      var before, a := actions[..|actions| - 1], actions[|actions| - 1];
      forall k | 0 <= k < |before| ensures Tame(Exec(c, start, before[..k]), before[k], r, n) {
        assert actions[..k] == before[..k] && Tame(Exec(c, start, actions[..k]), actions[k], r, n);
      }
      RunFollows(c, subscriptions, subscribers, before, r, n);
      assert Tame(Exec(c, start, actions[..|actions| - 1]), actions[|actions| - 1], r, n);
      NextFollows(c, Exec(c, start, before), a, r, n, Heard(c, start, before, r.id));
    }
  }

  /** Refinement under every interleaving, without failures and late ticks: whenever no tick of
      the rule is under way, what its ticks have sent to the subscription is exactly what the
      history of the rule calls for. */
  lemma InterleavedRefinement(c: Config, subscriptions: seq<Subscription>, subscribers: map<string, Subscriber>, actions: seq<Action>,
                              r: Rule, n: Listener)
    requires NoFailures(c.e) && DistinctIds(subscriptions)
    requires Configured(Concurrent.Start(subscriptions, subscribers).w, r, n)
    requires TameRun(c, Concurrent.Start(subscriptions, subscribers), actions, r, n)
    ensures var start := Concurrent.Start(subscriptions, subscribers);
            var sys := Exec(c, start, actions);
            !UnderWay(Current(sys, r.id)) ==>
              Views.DeliveriesTo(sys.w.outbox, r.id, n.s.id) == Due(Heard(c, start, actions, r.id), n.s, BindingsOf(c.e, n))
  {
    RunFollows(c, subscriptions, subscribers, actions, r, n);
  }
}
