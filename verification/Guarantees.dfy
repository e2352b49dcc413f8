/** What the invariant of the concurrent engine means: at most one open incident per rule,
    a full account of what failing store calls leave behind, and an archive that is
    exactly what is deleted. */
module Guarantees {
  import opened RuleState
  import opened Tables
  import opened Dispatch
  import opened Machine
  import opened Concurrent
  import opened Safety

  /** A state that the engine reaches from an empty store. */
  function Reached(c: Config, subscriptions: seq<Subscription>, subscribers: map<string, Subscriber>, actions: seq<Action>): System {
    Exec(c, Start(subscriptions, subscribers), actions)
  }

  // ----- with failing store calls -----

  /** Whatever fails, a stored live state is FIRING exactly if it names an incident. */
  lemma FiringNamesAnId(c: Config, subscriptions: seq<Subscription>, subscribers: map<string, Subscriber>, actions: seq<Action>, r: RuleId)
    requires DistinctIds(subscriptions)
    ensures var db := Reached(c, subscriptions, subscribers, actions).w.db;
            r in db.live ==> (db.live[r].state == Firing <==> db.live[r].incidentId != NO_ID)
  {
    Always(c, subscriptions, subscribers, actions);
    var sys := Reached(c, subscriptions, subscribers, actions);
    assert RuleOk(sys.w, sys.past, r, Current(sys, r));
  }

  /** Whatever fails, the unresolved incidents of a rule are accounted for one by one: besides
      the live one, each is being resolved right now, or resolving it failed, or its live
      state was overwritten after a failed read; no two of these apply to one incident, and
      each such id that was inserted is still there. */
  lemma UnresolvedAccounted(c: Config, subscriptions: seq<Subscription>, subscribers: map<string, Subscriber>, actions: seq<Action>, r: RuleId, i: Id)
    requires DistinctIds(subscriptions)
    ensures var sys := Reached(c, subscriptions, subscribers, actions);
            var k, past, db := Current(sys, r), sys.past, sys.w.db;
            var live := i != NO_ID && i == LiveId(db, r);
            var closing := k.Mark? && k.t.Closed() && i == k.t.incidentId;
            && ((Unresolved(db, i) && db.incidents[i].ruleId == r) <==>
                  (i in past.inserted && i in past.born && past.born[i] == r && (live || closing || i in past.resolveFailed || i in past.lost)))
            && (i in past.born && past.born[i] == r ==>
                  && !(live && closing) && !(live && i in past.resolveFailed) && !(live && i in past.lost)
                  && !(closing && i in past.resolveFailed) && !(closing && i in past.lost)
                  && !(i in past.resolveFailed && i in past.lost))
  {
    Always(c, subscriptions, subscribers, actions);
    var sys := Reached(c, subscriptions, subscribers, actions);
    assert RuleOk(sys.w, sys.past, r, Current(sys, r));
    assert UnresolvedOk(sys.w, sys.past, r, Current(sys, r));
  }

  /** Whatever fails, an id about to be inserted was never inserted before, so the insert
      cannot clash with an existing row. */
  lemma InsertedOnce(c: Config, subscriptions: seq<Subscription>, subscribers: map<string, Subscriber>, actions: seq<Action>, g: Worker)
    requires DistinctIds(subscriptions)
    ensures var sys := Reached(c, subscriptions, subscribers, actions);
            var k := TaskOf(sys, g);
            k.Mark? && k.t.Opened() ==>
              k.t.incidentId !in sys.past.inserted && k.t.incidentId !in sys.w.db.incidents
  {
    Always(c, subscriptions, subscribers, actions);
    var sys := Reached(c, subscriptions, subscribers, actions);
    var k := TaskOf(sys, g);
    if k.Mark? {
      assert Current(sys, k.j.rule.id) == k;
      assert RuleOk(sys.w, sys.past, k.j.rule.id, k);
    }
  }

  /** Whatever fails, no subscription is told twice that an incident is resolved. */
  lemma ToldResolvedOnce(c: Config, subscriptions: seq<Subscription>, subscribers: map<string, Subscriber>, actions: seq<Action>, m: nat, n: nat)
    requires DistinctIds(subscriptions)
    requires m < n < |Reached(c, subscriptions, subscribers, actions).past.batches|
    ensures var batches := Reached(c, subscriptions, subscribers, actions).past.batches;
            batches[m].kind.ResolvedKind? && batches[n].kind.ResolvedKind? ==>
              batches[m].incidentId != batches[n].incidentId || batches[m].subscriptionId != batches[n].subscriptionId
  {
    Always(c, subscriptions, subscribers, actions);
  }

  // ----- messages and batches -----

  /** The batch that a message is part of. */
  function BatchOf(m: Sent): BatchId {
    BatchId(m.incidentId, m.subscriptionId, m.kind)
  }

  ghost predicate SendLogged(past: Past, k: Task) {
    k.Send? && k.subs != [] ==> BatchId(k.p.incidentId, k.subs[0].id, k.p.kind) in past.batches
  }

  ghost predicate Logged(sys: System) {
    && (forall m :: m in sys.w.outbox ==> BatchOf(m) in sys.past.batches)
    && SendLogged(sys.past, sys.push) && SendLogged(sys.past, sys.scheduled)
  }

  /** A step sends at most one message, and that one is of the batch the step is at. */
  lemma StepSends(e: Env, w: World, past: Past, k: Task)
    requires WellFormed(k) && SendLogged(past, k) && forall m :: m in w.outbox ==> BatchOf(m) in past.batches
    ensures var st := Step(e, w, k);
            var past2 := Remember(e, w, past, k, st.k);
            && past.batches <= past2.batches && SendLogged(past2, st.k)
            && forall m :: m in st.w.outbox ==> BatchOf(m) in past2.batches
  {
    var st := Step(e, w, k);
    var past2 := Remember(e, w, past, k, st.k);
    if k.Send? && k.bindings != [] {
      assert forall m :: m in st.w.outbox ==> m in w.outbox || BatchOf(m) == BatchId(k.p.incidentId, k.subs[0].id, k.p.kind);
    } else if st.k.Send? {
      assert past2.batches[|past.batches|] in past2.batches;
    } else {
      assert st.w.outbox == w.outbox;
    }
    forall b | b in past.batches ensures b in past2.batches {
      var x :| 0 <= x < |past.batches| && past.batches[x] == b;
      assert past2.batches[x] == b;
    }
  }

  lemma WorkLogged(c: Config, sys: System, g: Worker)
    requires Inv(sys) && Logged(sys)
    ensures Logged(Act(c, sys, Work(g)))
  {
    StepSends(c.e, sys.w, sys.past, TaskOf(sys, g));
  }

  lemma NextLogged(c: Config, sys: System, a: Action)
    requires Inv(sys) && Logged(sys)
    ensures Logged(Next(c, sys, a))
  {
    var sys2 := Act(c, sys, a);
    if a.Work? {
      WorkLogged(c, sys, a.g);
    } else {
      assert sys2.w.outbox == sys.w.outbox && sys2.past == sys.past;
      assert SendLogged(sys.past, sys2.push) && SendLogged(sys.past, sys2.scheduled);
    }
    assert Logged(sys2) && Next(c, sys, a) == Watch(sys2);
  }

  /** Under every interleaving and whatever fails, each message sent is of a batch in the record. */
  lemma {:induction false} SentIsLogged(c: Config, subscriptions: seq<Subscription>, subscribers: map<string, Subscriber>, actions: seq<Action>)
    requires DistinctIds(subscriptions)
    ensures Logged(Reached(c, subscriptions, subscribers, actions))
  {
    if actions != [] {
      var before := actions[..|actions| - 1];
      SentIsLogged(c, subscriptions, subscribers, before);
      Always(c, subscriptions, subscribers, before);
      NextLogged(c, Reached(c, subscriptions, subscribers, before), actions[|actions| - 1]);
    }
  }

  /** So all messages that tell a subscription of the end of an incident are of one batch. */
  lemma ResolvedMessagesAreOneBatch(c: Config, subscriptions: seq<Subscription>, subscribers: map<string, Subscriber>, actions: seq<Action>, m: Sent)
    requires DistinctIds(subscriptions)
    requires m in Reached(c, subscriptions, subscribers, actions).w.outbox && m.kind.ResolvedKind?
    ensures var batches := Reached(c, subscriptions, subscribers, actions).past.batches;
            exists n :: 0 <= n < |batches| && batches[n] == BatchOf(m)
                        && forall x :: 0 <= x < |batches| && batches[x] == BatchOf(m) ==> x == n
  {
    SentIsLogged(c, subscriptions, subscribers, actions);
    Always(c, subscriptions, subscribers, actions);
    var batches := Reached(c, subscriptions, subscribers, actions).past.batches;
    assert BatchOf(m) in batches;
    var n :| 0 <= n < |batches| && batches[n] == BatchOf(m);
    forall x | 0 <= x < |batches| && batches[x] == BatchOf(m) ensures x == n {
      assert ResolvedOnce(batches);
    }
  }

  // ----- without failing store calls -----

  predicate NotBlind(k: Task) {
    k.ErrSave? ==> !k.blind
  }

  predicate NoneFailed(past: Past) {
    past.insertFailed == {} && past.resolveFailed == {} && past.lost == {}
  }

  predicate Clean(sys: System) {
    NoneFailed(sys.past) && NotBlind(sys.push) && NotBlind(sys.scheduled)
  }

  lemma StepClean(e: Env, w: World, past: Past, k: Task)
    requires NoFailures(e) && WellFormed(k) && NoneFailed(past) && NotBlind(k)
    requires k.Mark? && k.t.Opened() ==> k.t.incidentId !in w.db.incidents
    ensures var st := Step(e, w, k);
            NoneFailed(Remember(e, w, past, k, st.k)) && NotBlind(st.k)
  {
  }

  lemma NextClean(c: Config, sys: System, a: Action)
    requires NoFailures(c.e) && Inv(sys) && Clean(sys)
    ensures Clean(Next(c, sys, a))
  {
    if a.Work? {
      var k := TaskOf(sys, a.g);
      if k.Mark? {
        assert Current(sys, k.j.rule.id) == k;
        assert RuleOk(sys.w, sys.past, k.j.rule.id, k);
      }
      StepClean(c.e, sys.w, sys.past, k);
    }
  }

  lemma {:induction false} NothingFailed(c: Config, subscriptions: seq<Subscription>, subscribers: map<string, Subscriber>, actions: seq<Action>)
    requires NoFailures(c.e) && DistinctIds(subscriptions)
    ensures Clean(Reached(c, subscriptions, subscribers, actions))
  {
    if actions != [] {
      var before := actions[..|actions| - 1];
      NothingFailed(c, subscriptions, subscribers, before);
      Always(c, subscriptions, subscribers, before);
      NextClean(c, Reached(c, subscriptions, subscribers, before), actions[|actions| - 1]);
    }
  }

  /** Under every interleaving of single store calls, a rule has at most one unresolved
      incident; and a FIRING live state names it, except while that rule's own tick stands
      between storing the live state and inserting the incident. */
  lemma InterleavingSafety(c: Config, subscriptions: seq<Subscription>, subscribers: map<string, Subscriber>, actions: seq<Action>, r: RuleId)
    requires NoFailures(c.e) && DistinctIds(subscriptions)
    ensures var sys := Reached(c, subscriptions, subscribers, actions);
            var db, k := sys.w.db, Current(sys, r);
            && (forall i, j :: Unresolved(db, i) && Unresolved(db, j) && db.incidents[i].ruleId == r && db.incidents[j].ruleId == r ==> i == j)
            && (r in db.live && db.live[r].state == Firing && !(k.Mark? && k.t.Opened()) ==>
                  Unresolved(db, db.live[r].incidentId) && db.incidents[db.live[r].incidentId].ruleId == r)
  {
    NothingFailed(c, subscriptions, subscribers, actions);
    Always(c, subscriptions, subscribers, actions);
    var sys := Reached(c, subscriptions, subscribers, actions);
    var k := Current(sys, r);
    assert RuleOk(sys.w, sys.past, r, k);
    assert UnresolvedOk(sys.w, sys.past, r, k);
    forall i | Unresolved(sys.w.db, i) && sys.w.db.incidents[i].ruleId == r
      ensures i == if k.Mark? && k.t.Closed() then k.t.incidentId else LiveId(sys.w.db, r)
    {
      assert i in sys.past.inserted && sys.past.born[i] == r;
      assert i != NO_ID;
    }
  }
}
