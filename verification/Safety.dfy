/** What holds in every state of the concurrent engine, under every interleaving and
    whatever store calls fail. */
module Safety {
  import opened Base
  import opened RuleState
  import opened Tables
  import opened Dispatch
  import opened Machine
  import opened Concurrent
  import Views

  // ----- the invariant -----

  /** The task working on rule `r`, if there is one. */
  function Current(sys: System, r: RuleId): Task {
    var k := TaskOf(sys, sys.owner(r));
    if AboutRule(k) == Some(r) then k else Idle
  }

  predicate Unresolved(db: Db, i: Id) {
    i in db.incidents && db.incidents[i].resolvedMs == None
  }

  /** Why an inserted incident may be unresolved: it is the live one; its tick is about to
      resolve it; resolving it failed; or its live state was overwritten after a failed read. */
  predicate Unsettled(w: World, past: Past, r: RuleId, k: Task, i: Id) {
    || i == LiveId(w.db, r)
    || (k.Mark? && k.t.Closed() && i == k.t.incidentId)
    || i in past.resolveFailed
    || i in past.lost
  }

  predicate StateMatches(ls: Live) {
    ls.state == Firing <==> ls.incidentId != NO_ID
  }

  /** An id minted for `r` that nothing has happened to yet. */
  ghost predicate Unused(past: Past, r: RuleId, i: Id) {
    && i in past.born && past.born[i] == r
    && i !in past.inserted && i !in past.insertFailed && i !in past.resolveFailed && i !in past.lost
    && (forall n :: 0 <= n < |past.batches| ==> past.batches[n].incidentId != i)
  }

  /** An incident of `r` that has left the live state in good order. */
  predicate Closing(past: Past, r: RuleId, i: Id) {
    i in past.born && past.born[i] == r && i !in past.resolveFailed && i !in past.lost
  }

  /** What the goroutine working on `r` may rely on at each of its positions. */
  ghost predicate TaskOk(w: World, past: Past, r: RuleId, k: Task) {
    var id := LiveId(w.db, r);
    match k
    case Idle => true
    case Load(_) => true
    case ErrLoad(_, _, _) => true
    case ErrSave(ls, blind) => StateMatches(ls) && ls.incidentId == if blind then NO_ID else id
    case Save(_, ls, t) =>
      && ls.ruleId == r && StateMatches(ls)
      && (if t.Opened() then t.incidentId == ls.incidentId && Unused(past, r, t.incidentId)
          else if t.Closed() then t.incidentId == id != NO_ID && ls.incidentId == NO_ID
          else ls.incidentId == id)
      && (t.Opened() ==> id == NO_ID)
    case Mark(_, ls, t) =>
      && id == ls.incidentId && StateMatches(ls)
      && (t.Opened() ==> t.incidentId == id && Unused(past, r, id))
      && (t.Closed() ==> id == NO_ID && Closing(past, r, t.incidentId))
    case _ =>
      && id == k.ls.incidentId && StateMatches(k.ls)
      && (k.t.Closed() ==> id == NO_ID && Settled(w, past, r, k))
      && (Notifying(k) ==> DistinctIds(k.subs))
      && (Delivering(k) ==> k.p.incidentId == Views.Focus(k.ls, k.t) != NO_ID && (k.p.kind.ResolvedKind? <==> k.t.Closed()))
  }

  /** The incident that a notifying tick has closed is resolved at the time of that tick. */
  predicate Settled(w: World, past: Past, r: RuleId, k: Task)
    requires HasJob(k) && !k.Load?
  {
    && Closing(past, r, k.t.incidentId)
    && (k.t.incidentId in w.db.incidents ==> w.db.incidents[k.t.incidentId].resolvedMs == Some(Millis(k.j.now)))
  }

  /** The subscriptions whose turn to be told of the end of the incident is still to come. */
  predicate StillToTell(k: Task, s: SubId) {
    || k.Save? || k.Mark? || k.List?
    || ((k.Scan? || k.Gate? || k.Find?) && exists x :: x in k.subs && x.id == s)
    || ((k.Send? || k.Keep?) && k.subs != [] && exists x :: x in k.subs[1..] && x.id == s)
  }

  predicate ClosingTask(k: Task) {
    HasJob(k) && !k.Load? && k.t.Closed()
  }

  /** Resolved batches are about incidents that are no longer live, and were sent to
      subscriptions whose turn is over. */
  ghost predicate ResolvedIsOver(w: World, past: Past, r: RuleId, k: Task) {
    forall n :: 0 <= n < |past.batches| && past.batches[n].kind.ResolvedKind?
                && past.batches[n].incidentId in past.born && past.born[past.batches[n].incidentId] == r ==>
      && past.batches[n].incidentId != LiveId(w.db, r)
      && !(ClosingTask(k) && k.t.incidentId == past.batches[n].incidentId && StillToTell(k, past.batches[n].subscriptionId))
  }

  ghost predicate LiveOk(w: World, past: Past, r: RuleId, k: Task) {
    var id := LiveId(w.db, r);
    && (r in w.db.live ==> (w.db.live[r].state == Firing <==> id != NO_ID))
    && (id != NO_ID ==>
          && Closing(past, r, id)
          && (id in past.inserted || id in past.insertFailed || (k.Mark? && k.t.Opened())))
  }

  ghost predicate UnresolvedOk(w: World, past: Past, r: RuleId, k: Task) {
    forall i :: i in past.inserted && i in past.born && past.born[i] == r ==>
      (Unresolved(w.db, i) <==> Unsettled(w, past, r, k, i))
  }

  /** Everything about rule `r`, whose current task is `k`. */
  ghost predicate RuleOk(w: World, past: Past, r: RuleId, k: Task) {
    LiveOk(w, past, r, k) && UnresolvedOk(w, past, r, k) && TaskOk(w, past, r, k) && ResolvedIsOver(w, past, r, k)
  }

  /** No incident is reported resolved twice to the same subscription. */
  ghost predicate ResolvedOnce(batches: seq<BatchId>) {
    forall m, n :: 0 <= m < n < |batches| && batches[m].kind.ResolvedKind? && batches[n].kind.ResolvedKind? ==>
      batches[m] != batches[n]
  }

  ghost predicate PastOk(w: World, past: Past) {
    && (forall i :: i in past.born ==> 0 < i <= w.lastId)
    && past.inserted <= past.born.Keys && past.insertFailed <= past.born.Keys && past.inserted !! past.insertFailed
    && past.resolveFailed <= past.born.Keys && past.lost <= past.born.Keys && past.resolveFailed !! past.lost
    && (forall i :: i in w.db.incidents ==> i in past.inserted && w.db.incidents[i].ruleId == past.born[i])
    && (forall n :: 0 <= n < |past.batches| ==> past.batches[n].incidentId in past.born)
    && ResolvedOnce(past.batches)
    && DistinctIds(w.db.subscriptions)
  }

  /** Every task is of a rule that its goroutine owns. */
  ghost predicate OwnTask(owner: RuleId -> Worker, g: Worker, k: Task) {
    WellFormed(k) && (AboutRule(k).Some? ==> owner(AboutRule(k).value) == g)
  }

  ghost predicate Inv(sys: System) {
    && PastOk(sys.w, sys.past)
    && OwnTask(sys.owner, PushWorker, sys.push) && OwnTask(sys.owner, ScheduledWorker, sys.scheduled)
    && (forall r: RuleId :: RuleOk(sys.w, sys.past, r, Current(sys, r)))
  }

  // ----- a step for one rule leaves the others alone -----

  /** From one state to the other only the affairs of rule `r` have changed. */
  ghost predicate Elsewhere(w: World, past: Past, w2: World, past2: Past, r: RuleId) {
    && w2.db.live - {r} == w.db.live - {r}
    && (forall i :: i in past.born ==> i in past2.born && past2.born[i] == past.born[i])
    && (forall i :: i in past2.born && i !in past.born ==> past2.born[i] == r)
    && (forall i :: i in past2.born && past2.born[i] != r ==>
          && (i in past2.inserted <==> i in past.inserted)
          && (i in past2.insertFailed <==> i in past.insertFailed)
          && (i in past2.resolveFailed <==> i in past.resolveFailed)
          && (i in past2.lost <==> i in past.lost)
          && (i in w2.db.incidents <==> i in w.db.incidents)
          && (i in w2.db.incidents ==> w2.db.incidents[i] == w.db.incidents[i]))
    && past.batches <= past2.batches
    && (forall n :: |past.batches| <= n < |past2.batches| ==>
          past2.batches[n].incidentId in past2.born && past2.born[past2.batches[n].incidentId] == r)
  }

  lemma OtherLive(w: World, w2: World, r: RuleId, other: RuleId)
    requires w2.db.live - {r} == w.db.live - {r} && other != r
    ensures other in w2.db.live <==> other in w.db.live
    ensures other in w.db.live ==> w2.db.live[other] == w.db.live[other]
  {
    assert other in w2.db.live <==> other in w2.db.live - {r};
    assert other in w.db.live <==> other in w.db.live - {r};
  }

  lemma UnusedElsewhere(w: World, past: Past, w2: World, past2: Past, r: RuleId, other: RuleId, i: Id)
    requires Elsewhere(w, past, w2, past2, r) && other != r && Unused(past, other, i)
    ensures Unused(past2, other, i)
  {
    forall n | 0 <= n < |past2.batches| ensures past2.batches[n].incidentId != i {
      if n < |past.batches| {
        assert past.batches[n] == past2.batches[n];
      }
    }
  }

  lemma OtherTaskOk(w: World, past: Past, w2: World, past2: Past, r: RuleId, other: RuleId, k: Task)
    requires Elsewhere(w, past, w2, past2, r) && other != r && TaskOk(w, past, other, k)
    ensures TaskOk(w2, past2, other, k)
  {
    OtherLive(w, w2, r, other);
    if (k.Save? || k.Mark?) && k.t.Opened() {
      UnusedElsewhere(w, past, w2, past2, r, other, k.t.incidentId);
    }
    if ClosingTask(k) && !k.Save? {
      assert past2.born[k.t.incidentId] == other;
    }
  }

  lemma OtherResolvedIsOver(w: World, past: Past, w2: World, past2: Past, r: RuleId, other: RuleId, k: Task)
    requires Elsewhere(w, past, w2, past2, r) && other != r && ResolvedIsOver(w, past, other, k)
    requires forall n :: 0 <= n < |past.batches| ==> past.batches[n].incidentId in past.born
    ensures ResolvedIsOver(w2, past2, other, k)
  {
    OtherLive(w, w2, r, other);
    forall n | 0 <= n < |past2.batches| && past2.batches[n].kind.ResolvedKind?
               && past2.batches[n].incidentId in past2.born && past2.born[past2.batches[n].incidentId] == other
      ensures && past2.batches[n].incidentId != LiveId(w2.db, other)
              && !(ClosingTask(k) && k.t.incidentId == past2.batches[n].incidentId && StillToTell(k, past2.batches[n].subscriptionId))
    {
      assert n < |past.batches| && past.batches[n] == past2.batches[n];
    }
  }

  lemma OtherUnresolvedOk(w: World, past: Past, w2: World, past2: Past, r: RuleId, other: RuleId, k: Task)
    requires Elsewhere(w, past, w2, past2, r) && other != r && UnresolvedOk(w, past, other, k)
    requires past.inserted <= past.born.Keys
    ensures UnresolvedOk(w2, past2, other, k)
  {
    OtherLive(w, w2, r, other);
  }

  lemma OtherRuleOk(w: World, past: Past, w2: World, past2: Past, r: RuleId, other: RuleId, k: Task)
    requires PastOk(w, past) && Elsewhere(w, past, w2, past2, r) && other != r
    requires RuleOk(w, past, other, k)
    ensures RuleOk(w2, past2, other, k)
  {
    OtherTaskOk(w, past, w2, past2, r, other, k);
    OtherResolvedIsOver(w, past, w2, past2, r, other, k);
    OtherUnresolvedOk(w, past, w2, past2, r, other, k);
    OtherLive(w, w2, r, other);
  }

  // ----- one step, for the rule it works on -----

  /** A move to `w2`, `past2` and task `k2` keeps what is required of rule `r` and of the
      past, and leaves every other rule alone. */
  ghost predicate GoodMove(w: World, past: Past, r: RuleId, w2: World, past2: Past, k2: Task) {
    && PastOk(w2, past2)
    && Elsewhere(w, past, w2, past2, r)
    && RuleOk(w2, past2, r, k2)
  }

  ghost predicate Ready(w: World, past: Past, r: RuleId, k: Task) {
    PastOk(w, past) && RuleOk(w, past, r, k)
  }

  /** Moves that write neither live states nor incidents. */
  lemma QuietMove(w: World, past: Past, r: RuleId, k: Task, w2: World, k2: Task)
    requires Ready(w, past, r, k) && !k.Mark? && !k2.Mark?
    requires w2.db == w.db.(notes := w2.db.notes, subStates := w2.db.subStates) && w2.lastId >= w.lastId
    requires TaskOk(w, past, r, k2)
    requires ClosingTask(k2) ==>
               || k2.t.incidentId == LiveId(w.db, r)
               || (ClosingTask(k) && k2.t == k.t && forall s: SubId :: StillToTell(k2, s) ==> StillToTell(k, s))
    ensures GoodMove(w, past, r, w2, past, k2)
  {
    QuietUnresolved(w, past, r, k, w2, k2);
    QuietOver(w, past, r, k, w2, k2);
  }

  lemma QuietUnresolved(w: World, past: Past, r: RuleId, k: Task, w2: World, k2: Task)
    requires UnresolvedOk(w, past, r, k) && !k.Mark? && !k2.Mark?
    requires w2.db.live == w.db.live && w2.db.incidents == w.db.incidents
    ensures UnresolvedOk(w2, past, r, k2)
  {
    assert LiveId(w2.db, r) == LiveId(w.db, r);
    forall i | i in past.inserted && i in past.born && past.born[i] == r
      ensures Unresolved(w2.db, i) <==> Unsettled(w2, past, r, k2, i)
    {
      assert Unresolved(w.db, i) <==> Unsettled(w, past, r, k, i);
    }
  }

  lemma QuietOver(w: World, past: Past, r: RuleId, k: Task, w2: World, k2: Task)
    requires ResolvedIsOver(w, past, r, k) && w2.db.live == w.db.live
    requires ClosingTask(k2) ==>
               || k2.t.incidentId == LiveId(w.db, r)
               || (ClosingTask(k) && k2.t == k.t && forall s: SubId :: StillToTell(k2, s) ==> StillToTell(k, s))
    ensures ResolvedIsOver(w2, past, r, k2)
  {
    assert LiveId(w2.db, r) == LiveId(w.db, r);
  }

  /** An id is minted for a rule that is about to fire. */
  lemma MintMove(w: World, past: Past, r: RuleId, k: Task, w2: World, k2: Task)
    requires Ready(w, past, r, k) && k.Load?
    requires w2.db == w.db && w2.lastId == w.lastId + 1
    requires k2.Save? && k2.t.Opened() && k2.t.incidentId == k2.ls.incidentId == w2.lastId
    requires k2.ls.ruleId == r && k2.ls.state == Firing && LiveId(w.db, r) == NO_ID
    ensures GoodMove(w, past, r, w2, past.(born := past.born[w2.lastId := r]), k2)
  {
    var past2 := past.(born := past.born[w2.lastId := r]);
    assert w2.lastId !in past.born;
    assert Unused(past2, r, w2.lastId);
    assert UnresolvedOk(w2, past2, r, k2);
    assert ResolvedIsOver(w2, past2, r, k2);
  }

  /** The new live state is stored. */
  lemma SaveMove(w: World, past: Past, r: RuleId, k: Task, w2: World)
    requires Ready(w, past, r, k) && k.Save?
    requires w2.db == PutLive(w.db, k.ls) && w2.lastId == w.lastId
    ensures GoodMove(w, past, r, w2, past, Mark(k.j, k.ls, k.t))
  {
    var k2 := Mark(k.j, k.ls, k.t);
    assert LiveId(w2.db, r) == k.ls.incidentId;
    assert w2.db.live - {r} == w.db.live - {r};
    assert UnresolvedOk(w2, past, r, k2);
    assert ResolvedIsOver(w2, past, r, k2);
  }

  /** The incident row is inserted. */
  lemma InsertMove(w: World, past: Past, r: RuleId, k: Task, w2: World, row: IncidentRow)
    requires Ready(w, past, r, k) && k.Mark? && k.t.Opened()
    requires row.ruleId == r && row.resolvedMs == None
    requires w2.db == w.db.(incidents := w.db.incidents[k.t.incidentId := row]) && w2.lastId == w.lastId
    ensures GoodMove(w, past, r, w2, past.(inserted := past.inserted + {k.t.incidentId}), List(k.j, k.ls, k.t))
  {
    var past2, k2 := past.(inserted := past.inserted + {k.t.incidentId}), List(k.j, k.ls, k.t);
    assert UnresolvedOk(w2, past2, r, k2);
    assert ResolvedIsOver(w2, past2, r, k2);
  }

  /** Inserting the incident row failed. */
  lemma InsertFailedMove(w: World, past: Past, r: RuleId, k: Task, w2: World)
    requires Ready(w, past, r, k) && k.Mark? && k.t.Opened()
    requires w2.db == w.db && w2.lastId == w.lastId
    ensures GoodMove(w, past, r, w2, past.(insertFailed := past.insertFailed + {k.t.incidentId}), Idle)
  {
    var past2 := past.(insertFailed := past.insertFailed + {k.t.incidentId});
    assert UnresolvedOk(w2, past2, r, Idle);
    assert ResolvedIsOver(w2, past2, r, Idle);
  }

  /** The incident that left the live state is resolved. */
  lemma ResolveMove(w: World, past: Past, r: RuleId, k: Task, w2: World)
    requires Ready(w, past, r, k) && k.Mark? && k.t.Closed()
    requires w2.db == ResolveIncident(w.db, k.t.incidentId, Millis(k.j.now)) && w2.lastId == w.lastId
    ensures GoodMove(w, past, r, w2, past, List(k.j, k.ls, k.t))
  {
    var k2 := List(k.j, k.ls, k.t);
    assert UnresolvedOk(w2, past, r, k2);
    assert ResolvedIsOver(w2, past, r, k2);
  }

  /** Resolving it failed. */
  lemma ResolveFailedMove(w: World, past: Past, r: RuleId, k: Task, w2: World)
    requires Ready(w, past, r, k) && k.Mark? && k.t.Closed()
    requires w2.db == w.db && w2.lastId == w.lastId
    ensures GoodMove(w, past, r, w2, past.(resolveFailed := past.resolveFailed + {k.t.incidentId}), Idle)
  {
    var past2 := past.(resolveFailed := past.resolveFailed + {k.t.incidentId});
    assert UnresolvedOk(w2, past2, r, Idle);
    assert ResolvedIsOver(w2, past2, r, Idle);
  }

  /** Neither opened nor closed: nothing to mark. */
  lemma NothingToMarkMove(w: World, past: Past, r: RuleId, k: Task)
    requires Ready(w, past, r, k) && k.Mark? && !k.t.Opened() && !k.t.Closed()
    ensures GoodMove(w, past, r, w, past, List(k.j, k.ls, k.t))
  {
    var k2 := List(k.j, k.ls, k.t);
    assert UnresolvedOk(w, past, r, k2);
    assert ResolvedIsOver(w, past, r, k2);
  }

  /** The error path writes back the live state it read, or an OK one if it could not read. */
  lemma ErrorMove(w: World, past: Past, r: RuleId, k: Task, w2: World)
    requires Ready(w, past, r, k) && k.ErrSave? && k.ls.ruleId == r
    requires w2.db == PutLive(w.db, k.ls) && w2.lastId == w.lastId
    ensures var id := LiveId(w.db, r);
            GoodMove(w, past, r, w2, if k.blind && id != NO_ID then past.(lost := past.lost + {id}) else past, Idle)
  {
    var id := LiveId(w.db, r);
    var past2 := if k.blind && id != NO_ID then past.(lost := past.lost + {id}) else past;
    assert LiveId(w2.db, r) == k.ls.incidentId;
    assert w2.db.live - {r} == w.db.live - {r};
    assert UnresolvedOk(w2, past2, r, Idle);
    assert ResolvedIsOver(w2, past2, r, Idle);
  }

  /** A batch starts: it is about the incident of the tick, and if it is a resolution it is
      the first one for its subscription. */
  lemma BatchMove(w: World, past: Past, r: RuleId, k: Task, w2: World, k2: Task)
    requires Ready(w, past, r, k) && k.Find? && k.subs != []
    requires w2.db == w.db && w2.lastId == w.lastId
    requires k2.Send? && k2.j == k.j && k2.ls == k.ls && k2.t == k.t && k2.subs == k.subs && k2.p == k.p
    ensures GoodMove(w, past, r, w2, past.(batches := past.batches + [BatchId(k.p.incidentId, k.subs[0].id, k.p.kind)]), k2)
  {
    var batch := BatchId(k.p.incidentId, k.subs[0].id, k.p.kind);
    var past2 := past.(batches := past.batches + [batch]);
    assert batch.incidentId in past.born && past.born[batch.incidentId] == r;
    assert StillToTell(k, batch.subscriptionId) by {
      assert k.subs[0] in k.subs;
    }
    assert batch.kind.ResolvedKind? ==> forall n :: 0 <= n < |past.batches| ==> past.batches[n] != batch;
    assert PastOk(w2, past2);
    assert UnresolvedOk(w2, past2, r, k2);
    NextTold(k, k2);
    assert ResolvedIsOver(w2, past2, r, k2);
  }

  lemma NextTold(k: Task, k2: Task)
    requires k.Find? && k2.Send? && k.subs == k2.subs != [] && DistinctIds(k.subs)
    ensures forall s: SubId :: StillToTell(k2, s) ==> StillToTell(k, s) && s != k.subs[0].id
  {
    forall s: SubId | StillToTell(k2, s) ensures StillToTell(k, s) && s != k.subs[0].id {
      TailTold(k, s);
      var x :| x in k2.subs[1..] && x.id == s;
      assert x in NextSub(k).subs;
      assert StillToTell(NextSub(k), s);
    }
  }

  lemma TailTold(k: Task, s: SubId)
    requires Notifying(k) && k.subs != [] && DistinctIds(k.subs)
    ensures DistinctIds(k.subs[1..])
    ensures StillToTell(NextSub(k), s) ==> StillToTell(k, s)
    ensures StillToTell(NextSub(k), s) ==> s != k.subs[0].id
  {
    if x :| x in k.subs[1..] && x.id == s {
      assert x in k.subs;
      var m :| 0 <= m < |k.subs[1..]| && k.subs[1..][m] == x;
      assert k.subs[m + 1] == x;
    }
  }

  /** A notifying task goes on with the same delivery, or to the remaining subscriptions, or ends. */
  predicate GoesOn(k: Task, k2: Task)
    requires Notifying(k)
  {
    || (k2.Idle? && k.subs == [])
    || (k.subs != [] && k2 == NextSub(k))
    || (k.subs != [] && Delivering(k2) && k2.j == k.j && k2.ls == k.ls && k2.t == k.t && k2.subs == k.subs
        && (k.Scan? ==> k2.p.incidentId == Views.Focus(k.ls, k.t) && (k2.p.kind.ResolvedKind? <==> k.t.Closed() && k.t.incidentId != NO_ID))
        && (!k.Scan? ==> k2.p == k.p)
        && (k2.Gate? || k2.Find? ==> k.Scan? || k.Gate?))
  }

  lemma StepGoesOn(e: Env, w: World, k: Task)
    requires WellFormed(k) && Notifying(k)
    ensures GoesOn(k, Step(e, w, k).k)
  {
  }

  lemma GoesOnOk(w: World, past: Past, r: RuleId, k: Task, k2: Task)
    requires WellFormed(k) && Notifying(k) && TaskOk(w, past, r, k) && GoesOn(k, k2)
    requires k.Scan? && Delivering(k2) ==> Views.Focus(k.ls, k.t) != NO_ID
    ensures TaskOk(w, past, r, k2)
  {
    if k.subs != [] {
      TailTold(k, k.subs[0].id);
    }
  }

  lemma GoesOnTold(k: Task, k2: Task, s: SubId)
    requires Notifying(k) && DistinctIds(k.subs) && GoesOn(k, k2) && StillToTell(k2, s)
    ensures StillToTell(k, s)
  {
    TailTold(k, s);
  }

  /** A delivery is about some incident. */
  lemma DeliveryHasFocus(e: Env, w: World, past: Past, r: RuleId, k: Task)
    requires k.Scan? && TaskOk(w, past, r, k) && Delivering(Step(e, w, k).k)
    ensures Views.Focus(k.ls, k.t) != NO_ID
  {
  }

  /** A notifying task moves on to the same delivery or to the remaining subscriptions. */
  lemma NotifyingMoves(e: Env, w: World, past: Past, r: RuleId, k: Task)
    requires WellFormed(k) && Notifying(k) && TaskOk(w, past, r, k)
    ensures var k2 := Step(e, w, k).k;
            && TaskOk(w, past, r, k2)
            && (k2.Idle? || (Notifying(k2) && k2.j == k.j && k2.ls == k.ls && k2.t == k.t))
            && forall s: SubId :: StillToTell(k2, s) ==> StillToTell(k, s)
  {
    var k2 := Step(e, w, k).k;
    StepGoesOn(e, w, k);
    if k.Scan? && Delivering(k2) {
      DeliveryHasFocus(e, w, past, r, k);
    }
    GoesOnOk(w, past, r, k, k2);
    forall s: SubId | StillToTell(k2, s) ensures StillToTell(k, s) {
      GoesOnTold(k, k2, s);
    }
  }

  lemma NotifyingWrites(e: Env, w: World, k: Task)
    requires WellFormed(k) && Notifying(k)
    ensures var w2 := Step(e, w, k).w;
            && w2.db == w.db.(notes := w2.db.notes, subStates := w2.db.subStates)
            && w2.lastId >= w.lastId
  {
  }

  /** The step of a task that works on rule `r`. */
  lemma GoodStep(e: Env, w: World, past: Past, r: RuleId, k: Task)
    requires Ready(w, past, r, k) && WellFormed(k) && AboutRule(k) == Some(r)
    ensures var st := Step(e, w, k);
            && GoodMove(w, past, r, st.w, Remember(e, w, past, k, st.k), st.k)
            && (AboutRule(st.k) == None || AboutRule(st.k) == Some(r))
  {
    if Notifying(k) {
      NotifyingStep(e, w, past, r, k);
    } else if k.Load? {
      LoadStep(e, w, past, r, k);
    } else if k.Mark? {
      MarkStep(e, w, past, r, k);
    } else {
      OtherStep(e, w, past, r, k);
    }
  }

  lemma NotifyingStep(e: Env, w: World, past: Past, r: RuleId, k: Task)
    requires Ready(w, past, r, k) && WellFormed(k) && AboutRule(k) == Some(r) && Notifying(k)
    ensures var st := Step(e, w, k);
            && GoodMove(w, past, r, st.w, Remember(e, w, past, k, st.k), st.k)
            && (AboutRule(st.k) == None || AboutRule(st.k) == Some(r))
  {
    var st := Step(e, w, k);
    NotifyingMoves(e, w, past, r, k);
    NotifyingWrites(e, w, k);
    if k.Find? && st.k.Send? {
      BatchMove(w, past, r, k, st.w, st.k);
    } else {
      QuietMove(w, past, r, k, st.w, st.k);
    }
  }

  lemma LoadStep(e: Env, w: World, past: Past, r: RuleId, k: Task)
    requires Ready(w, past, r, k) && AboutRule(k) == Some(r) && k.Load?
    ensures var st := Step(e, w, k);
            && GoodMove(w, past, r, st.w, Remember(e, w, past, k, st.k), st.k)
            && (AboutRule(st.k) == None || AboutRule(st.k) == Some(r))
  {
    var st := Step(e, w, k);
    var l := StoredOrSeed(w.db, r);
    assert StateMatches(l) && l.incidentId == LiveId(w.db, r);
    if st.k.Save? && st.k.t.Opened() {
      MintMove(w, past, r, k, st.w, st.k);
    } else {
      QuietMove(w, past, r, k, st.w, st.k);
    }
  }

  lemma MarkStep(e: Env, w: World, past: Past, r: RuleId, k: Task)
    requires Ready(w, past, r, k) && AboutRule(k) == Some(r) && k.Mark?
    ensures var st := Step(e, w, k);
            && GoodMove(w, past, r, st.w, Remember(e, w, past, k, st.k), st.k)
            && (AboutRule(st.k) == None || AboutRule(st.k) == Some(r))
  {
    var st := Step(e, w, k);
    if k.t.Opened() {
      assert k.t.incidentId !in w.db.incidents;
      if st.k.List? {
        InsertMove(w, past, r, k, st.w, IncidentRow(r, Millis(k.t.triggeredAt), None, k.j.value));
      } else {
        InsertFailedMove(w, past, r, k, st.w);
      }
    } else if k.t.Closed() {
      if st.k.List? {
        ResolveMove(w, past, r, k, st.w);
      } else {
        ResolveFailedMove(w, past, r, k, st.w);
      }
    } else {
      NothingToMarkMove(w, past, r, k);
    }
  }

  lemma OtherStep(e: Env, w: World, past: Past, r: RuleId, k: Task)
    requires Ready(w, past, r, k) && AboutRule(k) == Some(r) && (k.Save? || k.List? || k.ErrLoad? || k.ErrSave?)
    ensures var st := Step(e, w, k);
            && GoodMove(w, past, r, st.w, Remember(e, w, past, k, st.k), st.k)
            && (AboutRule(st.k) == None || AboutRule(st.k) == Some(r))
  {
    var st := Step(e, w, k);
    if k.Save? && st.k.Mark? {
      SaveMove(w, past, r, k, st.w);
    } else if k.ErrSave? && !e.fails(w.calls) {
      ErrorMove(w, past, r, k, st.w);
    } else {
      if k.List? {
        ListForRuleExact(w.db.subscriptions, k.j.rule);
      }
      QuietMove(w, past, r, k, st.w, st.k);
    }
  }

  // ----- every action -----

  /** After a good move of the task on `r`, every other rule is as it was. */
  lemma WorkLeavesOther(sys: System, sys2: System, g: Worker, r: RuleId, other: RuleId)
    requires Inv(sys) && other != r && sys2.owner == sys.owner && sys2 == WithTask(sys2, g, TaskOf(sys2, g))
    requires TaskOf(sys2, if g == PushWorker then ScheduledWorker else PushWorker) == TaskOf(sys, if g == PushWorker then ScheduledWorker else PushWorker)
    requires AboutRule(TaskOf(sys, g)) == Some(r)
    requires AboutRule(TaskOf(sys2, g)) == None || AboutRule(TaskOf(sys2, g)) == Some(r)
    requires Elsewhere(sys.w, sys.past, sys2.w, sys2.past, r) && PastOk(sys.w, sys.past)
    ensures RuleOk(sys2.w, sys2.past, other, Current(sys2, other))
  {
    assert Current(sys2, other) == Current(sys, other);
    assert RuleOk(sys.w, sys.past, other, Current(sys, other));
    OtherRuleOk(sys.w, sys.past, sys2.w, sys2.past, r, other, Current(sys, other));
  }

  lemma WorkKeeps(c: Config, sys: System, g: Worker)
    requires Inv(sys)
    ensures Inv(Act(c, sys, Work(g)))
  {
    var k, sys2 := TaskOf(sys, g), Act(c, sys, Work(g));
    if k.Idle? {
      AsideKeeps(sys, sys2);
    } else {
      var r := AboutRule(k).value;
      assert Current(sys, r) == k && RuleOk(sys.w, sys.past, r, k);
      GoodStep(c.e, sys.w, sys.past, r, k);
      assert GoodMove(sys.w, sys.past, r, sys2.w, sys2.past, TaskOf(sys2, g));
      forall other: RuleId ensures RuleOk(sys2.w, sys2.past, other, Current(sys2, other)) {
        if other != r {
          WorkLeavesOther(sys, sys2, g, r, other);
        }
      }
    }
  }

  lemma BeginKeeps(sys: System, g: Worker, k: Task)
    requires Inv(sys) && TaskOf(sys, g).Idle?
    requires k.Load? || k.ErrLoad?
    requires sys.owner(AboutRule(k).value) == g
    ensures Inv(WithTask(sys, g, k))
  {
    var sys2 := WithTask(sys, g, k);
    forall r: RuleId ensures RuleOk(sys2.w, sys2.past, r, Current(sys2, r)) {
      assert RuleOk(sys.w, sys.past, r, Current(sys, r));
      if Current(sys2, r) != Current(sys, r) {
        assert Current(sys, r) == Idle && Current(sys2, r) == k;
        assert UnresolvedOk(sys.w, sys.past, r, k);
        assert ResolvedIsOver(sys.w, sys.past, r, k);
      }
    }
  }

  lemma ReassignKeeps(c: Config, sys: System, r: RuleId, g: Worker)
    requires Inv(sys)
    ensures Inv(Act(c, sys, Reassign(r, g)))
  {
    var sys2 := Act(c, sys, Reassign(r, g));
    forall q: RuleId ensures RuleOk(sys2.w, sys2.past, q, Current(sys2, q)) {
      assert Current(sys2, q) == Current(sys, q);
    }
  }

  lemma PrunedRuleOk(w: World, past: Past, r: RuleId, k: Task, before: int)
    requires RuleOk(w, past, r, k)
    ensures RuleOk(w.(db := Pruned(w.db, before)), past, r, k)
  {
    var w2 := w.(db := Pruned(w.db, before));
    forall i ensures Unresolved(w2.db, i) == Unresolved(w.db, i) {}
    assert LiveId(w2.db, r) == LiveId(w.db, r);
    assert UnresolvedOk(w2, past, r, k);
    assert ResolvedIsOver(w2, past, r, k);
    assert TaskOk(w2, past, r, k);
  }

  lemma DeleteKeeps(sys: System, sys2: System, before: int)
    requires Inv(sys)
    requires sys2.push == sys.push && sys2.scheduled == sys.scheduled && sys2.owner == sys.owner && sys2.past == sys.past
    requires sys2.w.db == Pruned(sys.w.db, before) && sys2.w.lastId == sys.w.lastId
    ensures Inv(sys2)
  {
    var w2 := sys.w.(db := Pruned(sys.w.db, before));
    forall r: RuleId ensures RuleOk(sys2.w, sys2.past, r, Current(sys2, r)) {
      assert Current(sys2, r) == Current(sys, r);
      PrunedRuleOk(sys.w, sys.past, r, Current(sys, r), before);
      SameTables(w2, sys2.w, sys.past, r, Current(sys, r));
    }
  }

  lemma SameTables(w: World, w2: World, past: Past, r: RuleId, k: Task)
    requires RuleOk(w, past, r, k)
    requires w2.db.live == w.db.live && w2.db.incidents == w.db.incidents
    ensures RuleOk(w2, past, r, k)
  {
    assert LiveId(w2.db, r) == LiveId(w.db, r);
    assert UnresolvedOk(w2, past, r, k);
    assert ResolvedIsOver(w2, past, r, k);
    assert TaskOk(w2, past, r, k);
  }

  /** Actions that leave tasks, live states, incidents and the past as they are. */
  lemma AsideKeeps(sys: System, sys2: System)
    requires Inv(sys)
    requires sys2.push == sys.push && sys2.scheduled == sys.scheduled && sys2.owner == sys.owner && sys2.past == sys.past
    requires sys2.w.db.live == sys.w.db.live && sys2.w.db.incidents == sys.w.db.incidents
    requires sys2.w.lastId == sys.w.lastId && DistinctIds(sys2.w.db.subscriptions)
    ensures Inv(sys2)
  {
    forall r: RuleId ensures RuleOk(sys2.w, sys2.past, r, Current(sys2, r)) {
      assert Current(sys2, r) == Current(sys, r);
      SameTables(sys.w, sys2.w, sys.past, r, Current(sys, r));
    }
  }

  lemma ActKeeps(c: Config, sys: System, a: Action)
    requires Inv(sys)
    ensures Inv(Act(c, sys, a))
  {
    var sys2 := Act(c, sys, a);
    if sys2 != sys {
      match a
      case Begin(g, j) => BeginKeeps(sys, g, Load(j));
      case BeginError(r, message, now) => BeginKeeps(sys, ScheduledWorker, ErrLoad(r, message, now));
      case Work(g) => WorkKeeps(c, sys, g);
      case Reassign(r, g) => ReassignKeeps(c, sys, r, g);
      case PruneDelete =>
        if c.e.fails(sys.w.calls) {
          AsideKeeps(sys, sys2);
        } else {
          DeleteKeeps(sys, sys2, sys.prune.cutoff);
        }
      case _ => AsideKeeps(sys, sys2);
    }
  }

  lemma NextKeeps(c: Config, sys: System, a: Action)
    requires Inv(sys)
    ensures Inv(Next(c, sys, a))
  {
    ActKeeps(c, sys, a);
    AsideKeeps(Act(c, sys, a), Watch(Act(c, sys, a)));
  }

  /** The invariant holds after every list of actions: every interleaving of the goroutines,
      every choice of rules and outcomes, every pattern of failing store calls. */
  lemma {:induction false} Always(c: Config, subscriptions: seq<Subscription>, subscribers: map<string, Subscriber>, actions: seq<Action>)
    requires DistinctIds(subscriptions)
    ensures Inv(Exec(c, Start(subscriptions, subscribers), actions))
  {
    if actions != [] {
      Always(c, subscriptions, subscribers, actions[..|actions| - 1]);
      NextKeeps(c, Exec(c, Start(subscriptions, subscribers), actions[..|actions| - 1]), actions[|actions| - 1]);
    }
  }
}
