/** The whole engine at work: the push evaluator, the scheduled evaluator and the retention
    loop as goroutines over one store, each making one store call at a time, in any order,
    with any call failing. `Past` remembers what happened, for the statements about runs. */
module Concurrent {
  import opened Base
  import opened RuleState
  import opened Tables
  import opened Dispatch
  import opened Machine

  datatype Worker = PushWorker | ScheduledWorker

  /** One batch that a delivery started to send. */
  datatype BatchId = BatchId(incidentId: Id, subscriptionId: SubId, kind: Kind)

  /** What happened so far: the rule every incident id was minted for; the ids whose insert
      succeeded or failed, whose resolution failed, whose live state was overwritten after a
      failed read; and every batch sent. */
  datatype Past = Past(
    born: map<Id, RuleId>,
    inserted: set<Id>,
    insertFailed: set<Id>,
    resolveFailed: set<Id>,
    lost: set<Id>,
    batches: seq<BatchId>)

  /** An incident and its audit rows, as handed to the archiver. */
  datatype Offer = Offer(row: IncidentRow, notes: seq<NoteRow>)

  /** Where the retention loop stands. While archiving: the candidates not yet offered, what
      was offered, whether every fetch of audit rows succeeded, whether no tick under way at
      any time since the listing had read its clock before the cutoff, the incidents that
      such late ticks closed since the listing, and the audit rows recorded for an incident
      after it was offered. */
  datatype PruneTask =
    | Resting
    | Listing(cutoff: int)
    | Archiving(cutoff: int, todo: map<Id, IncidentRow>, offered: map<Id, Offer>, complete: bool, timely: bool,
                escaped: set<Id>, strays: seq<NoteRow>)

  /** The store, where each goroutine stands, which evaluator each rule belongs to by its mode,
      and the past. */
  datatype System = System(w: World, push: Task, scheduled: Task, prune: PruneTask, owner: RuleId -> Worker, past: Past)

  /** The environment, and whether there is an archiver. */
  datatype Config = Config(e: Env, archiver: bool)

  datatype Action =
    | Begin(g: Worker, j: Job)
    | BeginError(ruleId: RuleId, message: string, now: Time)
    | Work(g: Worker)
    | PruneBegin(cutoff: int)
    | PruneList
    | PruneOffer(i: Id)
    | PruneDelete
    | Reassign(r: RuleId, g: Worker)
    | Configure(subscriptions: seq<Subscription>, subscribers: map<string, Subscriber>)

  function TaskOf(sys: System, g: Worker): Task {
    if g == PushWorker then sys.push else sys.scheduled
  }

  function WithTask(sys: System, g: Worker, k: Task): System {
    if g == PushWorker then sys.(push := k) else sys.(scheduled := k)
  }

  /** The incident id in the stored live state of a rule. */
  function LiveId(db: Db, r: RuleId): Id {
    if r in db.live then db.live[r].incidentId else NO_ID
  }

  predicate HasJob(k: Task) {
    !k.Idle? && !k.ErrLoad? && !k.ErrSave?
  }

  predicate NotBefore(k: Task, cutoff: int) {
    HasJob(k) ==> Millis(k.j.now) >= cutoff
  }

  /** No tick under way read its clock before the cutoff of the prune. */
  predicate AllTimely(sys: System, cutoff: int) {
    NotBefore(sys.push, cutoff) && NotBefore(sys.scheduled, cutoff)
  }

  function Watch(sys: System): System {
    if sys.prune.Archiving? && !AllTimely(sys, sys.prune.cutoff) then sys.(prune := sys.prune.(timely := false)) else sys
  }

  /** The incidents a prune lists, as they are stored when it lists them. */
  function Candidates(db: Db, cutoff: int): map<Id, IncidentRow> {
    map i | i in db.incidents && IsResolvedBefore(db.incidents[i], cutoff) :: db.incidents[i]
  }

  /** What one step adds to the past. */
  function Remember(e: Env, w: World, past: Past, k: Task, next: Task): Past {
    match k
    case Load(j) =>
      if next.Save? && next.t.Opened() then past.(born := past.born[next.t.incidentId := j.rule.id]) else past
    case Mark(j, ls, t) =>
      if t.Opened() then
        if next.List? then past.(inserted := past.inserted + {t.incidentId}) else past.(insertFailed := past.insertFailed + {t.incidentId})
      else if t.Closed() && next.Idle? then past.(resolveFailed := past.resolveFailed + {t.incidentId})
      else past
    case Find(j, ls, t, subs, p) =>
      if next.Send? && subs != [] then past.(batches := past.batches + [BatchId(p.incidentId, subs[0].id, p.kind)]) else past
    case ErrSave(ls, blind) =>
      if blind && !e.fails(w.calls) && LiveId(w.db, ls.ruleId) != NO_ID
      then past.(lost := past.lost + {LiveId(w.db, ls.ruleId)}) else past
    case _ => past
  }

  /** The incident that a step resolves as of a time before the cutoff, if it does. */
  function LateClose(w: World, k: Task, next: Task, cutoff: int): set<Id> {
    if k.Mark? && k.t.Closed() && next.List? && k.t.incidentId in w.db.incidents && Millis(k.j.now) < cutoff
    then {k.t.incidentId} else {}
  }

  /** The audit row that a step records for an incident that was offered, if it does. */
  function LateRow(w: World, w2: World, offered: map<Id, Offer>): seq<NoteRow> {
    if |w2.db.notes| > |w.db.notes| && w2.db.notes[|w.db.notes|].incidentId in offered
    then [w2.db.notes[|w.db.notes|]] else []
  }

  function Missed(p: PruneTask, w: World, k: Task, st: Stepped): PruneTask {
    if p.Archiving? then
      p.(escaped := p.escaped + LateClose(w, k, st.k, p.cutoff), strays := p.strays + LateRow(w, st.w, p.offered))
    else p
  }

  /** One action; an action that is not possible in this state changes nothing. A rule moves
      from one evaluator to the other, as an update of its mode makes it do, at any time when
      neither is working on it. */
  function Act(c: Config, sys: System, a: Action): System {
    match a
    case Begin(g, j) =>
      if TaskOf(sys, g).Idle? && sys.owner(j.rule.id) == g then WithTask(sys, g, Load(j)) else sys
    case BeginError(ruleId, message, now) =>
      if sys.scheduled.Idle? && sys.owner(ruleId) == ScheduledWorker then sys.(scheduled := ErrLoad(ruleId, message, now)) else sys
    case Work(g) =>
      var k := TaskOf(sys, g);
      if !WellFormed(k) then sys
      else
        var st := Step(c.e, sys.w, k);
        WithTask(sys.(w := st.w, past := Remember(c.e, sys.w, sys.past, k, st.k), prune := Missed(sys.prune, sys.w, k, st)), g, st.k)
    case PruneBegin(cutoff) =>
      if sys.prune.Resting? then sys.(prune := Listing(cutoff)) else sys
    case PruneList =>
      if !sys.prune.Listing? then sys
      else if c.e.fails(sys.w.calls) || ResolvedBefore(sys.w.db, sys.prune.cutoff) == {} then
        sys.(w := Call(sys.w), prune := Resting)
      else
        sys.(w := Call(sys.w), prune := Archiving(sys.prune.cutoff, Candidates(sys.w.db, sys.prune.cutoff), map[], true, true, {}, []))
    case PruneOffer(i) =>
      if !(sys.prune.Archiving? && c.archiver && i in sys.prune.todo) then sys
      else
        var failed := c.e.fails(sys.w.calls);
        var offer := Offer(sys.prune.todo[i], if failed then [] else NotesFor(sys.w.db.notes, i));
        sys.(w := Call(sys.w),
             prune := sys.prune.(todo := sys.prune.todo - {i}, offered := sys.prune.offered[i := offer],
                                 complete := sys.prune.complete && !failed))
    case PruneDelete =>
      if !(sys.prune.Archiving? && (c.archiver ==> sys.prune.todo == map[])) then sys
      else
        sys.(w := if c.e.fails(sys.w.calls) then Call(sys.w) else Call(sys.w).(db := Pruned(sys.w.db, sys.prune.cutoff)),
             prune := Resting)
    case Reassign(r, g) =>
      if AboutRule(sys.push) == Some(r) || AboutRule(sys.scheduled) == Some(r) then sys
      else sys.(owner := q => if q == r then g else sys.owner(q))
    case Configure(subscriptions, subscribers) =>
      if DistinctIds(subscriptions) then sys.(w := sys.w.(db := sys.w.db.(subscriptions := subscriptions, subscribers := subscribers))) else sys
  }

  function Next(c: Config, sys: System, a: Action): System {
    Watch(Act(c, sys, a))
  }

  function AllPush(): RuleId -> Worker {
    r => PushWorker
  }

  /** An empty store and nothing under way. All rules belong to the push evaluator until they
      are reassigned. */
  function Start(subscriptions: seq<Subscription>, subscribers: map<string, Subscriber>): System {
    System(World(Db(map[], map[], map[], [], subscriptions, subscribers), 0, 0, []), Idle, Idle, Resting, AllPush(),
           Past(map[], {}, {}, {}, {}, []))
  }

  /** The state after a list of actions. */
  function Exec(c: Config, sys: System, actions: seq<Action>): System {
    if actions == [] then sys
    else Next(c, Exec(c, sys, actions[..|actions| - 1]), actions[|actions| - 1])
  }

  lemma ExecMore(c: Config, sys: System, before: seq<Action>, a: Action)
    ensures Exec(c, sys, before + [a]) == Next(c, Exec(c, sys, before), a)
  {
    assert (before + [a])[..|before|] == before;
  }

  lemma {:induction false} ExecAppend(c: Config, sys: System, before: seq<Action>, after: seq<Action>)
    ensures Exec(c, sys, before + after) == Exec(c, Exec(c, sys, before), after)
  {
    if after == [] {
      assert before + after == before;
    } else {
      var front, last := after[..|after| - 1], after[|after| - 1];
      ExecAppend(c, sys, before, front);
      ExecMore(c, sys, before + front, last);
      assert before + after == before + front + [last];
    }
  }
}
