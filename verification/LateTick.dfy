/** A run in which the retention loop deletes an incident that it never listed: a tick that
    read its clock before the cutoff closes it between the listing and the delete. */
module LateTick {
  import opened Base
  import opened RuleState
  import opened Conditions
  import opened Tables
  import opened Dispatch
  import opened Machine
  import opened Concurrent
  import Serial

  /** Nothing fails, and there is an archiver. */
  function Calm(): Config {
    Config(Env(n => false, n => true, {}), true)
  }

  function Check(id: RuleId, triggered: bool, second: int): Job {
    Job(Rule(id, id, true, map[], "orders", Threshold("total", GT, 1.0), 0), triggered, "", second * 1000 * MS)
  }

  /** A tick up to the point where it marks the incident, and from there on. */
  function TickStart(j: Job): seq<Action> {
    [Begin(PushWorker, j), Work(PushWorker), Work(PushWorker)]
  }

  const TICK_END := [Work(PushWorker), Work(PushWorker), Work(PushWorker)]

  ghost predicate Quiet(sys: System) {
    sys.push == Idle && sys.owner == AllPush() && sys.scheduled == Idle && sys.prune == Resting && sys.w.db.subscriptions == []
  }

  lemma ExecThree(sys: System, a1: Action, a2: Action, a3: Action)
    ensures Exec(Calm(), sys, [a1, a2, a3]) == Next(Calm(), Next(Calm(), Next(Calm(), sys, a1), a2), a3)
  {
    ExecMore(Calm(), sys, [], a1);
    ExecMore(Calm(), sys, [a1], a2);
    ExecMore(Calm(), sys, [a1, a2], a3);
    assert [] + [a1] == [a1] && [a1] + [a2] == [a1, a2] && [a1, a2] + [a3] == [a1, a2, a3];
  }

  lemma BeginStep(sys: System, j: Job)
    requires Quiet(sys)
    ensures Next(Calm(), sys, Begin(PushWorker, j)) == sys.(push := Load(j))
  {
  }

  /** A step of the push evaluator while no prune is under way. */
  lemma WorkStep(sys: System)
    requires sys.prune == Resting && WellFormed(sys.push)
    ensures var st := Step(Calm().e, sys.w, sys.push);
            Next(Calm(), sys, Work(PushWorker)) ==
              sys.(w := st.w, push := st.k, past := Remember(Calm().e, sys.w, sys.past, sys.push, st.k))
  {
  }

  lemma TickStarts(sys: System, j: Job)
    requires Quiet(sys)
    ensures var sys2 := Exec(Calm(), sys, TickStart(j));
            && sys2.push == Mark(j, Serial.LiveAfter(sys.w, j), Serial.Change(sys.w, j))
            && sys2.w == Call(Call(sys.w)).(db := PutLive(sys.w.db, Serial.LiveAfter(sys.w, j)),
                                            lastId := if Mints(Serial.LiveBefore(sys.w, j), j) then sys.w.lastId + 1 else sys.w.lastId)
            && sys2.scheduled == Idle && sys2.prune == Resting && sys2.owner == AllPush()
  {
    ExecThree(sys, Begin(PushWorker, j), Work(PushWorker), Work(PushWorker));
    BeginStep(sys, j);
    var s1 := sys.(push := Load(j));
    WorkStep(s1);
    WorkStep(Next(Calm(), s1, Work(PushWorker)));
  }

  lemma TickEnds(sys: System)
    requires sys.push.Mark? && sys.scheduled == Idle && sys.prune == Resting && sys.w.db.subscriptions == []
    requires sys.owner == AllPush()
    requires sys.push.t.Opened() ==> sys.push.t.incidentId !in sys.w.db.incidents
    ensures var sys2 := Exec(Calm(), sys, TICK_END);
            && Quiet(sys2) && sys2.w.lastId == sys.w.lastId
            && sys2.w.db == MarkIncident(Calm().e, sys.w, sys.push.j, sys.push.t).w.db
  {
    var k := sys.push;
    ExecThree(sys, Work(PushWorker), Work(PushWorker), Work(PushWorker));
    var s1 := Next(Calm(), sys, Work(PushWorker));
    WorkStep(sys);
    assert s1.push == List(k.j, k.ls, k.t) && s1.w == MarkIncident(Calm().e, sys.w, k.j, k.t).w;
    var s2 := Next(Calm(), s1, Work(PushWorker));
    WorkStep(s1);
    assert s2.push == Scan(k.j, k.ls, k.t, []) && s2.w == Call(s1.w);
    WorkStep(s2);
  }

  lemma WholeTick(sys: System, j: Job)
    requires Quiet(sys)
    requires Serial.Change(sys.w, j).Opened() ==> Serial.Change(sys.w, j).incidentId !in sys.w.db.incidents
    ensures var sys2 := Exec(Calm(), sys, TickStart(j) + TICK_END);
            && Quiet(sys2) && sys2.w.db == Serial.MarkedDb(sys.w, j)
            && sys2.w.lastId == if Mints(Serial.LiveBefore(sys.w, j), j) then sys.w.lastId + 1 else sys.w.lastId
  {
    TickStarts(sys, j);
    TickEnds(Exec(Calm(), sys, TickStart(j)));
    ExecAppend(Calm(), sys, TickStart(j), TICK_END);
  }

  lemma FiringTables(w: World, id: RuleId, second: nat)
    requires id in w.db.live ==> w.db.live[id].state == OK
    ensures var j, i := Check(id, true, second), w.lastId + 1;
            var db := Serial.MarkedDb(w, j);
            && Serial.Change(w, j).incidentId == i && Mints(Serial.LiveBefore(w, j), j)
            && id in db.live && db.live[id].state == Firing && db.live[id].incidentId == i
            && db.live.Keys == w.db.live.Keys + {id}
            && db.incidents == w.db.incidents[i := IncidentRow(id, second * 1000, None, "")]
  {
  }

  /** Rule `id` is OK and a check triggers. */
  lemma Fires(sys: System, id: RuleId, second: nat)
    requires Quiet(sys) && (id in sys.w.db.live ==> sys.w.db.live[id].state == OK)
    requires second > 0 && sys.w.lastId + 1 !in sys.w.db.incidents
    ensures var sys2, i := Exec(Calm(), sys, TickStart(Check(id, true, second)) + TICK_END), sys.w.lastId + 1;
            && Quiet(sys2) && sys2.w.lastId == i
            && id in sys2.w.db.live && sys2.w.db.live[id].state == Firing && sys2.w.db.live[id].incidentId == i
            && sys2.w.db.live.Keys == sys.w.db.live.Keys + {id}
            && sys2.w.db.incidents == sys.w.db.incidents[i := IncidentRow(id, second * 1000, None, "")]
  {
    FiringTables(sys.w, id, second);
    WholeTick(sys, Check(id, true, second));
  }

  /** Rule `id` is firing and a check does not trigger. */
  lemma Recovers(sys: System, id: RuleId, second: nat)
    requires Quiet(sys) && id in sys.w.db.live && sys.w.db.live[id].state == Firing
    requires sys.w.db.live[id].incidentId in sys.w.db.incidents
    ensures var sys2, i := Exec(Calm(), sys, TickStart(Check(id, false, second)) + TICK_END), sys.w.db.live[id].incidentId;
            && Quiet(sys2) && sys2.w.lastId == sys.w.lastId
            && sys2.w.db.live.Keys == sys.w.db.live.Keys
            && sys2.w.db.incidents == sys.w.db.incidents[i := sys.w.db.incidents[i].(resolvedMs := Some(second * 1000))]
  {
    WholeTick(sys, Check(id, false, second));
  }

  lemma StartsToRecover(sys: System, id: RuleId, second: nat)
    requires Quiet(sys) && id in sys.w.db.live && sys.w.db.live[id].state == Firing
    ensures var sys2 := Exec(Calm(), sys, TickStart(Check(id, false, second)));
            && sys2.push.Mark? && sys2.push.t.Closed() && sys2.push.t.incidentId == sys.w.db.live[id].incidentId
            && Millis(sys2.push.j.now) == second * 1000
            && sys2.scheduled == Idle && sys2.prune == Resting && sys2.w.db.incidents == sys.w.db.incidents
  {
    TickStarts(sys, Check(id, false, second));
  }

  /** Rule "a" fires and recovers. */
  lemma FirstIncident() returns (actions: seq<Action>)
    ensures var sys := Exec(Calm(), Start([], map[]), actions);
            && Quiet(sys) && sys.w.lastId == 1 && sys.w.db.live.Keys == {"a"}
            && sys.w.db.incidents == map[1 := IncidentRow("a", 1000, Some(2000), "")]
  {
    var start := Start([], map[]);
    var a1, a2 := TickStart(Check("a", true, 1)) + TICK_END, TickStart(Check("a", false, 2)) + TICK_END;
    Fires(start, "a", 1);
    Recovers(Exec(Calm(), start, a1), "a", 2);
    ExecAppend(Calm(), start, a1, a2);
    actions := a1 + a2;
  }

  /** Then rule "b" fires and a tick is about to resolve its incident. */
  lemma TwoIncidents() returns (actions: seq<Action>)
    ensures var sys := Exec(Calm(), Start([], map[]), actions);
            && sys.push.Mark? && sys.push.t.Closed() && sys.push.t.incidentId == 2 && Millis(sys.push.j.now) == 4000
            && sys.scheduled == Idle && sys.prune == Resting
            && sys.w.db.incidents == map[1 := IncidentRow("a", 1000, Some(2000), ""), 2 := IncidentRow("b", 3000, None, "")]
  {
    var start := Start([], map[]);
    var before := FirstIncident();
    var b1, b2 := TickStart(Check("b", true, 3)) + TICK_END, TickStart(Check("b", false, 4));
    Fires(Exec(Calm(), start, before), "b", 3);
    ExecAppend(Calm(), start, before, b1);
    StartsToRecover(Exec(Calm(), start, before + b1), "b", 4);
    ExecAppend(Calm(), start, before + b1, b2);
    actions := before + b1 + b2;
  }

  /** A prune lists and archives what is resolved before the cutoff, here incident 1. */
  lemma ListAndArchive(sys: System)
    requires sys.prune == Resting && ResolvedBefore(sys.w.db, 5000) == {1}
    ensures var sys2 := Exec(Calm(), sys, [PruneBegin(5000), PruneList, PruneOffer(1)]);
            && sys2.push == sys.push && sys2.w.db == sys.w.db
            && sys2.prune.Archiving? && sys2.prune.cutoff == 5000 && sys2.prune.todo == map[]
            && sys2.prune.offered.Keys == {1} && sys2.prune.complete && sys2.prune.escaped == {}
  {
    ExecThree(sys, PruneBegin(5000), PruneList, PruneOffer(1));
    var s1 := sys.(prune := Listing(5000));
    assert Next(Calm(), sys, PruneBegin(5000)) == s1;
    ListStep(s1);
    OfferStep(Next(Calm(), s1, PruneList));
  }

  lemma ListStep(sys: System)
    requires sys.prune == Listing(5000) && ResolvedBefore(sys.w.db, 5000) == {1}
    ensures var sys2 := Next(Calm(), sys, PruneList);
            && sys2.push == sys.push && sys2.w == Call(sys.w) && sys2.prune.Archiving?
            && sys2.prune.(timely := true) == Archiving(5000, Candidates(sys.w.db, 5000), map[], true, true, {}, [])
            && sys2.prune.todo.Keys == {1}
  {
    assert Candidates(sys.w.db, 5000).Keys == ResolvedBefore(sys.w.db, 5000);
  }

  lemma OfferStep(sys: System)
    requires sys.prune.Archiving? && sys.prune.todo.Keys == {1} && sys.prune.offered == map[]
    ensures var p, sys2 := sys.prune, Next(Calm(), sys, PruneOffer(1));
            && sys2.push == sys.push && sys2.w.db == sys.w.db && sys2.prune.Archiving?
            && sys2.prune == p.(todo := map[], offered := sys2.prune.offered, timely := sys2.prune.timely)
            && sys2.prune.offered.Keys == {1}
  {
    assert sys.prune.todo - {1} == map[];
  }

  /** The tick then resolves incident 2 as of a time before the cutoff. */
  lemma ThenClose(sys: System)
    requires sys.push.Mark? && sys.push.t.Closed() && sys.push.t.incidentId in sys.w.db.incidents
    requires sys.prune.Archiving? && Millis(sys.push.j.now) < sys.prune.cutoff
    ensures var sys2, i := Exec(Calm(), sys, [Work(PushWorker)]), sys.push.t.incidentId;
            && sys2.prune.Archiving? && sys2.prune.escaped == sys.prune.escaped + {i}
            && sys2.prune == sys.prune.(escaped := sys2.prune.escaped, timely := sys2.prune.timely)
            && sys2.w.db.incidents == sys.w.db.incidents[i := sys.w.db.incidents[i].(resolvedMs := Some(Millis(sys.push.j.now)))]
  {
    ExecMore(Calm(), sys, [], Work(PushWorker));
    assert [] + [Work(PushWorker)] == [Work(PushWorker)];
    MissingStep(sys);
  }

  lemma MissingStep(sys: System)
    requires sys.push.Mark? && sys.push.t.Closed() && sys.push.t.incidentId in sys.w.db.incidents
    requires sys.prune.Archiving? && Millis(sys.push.j.now) < sys.prune.cutoff
    ensures var sys2, i, k := Next(Calm(), sys, Work(PushWorker)), sys.push.t.incidentId, sys.push;
            && sys2.w == MarkIncident(Calm().e, sys.w, k.j, k.t).w
            && sys2.prune.Archiving? && sys2.prune.escaped == sys.prune.escaped + {i}
            && sys2.prune == sys.prune.(escaped := sys2.prune.escaped, timely := sys2.prune.timely)
  {
    var k := sys.push;
    var st := Step(Calm().e, sys.w, k);
    assert st.k == List(k.j, k.ls, k.t) && st.w == MarkIncident(Calm().e, sys.w, k.j, k.t).w;
    assert LateRow(sys.w, st.w, sys.prune.offered) == [] && sys.prune.strays + [] == sys.prune.strays;
    assert Missed(sys.prune, sys.w, k, st) == sys.prune.(escaped := sys.prune.escaped + {k.t.incidentId});
  }

  /** The prune has listed and archived incident 1 only, but the delete it is about to make
      removes incident 2 as well. */
  lemma LateTickEscapes() returns (actions: seq<Action>)
    ensures var sys := Exec(Calm(), Start([], map[]), actions);
            var p, db := sys.prune, sys.w.db;
            && p.Archiving? && p.todo == map[] && p.complete
            && p.offered.Keys == {1} && p.escaped == {2}
            && db.incidents.Keys == {1, 2} && Pruned(db, p.cutoff).incidents == map[]
  {
    var start := Start([], map[]);
    var before := TwoIncidents();
    var sys, prune := Exec(Calm(), start, before), [PruneBegin(5000), PruneList, PruneOffer(1)];
    assert ResolvedBefore(sys.w.db, 5000) == {1};
    ListAndArchive(sys);
    ExecAppend(Calm(), start, before, prune);
    ThenClose(Exec(Calm(), start, before + prune));
    ExecAppend(Calm(), start, before + prune, [Work(PushWorker)]);
    actions := before + prune + [Work(PushWorker)];
  }
}
