/** Runs of a one-shot subscription that depart from what is documented. */
module OneShotRuns {
  import opened Base
  import opened RuleState
  import opened Tables
  import opened Dispatch
  import opened Serial
  import opened OneShot
  import opened OneShotPromise
  import Channels
  import Reasons
  import Views

  /** Rule "orders" and a one-shot subscription that names it and wants to know of resolutions. */
  function Once(): Subscription {
    Subscription("once", "ann", Some("orders"), map[], 0, 0, true, true, [])
  }

  /** An empty store in which the subscriber has the given bindings. */
  function Fresh(bindings: seq<Binding>): World {
    World(Db(map[], map[], map[], [], [Once()], map["ann" := Subscriber("ann", bindings)]), 0, 0, [])
  }

  const MAIL := Binding("mail", "ann@example.org")
  const CHAT := Binding("chat", "ann")

  /** Two channels and no failing store call; only the very first send fails. */
  function FirstSendFails(): Env {
    Env(n => false, n => n != 0, {"mail", "chat"})
  }

  lemma OneBinding(e: Env)
    requires e.channels == {"mail", "chat"}
    ensures BindingsOf(e, Fresh([MAIL]).db.subscribers, Once()) == [MAIL]
    ensures BindingsOf(e, Fresh([MAIL, CHAT]).db.subscribers, Once()) == [MAIL, CHAT]
  {
    assert [MAIL, CHAT][1..] == [CHAT] && [CHAT][1..] == [] && [MAIL][1..] == [];
    assert Views.EligibleOf(e, Once(), [CHAT]) == [CHAT];
  }

  /** One tick sends two messages. */
  lemma TwoMessages()
    ensures var e, w0 := FirstSendFails(), Fresh([MAIL, CHAT]);
            |MessagesTo(Tick(e, w0, Check(HeardRule(Once()), true, MS)).w.outbox, "once")| == 2
  {
    OneBinding(FirstSendFails());
    InitialIsConsistent(Fresh([MAIL, CHAT]));
    BatchAtOnce(FirstSendFails(), Fresh([MAIL, CHAT]), Once());
  }

  // ----- firing, recovering, firing again -----

  function At(triggered: bool, second: nat): Job {
    Check(HeardRule(Once()), triggered, second * 1000 * MS)
  }

  /** What the story needs to know of the store after each event: the rule's state and incident. */
  ghost predicate Ready(w: World, state: State, i: Id) {
    && Consistent(w) && w.db.subscriptions == [Once()] && w.db.subscribers == Fresh([MAIL]).db.subscribers
    && LiveBefore(w, At(true, 1)).state == state
    && (state == Firing ==> LiveBefore(w, At(true, 1)).incidentId == i && i in w.db.incidents)
  }

  /** A run, told by its latest world, that begins with the empty store. */
  ghost predicate Told(e: Env, ws: seq<World>, evs: seq<Event>) {
    Run(e, ws, evs) && AfterEpoch(evs) && ws[0] == Fresh([MAIL])
  }

  ghost predicate Onward(e: Env, ws: seq<World>, evs: seq<Event>, ws2: seq<World>, evs2: seq<Event>) {
    Told(e, ws2, evs2) && |evs2| == |evs| + 1 && ws <= ws2 && evs <= evs2
  }

  lemma GoOn(e: Env, ws: seq<World>, evs: seq<Event>, ev: Event, w: World) returns (ws2: seq<World>, evs2: seq<Event>)
    requires Told(e, ws, evs) && Step(e, ws[|evs|], ev, w) && ev.Clock() >= MS
    ensures Onward(e, ws, evs, ws2, evs2) && ws2[|evs2|] == w && evs2[|evs|] == ev
  {
    RunGoesOn(e, ws, evs, ev, w);
    ws2, evs2 := ws + [w], evs + [ev];
  }

  lemma OpeningReady(e: Env, w: World, second: nat)
    requires NoFailures(e) && second > 0 && Ready(w, OK, NO_ID)
    ensures var w2 := Tick(e, w, At(true, second)).w;
            Ready(w2, Firing, w.lastId + 1) && w2.db.incidents.Keys == w.db.incidents.Keys + {w.lastId + 1}
  {
    ChangeMeaning(w, At(true, second));
    TickLeaves(e, w, At(true, second));
  }

  lemma ClosingReady(e: Env, w: World, second: nat, i: Id)
    requires NoFailures(e) && second > 0 && Ready(w, Firing, i)
    ensures var w2 := Tick(e, w, At(false, second)).w;
            && Ready(w2, OK, NO_ID) && w2.db.incidents.Keys == w.db.incidents.Keys
            && w2.db.incidents[i].resolvedMs == Some(second * 1000)
  {
    ChangeMeaning(w, At(false, second));
    TickLeaves(e, w, At(false, second));
  }

  lemma OnceListed(w: World, state: State, i: Id)
    requires Ready(w, state, i)
    ensures Once() in w.db.subscriptions && Once() in ListForRule(w.db.subscriptions, HeardRule(Once()))
  {
    HeardRuleListed(w.db.subscriptions, Once());
  }

  /** An opening tick without a row kept sends the one message of the batch. */
  lemma Notified(e: Env, w: World, second: nat)
    requires NoFailures(e) && e.channels == {"mail", "chat"} && Ready(w, OK, NO_ID) && RowsTo(w.db.notes, "once") == []
    ensures var before, after := LogOf(e, w, "once"), LogOf(e, Tick(e, w, At(true, second)).w, "once");
            && |after.messages| == |before.messages| + 1 && |after.rows| == 1 && after.rows[0].incidentId == w.lastId + 1
  {
    var j := At(true, second);
    OneBinding(e);
    OnceListed(w, OK, NO_ID);
    OpeningFires(e, w, j, Once());
    var batch := BatchTo("orders", "once", w.lastId + 1, FiringKind, "", j.now, [MAIL]);
    assert RecordsOne(LogOf(e, Tick(e, w, j).w, "once").rows[0], batch);
  }

  /** With a row kept, a tick sends nothing. */
  lemma Silenced(e: Env, w: World, j: Job, state: State, i: Id)
    requires Ready(w, state, i) && RowsTo(w.db.notes, "once") != []
    ensures LogOf(e, Tick(e, w, j).w, "once") == LogOf(e, w, "once")
  {
    OnceListed(w, state, i);
    TickAdds(e, w, j, Once());
  }

  lemma Opens(e: Env, ws: seq<World>, evs: seq<Event>, second: nat) returns (ws2: seq<World>, evs2: seq<Event>)
    requires NoFailures(e) && Told(e, ws, evs) && second > 0 && Ready(ws[|evs|], OK, NO_ID)
    ensures Onward(e, ws, evs, ws2, evs2) && evs2[|evs|] == TickEvent(At(true, second))
    ensures ws2[|evs2|] == Tick(e, ws[|evs|], At(true, second)).w
    ensures Ready(ws2[|evs2|], Firing, ws[|evs|].lastId + 1)
    ensures ws2[|evs2|].db.incidents.Keys == ws[|evs|].db.incidents.Keys + {ws[|evs|].lastId + 1}
  {
    OpeningReady(e, ws[|evs|], second);
    ws2, evs2 := GoOn(e, ws, evs, TickEvent(At(true, second)), Tick(e, ws[|evs|], At(true, second)).w);
  }

  /** The story begins: the rule fires and the batch is sent. */
  lemma FirstFires(e: Env) returns (ws: seq<World>, evs: seq<Event>)
    requires NoFailures(e) && e.channels == {"mail", "chat"}
    ensures Told(e, ws, evs) && |evs| == 1 && !evs[0].PruneEvent? && Ready(ws[1], Firing, 1) && ws[1].db.incidents.Keys == {1}
    ensures ws[1] == Tick(e, ws[0], At(true, 1)).w
    ensures var log := LogOf(e, ws[1], "once"); |log.messages| == 1 && |log.rows| == 1 && log.rows[0].incidentId == 1
  {
    var w0 := Fresh([MAIL]);
    InitialIsConsistent(w0);
    Notified(e, w0, 1);
    ws, evs := Opens(e, [w0], [], 1);
  }

  /** It goes on: the rule recovers, which the subscription is not told. */
  lemma ThenRecovers(e: Env) returns (ws: seq<World>, evs: seq<Event>)
    requires NoFailures(e) && e.channels == {"mail", "chat"}
    ensures Told(e, ws, evs) && |evs| == 2 && NoPrunes(evs) && Ready(ws[2], OK, NO_ID)
    ensures ws[1] == Tick(e, ws[0], At(true, 1)).w && LogOf(e, ws[2], "once") == LogOf(e, ws[1], "once")
    ensures ws[2].db.incidents.Keys == {1} && ws[2].db.incidents[1].resolvedMs == Some(2000)
    ensures var log := LogOf(e, ws[2], "once"); |log.messages| == 1 && |log.rows| == 1 && log.rows[0].incidentId == 1
  {
    var ws1, evs1 := FirstFires(e);
    ClosingReady(e, ws1[1], 2, 1);
    Silenced(e, ws1[1], At(false, 2), Firing, 1);
    ws, evs := GoOn(e, ws1, evs1, TickEvent(At(false, 2)), Tick(e, ws1[1], At(false, 2)).w);
    assert ws[1] == ws1[1] && ws[0] == ws1[0] && evs[0] == evs1[0];
  }

  /** With a first send that fails, nothing has been accepted by then. */
  lemma NothingAcceptedYet() returns (ws: seq<World>, evs: seq<Event>)
    ensures Told(FirstSendFails(), ws, evs) && |evs| == 2 && NoPrunes(evs) && Ready(ws[2], OK, NO_ID)
    ensures ws[2].db.incidents.Keys == {1}
    ensures var log := LogOf(FirstSendFails(), ws[2], "once"); |log.messages| == 1 && log.accepted == 0 && log.rows != []
  {
    ws, evs := ThenRecovers(FirstSendFails());
    FirstIsTheFailedOne(ws[1]);
  }

  lemma OpensInSilence(e: Env, ws2: seq<World>, evs2: seq<Event>) returns (ws: seq<World>, evs: seq<Event>)
    requires NoFailures(e) && Told(e, ws2, evs2) && |evs2| == 2 && NoPrunes(evs2) && Ready(ws2[2], OK, NO_ID)
    requires RowsTo(ws2[2].db.notes, "once") != []
    ensures Told(e, ws, evs) && |evs| == 3 && NoPrunes(evs) && ws[2] == ws2[2]
    ensures LogOf(e, ws[3], "once") == LogOf(e, ws2[2], "once")
    ensures ws[3].db.incidents.Keys == ws2[2].db.incidents.Keys + {ws2[2].lastId + 1}
  {
    SilentOpening(e, ws2[2]);
    ws, evs := GoOn(e, ws2, evs2, TickEvent(At(true, 300)), Tick(e, ws2[2], At(true, 300)).w);
    assert ws[2] == ws2[2];
    forall k | 0 <= k < |evs| ensures !evs[k].PruneEvent? {
      assert k < 2 ==> evs[k] == evs2[k];
    }
  }

  lemma SilentOpening(e: Env, w: World)
    requires NoFailures(e) && Ready(w, OK, NO_ID) && RowsTo(w.db.notes, "once") != []
    ensures var w2 := Tick(e, w, At(true, 300)).w;
            LogOf(e, w2, "once") == LogOf(e, w, "once") && w2.db.incidents.Keys == w.db.incidents.Keys + {w.lastId + 1}
  {
    Silenced(e, w, At(true, 300), OK, NO_ID);
    OpeningReady(e, w, 300);
  }

  /** A batch whose only send fails closes the gate for good: a later tick opens another
      incident while every channel accepts, and nothing is sent. */
  lemma FailedBatchClosesGate() returns (ws: seq<World>, evs: seq<Event>)
    ensures Told(FirstSendFails(), ws, evs) && NoPrunes(evs) && |evs| == 3
    ensures |ws[2].db.incidents| == 1 && |ws[3].db.incidents| == 2
    ensures var log := LogOf(FirstSendFails(), ws[3], "once"); |log.messages| == 1 && log.accepted == 0 && log.rows != []
  {
    var ws2, evs2 := NothingAcceptedYet();
    ws, evs := OpensInSilence(FirstSendFails(), ws2, evs2);
    CountKeys(ws[2].db.incidents, {1});
    CountKeys(ws[3].db.incidents, {1, ws[2].lastId + 1});
    assert 1 in ws[2].db.incidents && 1 <= ws[2].lastId;
  }

  lemma CountKeys(m: map<Id, IncidentRow>, keys: set<Id>)
    requires m.Keys == keys
    ensures |m| == |keys|
  {
  }

  lemma {:induction false} AllMessagesTo(outbox: seq<Sent>, s: SubId)
    requires forall m :: m in outbox ==> m.subscriptionId == s
    ensures MessagesTo(outbox, s) == outbox
  {
    if outbox != [] {
      assert outbox[|outbox| - 1] in outbox;
      AllMessagesTo(outbox[..|outbox| - 1], s);
    }
  }

  /** All that the first tick sends is for this subscription. */
  lemma AllForOnce(e: Env, w1: World, m: Sent)
    requires w1 == Tick(e, Fresh([MAIL]), At(true, 1)).w && m in w1.outbox
    ensures m.subscriptionId == "once"
  {
    var s := m.subscriptionId;
    MessagesMembers(w1.outbox, s);
    if s != "once" {
      Channels.NobodyElse(e, Fresh([MAIL]), At(true, 1), s);
    }
  }

  lemma FirstIsTheFailedOne(w1: World)
    requires w1 == Tick(FirstSendFails(), Fresh([MAIL]), At(true, 1)).w
    requires |LogOf(FirstSendFails(), w1, "once").messages| == 1
    ensures LogOf(FirstSendFails(), w1, "once").accepted == 0
  {
    var e := FirstSendFails();
    forall m | m in w1.outbox ensures m.subscriptionId == "once" {
      AllForOnce(e, w1, m);
    }
    AllMessagesTo(w1.outbox, "once");
    assert Accepted(e.sendOk, w1.outbox[..0], "once") == 0;
  }

  /** A prune that removes the rows of the batch re-arms the subscription: the next incident is
      notified again. */
  lemma PruneRearms(e: Env) returns (ws: seq<World>, evs: seq<Event>)
    requires NoFailures(e) && e.channels == {"mail", "chat"}
    ensures Told(e, ws, evs) && |evs| == 4 && evs[2].PruneEvent?
    ensures |LogOf(e, ws[2], "once").messages| == 1 && |LogOf(e, ws[4], "once").messages| == 2
  {
    var ws2, evs2 := ThenRecovers(e);
    var ws3, evs3 := ThenPruned(e, ws2, evs2);
    Notified(e, ws3[3], 300);
    ws, evs := Opens(e, ws3, evs3, 300);
    assert ws[2] == ws3[2] && evs[2] == evs3[2];
  }

  function PruneAt(w: World, at: Time): World {
    w.(db := Pruned(w.db, Millis(at - MS)))
  }

  /** A prune well after the first incident removes the row of the batch. */
  lemma PrunedReady(w: World, at: Time, state: State, i: Id)
    requires Ready(w, state, i) && at >= 100_000 * MS
    requires 1 in w.db.incidents && w.db.incidents[1].resolvedMs == Some(2000)
    requires forall n :: n in RowsTo(w.db.notes, "once") ==> n.incidentId == 1
    ensures Ready(PruneAt(w, at), state, i) && RowsTo(PruneAt(w, at).db.notes, "once") == []
    ensures state == Firing ==> GetSub(PruneAt(w, at).db, i, "once") == GetSub(w.db, i, "once")
  {
    var ids := ResolvedBefore(w.db, Millis(at - MS));
    assert 1 in ids;
    PruneConsistent(w, Millis(at - MS));
    AllPruned(w.db.notes, ids, "once");
    if state == Firing {
      assert w.db.incidents[i].resolvedMs == None && i !in ids;
    }
  }

  lemma ThenPruned(e: Env, ws2: seq<World>, evs2: seq<Event>) returns (ws: seq<World>, evs: seq<Event>)
    requires Told(e, ws2, evs2) && |evs2| == 2 && Ready(ws2[2], OK, NO_ID)
    requires ws2[2].db.incidents.Keys == {1} && ws2[2].db.incidents[1].resolvedMs == Some(2000)
    requires var log := LogOf(e, ws2[2], "once"); |log.messages| == 1 && |log.rows| == 1 && log.rows[0].incidentId == 1
    ensures Told(e, ws, evs) && |evs| == 3 && evs[2].PruneEvent? && ws[2] == ws2[2] && Ready(ws[3], OK, NO_ID)
    ensures RowsTo(ws[3].db.notes, "once") == [] && ws[3].outbox == ws[2].outbox
  {
    PrunedReady(ws2[2], 100_000 * MS, OK, NO_ID);
    ws, evs := GoOn(e, ws2, evs2, PruneEvent(100_000 * MS, MS), PruneAt(ws2[2], 100_000 * MS));
  }

  lemma {:induction false} AllPruned(notes: seq<NoteRow>, ids: set<Id>, s: SubId)
    requires forall n :: n in RowsTo(notes, s) ==> n.incidentId in ids
    ensures RowsTo(NotesExcept(notes, ids), s) == []
  {
    if notes != [] {
      var front, n := notes[..|notes| - 1], notes[|notes| - 1];
      var left, more := NotesExcept(front, ids), if n.subscriptionId == s then [n] else [];
      assert RowsTo(notes, s) == RowsTo(front, s) + more;
      AllPruned(front, ids, s);
      if n.incidentId in ids {
        assert left + [] == left;
      } else {
        assert n !in RowsTo(notes, s) && more == [];
        assert (left + [n])[..|left|] == left;
      }
    }
  }

  // ----- told of an end without having been told of the beginning -----

  /** A second incident opens while the row of the first is kept: nothing is sent, and the subscription
      is counted as told. */
  lemma CountedInSilence(e: Env, w: World, second: nat)
    requires NoFailures(e) && second > 0 && Ready(w, OK, NO_ID) && RowsTo(w.db.notes, "once") != []
    ensures var w2 := Tick(e, w, At(true, second)).w;
            && LogOf(e, w2, "once") == LogOf(e, w, "once") && Reasons.Counts(w2.db, w.lastId + 1, "once")
            && GetSub(w2.db, w.lastId + 1, "once").value.resolutionSent == false
  {
    var j := At(true, second);
    OnceListed(w, OK, NO_ID);
    OpeningUnheard(w, j, "once");
    ChangeMeaning(w, j);
    Reasons.TickTells(e, w, j, Once(), FiringKind);
  }

  /** What a second opening leaves of a first incident. */
  lemma FirstStays(e: Env, w: World, second: nat)
    requires NoFailures(e) && second > 0 && Ready(w, OK, NO_ID) && 1 in w.db.incidents
    ensures var w2 := Tick(e, w, At(true, second)).w;
            1 in w2.db.incidents && w2.db.incidents[1] == w.db.incidents[1] && w.lastId + 1 != 1
  {
    ChangeMeaning(w, At(true, second));
    TickLeaves(e, w, At(true, second));
    assert 1 <= w.lastId;
  }

  /** Its end is told once the row is gone. */
  lemma ToldOfTheEnd(e: Env, w: World, second: nat, i: Id)
    requires NoFailures(e) && e.channels == {"mail", "chat"} && second > 0 && Ready(w, Firing, i) && RowsTo(w.db.notes, "once") == []
    requires Reasons.Counts(w.db, i, "once") && !GetSub(w.db, i, "once").value.resolutionSent
    ensures var j := At(false, second);
            LogOf(e, Tick(e, w, j).w, "once").messages
            == LogOf(e, w, "once").messages + [Sent("orders", "once", i, ResolvedKind, "", "mail", "ann@example.org", j.now)]
  {
    var j := At(false, second);
    OneBinding(e);
    OnceListed(w, Firing, i);
    ChangeMeaning(w, j);
    Reasons.TickTells(e, w, j, Once(), ResolvedKind);
    assert BatchTo("orders", "once", i, ResolvedKind, "", j.now, [MAIL])
        == [Sent("orders", "once", i, ResolvedKind, "", "mail", "ann@example.org", j.now)];
  }

  /** Incident `i` is open and counted as told, and nobody told the subscription. */
  ghost predicate Untold(w: World, i: Id) {
    && Ready(w, Firing, i) && Reasons.Counts(w.db, i, "once") && !GetSub(w.db, i, "once").value.resolutionSent
    && |MessagesTo(w.outbox, "once")| == 1 && !Reasons.HeardOf(MessagesTo(w.outbox, "once"), i)
  }

  /** The store after the first incident, and after the second one opened. */
  ghost predicate Recovered(e: Env, w: World) {
    var log := LogOf(e, w, "once");
    && Ready(w, OK, NO_ID) && |log.messages| == 1 && |log.rows| == 1 && log.rows[0].incidentId == 1
    && 1 in w.db.incidents && w.db.incidents[1].resolvedMs == Some(2000)
    && Reasons.HeardIsCounted(w, log.messages, "once")
  }

  ghost predicate Reopened(w: World, i: Id) {
    && Untold(w, i) && 1 in w.db.incidents && w.db.incidents[1].resolvedMs == Some(2000)
    && forall n :: n in RowsTo(w.db.notes, "once") ==> n.incidentId == 1
  }

  lemma StillUntold(e: Env, w: World, w2: World, i: Id)
    requires Recovered(e, w) && Ready(w2, Firing, i) && i > w.lastId && LogOf(e, w2, "once") == LogOf(e, w, "once")
    requires Reasons.Counts(w2.db, i, "once") && !GetSub(w2.db, i, "once").value.resolutionSent
    requires 1 in w2.db.incidents && w2.db.incidents[1] == w.db.incidents[1]
    ensures Reopened(w2, i)
  {
    var log := LogOf(e, w, "once");
    assert RowsTo(w2.db.notes, "once") == log.rows && MessagesTo(w2.outbox, "once") == log.messages;
    assert forall n :: n in log.rows ==> n == log.rows[0];
  }

  lemma Reopens(e: Env, w: World)
    requires NoFailures(e) && Recovered(e, w)
    ensures Reopened(Tick(e, w, At(true, 300)).w, w.lastId + 1)
  {
    OpeningReady(e, w, 300);
    CountedInSilence(e, w, 300);
    FirstStays(e, w, 300);
    StillUntold(e, w, Tick(e, w, At(true, 300)).w, w.lastId + 1);
  }

  lemma OpensUntold(e: Env) returns (ws: seq<World>, evs: seq<Event>)
    requires NoFailures(e) && e.channels == {"mail", "chat"}
    ensures Told(e, ws, evs) && |evs| == 3 && Reopened(ws[3], ws[2].lastId + 1)
  {
    var ws2, evs2 := ThenRecovers(e);
    assert Recovered(e, ws2[2]) by { Reasons.RunCounts(e, ws2, evs2, 2, Once()); }
    Reopens(e, ws2[2]);
    ws, evs := GoOn(e, ws2, evs2, TickEvent(At(true, 300)), Tick(e, ws2[2], At(true, 300)).w);
    assert ws[2] == ws2[2];
  }

  lemma PrunedUntold(e: Env) returns (ws: seq<World>, evs: seq<Event>)
    requires NoFailures(e) && e.channels == {"mail", "chat"}
    ensures Told(e, ws, evs) && |evs| == 4 && evs[3].PruneEvent? && Untold(ws[4], ws[2].lastId + 1)
    ensures RowsTo(ws[4].db.notes, "once") == []
  {
    var ws3, evs3 := OpensUntold(e);
    PrunedReady(ws3[3], 350_000 * MS, Firing, ws3[2].lastId + 1);
    ws, evs := GoOn(e, ws3, evs3, PruneEvent(350_000 * MS, MS), PruneAt(ws3[3], 350_000 * MS));
    assert ws[2] == ws3[2];
  }

  /** A run in which the subscription hears of the end of an incident whose beginning it was never
      told: it opened while the row of an earlier one kept the gate closed, and a prune removed
      that row before it ended. */
  lemma EndWithoutBeginning(e: Env) returns (ws: seq<World>, evs: seq<Event>)
    requires NoFailures(e) && e.channels == {"mail", "chat"}
    ensures Told(e, ws, evs) && |evs| == 5 && evs[3].PruneEvent?
    ensures var before, after := LogOf(e, ws[4], "once").messages, LogOf(e, ws[5], "once").messages;
            && |before| == 1 && |after| == 2 && after[1].kind == ResolvedKind && after[1].incidentId == ws[2].lastId + 1
            && !Reasons.HeardOf(before, after[1].incidentId)
  {
    var ws4, evs4 := PrunedUntold(e);
    ToldOfTheEnd(e, ws4[4], 400, ws4[2].lastId + 1);
    ws, evs := GoOn(e, ws4, evs4, TickEvent(At(false, 400)), Tick(e, ws4[4], At(false, 400)).w);
    assert ws[4] == ws4[4] && ws[2] == ws4[2] && evs[3] == evs4[3];
  }
}
