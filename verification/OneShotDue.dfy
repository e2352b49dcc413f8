/** What the history calls for and a one-shot subscription is sent: the first batch that is due for
    any rule it listens to, and after that nothing as long as a row of it is kept. */
module OneShotDue {
  import opened Base
  import opened RuleState
  import opened Conditions
  import opened Tables
  import opened Dispatch
  import opened Serial
  import opened OneShot
  import opened Reference
  import Reasons
  import Refinement
  import Views

  // ----- messages and deliveries -----

  lemma {:induction false} DeliveriesOfMessages(outbox: seq<Sent>, r: RuleId, s: SubId)
    ensures Views.DeliveriesTo(MessagesTo(outbox, s), r, s) == Views.DeliveriesTo(outbox, r, s)
  {
    if outbox != [] {
      var front, m := outbox[..|outbox| - 1], outbox[|outbox| - 1];
      DeliveriesOfMessages(front, r, s);
      Views.AppendDelivery(MessagesTo(front, s), m, r, s);
      assert MessagesTo(front, s) + [] == MessagesTo(front, s);
      assert Views.DeliveriesTo(front, r, s) + [] == Views.DeliveriesTo(front, r, s);
    }
  }

  lemma {:induction false} BatchDelivered(messages: seq<Sent>, r: RuleId, s: SubId, i: Id, k: Kind, value: string, now: Time, bs: seq<Binding>)
    ensures Views.DeliveriesTo(messages + BatchTo(r, s, i, k, value, now, bs), r, s)
            == Views.DeliveriesTo(messages, r, s) + Views.BatchDeliveries(k, value, now, bs)
    decreases |bs|
  {
    var batch := BatchTo(r, s, i, k, value, now, bs);
    if bs == [] {
      assert messages + batch == messages;
    } else {
      var front, b := bs[..|bs| - 1], bs[|bs| - 1];
      var m := Sent(r, s, i, k, value, b.channel, b.address, now);
      BatchDelivered(messages, r, s, i, k, value, now, front);
      assert messages + batch == (messages + BatchTo(r, s, i, k, value, now, front)) + [m];
      Views.AppendDelivery(messages + BatchTo(r, s, i, k, value, now, front), m, r, s);
      assert Views.BatchDeliveries(k, value, now, bs)
          == Views.BatchDeliveries(k, value, now, front) + [Views.Delivery(k, value, b.channel, b.address, now)];
    }
  }

  // ----- one tick -----

  /** The batch `due` is sent, unless the gate of a one-shot subscription is closed. */
  ghost predicate SendsDue(e: Env, before: Log, after: Log, due: Option<Kind>, s: Subscription, j: Job, i: Id, bs: seq<Binding>) {
    if due.None? || (s.oneShot && before.rows != []) then after == before
    else Grows(e, before, after, BatchTo(j.rule.id, s.id, i, due.value, j.value, j.now, bs))
  }

  lemma SamePrefix<T>(a: seq<T>, x: seq<T>, y: seq<T>)
    requires a + x == a + y
    ensures x == y
  {
    assert (a + x)[|a|..] == x && (a + y)[|a|..] == y;
  }

  /** Batches of at least one message tell their kind. */
  lemma SameKind(k: Kind, k2: Kind, value: string, now: Time, bs: seq<Binding>)
    requires Views.BatchDeliveries(k, value, now, bs) == Views.BatchDeliveries(k2, value, now, bs) && bs != []
    ensures k == k2
  {
    assert Views.BatchDeliveries(k, value, now, bs)[0].kind == k && Views.BatchDeliveries(k2, value, now, bs)[0].kind == k2;
  }

  /** A log that grew by one batch grew by the due one if the deliveries say so. */
  lemma DeliveredIsDue(e: Env, before: Log, after: Log, due: Option<Kind>, s: Subscription, j: Job, i: Id, bs: seq<Binding>)
    requires AtMostOneBatch(e, before, after, j.rule.id, s, i, j.value, j.now, bs)
    requires Views.DeliveriesTo(after.messages, j.rule.id, s.id) == Views.DeliveriesTo(before.messages, j.rule.id, s.id) +
               if due.None? || (s.oneShot && before.rows != []) then [] else Views.BatchDeliveries(due.value, j.value, j.now, bs)
    ensures SendsDue(e, before, after, due, s, j, i, bs)
  {
    var sent := Views.DeliveriesTo(before.messages, j.rule.id, s.id);
    var expected := if due.None? || (s.oneShot && before.rows != []) then [] else Views.BatchDeliveries(due.value, j.value, j.now, bs);
    assert before.messages + [] == before.messages;
    if after == before {
      assert sent + [] == sent;
      SamePrefix(sent, [], expected);
    } else {
      var k: Kind :| Grows(e, before, after, BatchTo(j.rule.id, s.id, i, k, j.value, j.now, bs));
      BatchDelivered(before.messages, j.rule.id, s.id, i, k, j.value, j.now, bs);
      SamePrefix(sent, Views.BatchDeliveries(k, j.value, j.now, bs), expected);
      if bs == [] {
        GrowsByNothing(e, before, after);
      } else {
        assert |expected| == |bs|;
        SameKind(k, due.value, j.value, j.now, bs);
      }
    }
  }

  /** A tick of a rule sends a subscription that listens to it exactly what the history of the rule calls
      for, about the incident of the tick. */
  lemma TickSendsDue(e: Env, w: World, j: Job, s: Subscription, h: seq<Obs>)
    requires NoFailures(e) && Consistent(w) && j.now >= MS && Refinement.Listens(w, j.rule, s)
    requires Refinement.Tracks(e, w, j.rule, s, h)
    ensures SendsDue(e, LogOf(e, w, s.id), LogOf(e, Tick(e, w, j).w, s.id), BatchDue(h + [Refinement.ObsOf(j)], s), s, j,
                     Views.Focus(LiveAfter(w, j), Change(w, j)), BindingsOf(e, w.db.subscribers, s))
  {
    var w2, r := Tick(e, w, j).w, j.rule.id;
    TickAdds(e, w, j, s);
    Refinement.OwnTickRefines(e, w, j, s, h);
    DeliveriesOfMessages(w.outbox, r, s.id);
    DeliveriesOfMessages(w2.outbox, r, s.id);
    ExistsIffRows(w.db.notes, s.id);
    Reasons.MarkedSameLog(w, j);
    DeliveredIsDue(e, LogOf(e, w, s.id), LogOf(e, w2, s.id), BatchDue(h + [Refinement.ObsOf(j)], s), s, j,
                   Views.Focus(LiveAfter(w, j), Change(w, j)), BindingsOf(e, w.db.subscribers, s));
  }

  // ----- runs -----

  /** A rule id stands for one definition of the rule. */
  predicate OneRulePerId(evs: seq<Event>) {
    forall m, n :: 0 <= m < |evs| && 0 <= n < |evs| && evs[m].TickEvent? && evs[n].TickEvent? && evs[m].job.rule.id == evs[n].job.rule.id ==>
      evs[m].job.rule == evs[n].job.rule
  }

  /** What event `k` calls for, going by the history of the evaluation outcomes alone. */
  function DueAt(evs: seq<Event>, k: nat, s: Subscription): Option<Kind>
    requires k < |evs|
  {
    if evs[k].TickEvent? && (DirectMatch(s, evs[k].job.rule) || LabelMatch(s, evs[k].job.rule)) then
      BatchDue(Refinement.HistoryOf(evs[..k], evs[k].job.rule.id) + [Refinement.ObsOf(evs[k].job)], s)
    else
      None
  }

  /** A run without failing calls. */
  ghost predicate Calm(e: Env, ws: seq<World>, evs: seq<Event>, s: Subscription) {
    NoFailures(e) && AfterEpoch(evs) && OneRulePerId(evs) && ListedIn(e, ws, evs, s)
  }

  /** The incident that tick `k` is about. */
  function IncidentAt(ws: seq<World>, evs: seq<Event>, k: nat): Id
    requires k < |ws| && k < |evs| && evs[k].TickEvent?
  {
    Views.Focus(LiveAfter(ws[k], evs[k].job), Change(ws[k], evs[k].job))
  }

  /** At every tick of every run a subscription, one-shot or not, is sent exactly the batch that
      the history calls for; a one-shot subscription only if no row of it is kept. */
  lemma EventSendsDue(e: Env, ws: seq<World>, evs: seq<Event>, k: nat, s: Subscription)
    requires Calm(e, ws, evs, s) && k < |evs|
    ensures evs[k].TickEvent? ==>
              SendsDue(e, LogAt(e, ws, k, s), LogAt(e, ws, k + 1, s), DueAt(evs, k, s), s, evs[k].job,
                       IncidentAt(ws, evs, k), BindingsOf(e, ws[0].db.subscribers, s))
    ensures !evs[k].TickEvent? ==> LogAt(e, ws, k + 1, s).messages == LogAt(e, ws, k, s).messages
  {
    Unconfigured(e, ws, evs, k, s);
    RunConsistent(e, ws, evs, k);
    assert Step(e, ws[k], evs[k], ws[k + 1]);
    EventLog(e, ws[k], evs[k], ws[k + 1], s);
    if evs[k].TickEvent? {
      var j := evs[k].job;
      if s.subscriberId !in ws[0].db.subscribers {
        NobodyToTell(e, LogAt(e, ws, k, s), LogAt(e, ws, k + 1, s), DueAt(evs, k, s), s, j, IncidentAt(ws, evs, k));
      } else if DirectMatch(s, j.rule) || LabelMatch(s, j.rule) {
        Refinement.RunTracks(e, ws, evs, k, j.rule, s);
        TickSendsDue(e, ws[k], j, s, Refinement.HistoryOf(evs[..k], j.rule.id));
      } else {
        ListForRuleExact(ws[k].db.subscriptions, j.rule);
        Reasons.TickExplained(e, ws[k], j, s);
      }
    }
  }

  /** Without a subscriber nothing is sent. */
  lemma NobodyToTell(e: Env, before: Log, after: Log, due: Option<Kind>, s: Subscription, j: Job, i: Id)
    requires AtMostOneBatch(e, before, after, j.rule.id, s, i, j.value, j.now, [])
    ensures SendsDue(e, before, after, due, s, j, i, [])
  {
    assert before.messages + [] == before.messages;
    if after != before {
      var k: Kind :| Grows(e, before, after, BatchTo(j.rule.id, s.id, i, k, j.value, j.now, []));
      GrowsByNothing(e, before, after);
    }
  }

  /** Nothing is called for before event `k`. */
  predicate NothingDue(evs: seq<Event>, k: nat, s: Subscription)
    requires k <= |evs|
  {
    forall m :: 0 <= m < k ==> DueAt(evs, m, s).None?
  }

  lemma {:induction false} NothingDueNothingSent(e: Env, ws: seq<World>, evs: seq<Event>, k: nat, s: Subscription)
    requires Calm(e, ws, evs, s) && k <= |evs| && NothingDue(evs, k, s)
    ensures LogAt(e, ws, k, s).messages == []
  {
    if k > 0 {
      NothingDueNothingSent(e, ws, evs, k - 1, s);
      EventSendsDue(e, ws, evs, k - 1, s);
    }
  }

  /** What is called for first is a firing batch. */
  lemma FirstDueIsFiring(evs: seq<Event>, k: nat, s: Subscription)
    requires OneRulePerId(evs) && k < |evs| && NothingDue(evs, k, s) && DueAt(evs, k, s).Some?
    ensures DueAt(evs, k, s) == Some(FiringKind)
  {
    var j := evs[k].job;
    var h := Refinement.HistoryOf(evs[..k], j.rule.id);
    NoAlerts(evs, k, j.rule, s);
    assert Front(h + [Refinement.ObsOf(j)]) == h;
  }

  lemma {:induction false} NoAlerts(evs: seq<Event>, k: nat, r: Rule, s: Subscription)
    requires k <= |evs| && NothingDue(evs, k, s) && (DirectMatch(s, r) || LabelMatch(s, r)) && Refinement.SameRule(evs, r)
    ensures LastAlert(Refinement.HistoryOf(evs[..k], r.id), s) == None
  {
    if k > 0 {
      var n := k - 1;
      var h := Refinement.HistoryOf(evs[..n], r.id);
      NoAlerts(evs, n, r, s);
      assert evs[..k][..n] == evs[..n] && evs[..k][n] == evs[n];
      if evs[n].TickEvent? && evs[n].job.rule.id == r.id {
        assert DueAt(evs, n, s) == None;
        assert Front(h + [Refinement.ObsOf(evs[n].job)]) == h;
      } else {
        assert h + [] == h;
      }
    }
  }

  /** The refinement for one-shot subscriptions. Over every run without prunes, all that a one-shot
      subscription has been sent, across rules, incidents and kinds, is nothing as long as no
      history calls for anything, and from then on the one batch that was called for first, which
      is a firing batch. */
  lemma OneShotRefinesReference(e: Env, ws: seq<World>, evs: seq<Event>, n: nat, k: nat, s: Subscription)
    requires Calm(e, ws, evs, s) && s.oneShot && NoPrunes(evs) && n <= k <= |evs| && NothingDue(evs, n, s)
    ensures LogAt(e, ws, n, s).messages == []
    ensures n < k && DueAt(evs, n, s).Some? ==>
              && DueAt(evs, n, s) == Some(FiringKind)
              && LogAt(e, ws, k, s).messages == BatchTo(evs[n].job.rule.id, s.id, IncidentAt(ws, evs, n), FiringKind,
                                                        evs[n].job.value, evs[n].job.now, BindingsOf(e, ws[0].db.subscribers, s))
  {
    NothingDueNothingSent(e, ws, evs, n, s);
    if n < k && DueAt(evs, n, s).Some? {
      var bs := BindingsOf(e, ws[0].db.subscribers, s);
      FirstDueIsFiring(evs, n, s);
      CalmRun(e, ws, evs, s);
      OneBatchPerRun(e, ws, evs, n, s);
      OneBatchPerRun(e, ws, evs, k, s);
      if bs != [] {
        EventSendsDue(e, ws, evs, n, s);
        SilentAfter(e, ws, evs, n + 1, k, s);
      }
    }
  }
}
