/** The audit log of a subscription within an incident, against the counters kept for it:
    in every reachable store the log is a firing batch, then repeats, then at most one
    resolution, and the sub-state row is exactly its summary. */
module DeliveryLog {
  import opened Base
  import opened RuleState
  import opened Conditions
  import opened Tables
  import opened Dispatch
  import opened Views
  import opened Serial

  datatype Batch = Batch(kind: Kind, sentMs: int)

  /** The audit rows of a list of batches, each sent to all of `bs`. */
  function Rows(log: seq<Batch>, bs: seq<Binding>): seq<Audit> {
    if log == [] then []
    else
      var last := log[|log| - 1];
      Rows(log[..|log| - 1], bs) + BatchAudits(last.kind, last.sentMs, bs)
  }

  /** firing repeat* resolved?, as counted by the sub-state. */
  predicate Summarizes(stored: Option<SubState>, log: seq<Batch>) {
    match stored
    case None => log == []
    case Some(st) =>
      && st.notifyCount > 0
      && |log| == st.notifyCount + (if st.resolutionSent then 1 else 0)
      && (forall m :: 0 <= m < st.notifyCount ==> log[m].kind == if m == 0 then FiringKind else RepeatKind)
      && (st.resolutionSent ==> log[st.notifyCount].kind == ResolvedKind)
      && 0 < st.lastNotifiedAt == log[st.notifyCount - 1].sentMs * MS
  }

  ghost predicate Agrees(stored: Option<SubState>, audits: seq<Audit>, bs: seq<Binding>) {
    exists log: seq<Batch> :: Summarizes(stored, log) && audits == Rows(log, bs)
  }

  ghost predicate AgreesAt(db: Db, i: Id, s: SubId, bs: seq<Binding>) {
    Agrees(GetSub(db, i, s), AuditsOf(db.notes, i, s), bs)
  }

  lemma ViewStepAgrees(e: Env, subscribers: map<string, Subscriber>, v: SubView, ls: Live, s: Subscription, t: Transition, now: Time)
    requires !s.oneShot && s.subscriberId in subscribers && now >= MS
    requires v.stored.Some? && !(t.Closed() && t.incidentId != NO_ID) ==> !v.stored.value.resolutionSent
    requires Agrees(v.stored, v.audits, EligibleOf(e, s, subscribers[s.subscriberId].channels))
    ensures var v2 := ViewStep(e, subscribers, v, ls, s, t, now);
            Agrees(v2.stored, v2.audits, EligibleOf(e, s, subscribers[s.subscriberId].channels))
  {
    var bs := EligibleOf(e, s, subscribers[s.subscriberId].channels);
    var log: seq<Batch> :| Summarizes(v.stored, log) && v.audits == Rows(log, bs);
    var v2 := ViewStep(e, subscribers, v, ls, s, t, now);
    if v2 != v {
      var p := Decide(Focus(ls, t), t, s, v.stored, now).value;
      var log2 := log + [Batch(p.kind, Millis(now))];
      assert log2[..|log|] == log;
      StoreRoundTrip(now);
      match p.kind {
        case ResolvedKind => ResolvedBatch(v.stored.value, v2.stored, log, now);
        case _ => AlertBatch(v.stored, v2.stored, log, p.kind, now);
      }
      assert v2.audits == Rows(log2, bs);
    }
  }

  lemma AlertBatch(before: Option<SubState>, after: Option<SubState>, log: seq<Batch>, k: Kind, now: Time)
    requires Summarizes(before, log) && now >= MS && (before.Some? ==> !before.value.resolutionSent)
    requires k == if before.None? then FiringKind else RepeatKind
    requires after.Some? && !after.value.resolutionSent && after.value.lastNotifiedAt == FloorMs(now)
    requires after.value.notifyCount == if before.None? then 1 else before.value.notifyCount + 1
    ensures Summarizes(after, log + [Batch(k, Millis(now))])
  {
    assert Millis(now) > 0;
  }

  lemma ResolvedBatch(before: SubState, after: Option<SubState>, log: seq<Batch>, now: Time)
    requires Summarizes(Some(before), log) && !before.resolutionSent
    requires after == Some(before.(resolutionSent := true))
    ensures Summarizes(after, log + [Batch(ResolvedKind, Millis(now))])
  {
  }

  /** The position of a subscription in the list a tick visits. */
  lemma ListedAt(subs: seq<Subscription>, r: Rule, s: Subscription) returns (n: nat)
    requires DistinctIds(subs) && s in ListForRule(subs, r)
    ensures n < |ListForRule(subs, r)| && ListForRule(subs, r)[n] == s && DistinctIds(ListForRule(subs, r))
  {
    ListForRuleExact(subs, r);
    n :| 0 <= n < |ListForRule(subs, r)| && ListForRule(subs, r)[n] == s;
  }

  lemma NotListed(subs: seq<Subscription>, r: Rule, s: Subscription)
    requires DistinctIds(subs) && s in subs && s !in ListForRule(subs, r)
    ensures forall k :: 0 <= k < |ListForRule(subs, r)| ==> ListForRule(subs, r)[k].id != s.id
  {
    ListForRuleExact(subs, r);
    forall k | 0 <= k < |ListForRule(subs, r)| ensures ListForRule(subs, r)[k].id != s.id {
      assert ListForRule(subs, r)[k] in subs;
    }
  }

  /** What one tick does to the view of a subscription on the incident the tick is about. */
  lemma TickOwnView(e: Env, w: World, j: Job, s: Subscription)
    requires NoFailures(e) && Consistent(w) && s in w.db.subscriptions
    ensures var i := Focus(LiveAfter(w, j), Change(w, j));
            var v, v2 := ViewOf(Marked(w, j), j.rule.id, i, s.id), ViewOf(Tick(e, w, j).w, j.rule.id, i, s.id);
            v2 == if s in ListForRule(w.db.subscriptions, j.rule)
                  then ViewStep(e, w.db.subscribers, v, LiveAfter(w, j), s, Change(w, j), j.now)
                  else v
  {
    var ls, t, subs := LiveAfter(w, j), Change(w, j), ListForRule(w.db.subscriptions, j.rule);
    TickUnfolds(e, w, j);
    if s in subs {
      var n := ListedAt(w.db.subscriptions, j.rule, s);
      var _ := Independence(e, Marked(w, j), j.rule.id, ls, subs, n, t, j.now);
    } else {
      NotListed(w.db.subscriptions, j.rule, s);
      Bystander(e, Marked(w, j), j.rule.id, ls, subs, t, j.now, Focus(ls, t), s.id);
    }
  }

  lemma TickAgrees(e: Env, w: World, j: Job, s: Subscription, i: Id)
    requires NoFailures(e) && Consistent(w) && j.now >= MS
    requires s in w.db.subscriptions && !s.oneShot && s.subscriberId in w.db.subscribers
    requires AgreesAt(w.db, i, s.id, EligibleOf(e, s, w.db.subscribers[s.subscriberId].channels))
    ensures AgreesAt(Tick(e, w, j).w.db, i, s.id, EligibleOf(e, s, w.db.subscribers[s.subscriberId].channels))
  {
    var ls, t := LiveAfter(w, j), Change(w, j);
    var v := ViewOf(Marked(w, j), j.rule.id, i, s.id);
    TickConsistent(e, w, j);
    if i == Focus(ls, t) {
      TickOwnView(e, w, j, s);
      MarkedConsistent(w, j);
      ChangeMeaning(w, j);
      if v.stored.Some? && v.stored.value.resolutionSent {
        assert Marked(w, j).db.incidents[i].resolvedMs.Some?;
      }
      ViewStepAgrees(e, w.db.subscribers, v, ls, s, t, j.now);
    }
  }

  lemma {:induction false} PrunedAudits(notes: seq<NoteRow>, incidents: set<Id>, i: Id, s: SubId)
    ensures AuditsOf(NotesExcept(notes, incidents), i, s) == if i in incidents then [] else AuditsOf(notes, i, s)
  {
    if notes != [] {
      var n, front := notes[|notes| - 1], NotesExcept(notes[..|notes| - 1], incidents);
      PrunedAudits(notes[..|notes| - 1], incidents, i, s);
      AppendAudit(front, n, i, s);
      assert front + [] == front;
      assert AuditsOf(notes[..|notes| - 1], i, s) + [] == AuditsOf(notes[..|notes| - 1], i, s);
    }
  }

  lemma EmptyAgrees(bs: seq<Binding>)
    ensures Agrees(None, [], bs)
  {
    assert Summarizes(None, []) && Rows([], bs) == [];
  }

  lemma PruneAgrees(w: World, before: int, s: SubId, i: Id, bs: seq<Binding>)
    requires AgreesAt(w.db, i, s, bs)
    ensures AgreesAt(Pruned(w.db, before), i, s, bs)
  {
    var ids := ResolvedBefore(w.db, before);
    PrunedAudits(w.db.notes, ids, i, s);
    EmptyAgrees(bs);
    assert GetSub(Pruned(w.db, before), i, s) == if i in ids then None else GetSub(w.db, i, s);
  }

  lemma ErrorAgrees(e: Env, w: World, r: RuleId, message: string, now: Time, s: SubId, i: Id, bs: seq<Binding>)
    requires AgreesAt(w.db, i, s, bs)
    ensures AgreesAt(EvalError(e, w, r, message, now).db, i, s, bs)
  {
    var db2 := EvalError(e, w, r, message, now).db;
    assert db2.notes == w.db.notes && db2.subStates == w.db.subStates;
  }

  lemma StepAgrees(e: Env, w: World, ev: Event, w2: World, s: Subscription, i: Id)
    requires NoFailures(e) && Step(e, w, ev, w2) && Consistent(w) && ev.Clock() >= MS
    requires s in w.db.subscriptions && !s.oneShot && s.subscriberId in w.db.subscribers
    requires AgreesAt(w.db, i, s.id, EligibleOf(e, s, w.db.subscribers[s.subscriberId].channels))
    ensures AgreesAt(w2.db, i, s.id, EligibleOf(e, s, w.db.subscribers[s.subscriberId].channels))
  {
    var bs := EligibleOf(e, s, w.db.subscribers[s.subscriberId].channels);
    match ev
    case TickEvent(j) => TickAgrees(e, w, j, s, i);
    case ErrorEvent(r, message, now) => ErrorAgrees(e, w, r, message, now, s.id, i, bs);
    case PruneEvent(at, window) => PruneAgrees(w, Millis(at - window), s.id, i, bs);
  }

  /** Counter and log agreement, over every serial run of ticks, evaluation errors and
      prunes: for each incident and each recurring subscription, the audit rows are the
      batches firing, repeat, ..., resolved that the sub-state row counts. */
  lemma {:induction false} LogAgreement(e: Env, ws: seq<World>, evs: seq<Event>, k: nat, s: Subscription, i: Id)
    requires NoFailures(e) && Run(e, ws, evs) && AfterEpoch(evs) && k <= |evs|
    requires s in ws[0].db.subscriptions && !s.oneShot && s.subscriberId in ws[0].db.subscribers
    ensures AgreesAt(ws[k].db, i, s.id, EligibleOf(e, s, ws[0].db.subscribers[s.subscriberId].channels))
  {
    if k == 0 {
      EmptyAgrees(EligibleOf(e, s, ws[0].db.subscribers[s.subscriberId].channels));
    } else {
      var n := k - 1;
      LogAgreement(e, ws, evs, n, s, i);
      RunConsistent(e, ws, evs, n);
      StepAgrees(e, ws[n], evs[n], ws[n + 1], s, i);
    }
  }

  // ----- reading the agreement -----

  /** The row of binding `j` in batch `m`, when every batch has `width` rows. */
  function RowAt(rows: seq<Audit>, width: nat, m: nat, j: nat): Audit
    requires m * width + j < |rows|
  {
    rows[m * width + j]
  }

  lemma MulNext(n: int, width: int)
    ensures (n + 1) * width == n * width + width
  {
  }

  lemma {:induction false} RowsLength(log: seq<Batch>, bs: seq<Binding>)
    ensures |Rows(log, bs)| == |log| * |bs|
  {
    if log != [] {
      RowsLength(log[..|log| - 1], bs);
      MulNext(|log| - 1, |bs|);
    }
  }

  lemma InRows(n: nat, width: nat, m: nat, j: nat)
    requires m < n && j < width
    ensures m * width + j < n * width
  {
    MulMonotone(m + 1, n, width);
    MulNext(m, width);
  }

  lemma {:induction false} RowsAt(log: seq<Batch>, bs: seq<Binding>, m: nat, j: nat)
    requires m < |log| && j < |bs|
    ensures m * |bs| + j < |Rows(log, bs)|
    ensures RowAt(Rows(log, bs), |bs|, m, j) == Audit(log[m].kind, bs[j].channel, bs[j].address, log[m].sentMs)
  {
    var front := log[..|log| - 1];
    RowsLength(front, bs);
    RowsLength(log, bs);
    InRows(|log|, |bs|, m, j);
    if m < |front| {
      InRows(|front|, |bs|, m, j);
      RowsAt(front, bs, m, j);
    }
  }

  /** Every row is of some batch. */
  lemma {:induction false} RowsOfBatches(log: seq<Batch>, bs: seq<Binding>, a: Audit)
    requires a in Rows(log, bs)
    ensures exists m :: 0 <= m < |log| && log[m].kind == a.kind
  {
    var front, last := log[..|log| - 1], log[|log| - 1];
    if a in Rows(front, bs) {
      RowsOfBatches(front, bs, a);
      var m :| 0 <= m < |front| && front[m].kind == a.kind;
      assert log[m].kind == a.kind;
    } else {
      assert a in BatchAudits(last.kind, last.sentMs, bs);
    }
  }

  /** Row `j` of batch `m`, if there are `count` firing and repeat batches: its kind, and the
      binding it went to. */
  predicate RowReads(rows: seq<Audit>, count: nat, bs: seq<Binding>, m: nat, j: nat)
    requires j < |bs|
  {
    m * |bs| + j < |rows| &&
    var a := RowAt(rows, |bs|, m, j);
    && a.kind == (if m == 0 then FiringKind else if m < count then RepeatKind else ResolvedKind)
    && a.channel == bs[j].channel && a.address == bs[j].address
  }

  /** The time of the first row of batch `m`. */
  predicate SentAt(rows: seq<Audit>, width: nat, m: nat, t: Time) {
    m * width < |rows| && RowAt(rows, width, m, 0).sentMs * MS == t
  }

  /** How many batches a sub-state counts. */
  function Batches(st: SubState): nat {
    st.notifyCount + if st.resolutionSent then 1 else 0
  }

  lemma ReadRow(st: SubState, log: seq<Batch>, bs: seq<Binding>, m: nat, j: nat)
    requires Summarizes(Some(st), log) && m < |log| && j < |bs|
    ensures RowReads(Rows(log, bs), st.notifyCount, bs, m, j)
  {
    RowsAt(log, bs, m, j);
  }

  lemma ReadNewest(st: SubState, log: seq<Batch>, bs: seq<Binding>)
    requires Summarizes(Some(st), log) && bs != []
    ensures SentAt(Rows(log, bs), |bs|, st.notifyCount - 1, st.lastNotifiedAt)
  {
    RowsAt(log, bs, st.notifyCount - 1, 0);
  }

  /** With at least one eligible binding the counters can be read off the rows. They are as many
      rows as batches are counted, times the bindings; the first batch is the firing one, those
      up to `notifyCount` are the repeats, and one resolved batch follows if it is marked as
      sent; each batch went to every binding in order; and `lastNotifiedAt` is the time of
      the newest firing or repeat batch. */
  lemma CountersReadOff(stored: Option<SubState>, audits: seq<Audit>, bs: seq<Binding>)
    requires Agrees(stored, audits, bs) && bs != []
    ensures stored.None? ==> audits == []
    ensures stored.Some? ==>
              var st := stored.value;
              && st.notifyCount > 0 && |audits| == Batches(st) * |bs|
              && (forall m: nat, j: nat :: m < Batches(st) && j < |bs| ==> RowReads(audits, st.notifyCount, bs, m, j))
              && SentAt(audits, |bs|, st.notifyCount - 1, st.lastNotifiedAt)
  {
    var log: seq<Batch> :| Summarizes(stored, log) && audits == Rows(log, bs);
    RowsLength(log, bs);
    if stored.Some? {
      var st := stored.value;
      forall m: nat, j: nat | m < Batches(st) && j < |bs| ensures RowReads(audits, st.notifyCount, bs, m, j) {
        ReadRow(st, log, bs, m, j);
      }
      ReadNewest(st, log, bs);
    }
  }

  /** A resolution is marked as sent exactly if a resolved row exists, and then a firing row
      precedes it. */
  lemma ResolutionReadOff(stored: Option<SubState>, audits: seq<Audit>, bs: seq<Binding>)
    requires Agrees(stored, audits, bs) && bs != []
    ensures (stored.Some? && stored.value.resolutionSent) <==> exists a :: a in audits && a.kind == ResolvedKind
    ensures forall x :: 0 <= x < |audits| && audits[x].kind == ResolvedKind ==> x > 0 && audits[0].kind == FiringKind
  {
    var log: seq<Batch> :| Summarizes(stored, log) && audits == Rows(log, bs);
    forall a | a in audits && a.kind == ResolvedKind ensures stored.Some? && stored.value.resolutionSent {
      RowsOfBatches(log, bs, a);
    }
    if stored.Some? {
      RowsAt(log, bs, 0, 0);
      assert audits[0] == RowAt(audits, |bs|, 0, 0);
      if stored.value.resolutionSent {
        RowsAt(log, bs, stored.value.notifyCount, 0);
        assert RowAt(audits, |bs|, stored.value.notifyCount, 0) in audits;
      }
    }
  }
}
