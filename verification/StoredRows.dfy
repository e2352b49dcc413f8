/** What the stored rows say of what was done: audit rows of the messages, over every serial run and
    whatever fails in it, and the stored error of a failed evaluation. */
module StoredRows {
  import opened Base
  import opened RuleState
  import opened Tables
  import opened Dispatch
  import opened Serial
  import opened OneShot
  import Views

  // ----- evaluation errors -----

  /** Once it is saved, an evaluation error is read back with its message and the time of the
      evaluation; state, incident, start and value stay, or those of a rule that was never evaluated
      are stored if there is no row or it could not be read. Nothing else changes, and nothing
      at all if saving fails. */
  lemma ErrorStored(e: Env, w: World, r: RuleId, message: string, now: Time, other: RuleId)
    ensures var w2, was := EvalError(e, w, r, message, now), if e.fails(w.calls) then None else GetLive(w.db, r);
            var read := GetLive(w2.db, r);
            && w2.db == w.db.(live := w2.db.live) && w2.outbox == w.outbox && w2.lastId == w.lastId
            && (other != r ==> GetLive(w2.db, other) == GetLive(w.db, other))
            && if e.fails(w.calls + 1) then w2.db == w.db
               else
                 && read.Some? && read.value.ruleId == r && read.value.lastError == message
                 && read.value.lastEvalAt == (if now >= MS then FloorMs(now) else ZERO_TIME)
                 && match was
                    case None =>
                      read.value.state == OK && read.value.incidentId == NO_ID && read.value.triggeredAt == ZERO_TIME && read.value.lastValue == ""
                    case Some(l) =>
                      && read.value.state == l.state && read.value.incidentId == l.incidentId
                      && read.value.triggeredAt == l.triggeredAt && read.value.lastValue == l.lastValue
  {
    if r in w.db.live {
      var ms := w.db.live[r].triggeredMs;
      assert StoredMs(LoadedTime(ms)) == if ms > 0 then ms else 0;
    }
  }

  /** The time of the latest evaluation of a rule, failed or not. */
  function LastEvaluation(evs: seq<Event>, r: RuleId): Option<Time> {
    if evs == [] then None
    else
      match evs[|evs| - 1]
      case TickEvent(j) => if j.rule.id == r then Some(j.now) else LastEvaluation(evs[..|evs| - 1], r)
      case ErrorEvent(id, _, now) => if id == r then Some(now) else LastEvaluation(evs[..|evs| - 1], r)
      case PruneEvent(_, _) => LastEvaluation(evs[..|evs| - 1], r)
  }

  /** The value of its latest evaluation that did not fail. */
  function LastValue(evs: seq<Event>, r: RuleId): string {
    if evs == [] then ""
    else
      var e := evs[|evs| - 1];
      if e.TickEvent? && e.job.rule.id == r then e.job.value else LastValue(evs[..|evs| - 1], r)
  }

  /** The message of its latest evaluation that failed, however long ago. */
  function LastError(evs: seq<Event>, r: RuleId): string {
    if evs == [] then ""
    else
      var e := evs[|evs| - 1];
      if e.ErrorEvent? && e.ruleId == r then e.message else LastError(evs[..|evs| - 1], r)
  }

  /** Over every run without failing calls, a rule has a stored live state exactly if it was ever
      evaluated, and that shows the time of the latest evaluation, the value of the latest one that
      did not fail, and the message of the latest one that did, which is never cleared. */
  lemma {:induction false} ShowsTheLatest(e: Env, ws: seq<World>, evs: seq<Event>, k: nat, r: RuleId)
    requires NoFailures(e) && Run(e, ws, evs) && AfterEpoch(evs) && k <= |evs|
    ensures match GetLive(ws[k].db, r)
            case None => LastEvaluation(evs[..k], r) == None
            case Some(l) =>
              && LastEvaluation(evs[..k], r).Some? && l.lastEvalAt == FloorMs(LastEvaluation(evs[..k], r).value)
              && l.lastValue == LastValue(evs[..k], r) && l.lastError == LastError(evs[..k], r)
    ensures GetLive(ws[k].db, r).None? ==> LastValue(evs[..k], r) == "" && LastError(evs[..k], r) == ""
  {
    if k > 0 {
      var n := k - 1;
      ShowsTheLatest(e, ws, evs, n, r);
      RunConsistent(e, ws, evs, n);
      assert evs[..k][..n] == evs[..n] && evs[..k][n] == evs[n];
      assert Step(e, ws[n], evs[n], ws[n + 1]);
      match evs[n]
      case TickEvent(j) => TickShows(e, ws[n], j, r);
      case ErrorEvent(id, message, now) => ErrorStored(e, ws[n], id, message, now, r);
      case PruneEvent(_, _) => assert ws[k].db.live == ws[n].db.live;
    }
  }

  lemma TickShows(e: Env, w: World, j: Job, r: RuleId)
    requires NoFailures(e) && Consistent(w) && j.now >= MS
    ensures var read := GetLive(Tick(e, w, j).w.db, j.rule.id);
            && read.Some? && read.value.lastValue == j.value && read.value.lastEvalAt == FloorMs(j.now)
            && read.value.lastError == (if j.rule.id in w.db.live then w.db.live[j.rule.id].lastError else "")
    ensures r != j.rule.id ==> GetLive(Tick(e, w, j).w.db, r) == GetLive(w.db, r)
  {
    TickConsistent(e, w, j);
    assert Tick(e, w, j).w.db.live == MarkedDb(w, j).live;
    ChangeMeaning(w, j);
    ApplyMeaning(LiveBefore(w, j), j.triggered, j.value, j.now, NewId(w, LiveBefore(w, j), j));
    LiveRoundTrip(w.db, LiveAfter(w, j), r);
  }

  // ----- audit rows -----

  /** Row `n` records message `x`, and is ok exactly if its channel accepted it. */
  ghost predicate IsRecordOf(e: Env, w: World, n: NoteRow, x: nat) {
    && x < |w.outbox| && Records(n, w.outbox[x]) && n.ok == e.sendOk(x)
    && exists s :: s in w.db.subscriptions && s.id == n.subscriptionId && s.subscriberId in w.db.subscribers
                   && w.db.subscribers[s.subscriberId].id == n.subscriberId
  }

  /** Row `a` records message `idx[a]`: rows and messages are in the same order, and each row has a
      new id. */
  ghost predicate Mirrors(e: Env, w: World, idx: seq<nat>) {
    && |idx| == |w.db.notes|
    && (forall a :: 0 <= a < |idx| ==> IsRecordOf(e, w, w.db.notes[a], idx[a]) && 0 < w.db.notes[a].id <= w.lastId)
    && (forall a, b :: 0 <= a < b < |idx| ==> idx[a] < idx[b] && w.db.notes[a].id < w.db.notes[b].id)
  }

  ghost predicate Mirrored(e: Env, w: World) {
    exists idx :: Mirrors(e, w, idx)
  }

  /** Calls, ids, further messages and rows of other tables make no difference. */
  lemma StillMirrors(e: Env, w: World, w2: World, idx: seq<nat>)
    requires Mirrors(e, w, idx) && w.lastId <= w2.lastId && w2.db.notes == w.db.notes && w.outbox <= w2.outbox
    requires w2.db.subscriptions == w.db.subscriptions && w2.db.subscribers == w.db.subscribers
    ensures Mirrors(e, w2, idx)
  {
    forall a | 0 <= a < |idx| ensures IsRecordOf(e, w2, w2.db.notes[a], idx[a]) {
      assert IsRecordOf(e, w, w.db.notes[a], idx[a]);
    }
  }

  lemma SameMirrored(e: Env, w: World, w2: World)
    requires Mirrored(e, w) && w.lastId <= w2.lastId && w2.db.notes == w.db.notes && w.outbox <= w2.outbox
    requires w2.db.subscriptions == w.db.subscriptions && w2.db.subscribers == w.db.subscribers
    ensures Mirrored(e, w2)
  {
    var idx: seq<nat> :| Mirrors(e, w, idx);
    StillMirrors(e, w, w2, idx);
  }

  /** One more message and its row. */
  lemma RowAppended(e: Env, w: World, w2: World, n: NoteRow)
    requires Mirrored(e, w) && w2.db == w.db.(notes := w.db.notes + [n]) && |w2.outbox| == |w.outbox| + 1 && w.outbox <= w2.outbox
    requires w2.lastId == n.id == w.lastId + 1 && IsRecordOf(e, w2, n, |w.outbox|)
    ensures Mirrored(e, w2)
  {
    var idx: seq<nat> :| Mirrors(e, w, idx);
    var x: nat := |w.outbox|;
    var idx2: seq<nat> := idx + [x];
    StillMirrors(e, w, w2.(db := w.db), idx);
    forall a | 0 <= a < |idx2| ensures IsRecordOf(e, w2, w2.db.notes[a], idx2[a]) && (a < |idx| ==> idx2[a] < x) {
      if a < |idx| {
        assert IsRecordOf(e, w, w.db.notes[a], idx[a]);
        assert IsRecordOf(e, w2.(db := w.db), w.db.notes[a], idx[a]);
      }
    }
    assert Mirrors(e, w2, idx2);
  }

  lemma PostOneMirrored(e: Env, w: World, r: RuleId, s: Subscription, i: Id, k: Kind, value: string, now: Time, b: Binding)
    requires Mirrored(e, w) && s in w.db.subscriptions && s.subscriberId in w.db.subscribers
    ensures Mirrored(e, PostOne(e, w, r, s, w.db.subscribers[s.subscriberId].id, i, k, value, now, b))
  {
    var w2 := PostOne(e, w, r, s, w.db.subscribers[s.subscriberId].id, i, k, value, now, b);
    if w2.db.notes == w.db.notes {
      SameMirrored(e, w, w2);
    } else {
      RowAppended(e, w, w2, w2.db.notes[|w.db.notes|]);
    }
  }

  lemma {:induction false} PostMirrored(e: Env, w: World, r: RuleId, s: Subscription, i: Id, k: Kind, value: string, now: Time, bindings: seq<Binding>)
    requires Mirrored(e, w) && s in w.db.subscriptions && s.subscriberId in w.db.subscribers
    ensures Mirrored(e, Post(e, w, r, s, w.db.subscribers[s.subscriberId].id, i, k, value, now, bindings))
    decreases |bindings|
  {
    if bindings != [] {
      PostOneMirrored(e, w, r, s, i, k, value, now, bindings[0]);
      PostMirrored(e, PostOne(e, w, r, s, w.db.subscribers[s.subscriberId].id, i, k, value, now, bindings[0]),
                   r, s, i, k, value, now, bindings[1..]);
    }
  }

  lemma DeliverMirrored(e: Env, w: World, r: RuleId, s: Subscription, i: Id, k: Kind, value: string, now: Time)
    requires Mirrored(e, w) && s in w.db.subscriptions
    ensures Mirrored(e, Deliver(e, w, r, s, i, k, value, now).w)
  {
    var start := if s.oneShot then Call(Call(w)) else Call(w);
    SameMirrored(e, w, start);
    SameMirrored(e, w, Call(w));
    if s.subscriberId in w.db.subscribers {
      PostMirrored(e, start, r, s, i, k, value, now, w.db.subscribers[s.subscriberId].channels);
    }
  }

  lemma EvaluateMirrored(e: Env, w: World, r: RuleId, ls: Live, s: Subscription, t: Transition, now: Time)
    requires Mirrored(e, w) && s in w.db.subscriptions
    ensures Mirrored(e, EvaluateSubscription(e, w, r, ls, s, t, now).w)
  {
    SameMirrored(e, w, Call(w));
    if Target(ls, t, s, now).Some? && !e.fails(w.calls) {
      var i := Target(ls, t, s, now).value;
      var p := Decide(i, t, s, GetSub(w.db, i, s.id), now);
      if p.Some? {
        var d := Deliver(e, Call(w), r, s, p.value.incidentId, p.value.kind, ls.lastValue, now);
        DeliverMirrored(e, Call(w), r, s, p.value.incidentId, p.value.kind, ls.lastValue, now);
        SameMirrored(e, d.w, SaveSub(e, d.w, p.value.state).w);
      }
    }
  }

  lemma {:induction false} EvaluateAllMirrored(e: Env, w: World, r: RuleId, ls: Live, subs: seq<Subscription>, t: Transition, now: Time)
    requires Mirrored(e, w) && forall x :: x in subs ==> x in w.db.subscriptions
    ensures Mirrored(e, EvaluateAll(e, w, r, ls, subs, t, now))
    decreases |subs|
  {
    if subs != [] {
      EvaluateMirrored(e, w, r, ls, subs[0], t, now);
      Views.EvaluateTouches(e, w, r, ls, subs[0], t, now);
      EvaluateAllMirrored(e, EvaluateSubscription(e, w, r, ls, subs[0], t, now).w, r, ls, subs[1..], t, now);
    }
  }

  lemma TickMirrored(e: Env, w: World, j: Job)
    requires Mirrored(e, w)
    ensures Mirrored(e, Tick(e, w, j).w)
  {
    var subs := ListForRule(w.db.subscriptions, j.rule);
    var start := TickReaches(e, w, j);
    SameMirrored(e, w, start);
    if SameLog(w, Tick(e, w, j).w) && w.lastId <= Tick(e, w, j).w.lastId {
      SameMirrored(e, w, Tick(e, w, j).w);
    } else {
      forall x | x in subs ensures x in w.db.subscriptions {
        ListedExactly(w.db.subscriptions, j.rule, x);
      }
      EvaluateAllMirrored(e, start, j.rule.id, LiveAfter(w, j), subs, Change(w, j), j.now);
    }
  }

  /** The positions that are left when the rows of some incidents are removed. */
  lemma {:induction false} RowsLeft(notes: seq<NoteRow>, incidents: set<Id>) returns (left: seq<nat>)
    ensures |left| == |NotesExcept(notes, incidents)|
    ensures forall a :: 0 <= a < |left| ==> left[a] < |notes| && NotesExcept(notes, incidents)[a] == notes[left[a]]
    ensures forall a, b :: 0 <= a < b < |left| ==> left[a] < left[b]
  {
    left := [];
    if notes != [] {
      left := RowsLeft(notes[..|notes| - 1], incidents);
      if notes[|notes| - 1].incidentId !in incidents {
        left := left + [|notes| - 1];
      }
    }
  }

  lemma PruneMirrored(e: Env, w: World, before: int, w2: World)
    requires Mirrored(e, w) && w2 == w.(db := Pruned(w.db, before), calls := w2.calls)
    ensures Mirrored(e, w2)
  {
    var idx: seq<nat> :| Mirrors(e, w, idx);
    var left := RowsLeft(w.db.notes, ResolvedBefore(w.db, before));
    var idx2 := seq(|left|, a requires 0 <= a < |left| => idx[left[a]]);
    forall a | 0 <= a < |idx2| ensures IsRecordOf(e, w2, w2.db.notes[a], idx2[a]) && 0 < w2.db.notes[a].id <= w2.lastId {
      assert IsRecordOf(e, w, w.db.notes[left[a]], idx[left[a]]);
    }
    assert Mirrors(e, w2, idx2);
  }

  /** In every store of every run, whatever fails and whatever is pruned, the audit rows record
      different messages that were sent, in their order, with their recipient, and are ok
      exactly if their message was accepted. */
  lemma {:induction false} RowsMirrorMessages(e: Env, ws: seq<World>, evs: seq<Event>, k: nat)
    requires Run(e, ws, evs) && k <= |evs|
    ensures Mirrored(e, ws[k])
  {
    if k == 0 {
      assert Mirrors(e, ws[0], []);
    } else {
      var n := k - 1;
      RowsMirrorMessages(e, ws, evs, n);
      assert Step(e, ws[n], evs[n], ws[n + 1]);
      match evs[n]
      case TickEvent(j) => TickMirrored(e, ws[n], j);
      case ErrorEvent(r, message, now) => SameMirrored(e, ws[n], ws[k]);
      case PruneEvent(at, window) =>
        if ws[k].db == ws[n].db {
          SameMirrored(e, ws[n], ws[k]);
        } else {
          PruneMirrored(e, ws[n], Millis(at - window), ws[k]);
        }
    }
  }
}
