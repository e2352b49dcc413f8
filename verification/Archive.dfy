/** The retention loop races with ticks between listing what to delete and deleting it. */
module Archive {
  import opened Base
  import opened RuleState
  import opened Tables
  import opened Dispatch
  import opened Machine
  import opened Concurrent
  import opened Safety

  /** From one store to the other, what is below the cutoff stays as it is, and just the
      incidents `late` join it. */
  ghost predicate GrowsBelow(db: Db, db2: Db, cutoff: int, late: set<Id>) {
    && late !! ResolvedBefore(db, cutoff)
    && (forall i :: i in ResolvedBefore(db2, cutoff) <==> i in ResolvedBefore(db, cutoff) || i in late)
    && (forall i :: i in ResolvedBefore(db, cutoff) ==> db2.incidents[i] == db.incidents[i])
  }

  /** From one store to the other, an incident has gained just the audit rows `more`. */
  predicate GainsNotes(db: Db, db2: Db, i: Id, more: seq<NoteRow>) {
    NotesFor(db2.notes, i) == NotesFor(db.notes, i) + NotesFor(more, i)
  }

  lemma MarkGrowsBelow(e: Env, w: World, past: Past, r: RuleId, k: Task, cutoff: int)
    requires Ready(w, past, r, k) && k.Mark? && AboutRule(k) == Some(r)
    ensures var st := Step(e, w, k);
            GrowsBelow(w.db, st.w.db, cutoff, LateClose(w, k, st.k, cutoff))
  {
    if k.t.Opened() {
      assert k.t.incidentId !in w.db.incidents;
    } else if k.t.Closed() {
      var i := k.t.incidentId;
      if i in w.db.incidents {
        assert Unsettled(w, past, r, k, i);
        assert UnresolvedOk(w, past, r, k);
        assert Unresolved(w.db, i);
      }
    }
  }

  lemma StepGrowsBelow(e: Env, w: World, past: Past, r: RuleId, k: Task, cutoff: int)
    requires Ready(w, past, r, k) && WellFormed(k) && AboutRule(k) == Some(r)
    ensures var st := Step(e, w, k);
            GrowsBelow(w.db, st.w.db, cutoff, LateClose(w, k, st.k, cutoff))
  {
    if k.Mark? {
      MarkGrowsBelow(e, w, past, r, k, cutoff);
    } else {
      assert Step(e, w, k).w.db.incidents == w.db.incidents;
    }
  }

  /** A tick only adds audit rows to an incident that is open, or that it closed itself. */
  lemma DeliveryAboveCutoff(w: World, past: Past, r: RuleId, k: Task, cutoff: int)
    requires Ready(w, past, r, k) && Delivering(k) && NotBefore(k, cutoff)
    ensures k.p.incidentId !in ResolvedBefore(w.db, cutoff)
  {
    var i := k.p.incidentId;
    if i in w.db.incidents && !k.t.Closed() {
      assert i == LiveId(w.db, r) && i in past.inserted && past.born[i] == r;
      assert Unsettled(w, past, r, k, i);
      assert UnresolvedOk(w, past, r, k);
      assert Unresolved(w.db, i);
    }
  }

  lemma OneNote(n: NoteRow, i: Id)
    ensures NotesFor([n], i) == if n.incidentId == i then [n] else []
  {
    AppendNote([], n, i);
    assert [] + [n] == [n];
  }

  /** A step gains an offered incident just the late row, if any; a timely step gains it none. */
  lemma StepGainsNotes(e: Env, w: World, past: Past, r: RuleId, k: Task, cutoff: int, offered: map<Id, Offer>)
    requires Ready(w, past, r, k) && WellFormed(k)
    requires forall i :: i in offered ==> i in ResolvedBefore(w.db, cutoff)
    ensures var st := Step(e, w, k);
            && (forall i :: i in offered ==> GainsNotes(w.db, st.w.db, i, LateRow(w, st.w, offered)))
            && (NotBefore(k, cutoff) ==> LateRow(w, st.w, offered) == [])
  {
    var st := Step(e, w, k);
    StepRecords(e, w, k);
    if st.w.db.notes != w.db.notes && NotBefore(k, cutoff) {
      DeliveryAboveCutoff(w, past, r, k, cutoff);
    }
    forall i | i in offered ensures GainsNotes(w.db, st.w.db, i, LateRow(w, st.w, offered)) {
      RowGains(w, st.w, offered, i);
    }
  }

  /** A step records at most one row, and that one for the incident it delivers about. */
  predicate OneRowMore(w: World, w2: World) {
    w2.db.notes == w.db.notes || (|w2.db.notes| == |w.db.notes| + 1 && w.db.notes <= w2.db.notes)
  }

  lemma StepRecords(e: Env, w: World, k: Task)
    requires WellFormed(k)
    ensures var w2 := Step(e, w, k).w;
            && OneRowMore(w, w2)
            && (w2.db.notes != w.db.notes ==> Delivering(k) && w2.db.notes[|w.db.notes|].incidentId == k.p.incidentId)
  {
  }

  lemma RowGains(w: World, w2: World, offered: map<Id, Offer>, i: Id)
    requires OneRowMore(w, w2) && i in offered
    ensures GainsNotes(w.db, w2.db, i, LateRow(w, w2, offered))
  {
    assert NotesFor(w.db.notes, i) + [] == NotesFor(w.db.notes, i);
    if w2.db.notes != w.db.notes {
      var row := w2.db.notes[|w.db.notes|];
      assert w2.db.notes == w.db.notes + [row];
      AppendNote(w.db.notes, row, i);
      OneNote(row, i);
    }
  }

  /** What is still to be offered, what was offered and what escaped are together what is
      below the cutoff, each as it is stored. */
  ghost predicate Covers(p: PruneTask, db: Db)
    requires p.Archiving?
  {
    && p.todo.Keys !! p.offered.Keys && p.escaped !! p.todo.Keys + p.offered.Keys
    && (forall i :: i in ResolvedBefore(db, p.cutoff) <==> i in p.todo || i in p.offered || i in p.escaped)
    && (forall i :: i in p.todo ==> p.todo[i] == db.incidents[i])
    && (forall i :: i in p.offered ==> p.offered[i].row == db.incidents[i])
  }

  ghost predicate RowsAccounted(p: PruneTask, db: Db)
    requires p.Archiving?
  {
    (forall n :: n in p.strays ==> n.incidentId in p.offered) && (p.complete ==> NotesExact(p, db))
  }

  ghost predicate OffersExact(p: PruneTask, db: Db)
    requires p.Archiving?
  {
    Covers(p, db) && RowsAccounted(p, db) && (p.timely ==> p.escaped == {} && p.strays == [])
  }

  /** The audit rows of an offered incident are those that were offered and the strays. */
  ghost predicate NotesExact(p: PruneTask, db: Db)
    requires p.Archiving?
  {
    forall i :: i in p.offered ==> NotesFor(db.notes, i) == p.offered[i].notes + NotesFor(p.strays, i)
  }

  ghost predicate Watched(sys: System) {
    sys.prune.Archiving? ==>
      OffersExact(sys.prune, sys.w.db) && (sys.prune.timely ==> AllTimely(sys, sys.prune.cutoff))
  }

  lemma GrowthCovers(p: PruneTask, db: Db, db2: Db, late: set<Id>, strays: seq<NoteRow>)
    requires p.Archiving? && Covers(p, db) && GrowsBelow(db, db2, p.cutoff, late)
    ensures Covers(p.(escaped := p.escaped + late, strays := strays), db2)
  {
  }

  lemma GainsAccounted(p: PruneTask, db: Db, db2: Db, escaped: set<Id>, late: seq<NoteRow>)
    requires p.Archiving? && RowsAccounted(p, db) && forall n :: n in late ==> n.incidentId in p.offered
    requires forall i :: i in p.offered ==> GainsNotes(db, db2, i, late)
    ensures RowsAccounted(p.(escaped := escaped, strays := p.strays + late), db2)
  {
    forall i | i in p.offered
      ensures p.complete ==> NotesFor(db2.notes, i) == p.offered[i].notes + NotesFor(p.strays + late, i)
    {
      NotesForConcat(p.strays, late, i);
    }
  }

  lemma WorkKeepsOffers(c: Config, sys: System, g: Worker)
    requires Inv(sys) && Watched(sys) && sys.prune.Archiving?
    ensures var sys2 := Act(c, sys, Work(g));
            sys2.prune.Archiving? && OffersExact(sys2.prune, sys2.w.db)
  {
    var k, p := TaskOf(sys, g), sys.prune;
    var st := Step(c.e, sys.w, k);
    if k.Idle? {
      assert p.escaped + {} == p.escaped && p.strays + [] == p.strays;
      assert Missed(p, sys.w, k, st) == p;
    } else {
      var r := AboutRule(k).value;
      var ids, rows := LateClose(sys.w, k, st.k, p.cutoff), LateRow(sys.w, st.w, p.offered);
      assert Current(sys, r) == k && RuleOk(sys.w, sys.past, r, k);
      StepGrowsBelow(c.e, sys.w, sys.past, r, k, p.cutoff);
      StepGainsNotes(c.e, sys.w, sys.past, r, k, p.cutoff, p.offered);
      GrowthCovers(p, sys.w.db, st.w.db, ids, p.strays + rows);
      GainsAccounted(p, sys.w.db, st.w.db, p.escaped + ids, rows);
      assert Missed(p, sys.w, k, st) == p.(escaped := p.escaped + ids, strays := p.strays + rows);
    }
  }

  lemma {:induction false} NotesForConcat(a: seq<NoteRow>, b: seq<NoteRow>, i: Id)
    ensures NotesFor(a + b, i) == NotesFor(a, i) + NotesFor(b, i)
  {
    if b == [] {
      assert a + b == a;
    } else {
      var front, n := b[..|b| - 1], b[|b| - 1];
      NotesForConcat(a, front, i);
      AppendNote(a + front, n, i);
      assert a + b == a + front + [n];
    }
  }

  lemma {:induction false} NotesForNone(notes: seq<NoteRow>, i: Id)
    requires forall n :: n in notes ==> n.incidentId != i
    ensures NotesFor(notes, i) == []
  {
    if notes != [] {
      assert notes[|notes| - 1] in notes;
      NotesForNone(notes[..|notes| - 1], i);
    }
  }

  /** The prune after the fetch of audit rows for `i`. */
  function Offered(p: PruneTask, db: Db, i: Id, failed: bool): PruneTask
    requires p.Archiving? && i in p.todo
  {
    var offer := Offer(p.todo[i], if failed then [] else NotesFor(db.notes, i));
    p.(todo := p.todo - {i}, offered := p.offered[i := offer], complete := p.complete && !failed)
  }

  lemma OfferCovers(p: PruneTask, db: Db, i: Id, failed: bool)
    requires p.Archiving? && i in p.todo && Covers(p, db)
    ensures Covers(Offered(p, db, i, failed), db)
  {
    var p2 := Offered(p, db, i, failed);
    assert p2.todo.Keys == p.todo.Keys - {i} && p2.offered.Keys == p.offered.Keys + {i};
  }

  lemma OfferAccounted(p: PruneTask, db: Db, i: Id, failed: bool)
    requires p.Archiving? && i in p.todo && i !in p.offered && RowsAccounted(p, db)
    ensures RowsAccounted(Offered(p, db, i, failed), db)
  {
    var p2 := Offered(p, db, i, failed);
    NotesForNone(p.strays, i);
    forall o | o in p2.offered
      ensures p2.complete ==> NotesFor(db.notes, o) == p2.offered[o].notes + NotesFor(p.strays, o)
    {
      assert o == i ==> NotesFor(db.notes, i) + [] == NotesFor(db.notes, i);
    }
  }

  lemma ActKeepsOffers(c: Config, sys: System, a: Action)
    requires Inv(sys) && Watched(sys)
    ensures var sys2 := Act(c, sys, a);
            sys2.prune.Archiving? ==> OffersExact(sys2.prune, sys2.w.db)
  {
    match a
    case Work(g) => if sys.prune.Archiving? { WorkKeepsOffers(c, sys, g); }
    case PruneOffer(i) =>
      if sys.prune.Archiving? && i in sys.prune.todo {
        OfferCovers(sys.prune, sys.w.db, i, c.e.fails(sys.w.calls));
        OfferAccounted(sys.prune, sys.w.db, i, c.e.fails(sys.w.calls));
      }
    case PruneList =>
    case _ =>
      var sys2 := Act(c, sys, a);
      assert sys2.prune.Archiving? ==> (sys2.prune == sys.prune
        && sys2.w.db.incidents == sys.w.db.incidents && sys2.w.db.notes == sys.w.db.notes);
  }

  lemma WatchKeepsOffers(sys: System)
    requires sys.prune.Archiving? ==> OffersExact(sys.prune, sys.w.db)
    ensures Watched(Watch(sys))
  {
  }

  lemma NextKeepsOffers(c: Config, sys: System, a: Action)
    requires Inv(sys) && Watched(sys)
    ensures Watched(Next(c, sys, a))
  {
    ActKeepsOffers(c, sys, a);
    WatchKeepsOffers(Act(c, sys, a));
  }

  lemma {:induction false} OffersAlwaysExact(c: Config, subscriptions: seq<Subscription>, subscribers: map<string, Subscriber>, actions: seq<Action>)
    requires DistinctIds(subscriptions)
    ensures Watched(Exec(c, Start(subscriptions, subscribers), actions))
  {
    if actions != [] {
      var before := actions[..|actions| - 1];
      OffersAlwaysExact(c, subscriptions, subscribers, before);
      Always(c, subscriptions, subscribers, before);
      NextKeepsOffers(c, Exec(c, Start(subscriptions, subscribers), before), actions[|actions| - 1]);
    }
  }

  /** The incidents that a delete removes. */
  function Deleted(db: Db, cutoff: int): set<Id> {
    db.incidents.Keys - Pruned(db, cutoff).incidents.Keys
  }

  /** When everything listed has been offered: the delete is going to remove exactly what was
      offered, unchanged since the listing, and what late ticks closed in between. */
  ghost predicate DeletesOfferedAndEscaped(p: PruneTask, db: Db) {
    p.Archiving? && p.todo == map[] ==>
      && Deleted(db, p.cutoff) == p.offered.Keys + p.escaped && p.offered.Keys !! p.escaped
      && (forall i :: i in p.offered ==> p.offered[i].row == db.incidents[i])
      && (Deleted(db, p.cutoff) == p.offered.Keys <==> p.escaped == {})
  }

  /** What a delete removes, under every interleaving and whatever fails: exactly the incidents
      that were offered and those that late ticks closed in between. So offered and deleted
      are the same incidents exactly if no tick that had read its clock before the cutoff
      closed one after the listing. */
  lemma DeletedExactly(c: Config, subscriptions: seq<Subscription>, subscribers: map<string, Subscriber>, actions: seq<Action>)
    requires DistinctIds(subscriptions)
    ensures var sys := Exec(c, Start(subscriptions, subscribers), actions);
            DeletesOfferedAndEscaped(sys.prune, sys.w.db)
  {
    OffersAlwaysExact(c, subscriptions, subscribers, actions);
    var sys := Exec(c, Start(subscriptions, subscribers), actions);
    var p, db := sys.prune, sys.w.db;
    if p.Archiving? && p.todo == map[] {
      assert forall i :: i in Deleted(db, p.cutoff) <==> i in ResolvedBefore(db, p.cutoff);
    }
  }

  /** Everything that the delete is going to remove, incidents with their audit rows, was offered. */
  ghost predicate AllWasOffered(p: PruneTask, db: Db)
    requires p.Archiving?
  {
    forall i :: i in Deleted(db, p.cutoff) ==> i in p.offered && p.offered[i].notes == NotesFor(db.notes, i)
  }

  /** Rows included, under every interleaving and whatever else fails: if every fetch of audit
      rows succeeded, an offered incident loses the rows that were offered and the strays; and
      everything that is deleted was offered exactly if nothing escaped and no row was
      recorded for an incident after it was offered. */
  lemma DeletedRowsExactly(c: Config, subscriptions: seq<Subscription>, subscribers: map<string, Subscriber>, actions: seq<Action>)
    requires DistinctIds(subscriptions)
    ensures var sys := Exec(c, Start(subscriptions, subscribers), actions);
            var p, db := sys.prune, sys.w.db;
            p.Archiving? && p.todo == map[] && p.complete ==>
              NotesExact(p, db) && (AllWasOffered(p, db) <==> p.escaped == {} && p.strays == [])
  {
    OffersAlwaysExact(c, subscriptions, subscribers, actions);
    DeletedExactly(c, subscriptions, subscribers, actions);
    var sys := Exec(c, Start(subscriptions, subscribers), actions);
    var p, db := sys.prune, sys.w.db;
    if p.Archiving? && p.todo == map[] && p.complete {
      if i :| i in p.escaped {
        assert i in Deleted(db, p.cutoff) && i !in p.offered;
      } else if p.strays != [] {
        StraysShow(p, db, p.strays[0].incidentId);
      } else {
        assert forall i :: i in p.offered ==> p.offered[i].notes + [] == p.offered[i].notes;
      }
    }
  }

  lemma StraysShow(p: PruneTask, db: Db, i: Id)
    requires p.Archiving? && NotesExact(p, db) && i in p.offered
    requires exists n :: n in p.strays && n.incidentId == i
    ensures NotesFor(db.notes, i) != p.offered[i].notes
  {
    NotesForMembers(p.strays, i);
    assert |NotesFor(p.strays, i)| > 0;
  }

  /** The incidents and the audit rows that the delete is going to remove are exactly those that
      were offered. */
  ghost predicate DeletesWhatWasOffered(p: PruneTask, db: Db)
    requires p.Archiving?
  {
    && Deleted(db, p.cutoff) == p.offered.Keys
    && (forall i :: i in p.offered ==> p.offered[i].row == db.incidents[i])
    && (forall i :: i in p.offered ==> forall n :: n in p.offered[i].notes ==> n.incidentId == i)
    && (forall n :: n in db.notes && n !in Pruned(db, p.cutoff).notes <==>
          n.incidentId in p.offered && n in p.offered[n.incidentId].notes)
  }

  /** Archive equals delete: if every fetch of audit rows succeeded and no tick under way since
      the listing had read its clock before the cutoff, then, whatever ticks did in between,
      the incidents and audit rows that the delete removes are exactly those offered. */
  lemma ArchiveEqualsDelete(c: Config, subscriptions: seq<Subscription>, subscribers: map<string, Subscriber>, actions: seq<Action>)
    requires DistinctIds(subscriptions)
    ensures var sys := Exec(c, Start(subscriptions, subscribers), actions);
            var p := sys.prune;
            p.Archiving? && p.todo == map[] && p.timely && p.complete ==> DeletesWhatWasOffered(p, sys.w.db)
  {
    OffersAlwaysExact(c, subscriptions, subscribers, actions);
    DeletedRowsExactly(c, subscriptions, subscribers, actions);
    DeletedExactly(c, subscriptions, subscribers, actions);
    var sys := Exec(c, Start(subscriptions, subscribers), actions);
    var p, db := sys.prune, sys.w.db;
    if p.Archiving? && p.todo == map[] && p.timely && p.complete {
      NotesExceptMembers(db.notes, ResolvedBefore(db, p.cutoff));
      forall i | i in p.offered
        ensures forall n :: n in p.offered[i].notes <==> n in db.notes && n.incidentId == i
      {
        NotesForMembers(db.notes, i);
      }
    }
  }
}
