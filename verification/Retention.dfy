/** One retention pass: list, archive, delete. */
module Retention {
  import opened Base
  import opened RuleState
  import opened Tables
  import opened Storage

  /** What the archiver is handed. */
  datatype Archived = Archived(incidentId: Id, row: IncidentRow, notes: seq<NoteRow>)

  /** Incident `i` as it is stored, with its audit rows, or with none if they could not be read. */
  predicate FaithfulOffer(db: Db, i: Id, unread: bool, offer: Archived) {
    && i in db.incidents && offer.incidentId == i && offer.row == db.incidents[i]
    && offer.notes == if unread then [] else NotesFor(db.notes, i)
  }

  /** The faithful offers of `ids`, in order; their audit rows are read by the calls numbered
      from `call` on. */
  predicate OffersOf(db: Db, fails: nat -> bool, call: nat, ids: seq<Id>, offers: seq<Archived>) {
    |offers| == |ids| && forall k :: 0 <= k < |offers| ==> FaithfulOffer(db, ids[k], fails(call + k), offers[k])
  }

  lemma OneMoreOffer(db: Db, fails: nat -> bool, call: nat, ids: seq<Id>, offers: seq<Archived>, i: Id, offer: Archived)
    requires OffersOf(db, fails, call, ids, offers) && FaithfulOffer(db, i, fails(call + |offers|), offer)
    ensures OffersOf(db, fails, call, ids + [i], offers + [offer])
  {
    var ids2, more := ids + [i], offers + [offer];
    forall k | 0 <= k < |more| ensures FaithfulOffer(db, ids2[k], fails(call + k), more[k]) {
      if k < |offers| {
        assert more[k] == offers[k] && ids2[k] == ids[k];
      }
    }
  }

  class Pruner {
    const store: Store
    const window: int
    const archiver: bool
    /** Everything handed to the archiver, in order; whether it accepts it makes no difference. */
    var archive: seq<Archived>

    /** A pruner needs a positive window; `New` refuses any other. */
    constructor (store: Store, window: int, archiver: bool)
      requires window > 0
      ensures this.store == store && this.window == window && this.archiver == archiver && archive == []
    {
      this.store, this.window, this.archiver := store, window, archiver;
      archive := [];
    }

    /** Read the audit rows of one candidate and hand both to the archiver. */
    method ArchiveOne(id: Id) returns (ghost offer: Archived)
      requires id in store.incidents
      modifies this`archive, store`calls
      ensures store.calls == old(store.calls) + 1
      ensures archive == old(archive) + [offer]
      ensures store.Contents() == old(store.Contents())
      ensures FaithfulOffer(old(store.Contents()), id, store.fails(old(store.calls)), offer)
    {
      var notes, err := store.ListForIncident(id);
      var archived := Archived(id, store.incidents[id], notes);
      archive := archive + [archived];
      offer := archived;
    }

    /** Hand every candidate to the archiver, once and in order, with its audit rows or, if they
        cannot be read, with none. */
    method ArchiveAll(candidates: seq<Id>) returns (ghost offers: seq<Archived>)
      requires forall i :: i in candidates ==> i in store.incidents
      modifies this`archive, store`calls
      ensures store.Contents() == old(store.Contents())
      ensures store.calls == old(store.calls) + |candidates|
      ensures archive == old(archive) + offers
      ensures OffersOf(store.Contents(), store.fails, old(store.calls), candidates, offers)
    {
      offers := [];
      ghost var db := store.Contents();
      for k := 0 to |candidates|
        invariant store.Contents() == db && archive == old(archive) + offers
        invariant store.calls == old(store.calls) + k
        invariant OffersOf(db, store.fails, old(store.calls), candidates[..k], offers)
      {
        ghost var offer := ArchiveOne(candidates[k]);
        OneMoreOffer(db, store.fails, old(store.calls), candidates[..k], offers, candidates[k], offer);
        offers := offers + [offer];
        assert candidates[..k + 1] == candidates[..k] + [candidates[k]];
      }
      assert candidates[..|candidates|] == candidates;
    }

    /** Archive the candidates, if there is an archiver, and then delete. */
    method ArchiveAndDelete(candidates: seq<Id>, cutoff: int) returns (ghost offers: seq<Archived>)
      requires forall i :: i in candidates ==> i in store.incidents
      modifies this`archive, store
      ensures archive == old(archive) + offers
      ensures if archiver then OffersOf(old(store.Contents()), store.fails, old(store.calls), candidates, offers) else offers == []
      ensures store.Contents() ==
              if store.fails(old(store.calls) + |offers|) then old(store.Contents()) else Pruned(old(store.Contents()), cutoff)
    {
      offers := [];
      if archiver {
        offers := ArchiveAll(candidates);
      }
      var n, failed := store.DeleteResolvedBefore(cutoff);
    }

    /** A pass either does nothing or deletes exactly what was resolved before the cutoff, each
        incident having been handed to the archiver once, as it was stored, beforehand, by
        resolution time. A failing delete leaves the store as it is. */
    method RunOnce(now: Time) returns (ghost ids: seq<Id>, ghost offers: seq<Archived>)
      modifies this`archive, store
      ensures archive == old(archive) + offers
      ensures var db, call, cutoff := old(store.Contents()), old(store.calls), Millis(now - window);
              if store.fails(call) || ResolvedBefore(db, cutoff) == {} then offers == [] && store.Contents() == db
              else
                var deleteFails := store.fails(call + 1 + |offers|);
                && ListsResolved(db, cutoff, ids)
                && (if archiver then OffersOf(db, store.fails, call + 1, ids, offers) else offers == [])
                && store.Contents() == if deleteFails then db else Pruned(db, cutoff)
    {
      ids, offers := [], [];
      var cutoff := Millis(now - window);
      var candidates, err := store.ListResolvedBefore(cutoff);
      ids := candidates;
      if err {
        return;
      }
      ListedAny(store.Contents(), cutoff, candidates);
      if |candidates| == 0 {
        return;
      }
      offers := ArchiveAndDelete(candidates, cutoff);
    }
  }
}
