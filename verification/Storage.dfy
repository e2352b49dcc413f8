/** The store: tables updated in place, one call at a time. Any call may fail, and a
    failed call has no effect on the tables. */
module Storage {
  import opened Base
  import opened RuleState
  import opened Conditions
  import opened Tables

  class Store {
    /** Whether the n-th store call fails. */
    const fails: nat -> bool
    var calls: nat

    var live: map<RuleId, LiveRow>
    var incidents: map<Id, IncidentRow>
    var subStates: map<(Id, SubId), SubStateRow>
    var notes: seq<NoteRow>
    var subscriptions: seq<Subscription>
    var subscribers: map<string, Subscriber>

    /** Open a database with whatever it holds. */
    constructor (fails: nat -> bool, db: Db)
      ensures this.fails == fails && calls == 0
      ensures Contents() == db
    {
      this.fails, calls := fails, 0;
      live, incidents, subStates, notes := db.live, db.incidents, db.subStates, db.notes;
      subscriptions, subscribers := db.subscriptions, db.subscribers;
    }

    function Contents(): Db
      reads this
    {
      Db(live, incidents, subStates, notes, subscriptions, subscribers)
    }

    // ----- live states -----

    method GetLiveState(ruleId: RuleId) returns (ls: LiveState?, err: bool)
      modifies this`calls
      ensures calls == old(calls) + 1 && err == fails(old(calls))
      ensures ls != null ==> fresh(ls)
      ensures !err ==> GetLive(Contents(), ruleId) == if ls == null then None else Some(ls.View())
    {
      err, ls := fails(calls), null;
      calls := calls + 1;
      if !err && ruleId in live {
        var row := live[ruleId];
        ls := new LiveState(Live(ruleId, row.state, LoadedTime(row.triggeredMs), LoadedTime(row.evalMs),
                                 row.lastValue, row.lastError, row.incidentId));
      }
    }

    method UpsertLiveState(ls: LiveState) returns (err: bool)
      modifies this`calls, this`live
      ensures calls == old(calls) + 1 && err == fails(old(calls))
      ensures Contents() == if err then old(Contents()) else PutLive(old(Contents()), ls.View())
    {
      err := fails(calls);
      calls := calls + 1;
      if !err {
        var trig := if ls.triggeredAt == ZERO_TIME then 0 else Millis(ls.triggeredAt);
        var eval := if ls.lastEvalAt == ZERO_TIME then 0 else Millis(ls.lastEvalAt);
        live := live[ls.ruleId := LiveRow(ls.state, trig, eval, ls.lastValue, ls.lastError, ls.incidentId)];
      }
    }

    // ----- incidents -----

    /** Insert an incident; the id is the primary key. */
    method OpenIncident(id: Id, ruleId: RuleId, triggeredAt: Time, value: string) returns (err: bool)
      modifies this`calls, this`incidents
      ensures calls == old(calls) + 1
      ensures err == (fails(old(calls)) || id in old(incidents))
      ensures Contents() == if err then old(Contents()) else Tables.OpenIncident(old(Contents()), id, ruleId, triggeredAt, value)
    {
      err := fails(calls) || id in incidents;
      calls := calls + 1;
      if !err {
        incidents := incidents[id := IncidentRow(ruleId, Millis(triggeredAt), None, value)];
      }
    }

    /** Set the resolution time; an unknown id updates nothing and is not an error. */
    method ResolveIncident(id: Id, resolvedMs: int) returns (err: bool)
      modifies this`calls, this`incidents
      ensures calls == old(calls) + 1 && err == fails(old(calls))
      ensures Contents() == if err then old(Contents()) else Tables.ResolveIncident(old(Contents()), id, resolvedMs)
    {
      err := fails(calls);
      calls := calls + 1;
      if !err && id in incidents {
        incidents := incidents[id := incidents[id].(resolvedMs := Some(resolvedMs))];
      }
    }

    method ListResolvedBefore(before: int) returns (ids: seq<Id>, err: bool)
      modifies this`calls
      ensures calls == old(calls) + 1 && err == fails(old(calls))
      ensures if err then ids == [] else ListsResolved(Contents(), before, ids)
    {
      err, ids := fails(calls), [];
      calls := calls + 1;
      if !err {
        var found := set i | i in incidents && incidents[i].resolvedMs.Some? && incidents[i].resolvedMs.value < before;
        ids := ByResolution(incidents, found);
      }
    }

    /** Delete the audit rows and sub-states of the given incidents, id by id. */
    method DeleteChildren(ids: set<Id>)
      modifies this`subStates, this`notes
      ensures notes == NotesExcept(old(notes), ids)
      ensures subStates == SubStatesExcept(old(subStates), ids)
    {
      var rest := ids;
      NotesExceptNothing(notes);
      assert ids - ids == {};
      while rest != {}
        invariant rest <= ids
        invariant notes == NotesExcept(old(notes), ids - rest)
        invariant subStates == SubStatesExcept(old(subStates), ids - rest)
        decreases rest
      {
        var id :| id in rest;
        NotesExceptTwice(old(notes), ids - rest, {id});
        assert ids - (rest - {id}) == (ids - rest) + {id};
        notes := NotesExcept(notes, {id});
        subStates := SubStatesExcept(subStates, {id});
        rest := rest - {id};
      }
      assert ids - {} == ids;
    }

    /** One transaction: collect the ids, delete their children, then the rows. */
    method DeleteResolvedBefore(before: int) returns (n: nat, err: bool)
      modifies this`calls, this`incidents, this`subStates, this`notes
      ensures calls == old(calls) + 1 && err == fails(old(calls))
      ensures Contents() == if err then old(Contents()) else Pruned(old(Contents()), before)
      ensures n == if err then 0 else |ResolvedBefore(old(Contents()), before)|
    {
      err, n := fails(calls), 0;
      calls := calls + 1;
      if !err {
        var ids := set i | i in incidents && incidents[i].resolvedMs.Some? && incidents[i].resolvedMs.value < before;
        assert ids == ResolvedBefore(old(Contents()), before);
        DeleteChildren(ids);
        n := |ids|;
        incidents := incidents - ids;
      }
    }

    // ----- audit rows -----

    method Record(n: NoteRow) returns (err: bool)
      modifies this`calls, this`notes
      ensures calls == old(calls) + 1 && err == fails(old(calls))
      ensures notes == if err then old(notes) else old(notes) + [n]
    {
      err := fails(calls);
      calls := calls + 1;
      if !err {
        notes := notes + [n];
      }
    }

    method ListForIncident(incidentId: Id) returns (rows: seq<NoteRow>, err: bool)
      modifies this`calls
      ensures calls == old(calls) + 1 && err == fails(old(calls))
      ensures rows == if err then [] else NotesFor(notes, incidentId)
    {
      err, rows := fails(calls), [];
      calls := calls + 1;
      if !err {
        for k := 0 to |notes|
          invariant calls == old(calls) + 1 && rows == NotesFor(notes[..k], incidentId)
        {
          assert notes[..k + 1] == notes[..k] + [notes[k]];
          AppendNote(notes[..k], notes[k], incidentId);
          if notes[k].incidentId == incidentId {
            rows := rows + [notes[k]];
          }
        }
        assert notes[..|notes|] == notes;
      }
    }

    /** Whether any audit row, of either status, exists for the subscription. */
    method ExistsForSubscription(subscriptionId: SubId) returns (seen: bool, err: bool)
      modifies this`calls
      ensures calls == old(calls) + 1 && err == fails(old(calls))
      ensures !err ==> seen == Tables.ExistsForSubscription(notes, subscriptionId)
    {
      err, seen := fails(calls), false;
      calls := calls + 1;
      if !err {
        seen := exists k :: 0 <= k < |notes| && notes[k].subscriptionId == subscriptionId;
      }
    }

    // ----- sub-states -----

    method GetSubState(incidentId: Id, subscriptionId: SubId) returns (s: Option<SubState>, err: bool)
      modifies this`calls
      ensures calls == old(calls) + 1 && err == fails(old(calls))
      ensures !err ==> s == GetSub(Contents(), incidentId, subscriptionId)
    {
      err, s := fails(calls), None;
      calls := calls + 1;
      if !err && (incidentId, subscriptionId) in subStates {
        var row := subStates[(incidentId, subscriptionId)];
        s := Some(SubState(incidentId, subscriptionId, LoadedTime(row.lastMs), row.count, row.resolved));
      }
    }

    method UpsertSubState(s: SubState) returns (err: bool)
      modifies this`calls, this`subStates
      ensures calls == old(calls) + 1 && err == fails(old(calls))
      ensures Contents() == if err then old(Contents()) else PutSub(old(Contents()), s)
    {
      err := fails(calls);
      calls := calls + 1;
      if !err {
        var lastMs := if s.lastNotifiedAt == ZERO_TIME then 0 else Millis(s.lastNotifiedAt);
        subStates := subStates[(s.incidentId, s.subscriptionId) := SubStateRow(lastMs, s.notifyCount, s.resolutionSent)];
      }
    }

    // ----- subscribers and subscriptions -----

    method GetSubscriber(id: string) returns (s: Option<Subscriber>, err: bool)
      modifies this`calls
      ensures calls == old(calls) + 1 && err == fails(old(calls))
      ensures !err ==> s == if id in subscribers then Some(subscribers[id]) else None
    {
      err, s := fails(calls), None;
      calls := calls + 1;
      if !err && id in subscribers {
        s := Some(subscribers[id]);
      }
    }

    method MatchLabels(selector: map<string, string>, actual: map<string, string>) returns (b: bool)
      ensures b == LabelsMatch(selector, actual)
      ensures b <==> |selector| > 0 && forall k :: k in selector ==>
                if selector[k] != "" then k in actual && actual[k] == selector[k] else k !in actual || actual[k] == ""
    {
      NotEmpty(selector);
      if |selector| == 0 {
        return false;
      }
      var rest := selector.Keys;
      while rest != {}
        invariant rest <= selector.Keys
        invariant forall k :: k in selector && k !in rest ==> Label(actual, k) == selector[k]
        decreases rest
      {
        var k :| k in rest;
        if Label(actual, k) != selector[k] {
          return false;
        }
        rest := rest - {k};
      }
      return true;
    }

    method ListSubscriptions(r: Rule) returns (out: seq<Subscription>, err: bool)
      modifies this`calls
      ensures calls == old(calls) + 1 && err == fails(old(calls))
      ensures !err ==> out == ListForRule(subscriptions, r)
      ensures !err ==> forall s :: s in out <==>
                s in subscriptions &&
                match s.ruleId
                case Some(id) => id == r.id
                case None =>
                  |s.selector| > 0 && forall k :: k in s.selector ==>
                    if s.selector[k] != "" then k in r.labels && r.labels[k] == s.selector[k] else k !in r.labels || r.labels[k] == ""
      ensures !err && DistinctIds(subscriptions) ==> DistinctIds(out)
      ensures forall a, b :: 0 <= a < b < |out| && out[b].ruleId.Some? ==> out[a].ruleId.Some?
    {
      err, out := fails(calls), [];
      calls := calls + 1;
      if err {
        return;
      }
      out := DirectMatches(subscriptions, r);
      for k := 0 to |subscriptions|
        invariant calls == old(calls) + 1
        invariant out + LabelMatches(subscriptions[k..], r) == ListForRule(subscriptions, r)
      {
        var s := subscriptions[k];
        assert subscriptions[k..] == [s] + subscriptions[k + 1..];
        if s.ruleId == None {
          var m := MatchLabels(s.selector, r.labels);
          if m {
            assert out + ([s] + LabelMatches(subscriptions[k + 1..], r)) == (out + [s]) + LabelMatches(subscriptions[k + 1..], r);
            out := out + [s];
          }
        }
      }
      NamingFirst(subscriptions, r);
      forall s { ListedExactly(subscriptions, r, s); }
      if DistinctIds(subscriptions) {
        ListForRuleExact(subscriptions, r);
      }
    }
  }

  predicate ResolvedFirst(incidents: map<Id, IncidentRow>, rest: set<Id>, i: Id)
    requires forall x :: x in rest ==> x in incidents && incidents[x].resolvedMs.Some?
  {
    i in rest && forall x :: x in rest ==> incidents[i].resolvedMs.value <= incidents[x].resolvedMs.value
  }

  lemma {:induction false} SomeFirst(incidents: map<Id, IncidentRow>, rest: set<Id>)
    requires forall x :: x in rest ==> x in incidents && incidents[x].resolvedMs.Some?
    requires rest != {}
    ensures exists i :: ResolvedFirst(incidents, rest, i)
    decreases rest
  {
    var x :| x in rest;
    if rest == {x} {
      assert ResolvedFirst(incidents, rest, x);
    } else {
      SomeFirst(incidents, rest - {x});
      var i :| ResolvedFirst(incidents, rest - {x}, i);
      var first := if incidents[x].resolvedMs.value < incidents[i].resolvedMs.value then x else i;
      assert ResolvedFirst(incidents, rest, first);
    }
  }

  /** The given incidents ordered by resolution time. */
  method ByResolution(incidents: map<Id, IncidentRow>, found: set<Id>) returns (ids: seq<Id>)
    requires forall x :: x in found ==> x in incidents && incidents[x].resolvedMs.Some?
    ensures forall i :: i in ids <==> i in found
    ensures forall a, b :: 0 <= a < b < |ids| ==>
              ids[a] != ids[b] && incidents[ids[a]].resolvedMs.value <= incidents[ids[b]].resolvedMs.value
  {
    ids := [];
    var rest := found;
    while rest != {}
      invariant rest <= found
      invariant forall i :: i in ids <==> i in found && i !in rest
      invariant forall a, b :: 0 <= a < b < |ids| ==>
                  ids[a] != ids[b] && incidents[ids[a]].resolvedMs.value <= incidents[ids[b]].resolvedMs.value
      invariant forall i, x :: i in ids && x in rest ==> incidents[i].resolvedMs.value <= incidents[x].resolvedMs.value
      decreases rest
    {
      SomeFirst(incidents, rest);
      var i :| i in rest && forall x :: x in rest ==> incidents[i].resolvedMs.value <= incidents[x].resolvedMs.value;
      ids := ids + [i];
      rest := rest - {i};
    }
  }

  lemma {:induction false} NotesExceptNothing(notes: seq<NoteRow>)
    ensures NotesExcept(notes, {}) == notes
  {
    if notes != [] {
      NotesExceptNothing(notes[..|notes| - 1]);
    }
  }
}
