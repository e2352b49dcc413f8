/** The dispatcher, and the error path of the scheduled evaluator, as they run: step by
    step against the store. */
module Dispatchers {
  import opened Base
  import opened RuleState
  import opened Tables
  import opened Storage
  import Dispatch

  class Dispatcher {
    const store: Store
    const channels: set<string>
    /** Whether the n-th message handed to a channel is accepted. */
    const sendOk: nat -> bool
    var lastId: nat
    var outbox: seq<Dispatch.Sent>

    constructor (store: Store, channels: set<string>, sendOk: nat -> bool)
      ensures this.store == store && this.channels == channels && this.sendOk == sendOk
      ensures World() == Dispatch.World(store.Contents(), store.calls, 0, [])
    {
      this.store, this.channels, this.sendOk := store, channels, sendOk;
      lastId, outbox := 0, [];
    }

    function World(): Dispatch.World
      reads this, store
    {
      Dispatch.World(store.Contents(), store.calls, lastId, outbox)
    }

    function Env(): Dispatch.Env {
      Dispatch.Env(store.fails, sendOk, channels)
    }

    method NextId() returns (id: Id)
      modifies this`lastId
      ensures id == lastId == old(lastId) + 1
    {
      lastId := lastId + 1;
      id := lastId;
    }

    method ChannelFilterSet(filter: seq<string>) returns (allowed: Option<set<string>>)
      ensures allowed.None? <==> filter == []
      ensures allowed.Some? ==> forall c :: c in allowed.value <==> c in filter
    {
      if |filter| == 0 {
        return None;
      }
      var out: set<string> := {};
      for k := 0 to |filter|
        invariant forall c :: c in out <==> c in filter[..k]
      {
        out := out + {filter[k]};
      }
      return Some(out);
    }

    /** Hand one message to a channel and record the attempt. */
    method SendAndRecord(ruleId: RuleId, s: Subscription, subscriberId: string, incidentId: Id, kind: Kind,
                         value: string, now: Time, binding: Binding) returns (ok: bool)
      requires Dispatch.Eligible(Env(), s, binding)
      modifies this, store
      ensures World() == Dispatch.PostOne(Env(), old(World()), ruleId, s, subscriberId, incidentId, kind, value, now, binding)
    {
      var id := NextId();
      ok := sendOk(|outbox|);
      outbox := outbox + [Dispatch.Sent(ruleId, s.id, incidentId, kind, value, binding.channel, binding.address, now)];
      var recordFailed := store.Record(
        NoteRow(id, incidentId, s.id, subscriberId, binding.channel, binding.address, kind, Millis(now), ok));
    }

    /** Past the one-shot gate: find the subscriber and send to each of its bindings. */
    method DeliverOpen(ruleId: RuleId, s: Subscription, incidentId: Id, kind: Kind, value: string, now: Time) returns (err: bool)
      modifies this, store
      ensures Dispatch.Outcome(World(), err) == Dispatch.DeliverOpen(Env(), old(World()), ruleId, s, incidentId, kind, value, now)
    {
      var subscriberRow, failed := store.GetSubscriber(s.subscriberId);
      if failed || subscriberRow.None? {
        return true;
      }
      var subscriber := subscriberRow.value;
      var allowed := ChannelFilterSet(s.channelFilter);
      var sentOK, sentErr, skipped := 0, 0, 0;
      ghost var target := Dispatch.Post(Env(), World(), ruleId, s, subscriber.id, incidentId, kind, value, now, subscriber.channels);
      for k := 0 to |subscriber.channels|
        invariant sentOK + sentErr + skipped == k
        invariant Dispatch.Post(Env(), World(), ruleId, s, subscriber.id, incidentId, kind, value, now, subscriber.channels[k..]) == target
      {
        var binding := subscriber.channels[k];
        assert subscriber.channels[k..][0] == binding;
        assert subscriber.channels[k..][1..] == subscriber.channels[k + 1..];
        if allowed.Some? && binding.channel !in allowed.value {
          skipped := skipped + 1;
          continue;
        }
        if binding.channel !in channels {
          skipped := skipped + 1;
          continue;
        }
        var ok := SendAndRecord(ruleId, s, subscriber.id, incidentId, kind, value, now, binding);
        if ok {
          sentOK := sentOK + 1;
        } else {
          sentErr := sentErr + 1;
        }
      }
      return false;
    }

    method Deliver(ruleId: RuleId, s: Subscription, incidentId: Id, kind: Kind, value: string, now: Time) returns (err: bool)
      modifies this, store
      ensures Dispatch.Outcome(World(), err) == Dispatch.Deliver(Env(), old(World()), ruleId, s, incidentId, kind, value, now)
    {
      if s.oneShot {
        var seen, failed := store.ExistsForSubscription(s.id);
        if failed {
          return true;
        }
        if seen {
          return false;
        }
      }
      err := DeliverOpen(ruleId, s, incidentId, kind, value, now);
    }

    /** Deliver, then save the sub-state that the delivery leaves behind. */
    method DeliverAndSave(ruleId: RuleId, s: Subscription, p: Dispatch.Pending, value: string, now: Time) returns (err: bool)
      modifies this, store
      ensures Dispatch.Outcome(World(), err) == Dispatch.DeliverAndSave(Env(), old(World()), ruleId, s, p, value, now)
    {
      err := Deliver(ruleId, s, p.incidentId, p.kind, value, now);
      if !err {
        err := store.UpsertSubState(p.state);
      }
    }

    method EvaluateSubscription(ruleId: RuleId, ls: LiveState, s: Subscription, t: Transition, now: Time) returns (err: bool)
      modifies this, store
      ensures Dispatch.Outcome(World(), err) == Dispatch.EvaluateSubscription(Env(), old(World()), ruleId, old(ls.View()), s, t, now)
    {
      // Resolution path.
      if t.Closed() && t.incidentId != NO_ID {
        var stored, failed := store.GetSubState(t.incidentId, s.id);
        if failed {
          return true;
        }
        if stored.None? || stored.value.notifyCount == 0 || stored.value.resolutionSent {
          return false;
        }
        if !s.notifyOnResolve {
          return false;
        }
        var resolved := Dispatch.Pending(t.incidentId, ResolvedKind, stored.value.(resolutionSent := true));
        err := DeliverAndSave(ruleId, s, resolved, ls.lastValue, now);
        return;
      }
      // Firing path.
      if ls.state != Firing {
        return false;
      }
      var triggeredFor := now - ls.triggeredAt;
      if triggeredFor < s.dwell {
        return false;
      }
      var stored, failed := store.GetSubState(ls.incidentId, s.id);
      if failed {
        return true;
      }
      var state := SubState(ls.incidentId, s.id, ZERO_TIME, 0, false);
      if stored.Some? {
        state := stored.value;
      }
      if state.notifyCount == 0 {
        state := state.(lastNotifiedAt := now, notifyCount := 1);
        err := DeliverAndSave(ruleId, s, Dispatch.Pending(ls.incidentId, FiringKind, state), ls.lastValue, now);
      } else if s.repeatInterval > 0 && now - state.lastNotifiedAt >= s.repeatInterval {
        state := state.(lastNotifiedAt := now, notifyCount := state.notifyCount + 1);
        err := DeliverAndSave(ruleId, s, Dispatch.Pending(ls.incidentId, RepeatKind, state), ls.lastValue, now);
      } else {
        err := false;
      }
    }

    method MarkIncident(j: Dispatch.Job, t: Transition) returns (err: bool)
      modifies store
      ensures Dispatch.Outcome(World(), err) == Dispatch.MarkIncident(Env(), old(World()), j, t)
    {
      err := false;
      if t.Opened() {
        err := store.OpenIncident(t.incidentId, j.rule.id, t.triggeredAt, j.value);
      } else if t.Closed() {
        err := store.ResolveIncident(t.incidentId, Millis(j.now));
      }
    }

    /** Evaluate the listed subscriptions one after the other, whatever errors they end in. */
    method EvaluateEach(j: Dispatch.Job, ls: LiveState, t: Transition, subs: seq<Subscription>)
      modifies this, store
      ensures World() == Dispatch.EvaluateAll(Env(), old(World()), j.rule.id, old(ls.View()), subs, t, j.now)
    {
      ghost var target := Dispatch.EvaluateAll(Env(), World(), j.rule.id, ls.View(), subs, t, j.now);
      for k := 0 to |subs|
        invariant ls.View() == old(ls.View())
        invariant Dispatch.EvaluateAll(Env(), World(), j.rule.id, ls.View(), subs[k..], t, j.now) == target
      {
        assert subs[k..][0] == subs[k] && subs[k..][1..] == subs[k + 1..];
        var subscriptionFailed := EvaluateSubscription(j.rule.id, ls, subs[k], t, j.now);
      }
    }

    method NotifyAll(j: Dispatch.Job, ls: LiveState, t: Transition) returns (err: bool)
      modifies this, store
      ensures Dispatch.Outcome(World(), err) == Dispatch.TickNotify(Env(), old(World()), j, old(ls.View()), t)
    {
      var subs, listFailed := store.ListSubscriptions(j.rule);
      if listFailed {
        return true;
      }
      EvaluateEach(j, ls, t, subs);
      return false;
    }

    method SaveAndNotify(j: Dispatch.Job, ls: LiveState, t: Transition) returns (err: bool)
      modifies this, store
      ensures Dispatch.Outcome(World(), err) == Dispatch.TickSave(Env(), old(World()), j, old(ls.View()), t)
    {
      // 3. Persist the live state.
      err := store.UpsertLiveState(ls);
      if err {
        return;
      }
      // 4. Open or close the incident.
      err := MarkIncident(j, t);
      if err {
        return;
      }
      // 5 and 6. Find the matching subscriptions and evaluate each of them.
      err := NotifyAll(j, ls, t);
    }

    /** The stored live state, or a seeded one when there is none or it cannot be read. */
    method LoadLiveState(ruleId: RuleId) returns (ls: LiveState, err: bool)
      modifies store
      ensures fresh(ls)
      ensures World() == Dispatch.Call(old(World())) && err == store.fails(old(store.calls))
      ensures ls.View() == if err then Seed(ruleId) else Dispatch.StoredOrSeed(old(store.Contents()), ruleId)
    {
      var found;
      found, err := store.GetLiveState(ruleId);
      if err || found == null {
        ls := new LiveState(Seed(ruleId));
      } else {
        ls := found;
      }
    }

    method Tick(j: Dispatch.Job) returns (err: bool)
      modifies this, store
      ensures Dispatch.Outcome(World(), err) == Dispatch.Tick(Env(), old(World()), j)
    {
      // 1. Load the current live state, or seed an OK one.
      var ls, failed := LoadLiveState(j.rule.id);
      if failed {
        return true;
      }
      // 2. Apply the outcome; a new incident gets its id up front.
      var newIncidentId := NO_ID;
      if j.triggered && ls.state != Firing {
        newIncidentId := NextId();
      }
      var t := ls.Apply(j.triggered, j.value, j.now, newIncidentId);
      err := SaveAndNotify(j, ls, t);
    }

    /** The error path of the scheduled evaluator. */
    method EvalError(ruleId: RuleId, message: string, now: Time)
      modifies this, store
      ensures World() == Dispatch.EvalError(Env(), old(World()), ruleId, message, now)
    {
      var ls, readFailed := LoadLiveState(ruleId);
      ls.lastEvalAt := now;
      ls.lastError := message;
      var saveFailed := store.UpsertLiveState(ls);
    }
  }
}
