/** The live state of a rule and the OK/FIRING machine that `Apply` runs on it. */
module RuleState {
  import opened Base

  datatype State = OK | Firing

  /** Id of an incident or of an audit row; 0 stands for the empty id. */
  type Id = nat
  const NO_ID: Id := 0

  type RuleId = string

  /** The fields of a live state, as a value. */
  datatype Live = Live(
    ruleId: RuleId,
    state: State,
    triggeredAt: Time,
    lastEvalAt: Time,
    lastValue: string,
    lastError: string,
    incidentId: Id)

  /** The state seeded for a rule that has no stored row. */
  function Seed(ruleId: RuleId): Live {
    Live(ruleId, OK, ZERO_TIME, ZERO_TIME, "", "", NO_ID)
  }

  datatype Transition = Transition(
    ruleId: RuleId,
    prev: State,
    next: State,
    now: Time,
    triggeredAt: Time,
    incidentId: Id,
    lastValue: string)
  {
    predicate IsTransition() { prev != next }

    predicate Opened() { prev == OK && next == Firing }

    predicate Closed() { prev == Firing && next == OK }
  }

  /** The live state after one evaluation outcome. */
  function Applied(l: Live, triggered: bool, value: string, now: Time, newId: Id): Live {
    var l1 := l.(lastEvalAt := now, lastValue := value);
    if triggered && l.state != Firing then
      l1.(state := Firing, triggeredAt := now, incidentId := if newId != NO_ID then newId else l.incidentId)
    else if !triggered && l.state == Firing then
      l1.(state := OK, triggeredAt := ZERO_TIME, incidentId := NO_ID)
    else
      l1
  }

  /** The transition reported for one evaluation outcome. */
  function TransitionOf(l: Live, triggered: bool, value: string, now: Time, newId: Id): Transition {
    var l1 := Applied(l, triggered, value, now, newId);
    Transition(l.ruleId, l.state, if triggered then Firing else OK, now,
               if triggered then l1.triggeredAt else ZERO_TIME,
               if triggered then l1.incidentId else if l.state == Firing then l.incidentId else NO_ID,
               value)
  }

  /** What one step promises: the next state is what was observed; an opening carries
      the new incident and the current time; a closing names the incident it ends and
      clears it from the state; otherwise incident and start are kept. */
  lemma ApplyMeaning(l: Live, triggered: bool, value: string, now: Time, newId: Id)
    requires triggered && l.state != Firing ==> newId != NO_ID
    ensures var l1 := Applied(l, triggered, value, now, newId);
            var t := TransitionOf(l, triggered, value, now, newId);
            && (l1.state == Firing <==> triggered)
            && l1.state == t.next && l.state == t.prev
            && (t.IsTransition() <==> t.Opened() || t.Closed())
            && !(t.Opened() && t.Closed())
            && (t.Opened() ==> t.incidentId == l1.incidentId == newId && l1.triggeredAt == t.triggeredAt == now)
            && (t.Closed() ==> t.incidentId == l.incidentId && l1.incidentId == NO_ID && l1.triggeredAt == ZERO_TIME)
            && (!t.IsTransition() ==> l1.incidentId == l.incidentId && l1.triggeredAt == l.triggeredAt)
            && (!t.IsTransition() && triggered ==> t.incidentId == l.incidentId && t.triggeredAt == l.triggeredAt)
            && l1.ruleId == l.ruleId && l1.lastError == l.lastError && l1.lastEvalAt == now && l1.lastValue == value
            && t.ruleId == l.ruleId && t.now == now && t.lastValue == value
  {
  }

  /** The record `Apply` updates in place. */
  class LiveState {
    var ruleId: RuleId
    var state: State
    var triggeredAt: Time
    var lastEvalAt: Time
    var lastValue: string
    var lastError: string
    var incidentId: Id

    constructor (l: Live)
      ensures View() == l
    {
      ruleId, state := l.ruleId, l.state;
      triggeredAt, lastEvalAt := l.triggeredAt, l.lastEvalAt;
      lastValue, lastError := l.lastValue, l.lastError;
      incidentId := l.incidentId;
    }

    function View(): Live
      reads this
    {
      Live(ruleId, state, triggeredAt, lastEvalAt, lastValue, lastError, incidentId)
    }

    method Apply(triggered: bool, value: string, now: Time, newIncidentId: Id) returns (t: Transition)
      modifies this
      ensures View() == Applied(old(View()), triggered, value, now, newIncidentId)
      ensures t == TransitionOf(old(View()), triggered, value, now, newIncidentId)
    {
      var prev := state;
      lastEvalAt := now;
      lastValue := value;
      t := Transition(ruleId, prev, OK, now, ZERO_TIME, NO_ID, value);
      if triggered && prev != Firing {
        state := Firing;
        triggeredAt := now;
        if newIncidentId != NO_ID {
          incidentId := newIncidentId;
        }
        t := t.(next := Firing, triggeredAt := triggeredAt, incidentId := incidentId);
      } else if triggered && prev == Firing {
        t := t.(next := Firing, triggeredAt := triggeredAt, incidentId := incidentId);
      } else if !triggered && prev == Firing {
        state := OK;
        t := t.(next := OK, incidentId := incidentId);
        incidentId := NO_ID;
        triggeredAt := ZERO_TIME;
      } else {
        t := t.(next := OK);
      }
    }
  }
}
