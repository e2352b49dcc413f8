/** The scheduled evaluator's cadence: which rules each wake-up evaluates. */
module Scheduler {
  import opened Base
  import opened RuleState
  import opened Conditions

  /** A wake-up and the schedules of the rules that are cached at that moment. */
  datatype Wake = Wake(at: Time, schedules: map<RuleId, int>)

  /** When rule `id` is evaluated over a list of wake-ups. */
  function Evaluations(wakes: seq<Wake>, id: RuleId): seq<Time> {
    if wakes == [] then []
    else
      var w, before := wakes[|wakes| - 1], Evaluations(wakes[..|wakes| - 1], id);
      if id in w.schedules && (before == [] || w.at - before[|before| - 1] >= w.schedules[id]) then before + [w.at] else before
  }

  class ScheduledEvaluator {
    var last: map<RuleId, Time>
    ghost var wakes: seq<Wake>

    /** `last` remembers the latest evaluation of every rule. */
    ghost predicate Valid()
      reads this
    {
      Remembers(last, wakes)
    }

    constructor ()
      ensures Valid() && wakes == []
    {
      last, wakes := map[], [];
    }

    /** One wake-up of the loop, over the scheduled rules of the cache. */
    method OnTick(now: Time, rules: seq<Rule>) returns (evaluated: seq<RuleId>)
      requires Valid() && now != ZERO_TIME
      requires forall i, j :: 0 <= i < j < |rules| ==> rules[i].id != rules[j].id
      modifies this
      ensures Valid()
      ensures wakes == old(wakes) + [Wake(now, SchedulesOf(rules))]
      ensures forall id :: id in evaluated <==> Evaluations(wakes, id) == Evaluations(old(wakes), id) + [now]
    {
      evaluated := [];
      assert forall id :: id in last ==> RemembersFor(last, id, Evaluations(wakes, id));
      for k := 0 to |rules|
        invariant wakes == old(wakes)
        invariant Halfway(old(last), SchedulesOf(rules[..k]), evaluated, now, last)
      {
        var r := rules[k];
        OneMoreRule(rules, k);
        NextRule(old(last), SchedulesOf(rules[..k]), evaluated, now, last, r.id, r.schedule);
        var prev := if r.id in last then last[r.id] else ZERO_TIME;
        if prev != ZERO_TIME && now - prev < r.schedule {
          continue;
        }
        last := last[r.id := now];
        evaluated := evaluated + [r.id];
      }
      assert rules[..|rules|] == rules;
      RemembersMore(old(last), wakes, Wake(now, SchedulesOf(rules)), evaluated, last);
      wakes := wakes + [Wake(now, SchedulesOf(rules))];
    }
  }

  predicate RemembersFor(last: map<RuleId, Time>, id: RuleId, e: seq<Time>) {
    && (id in last <==> e != [])
    && (id in last ==> last[id] == e[|e| - 1] != ZERO_TIME)
  }

  ghost predicate Remembers(last: map<RuleId, Time>, wakes: seq<Wake>) {
    forall id: RuleId :: RemembersFor(last, id, Evaluations(wakes, id))
  }

  /** `after` is `before` with the evaluated rules set to `now`. */
  ghost predicate Marked(before: map<RuleId, Time>, evaluated: seq<RuleId>, now: Time, after: map<RuleId, Time>) {
    forall id: RuleId ::
      && (id in after <==> id in before || id in evaluated)
      && (id in after ==> after[id] == if id in evaluated then now else before[id])
  }

  /** The rules looked at so far have the given schedules; the due ones have been evaluated. */
  ghost predicate Halfway(before: map<RuleId, Time>, schedules: map<RuleId, int>, evaluated: seq<RuleId>, now: Time, after: map<RuleId, Time>) {
    && (forall id: RuleId :: id in evaluated <==> Due(before, schedules, id, now))
    && Marked(before, evaluated, now, after)
    && (forall id :: id in after ==> after[id] != ZERO_TIME)
  }

  lemma NextRule(before: map<RuleId, Time>, schedules: map<RuleId, int>, evaluated: seq<RuleId>, now: Time, after: map<RuleId, Time>,
                 id: RuleId, schedule: int)
    requires Halfway(before, schedules, evaluated, now, after) && id !in schedules && now != ZERO_TIME
    ensures id in after && now - after[id] < schedule ==> Halfway(before, schedules[id := schedule], evaluated, now, after)
    ensures id !in after || now - after[id] >= schedule ==>
              Halfway(before, schedules[id := schedule], evaluated + [id], now, after[id := now])
  {
    assert id !in evaluated;
  }

  lemma OneMoreWake(wakes: seq<Wake>, w: Wake, id: RuleId)
    ensures Evaluations(wakes + [w], id) ==
            var e := Evaluations(wakes, id);
            if id in w.schedules && (e == [] || w.at - e[|e| - 1] >= w.schedules[id]) then e + [w.at] else e
  {
    assert (wakes + [w])[..|wakes|] == wakes;
  }

  lemma RemembersMore(last: map<RuleId, Time>, wakes: seq<Wake>, w: Wake, evaluated: seq<RuleId>, after: map<RuleId, Time>)
    requires Remembers(last, wakes) && w.at != ZERO_TIME
    requires forall id: RuleId :: id in evaluated <==> Due(last, w.schedules, id, w.at)
    requires Marked(last, evaluated, w.at, after)
    ensures Remembers(after, wakes + [w])
    ensures forall id: RuleId ::
      Evaluations(wakes + [w], id) == Evaluations(wakes, id) + (if id in evaluated then [w.at] else [])
  {
    forall id: RuleId
      ensures Evaluations(wakes + [w], id) == Evaluations(wakes, id) + (if id in evaluated then [w.at] else [])
      ensures RemembersFor(after, id, Evaluations(wakes + [w], id))
    {
      assert RemembersFor(last, id, Evaluations(wakes, id));
      OneMoreWake(wakes, w, id);
    }
  }

  function SchedulesOf(rules: seq<Rule>): map<RuleId, int> {
    if rules == [] then map[]
    else
      var r := rules[|rules| - 1];
      SchedulesOf(rules[..|rules| - 1])[r.id := r.schedule]
  }

  predicate Due(last: map<RuleId, Time>, schedules: map<RuleId, int>, id: RuleId, now: Time) {
    id in schedules && (id !in last || now - last[id] >= schedules[id])
  }

  lemma OneMoreRule(rules: seq<Rule>, k: nat)
    requires k < |rules| && forall i, j :: 0 <= i < j < |rules| ==> rules[i].id != rules[j].id
    ensures SchedulesOf(rules[..k + 1]) == SchedulesOf(rules[..k])[rules[k].id := rules[k].schedule]
    ensures rules[k].id !in SchedulesOf(rules[..k])
  {
    assert rules[..k + 1][..k] == rules[..k];
    SchedulesFrom(rules, k);
  }

  lemma {:induction false} SchedulesFrom(rules: seq<Rule>, k: nat)
    requires k <= |rules|
    ensures forall id :: id in SchedulesOf(rules[..k]) <==> exists i :: 0 <= i < k && rules[i].id == id
  {
    if k > 0 {
      SchedulesFrom(rules, k - 1);
      assert rules[..k][..k - 1] == rules[..k - 1];
    }
  }

  // ----- spacing -----

  /** Wherever the rule is cached it has schedule `s`. */
  predicate ConstantSchedule(wakes: seq<Wake>, id: RuleId, s: int) {
    forall k :: 0 <= k < |wakes| && id in wakes[k].schedules ==> wakes[k].schedules[id] == s
  }

  lemma MulNext(n: int, s: int)
    ensures (n + 1) * s == n * s + s
  {
  }

  /** Any two evaluations of a rule are at least their distance in the list times the schedule apart. */
  lemma {:induction false} SpacedApart(wakes: seq<Wake>, id: RuleId, s: int, i: nat, j: nat)
    requires ConstantSchedule(wakes, id, s) && i <= j < |Evaluations(wakes, id)|
    ensures Evaluations(wakes, id)[j] - Evaluations(wakes, id)[i] >= (j - i) * s
    decreases |wakes|
  {
    var before := wakes[..|wakes| - 1];
    var e := Evaluations(before, id);
    if j < |e| {
      SpacedApart(before, id, s, i, j);
    } else if i < j {
      SpacedApart(before, id, s, i, j - 1);
      MulNext(j - 1 - i, s);
    }
  }

  /** So at most floor(length / schedule) + 1 evaluations fall within any interval. */
  lemma EvaluationsInInterval(wakes: seq<Wake>, id: RuleId, s: int, i: nat, j: nat, length: nat)
    requires ConstantSchedule(wakes, id, s) && s > 0 && i <= j < |Evaluations(wakes, id)|
    requires Evaluations(wakes, id)[j] - Evaluations(wakes, id)[i] <= length
    ensures j - i + 1 <= length / s + 1
  {
    SpacedApart(wakes, id, s, i, j);
    DivBelow(length, j - i, s);
  }

  /** Wake-ups at most `d` apart that always find the rule cached. */
  predicate Steady(wakes: seq<Wake>, id: RuleId, d: int) {
    && (forall k :: 0 <= k < |wakes| ==> id in wakes[k].schedules)
    && (forall k :: 0 <= k < |wakes| - 1 ==> wakes[k + 1].at - wakes[k].at <= d)
  }

  lemma {:induction false} NeverLongOverdue(wakes: seq<Wake>, id: RuleId, s: int, d: int)
    requires ConstantSchedule(wakes, id, s) && s > 0 && Steady(wakes, id, d) && wakes != []
    ensures var e := Evaluations(wakes, id);
            e != [] && wakes[|wakes| - 1].at - e[|e| - 1] < s
  {
    if |wakes| > 1 {
      NeverLongOverdue(wakes[..|wakes| - 1], id, s, d);
    }
  }

  /** Then consecutive evaluations are less than schedule + d apart. */
  lemma {:induction false} NoLongGap(wakes: seq<Wake>, id: RuleId, s: int, d: int, k: nat)
    requires ConstantSchedule(wakes, id, s) && s > 0 && Steady(wakes, id, d)
    requires k + 1 < |Evaluations(wakes, id)|
    ensures Evaluations(wakes, id)[k + 1] - Evaluations(wakes, id)[k] < s + d
    decreases |wakes|
  {
    var before := wakes[..|wakes| - 1];
    if k + 1 < |Evaluations(before, id)| {
      NoLongGap(before, id, s, d, k);
    } else {
      NeverLongOverdue(before, id, s, d);
      assert wakes[|before| - 1 + 1].at - wakes[|before| - 1].at <= d;
    }
  }
}
