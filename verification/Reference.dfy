/** What a subscription should be told, as a function of the whole history of a rule's
    evaluation outcomes: no live states, no counters, no store. */
module Reference {
  import opened Base
  import opened Tables
  import opened Views

  /** One evaluation outcome of a rule. */
  datatype Obs = Obs(triggered: bool, value: string, now: Time)

  function Front(h: seq<Obs>): seq<Obs>
    requires h != []
  {
    h[..|h| - 1]
  }

  function Last(h: seq<Obs>): Obs
    requires h != []
  {
    h[|h| - 1]
  }

  /** The history ends inside a triggered run. */
  predicate InRun(h: seq<Obs>) {
    h != [] && Last(h).triggered
  }

  /** Where the triggered run at the end of the history starts. */
  function Start(h: seq<Obs>): (a: nat)
    requires InRun(h)
    ensures a < |h|
  {
    if InRun(Front(h)) then Start(Front(h)) else |h| - 1
  }

  // ----- the greedy schedule of one run, declared -----

  /** The dwell has passed at tick `n` of the run that started at `a`. Later ticks measure
      it from the stored, rounded start; the opening tick measures no time at all. */
  predicate DwellMet(h: seq<Obs>, s: Subscription, a: nat, n: nat)
    requires a <= n < |h|
  {
    if n == a then s.dwell <= 0 else h[n].now - FloorMs(h[a].now) >= s.dwell
  }

  /** The repeat interval has passed at tick `n` since the alert at tick `m`. */
  predicate IntervalMet(h: seq<Obs>, s: Subscription, m: nat, n: nat)
    requires m < n < |h|
  {
    s.repeatInterval > 0 && h[n].now - FloorMs(h[m].now) >= s.repeatInterval
  }

  /** Tick `n` repeats the alert at tick `m` of the run that started at `a`. The dwell is asked
      for again, which only matters if the clock has run backwards. */
  predicate RepeatMet(h: seq<Obs>, s: Subscription, a: nat, m: nat, n: nat)
    requires a <= m < n < |h|
  {
    DwellMet(h, s, a, n) && IntervalMet(h, s, m, n)
  }

  /** `first` is the first tick from `a` on that meets the dwell; |h| if none does. */
  ghost predicate FirstAlert(h: seq<Obs>, s: Subscription, a: nat, first: nat)
    requires a <= first <= |h|
  {
    && (first < |h| ==> DwellMet(h, s, a, first))
    && (forall n :: a <= n < first ==> !DwellMet(h, s, a, n))
  }

  /** `next` is the first tick after `m` that repeats the alert at `m`; |h| if none does. */
  ghost predicate NextAlert(h: seq<Obs>, s: Subscription, a: nat, m: nat, next: nat)
    requires a <= m < next <= |h|
  {
    && (next < |h| ==> RepeatMet(h, s, a, m, next))
    && (forall n :: m < n < next ==> !RepeatMet(h, s, a, m, n))
  }

  /** An increasing list of ticks from `a` on. */
  predicate Ticks(h: seq<Obs>, a: nat, q: seq<nat>) {
    && (forall k :: 0 <= k < |q| ==> a <= q[k] < |h|)
    && (forall k, l :: 0 <= k < l < |q| ==> q[k] < q[l])
  }

  /** Entry `k` of `q` is followed by the next alert; the last entry by none. */
  ghost predicate Follows(h: seq<Obs>, s: Subscription, a: nat, q: seq<nat>, k: nat)
    requires Ticks(h, a, q) && k < |q|
  {
    NextAlert(h, s, a, q[k], if k + 1 < |q| then q[k + 1] else |h|)
  }

  /** `q` lists the alerts of a run that starts at `a` and lasts to the end of `h`: the
      first at the first tick that meets the dwell, each next one at the first tick that
      meets the repeat interval since the one before, and no due alert missing at the end. */
  ghost predicate IsSchedule(h: seq<Obs>, s: Subscription, a: nat, q: seq<nat>)
    requires a <= |h|
  {
    && Ticks(h, a, q)
    && FirstAlert(h, s, a, if q == [] then |h| else q[0])
    && (forall k :: 0 <= k < |q| ==> Follows(h, s, a, q, k))
  }

  lemma FirstAlertUnique(h: seq<Obs>, s: Subscription, a: nat, m: nat, n: nat)
    requires a <= m <= |h| && a <= n <= |h| && FirstAlert(h, s, a, m) && FirstAlert(h, s, a, n)
    ensures m == n
  {
  }

  lemma NextAlertUnique(h: seq<Obs>, s: Subscription, a: nat, m: nat, x: nat, y: nat)
    requires a <= m < x <= |h| && m < y <= |h| && NextAlert(h, s, a, m, x) && NextAlert(h, s, a, m, y)
    ensures x == y
  {
  }

  /** The declaration leaves no choice. */
  lemma {:induction false} ScheduleUnique(h: seq<Obs>, s: Subscription, a: nat, q1: seq<nat>, q2: seq<nat>)
    requires a <= |h| && IsSchedule(h, s, a, q1) && IsSchedule(h, s, a, q2)
    ensures q1 == q2
  {
    if |q1| <= |q2| {
      SamePrefix(h, s, a, q1, q2, |q1|);
    } else {
      SamePrefix(h, s, a, q2, q1, |q2|);
    }
  }

  lemma {:induction false} SamePrefix(h: seq<Obs>, s: Subscription, a: nat, q1: seq<nat>, q2: seq<nat>, n: nat)
    requires a <= |h| && IsSchedule(h, s, a, q1) && IsSchedule(h, s, a, q2)
    requires n <= |q1| <= |q2|
    ensures q1[..n] == q2[..n]
    ensures n == |q1| ==> |q2| == n
  {
    if n == 0 {
      FirstAlertUnique(h, s, a, if q1 == [] then |h| else q1[0], if q2 == [] then |h| else q2[0]);
    } else {
      var k := n - 1;
      SamePrefix(h, s, a, q1, q2, k);
      if k == 0 {
        FirstAlertUnique(h, s, a, q1[0], q2[0]);
      } else {
        assert q1[k - 1] == q1[..k][k - 1] == q2[..k][k - 1] == q2[k - 1];
        assert Follows(h, s, a, q1, k - 1) && Follows(h, s, a, q2, k - 1);
        NextAlertUnique(h, s, a, q1[k - 1], q1[k], q2[k]);
      }
      assert q1[..n] == q1[..k] + [q1[k]] && q2[..n] == q2[..k] + [q2[k]];
      assert Follows(h, s, a, q1, k) && Follows(h, s, a, q2, k);
      NextAlertUnique(h, s, a, q1[k], if n < |q1| then q1[n] else |h|, if n < |q2| then q2[n] else |h|);
    }
  }

  lemma FirstAlertGrows(f: seq<Obs>, o: Obs, s: Subscription, a: nat, first: nat)
    requires a <= first <= |f| && FirstAlert(f, s, a, first)
    ensures var h := f + [o];
            FirstAlert(h, s, a, if first < |f| || DwellMet(h, s, a, |f|) then first else |h|)
  {
    forall n | a <= n < |f| ensures DwellMet(f + [o], s, a, n) == DwellMet(f, s, a, n) {}
  }

  lemma NextAlertGrows(f: seq<Obs>, o: Obs, s: Subscription, a: nat, m: nat, next: nat)
    requires a <= m < next <= |f| && NextAlert(f, s, a, m, next)
    ensures var h := f + [o];
            NextAlert(h, s, a, m, if next < |f| || RepeatMet(h, s, a, m, |f|) then next else |h|)
  {
    forall n | m < n < |f| ensures RepeatMet(f + [o], s, a, m, n) == RepeatMet(f, s, a, m, n) {}
  }

  // ----- the same, tick by tick -----

  /** The latest alert of the run at the end of `h`, if there was one. */
  function LastAlert(h: seq<Obs>, s: Subscription): (m: Option<nat>)
    ensures m.Some? ==> InRun(h) && Start(h) <= m.value < |h|
    decreases |h|, 1
  {
    if !InRun(h) then None
    else if AlertDue(h, s) then Some(|h| - 1)
    else if InRun(Front(h)) then LastAlert(Front(h), s)
    else None
  }

  /** Whether the last tick of `h` alerts. */
  predicate AlertDue(h: seq<Obs>, s: Subscription)
    requires InRun(h)
    decreases |h|, 0
  {
    match LastAlert(Front(h), s)
    case None => DwellMet(h, s, Start(h), |h| - 1)
    case Some(m) => RepeatMet(h, s, Start(h), m, |h| - 1)
  }

  /** All alerts of the run at the end of `h`. */
  function Alerts(h: seq<Obs>, s: Subscription): (q: seq<nat>)
    ensures forall k :: 0 <= k < |q| ==> q[k] < |h|
  {
    if !InRun(h) then []
    else Alerts(Front(h), s) + if AlertDue(h, s) then [|h| - 1] else []
  }

  /** A resolution is due when a run that alerted has just ended. */
  predicate ResolutionDue(h: seq<Obs>, s: Subscription)
    requires h != []
  {
    !InRun(h) && LastAlert(Front(h), s).Some? && s.notifyOnResolve
  }

  /** The batch due at the last tick of `h`. */
  function BatchDue(h: seq<Obs>, s: Subscription): Option<Kind>
    requires h != []
  {
    if InRun(h) && AlertDue(h, s) then Some(if LastAlert(Front(h), s).None? then FiringKind else RepeatKind)
    else if ResolutionDue(h, s) then Some(ResolvedKind)
    else None
  }

  /** Every message due over the history, to all of `bs` each time. */
  function Due(h: seq<Obs>, s: Subscription, bs: seq<Binding>): seq<Delivery> {
    if h == [] then []
    else
      Due(Front(h), s, bs) +
      match BatchDue(h, s)
      case None => []
      case Some(k) => BatchDeliveries(k, Last(h).value, Last(h).now, bs)
  }

  lemma {:induction false} LastAlertIsLast(h: seq<Obs>, s: Subscription)
    ensures LastAlert(h, s) == if Alerts(h, s) == [] then None else Some(Alerts(h, s)[|Alerts(h, s)| - 1])
  {
    if InRun(h) {
      LastAlertIsLast(Front(h), s);
    }
  }

  /** The alerts `q` of a run that started at `a`, with the last tick of `h` added if it is due. */
  function WithLast(h: seq<Obs>, s: Subscription, a: nat, q: seq<nat>): seq<nat>
    requires h != [] && a < |h| && forall k :: 0 <= k < |q| ==> a <= q[k] < |h| - 1
  {
    var n := |h| - 1;
    if (if q == [] then DwellMet(h, s, a, n) else RepeatMet(h, s, a, q[|q| - 1], n)) then q + [n] else q
  }

  /** How the schedule of a run grows by one more tick. */
  lemma ScheduleGrows(f: seq<Obs>, o: Obs, s: Subscription, a: nat, q: seq<nat>)
    requires a <= |f| && IsSchedule(f, s, a, q)
    ensures IsSchedule(f + [o], s, a, WithLast(f + [o], s, a, q))
  {
    var h, n := f + [o], |f|;
    var q2 := WithLast(h, s, a, q);
    FirstAlertGrows(f, o, s, a, if q == [] then |f| else q[0]);
    if q != [] {
      forall k | 0 <= k < |q2| ensures Follows(h, s, a, q2, k) {
        if k < |q| {
          assert Follows(f, s, a, q, k);
          NextAlertGrows(f, o, s, a, q[k], if k + 1 < |q| then q[k + 1] else |f|);
        }
      }
    }
  }

  lemma {:induction false} AlertsFrom(h: seq<Obs>, s: Subscription)
    requires InRun(h)
    ensures forall k :: 0 <= k < |Alerts(h, s)| ==> Start(h) <= Alerts(h, s)[k]
  {
    if InRun(Front(h)) {
      AlertsFrom(Front(h), s);
    }
  }

  /** In an ongoing run, and when a run begins. */
  lemma AlertsGoOn(h: seq<Obs>, s: Subscription)
    requires InRun(h)
    ensures var f, a := Front(h), Start(h);
            && (InRun(f) ==> Start(f) == a)
            && (!InRun(f) ==> a == |f| && Alerts(f, s) == [])
            && (forall k :: 0 <= k < |Alerts(f, s)| ==> a <= Alerts(f, s)[k])
            && Alerts(h, s) == WithLast(h, s, a, Alerts(f, s))
  {
    var f, a := Front(h), Start(h);
    LastAlertIsLast(f, s);
    if InRun(f) {
      AlertsFrom(f, s);
    }
    assert LastAlert(f, s) == if Alerts(f, s) == [] then None else Some(Alerts(f, s)[|Alerts(f, s)| - 1]);
    assert Alerts(h, s) == Alerts(f, s) + if AlertDue(h, s) then [|f|] else [];
  }

  /** Tick-by-tick alerting is the declared greedy schedule. */
  lemma {:induction false} AlertsAreSchedule(h: seq<Obs>, s: Subscription)
    requires InRun(h)
    ensures IsSchedule(h, s, Start(h), Alerts(h, s))
  {
    var f := Front(h);
    AlertsGoOn(h, s);
    if InRun(f) {
      AlertsAreSchedule(f, s);
    } else {
      NoAlertYet(f, s);
    }
    ScheduleGrows(f, Last(h), s, Start(h), Alerts(f, s));
    assert f + [Last(h)] == h;
  }

  lemma NoAlertYet(f: seq<Obs>, s: Subscription)
    ensures IsSchedule(f, s, |f|, [])
  {
  }

  /** The clock of the history does not run backwards. */
  predicate Sorted(h: seq<Obs>) {
    forall m, n :: 0 <= m <= n < |h| ==> h[m].now <= h[n].now
  }

  /** With such a clock, once a run has alerted its dwell stays met, so that later alerts hang on
      the repeat interval alone. */
  lemma DwellStays(h: seq<Obs>, s: Subscription, a: nat, q: seq<nat>, k: nat, n: nat)
    requires Sorted(h) && a <= |h| && IsSchedule(h, s, a, q) && k < |q| && q[k] < n < |h|
    ensures RepeatMet(h, s, a, q[k], n) <==> IntervalMet(h, s, q[k], n)
  {
    assert DwellMet(h, s, a, q[0]);
    assert a <= q[0] <= q[k] && h[a].now <= h[q[0]].now <= h[n].now;
    assert FloorMs(h[a].now) <= h[a].now;
  }

  // ----- timing -----

  /** Dwell: no run alerts for the first time at or before its start plus the dwell minus one
      millisecond. */
  lemma DwellBound(h: seq<Obs>, s: Subscription, a: nat, q: seq<nat>)
    requires a <= |h| && IsSchedule(h, s, a, q) && q != []
    ensures h[q[0]].now > h[a].now + s.dwell - MS
  {
    assert h[a].now < FloorMs(h[a].now) + MS;
  }

  /** Repeat: the n-th alert after the first comes at least n * (interval - 1ms) after it; for
      an interval of whole milliseconds, exactly n intervals in rounded time. */
  lemma {:induction false} RepeatBound(h: seq<Obs>, s: Subscription, a: nat, q: seq<nat>, n: nat)
    requires a <= |h| && IsSchedule(h, s, a, q) && n < |q|
    ensures h[q[n]].now >= h[q[0]].now + n * (s.repeatInterval - MS)
    ensures s.repeatInterval % MS == 0 ==> FloorMs(h[q[n]].now) >= FloorMs(h[q[0]].now) + n * s.repeatInterval
  {
    if n > 0 {
      var m := n - 1;
      RepeatBound(h, s, a, q, m);
      assert Follows(h, s, a, q, m);
      var before, after := h[q[m]].now, h[q[n]].now;
      assert FloorMs(before) > before - MS;
      assert after >= FloorMs(before) + s.repeatInterval;
      assert n * (s.repeatInterval - MS) == m * (s.repeatInterval - MS) + (s.repeatInterval - MS);
      assert n * s.repeatInterval == m * s.repeatInterval + s.repeatInterval;
      if s.repeatInterval % MS == 0 {
        FloorShift(FloorMs(before), s.repeatInterval);
        assert FloorMs(FloorMs(before)) == FloorMs(before);
        MillisMonotone(FloorMs(before) + s.repeatInterval, after);
      }
    }
  }

  /** The bounds, for the alerts of the run at the end of any history. */
  lemma RunTiming(h: seq<Obs>, s: Subscription, n: nat)
    requires InRun(h) && n < |Alerts(h, s)|
    ensures var q := Alerts(h, s);
            && h[q[0]].now > h[Start(h)].now + s.dwell - MS
            && h[q[n]].now >= h[q[0]].now + n * (s.repeatInterval - MS)
            && (s.repeatInterval % MS == 0 ==> FloorMs(h[q[n]].now) >= FloorMs(h[q[0]].now) + n * s.repeatInterval)
  {
    AlertsAreSchedule(h, s);
    DwellBound(h, s, Start(h), Alerts(h, s));
    RepeatBound(h, s, Start(h), Alerts(h, s), n);
  }

  /** What is due at a tick, in terms of the schedule of its run: the first alert is a firing
      notification, later ones are repeats; and a tick that ends a run resolves it exactly
      if the run alerted and the subscription wants to know. */
  lemma BatchDueMeaning(h: seq<Obs>, s: Subscription)
    requires h != []
    ensures BatchDue(h, s) == Some(FiringKind) <==> InRun(h) && Alerts(h, s) == [|h| - 1]
    ensures BatchDue(h, s) == Some(RepeatKind) <==>
              InRun(h) && |Alerts(h, s)| > 1 && Alerts(h, s)[|Alerts(h, s)| - 1] == |h| - 1
    ensures BatchDue(h, s) == Some(ResolvedKind) <==>
              !InRun(h) && InRun(Front(h)) && Alerts(Front(h), s) != [] && s.notifyOnResolve
  {
    LastAlertIsLast(Front(h), s);
  }
}
