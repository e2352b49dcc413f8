/** The window buffers as they run, and the window rules evaluated over them. */
module WindowRules {
  import opened Base
  import opened Conditions
  import opened Windows

  /** The declared value of an aggregate; an empty window only has a count. */
  function AggregateOf(agg: Agg, s: seq<Sample>): Option<real> {
    match agg
    case Count => Some(|s| as real)
    case Sum => if s == [] then None else Some(Windows.Sum(s))
    case Avg => if s == [] then None else Some(Windows.Sum(s) / |s| as real)
    case Min => if s == [] then None else Some(Least(s))
    case Max => if s == [] then None else Some(Greatest(s))
    case UnknownAgg(_) => None
  }

  function Least(s: seq<Sample>): (m: real)
    requires s != []
    ensures IsMin(m, s)
  {
    if |s| == 1 then s[0].v
    else
      var rest := Least(s[..|s| - 1]);
      assert exists k :: 0 <= k < |s| - 1 && s[..|s| - 1][k].v == rest && s[k].v == rest;
      if s[|s| - 1].v < rest then s[|s| - 1].v else rest
  }

  function Greatest(s: seq<Sample>): (m: real)
    requires s != []
    ensures IsMax(m, s)
  {
    if |s| == 1 then s[0].v
    else
      var rest := Greatest(s[..|s| - 1]);
      assert exists k :: 0 <= k < |s| - 1 && s[..|s| - 1][k].v == rest && s[k].v == rest;
      if s[|s| - 1].v > rest then s[|s| - 1].v else rest
  }

  /** A window rule triggers if the aggregate exists and compares. */
  predicate Triggered(c: Condition, s: seq<Sample>)
    requires c.WindowAggregate?
  {
    var v := AggregateOf(c.agg, s);
    v.Some? && c.op.Compare(v.value, c.value)
  }

  class WindowBuffers {
    const maxSpan: int
    var buf: map<string, seq<Sample>>
    /** Everything that was done to the buffers so far. */
    ghost var ops: seq<Event>

    ghost predicate Valid()
      reads this
    {
      forall key: string :: Buffer(key) == Kept(maxSpan, ops, key)
    }

    function Buffer(key: string): seq<Sample>
      reads this
    {
      if key in buf then buf[key] else []
    }

    constructor (maxSpan: int)
      ensures this.maxSpan == maxSpan && ops == [] && Valid()
    {
      this.maxSpan, buf, ops := maxSpan, map[], [];
    }

    method Prune(now: Time)
      modifies this`buf
      ensures forall key: string :: Buffer(key) == PruneKey(old(Buffer(key)), maxSpan, now)
    {
      if maxSpan <= 0 {
        return;
      }
      var cutoff := now - maxSpan;
      var rest := buf.Keys;
      while rest != {}
        invariant rest <= old(buf).Keys && buf.Keys == old(buf).Keys
        invariant forall key :: key in buf ==>
                    buf[key] == if key in rest then old(buf)[key] else DropOld(old(buf)[key], cutoff)
        decreases rest
      {
        var key :| key in rest;
        var s := buf[key];
        var i := 0;
        while i < |s| && s[i].at <= cutoff
          invariant 0 <= i <= |s|
          invariant DropOld(s[i..], cutoff) == DropOld(s, cutoff)
        {
          assert s[i..][1..] == s[i + 1..];
          i := i + 1;
        }
        if i > 0 {
          buf := buf[key := s[i..]];
        }
        rest := rest - {key};
      }
    }

    method Append(key: string, sample: Sample)
      modifies this`buf
      ensures forall k: string :: Buffer(k) == old(Buffer(k)) + if k == key then [sample] else []
    {
      buf := buf[key := (if key in buf then buf[key] else []) + [sample]];
    }

    /** Store a sample for every numeric field of a record. */
    method AppendFields(inputRef: string, r: Record, when: Time)
      modifies this`buf
      ensures forall key: string :: Buffer(key) == old(Buffer(key)) + Added(inputRef, r, when, key)
    {
      var rest := r.Keys;
      AllFields(inputRef, r, when);
      assert r.Keys - rest == {} && r.Keys - {} == r.Keys;
      while rest != {}
        invariant rest <= r.Keys
        invariant forall key: string :: Buffer(key) == old(Buffer(key)) + AddedFrom(inputRef, r, when, key, r.Keys - rest)
        decreases rest
      {
        var k :| k in rest;
        OneMoreField(inputRef, r, when, k, r.Keys - rest);
        assert r.Keys - (rest - {k}) == r.Keys - rest + {k};
        if r[k].Number? {
          Append(inputRef + "/" + k, Sample(when, r[k].v));
        }
        rest := rest - {k};
      }
    }

    /** Store a sample for every numeric field of a record, then prune. */
    method Observe(inputRef: string, r: Record, when: Time, now: Time)
      requires Valid()
      modifies this
      ensures Valid()
      ensures ops == old(ops) + [Observation(inputRef, r, when, now)]
    {
      AppendFields(inputRef, r, when);
      Prune(now);
      ops := ops + [Observation(inputRef, r, when, now)];
      assert ops[..|ops| - 1] == old(ops);
    }

    /** Prune, then collect the samples of the window. The clock is read twice. For a clock
        that does not run backwards and a window shorter than the span, the result is what the
        full history holds. */
    method Samples(inputRef: string, field: string, window: int, now1: Time, now2: Time) returns (out: seq<Sample>)
      requires Valid()
      modifies this
      ensures Valid() && ops == old(ops) + [Reading(now1)]
      ensures out == InWindow(Kept(maxSpan, ops, Key(inputRef, field)), now2 - window)
      ensures ClockUpTo(ops, now2) && (maxSpan <= 0 || window < maxSpan) ==>
                out == InWindow(Full(old(ops), Key(inputRef, field)), now2 - window)
    {
      Prune(now1);
      ops := ops + [Reading(now1)];
      assert ops[..|ops| - 1] == old(ops);
      var key := inputRef + "/" + field;
      out := Select(if key in buf then buf[key] else [], now2 - window);
      assert Valid() && out == InWindow(Buffer(key), now2 - window);
      ReadExact(maxSpan, old(ops), key, now1, now2, window);
    }

    /** Evaluate a window rule over the samples of its input. For a clock that does not run
        backwards, a window shorter than the span and no clashing input name, the outcome is
        the declared aggregate of everything observed for that field of that input within
        the window, compared with the constant. */
    method EvalWindow(c: Condition, inputRef: string, now1: Time, now2: Time) returns (triggered: bool)
      requires Valid() && c.WindowAggregate?
      modifies this
      ensures Valid() && ops == old(ops) + [Reading(now1)]
      ensures triggered == Triggered(c, InWindow(Kept(maxSpan, ops, Key(inputRef, c.field)), now2 - c.window))
      ensures ClockUpTo(ops, now2) && (maxSpan <= 0 || c.window < maxSpan) && Apart(old(ops), inputRef) ==>
                triggered == Triggered(c, InWindow(FieldSamples(old(ops), inputRef, c.field), now2 - c.window))
      ensures ClockUpTo(ops, now2) && (maxSpan <= 0 || c.window < maxSpan) && Apart(old(ops), inputRef) ==>
                AsAsked(c, InWindow(FieldSamples(old(ops), inputRef, c.field), now2 - c.window), triggered)
    {
      var samples := Samples(inputRef, c.field, c.window, now1, now2);
      if Apart(old(ops), inputRef) {
        FullIsFieldSamples(old(ops), inputRef, c.field);
      }
      var v := Aggregate(c.agg, samples);
      triggered := v.Some? && c.op.Compare(v.value, c.value);
      TriggeredAsAsked(c, InWindow(FieldSamples(old(ops), inputRef, c.field), now2 - c.window));
    }
  }

  // ----- what window rules ask for -----

  /** The aggregate of the samples exists: of no samples there is only a count. */
  predicate Present(agg: Agg, s: seq<Sample>) {
    !agg.UnknownAgg? && (agg == Count || s != [])
  }

  /** The aggregate is greater than `v`: some sample is (for a maximum), all are (for a minimum),
      they add up to more, or to more than `v` each, or there are more of them. */
  ghost predicate Above(agg: Agg, s: seq<Sample>, v: real) {
    Present(agg, s) &&
    match agg
    case Max => exists k :: 0 <= k < |s| && s[k].v > v
    case Min => forall k :: 0 <= k < |s| ==> s[k].v > v
    case Sum => Windows.Sum(s) > v
    case Avg => Windows.Sum(s) > v * |s| as real
    case Count => |s| as real > v
    case UnknownAgg(_) => false
  }

  /** The aggregate is less than `v`. */
  ghost predicate Below(agg: Agg, s: seq<Sample>, v: real) {
    Present(agg, s) &&
    match agg
    case Max => forall k :: 0 <= k < |s| ==> s[k].v < v
    case Min => exists k :: 0 <= k < |s| && s[k].v < v
    case Sum => Windows.Sum(s) < v
    case Avg => Windows.Sum(s) < v * |s| as real
    case Count => (|s| as real) < v
    case UnknownAgg(_) => false
  }

  /** What the operator of a rule asks of the samples in its window. */
  ghost predicate AsAsked(c: Condition, s: seq<Sample>, triggered: bool)
    requires c.WindowAggregate?
  {
    triggered <==>
      match c.op
      case GT => Above(c.agg, s, c.value)
      case LT => Below(c.agg, s, c.value)
      case GTE => Present(c.agg, s) && !Below(c.agg, s, c.value)
      case LTE => Present(c.agg, s) && !Above(c.agg, s, c.value)
      case EQ => Present(c.agg, s) && !Above(c.agg, s, c.value) && !Below(c.agg, s, c.value)
      case NEQ => Above(c.agg, s, c.value) || Below(c.agg, s, c.value)
      case UnknownOp(_) => false
  }

  lemma AggregateCompares(agg: Agg, s: seq<Sample>, v: real)
    ensures Present(agg, s) <==> AggregateOf(agg, s).Some?
    ensures Present(agg, s) ==> (Above(agg, s, v) <==> AggregateOf(agg, s).value > v)
    ensures Present(agg, s) ==> (Below(agg, s, v) <==> AggregateOf(agg, s).value < v)
  {
    if s != [] {
      QuotientCompares(Windows.Sum(s), |s| as real, v);
      assert IsMax(Greatest(s), s) && IsMin(Least(s), s);
    }
  }

  lemma TriggeredAsAsked(c: Condition, s: seq<Sample>)
    requires c.WindowAggregate?
    ensures AsAsked(c, s, Triggered(c, s))
  {
    AggregateCompares(c.agg, s, c.value);
  }

  /** The rules about extremes, in full: a maximum exceeds or reaches a value iff some sample does,
      and is below or at most it iff there are samples and all of them are; a minimum is below
      or at most it iff some sample is, and exceeds or reaches it iff all of some samples do. */
  lemma ExtremesMean(c: Condition, s: seq<Sample>)
    requires c.WindowAggregate?
    ensures var v, t := c.value, Triggered(c, s);
            && (c.agg == Max && c.op == GT ==> (t <==> exists k :: 0 <= k < |s| && s[k].v > v))
            && (c.agg == Max && c.op == GTE ==> (t <==> exists k :: 0 <= k < |s| && s[k].v >= v))
            && (c.agg == Max && c.op == LT ==> (t <==> s != [] && forall k :: 0 <= k < |s| ==> s[k].v < v))
            && (c.agg == Max && c.op == LTE ==> (t <==> s != [] && forall k :: 0 <= k < |s| ==> s[k].v <= v))
            && (c.agg == Min && c.op == GT ==> (t <==> s != [] && forall k :: 0 <= k < |s| ==> s[k].v > v))
            && (c.agg == Min && c.op == GTE ==> (t <==> s != [] && forall k :: 0 <= k < |s| ==> s[k].v >= v))
            && (c.agg == Min && c.op == LT ==> (t <==> exists k :: 0 <= k < |s| && s[k].v < v))
            && (c.agg == Min && c.op == LTE ==> (t <==> exists k :: 0 <= k < |s| && s[k].v <= v))
  {
    if s != [] {
      assert IsMax(Greatest(s), s) && IsMin(Least(s), s);
    }
  }

  /** The same as a statement about histories: whatever was observed and read in whatever
      order, the pruned buffer decides a window rule as the observations themselves do. */
  lemma WindowRuleMeaning(maxSpan: int, ops: seq<Event>, c: Condition, inputRef: string, now: Time)
    requires c.WindowAggregate? && ClockUpTo(ops, now) && (maxSpan <= 0 || c.window < maxSpan) && Apart(ops, inputRef)
    ensures Triggered(c, InWindow(Kept(maxSpan, ops, Key(inputRef, c.field)), now - c.window))
            <==> Triggered(c, InWindow(FieldSamples(ops, inputRef, c.field), now - c.window))
  {
    assert InWindow(Kept(maxSpan, ops, Key(inputRef, c.field)), now - c.window)
        == InWindow(FieldSamples(ops, inputRef, c.field), now - c.window) by {
      PruningInvisible(maxSpan, ops, Key(inputRef, c.field), now, c.window);
      FullIsFieldSamples(ops, inputRef, c.field);
    }
  }

  // ----- aggregates -----

  method AvgOf(samples: seq<Sample>) returns (v: Option<real>)
    ensures v == AggregateOf(Avg, samples)
  {
    if |samples| == 0 {
      return None;
    }
    var sum := Total(samples);
    return Some(sum / |samples| as real);
  }

  method SumOf(samples: seq<Sample>) returns (v: Option<real>)
    ensures v == AggregateOf(Agg.Sum, samples)
  {
    if |samples| == 0 {
      return None;
    }
    var sum := Total(samples);
    return Some(sum);
  }

  method Total(samples: seq<Sample>) returns (sum: real)
    ensures sum == Windows.Sum(samples)
  {
    sum := 0.0;
    for k := 0 to |samples|
      invariant sum + Windows.Sum(samples[k..]) == Windows.Sum(samples)
    {
      assert samples[k..][0] == samples[k] && samples[k..][1..] == samples[k + 1..];
      sum := sum + samples[k].v;
    }
  }

  method MinOf(samples: seq<Sample>) returns (v: Option<real>)
    ensures v == AggregateOf(Min, samples)
  {
    if |samples| == 0 {
      return None;
    }
    var m := samples[0].v;
    for k := 1 to |samples|
      invariant (exists j :: 0 <= j < k && samples[j].v == m) && forall j :: 0 <= j < k ==> m <= samples[j].v
    {
      if samples[k].v < m {
        m := samples[k].v;
      }
    }
    return Some(m);
  }

  method MaxOf(samples: seq<Sample>) returns (v: Option<real>)
    ensures v == AggregateOf(Max, samples)
  {
    if |samples| == 0 {
      return None;
    }
    var m := samples[0].v;
    for k := 1 to |samples|
      invariant (exists j :: 0 <= j < k && samples[j].v == m) && forall j :: 0 <= j < k ==> samples[j].v <= m
    {
      if samples[k].v > m {
        m := samples[k].v;
      }
    }
    return Some(m);
  }

  method Aggregate(agg: Agg, samples: seq<Sample>) returns (v: Option<real>)
    ensures v == AggregateOf(agg, samples)
  {
    match agg {
      case Avg => v := AvgOf(samples);
      case Sum => v := SumOf(samples);
      case Min => v := MinOf(samples);
      case Max => v := MaxOf(samples);
      case Count => v := Some(|samples| as real);
      case UnknownAgg(_) => v := None;
    }
  }

  /** What the fields of `r` in `done` add to the buffer of `key`. */
  function AddedFrom(inputRef: string, r: Record, when: Time, key: string, done: set<string>): seq<Sample> {
    var field := FieldOf(inputRef, key);
    if field.Some? && field.value in done then Added(inputRef, r, when, key) else []
  }

  lemma OneMoreField(inputRef: string, r: Record, when: Time, k: string, done: set<string>)
    requires k in r && k !in done
    ensures forall key: string ::
              AddedFrom(inputRef, r, when, key, done + {k}) ==
              AddedFrom(inputRef, r, when, key, done) + if key == Key(inputRef, k) && r[k].Number? then [Sample(when, r[k].v)] else []
  {
    forall key: string
      ensures AddedFrom(inputRef, r, when, key, done + {k}) ==
              AddedFrom(inputRef, r, when, key, done) + if key == Key(inputRef, k) && r[k].Number? then [Sample(when, r[k].v)] else []
    {
      FieldOfKey(inputRef, k, key);
    }
  }

  lemma AllFields(inputRef: string, r: Record, when: Time)
    ensures forall key: string :: AddedFrom(inputRef, r, when, key, r.Keys) == Added(inputRef, r, when, key)
    ensures forall key: string :: AddedFrom(inputRef, r, when, key, {}) == []
  {
  }

  lemma ReadExact(maxSpan: int, ops: seq<Event>, key: string, now1: Time, now2: Time, window: int)
    ensures ClockUpTo(ops + [Reading(now1)], now2) && (maxSpan <= 0 || window < maxSpan) ==>
              InWindow(Kept(maxSpan, ops + [Reading(now1)], key), now2 - window) == InWindow(Full(ops, key), now2 - window)
  {
    if ClockUpTo(ops + [Reading(now1)], now2) && (maxSpan <= 0 || window < maxSpan) {
      PruningInvisible(maxSpan, ops + [Reading(now1)], key, now2, window);
      assert (ops + [Reading(now1)])[..|ops|] == ops;
      assert Full(ops, key) + [] == Full(ops, key);
    }
  }

  method Select(all: seq<Sample>, cutoff: Time) returns (out: seq<Sample>)
    ensures out == InWindow(all, cutoff)
  {
    out := [];
    for k := 0 to |all|
      invariant out + InWindow(all[k..], cutoff) == InWindow(all, cutoff)
    {
      assert all[k..][0] == all[k] && all[k..][1..] == all[k + 1..];
      if all[k].at >= cutoff {
        assert out + ([all[k]] + InWindow(all[k + 1..], cutoff)) == (out + [all[k]]) + InWindow(all[k + 1..], cutoff);
        out := out + [all[k]];
      }
    }
  }
}
