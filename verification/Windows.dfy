/** Rolling windows over observed records: a pruned buffer per input and field, read as if
    nothing had been pruned. */
module Windows {
  import opened Base

  datatype Value = Number(v: real) | Other

  type Record = map<string, Value>

  datatype Sample = Sample(at: Time, v: real)

  /** The buffer key of a field of an input. */
  function Key(inputRef: string, field: string): string {
    inputRef + "/" + field
  }

  /** The field that a key stands for, seen from one input. */
  function FieldOf(inputRef: string, key: string): Option<string> {
    if |key| > |inputRef| && key[..|inputRef| + 1] == inputRef + "/" then Some(key[|inputRef| + 1..]) else None
  }

  lemma FieldOfKey(inputRef: string, field: string, key: string)
    ensures key == Key(inputRef, field) <==> FieldOf(inputRef, key) == Some(field)
  {
    var k := Key(inputRef, field);
    assert k[..|inputRef| + 1] == inputRef + "/" && k[|inputRef| + 1..] == field;
    if FieldOf(inputRef, key) == Some(field) {
      assert key == key[..|inputRef| + 1] + key[|inputRef| + 1..];
    }
  }

  /** What an observed record adds to the buffer of `key`. */
  function Added(inputRef: string, r: Record, when: Time, key: string): seq<Sample> {
    match FieldOf(inputRef, key)
    case None => []
    case Some(field) => if field in r && r[field].Number? then [Sample(when, r[field].v)] else []
  }

  /** Drop the samples before the first one newer than `cutoff`. */
  function DropOld(s: seq<Sample>, cutoff: Time): seq<Sample> {
    if s == [] || s[0].at > cutoff then s else DropOld(s[1..], cutoff)
  }

  /** Pruning, disabled for a span that is not positive. */
  function PruneKey(s: seq<Sample>, maxSpan: int, now: Time): seq<Sample> {
    if maxSpan <= 0 then s else DropOld(s, now - maxSpan)
  }

  /** The samples not before `cutoff`, in arrival order. */
  function InWindow(s: seq<Sample>, cutoff: Time): seq<Sample> {
    if s == [] then []
    else (if s[0].at >= cutoff then [s[0]] else []) + InWindow(s[1..], cutoff)
  }

  /** A window is read sample by sample: each is kept exactly if it is not before the cutoff. */
  lemma {:induction false} InWindowConcat(a: seq<Sample>, x: Sample, b: seq<Sample>, cutoff: Time)
    ensures InWindow(a + [x] + b, cutoff) == InWindow(a, cutoff) + (if x.at >= cutoff then [x] else []) + InWindow(b, cutoff)
    decreases |a|
  {
    var kept := if x.at >= cutoff then [x] else [];
    if a == [] {
      assert a + [x] + b == [x] + b;
      InWindowFirst(x, b, cutoff);
      assert InWindow(a, cutoff) + kept == kept;
    } else {
      var first := if a[0].at >= cutoff then [a[0]] else [];
      assert a + [x] + b == [a[0]] + (a[1..] + [x] + b);
      InWindowFirst(a[0], a[1..] + [x] + b, cutoff);
      InWindowConcat(a[1..], x, b, cutoff);
      Associative(first, InWindow(a[1..], cutoff), kept, InWindow(b, cutoff));
    }
  }

  lemma InWindowFirst(x: Sample, rest: seq<Sample>, cutoff: Time)
    ensures InWindow([x] + rest, cutoff) == (if x.at >= cutoff then [x] else []) + InWindow(rest, cutoff)
  {
    assert ([x] + rest)[1..] == rest;
  }

  lemma Associative(p: seq<Sample>, q: seq<Sample>, r: seq<Sample>, s: seq<Sample>)
    ensures p + (q + r + s) == p + q + r + s
  {
  }

  /** The samples after `cutoff`, in arrival order. */
  function NewerThan(s: seq<Sample>, cutoff: Time): seq<Sample> {
    if s == [] then []
    else (if s[0].at > cutoff then [s[0]] else []) + NewerThan(s[1..], cutoff)
  }

  // ----- histories -----

  /** What happens to the buffers: an observation, or a read, each with the clock it prunes at. */
  datatype Event = Observation(inputRef: string, r: Record, when: Time, now: Time) | Reading(now: Time)

  /** Every sample ever observed for `key`, in arrival order. */
  function Full(ops: seq<Event>, key: string): seq<Sample> {
    if ops == [] then []
    else
      var op := ops[|ops| - 1];
      Full(ops[..|ops| - 1], key) + if op.Observation? then Added(op.inputRef, op.r, op.when, key) else []
  }

  /** What is left of them in the buffer. */
  function Kept(maxSpan: int, ops: seq<Event>, key: string): seq<Sample> {
    if ops == [] then []
    else
      var op := ops[|ops| - 1];
      var before := Kept(maxSpan, ops[..|ops| - 1], key);
      PruneKey(if op.Observation? then before + Added(op.inputRef, op.r, op.when, key) else before, maxSpan, op.now)
  }

  /** The clock does not run backwards, and now reads `now`. */
  predicate ClockUpTo(ops: seq<Event>, now: Time) {
    && (forall j, k :: 0 <= j <= k < |ops| ==> ops[j].now <= ops[k].now)
    && (forall k :: 0 <= k < |ops| ==> ops[k].now <= now)
  }

  // ----- pruning drops an old prefix -----

  lemma {:induction false} DropOldSplits(s: seq<Sample>, cutoff: Time) returns (d: nat)
    ensures d <= |s| && DropOld(s, cutoff) == s[d..]
    ensures forall j :: 0 <= j < d ==> s[j].at <= cutoff
    ensures d < |s| ==> s[d].at > cutoff
  {
    if s == [] || s[0].at > cutoff {
      d := 0;
    } else {
      var d1 := DropOldSplits(s[1..], cutoff);
      d := d1 + 1;
      assert s[1..][d1..] == s[d..];
      forall j | 0 <= j < d ensures s[j].at <= cutoff {
        if j > 0 {
          assert s[1..][j - 1] == s[j];
        }
      }
    }
  }

  /** Appending and pruning leaves a suffix again. */
  lemma SuffixStays(full: seq<Sample>, added: seq<Sample>, d1: nat, maxSpan: int, opNow: Time, now: Time) returns (d: nat)
    requires d1 <= |full| && opNow <= now && (maxSpan <= 0 ==> d1 == 0)
    requires forall j :: 0 <= j < d1 ==> full[j].at <= opNow - maxSpan
    ensures d <= |full + added| && PruneKey(full[d1..] + added, maxSpan, opNow) == (full + added)[d..]
    ensures maxSpan <= 0 ==> d == 0
    ensures forall j :: 0 <= j < d ==> (full + added)[j].at <= now - maxSpan
  {
    var all := full + added;
    assert full[d1..] + added == all[d1..];
    if maxSpan <= 0 {
      d := 0;
    } else {
      var d2 := DropOldSplits(all[d1..], opNow - maxSpan);
      d := d1 + d2;
      assert all[d1..][d2..] == all[d..];
      forall j | 0 <= j < d ensures all[j].at <= now - maxSpan {
        if j >= d1 {
          assert all[d1..][j - d1] == all[j];
        } else {
          assert all[j] == full[j];
        }
      }
    }
  }

  lemma ClockBefore(ops: seq<Event>, now: Time)
    requires ops != [] && ClockUpTo(ops, now)
    ensures ClockUpTo(ops[..|ops| - 1], ops[|ops| - 1].now) && ops[|ops| - 1].now <= now
  {
    var before := ops[..|ops| - 1];
    forall j | 0 <= j < |before| ensures before[j].now <= ops[|ops| - 1].now {
      assert ops[j].now <= ops[|ops| - 1].now;
    }
  }

  /** The buffer is the full history less a prefix of samples that were at least `maxSpan` old. */
  lemma {:induction false} KeptIsSuffix(maxSpan: int, ops: seq<Event>, key: string, now: Time) returns (d: nat)
    requires ClockUpTo(ops, now)
    ensures d <= |Full(ops, key)| && Kept(maxSpan, ops, key) == Full(ops, key)[d..]
    ensures maxSpan <= 0 ==> d == 0
    ensures forall j :: 0 <= j < d ==> Full(ops, key)[j].at <= now - maxSpan
  {
    if ops == [] {
      d := 0;
    } else {
      var before, op := ops[..|ops| - 1], ops[|ops| - 1];
      ClockBefore(ops, now);
      var d1 := KeptIsSuffix(maxSpan, before, key, op.now);
      var added := if op.Observation? then Added(op.inputRef, op.r, op.when, key) else [];
      d := SuffixStays(Full(before, key), added, d1, maxSpan, op.now, now);
      assert op.Reading? ==> Kept(maxSpan, before, key) + added == Kept(maxSpan, before, key);
    }
  }

  lemma {:induction false} OldPrefixNotInWindow(s: seq<Sample>, d: nat, cutoff: Time)
    requires d <= |s| && forall j :: 0 <= j < d ==> s[j].at < cutoff
    ensures InWindow(s[d..], cutoff) == InWindow(s, cutoff)
  {
    if d > 0 {
      OldPrefixNotInWindow(s[1..], d - 1, cutoff);
      assert s[1..][d - 1..] == s[d..];
    }
  }

  /** Pruning is invisible: for a clock that does not run backwards and any window shorter
      than the span (or no span), a read returns the full history filtered by the window, in
      arrival order, even if the sample times are out of order. */
  lemma PruningInvisible(maxSpan: int, ops: seq<Event>, key: string, now: Time, window: int)
    requires ClockUpTo(ops, now) && (maxSpan <= 0 || window < maxSpan)
    ensures InWindow(Kept(maxSpan, ops, key), now - window) == InWindow(Full(ops, key), now - window)
  {
    var d := KeptIsSuffix(maxSpan, ops, key, now);
    OldPrefixNotInWindow(Full(ops, key), d, now - window);
  }

  ghost predicate AlwaysExact(maxSpan: int, window: int) {
    forall ops: seq<Event>, key: string, now: Time :: ClockUpTo(ops, now) ==>
      InWindow(Kept(maxSpan, ops, key), now - window) == InWindow(Full(ops, key), now - window)
  }

  /** And only for those: a window as long as the span already loses the sample on its edge,
      which pruning drops although the window includes it. */
  lemma ExactExactlyBelowSpan(maxSpan: int, window: int)
    ensures AlwaysExact(maxSpan, window) <==> maxSpan <= 0 || window < maxSpan
  {
    if maxSpan <= 0 || window < maxSpan {
      forall ops: seq<Event>, key: string, now: Time | ClockUpTo(ops, now)
        ensures InWindow(Kept(maxSpan, ops, key), now - window) == InWindow(Full(ops, key), now - window)
      {
        PruningInvisible(maxSpan, ops, key, now, window);
      }
    } else {
      var edge := Sample(-maxSpan, 1.0);
      var op := Observation("a", map["f" := Number(1.0)], edge.at, 0);
      var ops, key := [op], Key("a", "f");
      FieldOfKey("a", "f", key);
      assert ops[..0] == [];
      assert Added("a", op.r, edge.at, key) == [edge];
      assert Full(ops, key) == [] + [edge] == [edge];
      assert Kept(maxSpan, [], key) == [];
      assert Kept(maxSpan, ops, key) == DropOld([edge], -maxSpan) == [];
      assert InWindow([edge], -window) == [edge];
      assert ClockUpTo(ops, 0);
      assert InWindow(Kept(maxSpan, ops, key), 0 - window) != InWindow(Full(ops, key), 0 - window);
    }
  }

  // ----- windows at least as long as the span -----

  lemma {:induction false} OldPrefixNotNewer(s: seq<Sample>, d: nat, cutoff: Time)
    requires d <= |s| && forall j :: 0 <= j < d ==> s[j].at <= cutoff
    ensures NewerThan(s[d..], cutoff) == NewerThan(s, cutoff)
  {
    if d > 0 {
      OldPrefixNotNewer(s[1..], d - 1, cutoff);
      assert s[1..][d - 1..] == s[d..];
    }
  }

  lemma {:induction false} NewerOfWindow(s: seq<Sample>, low: Time, cutoff: Time)
    requires low <= cutoff
    ensures NewerThan(InWindow(s, low), cutoff) == NewerThan(s, cutoff)
  {
    if s != [] {
      NewerOfWindow(s[1..], low, cutoff);
      var rest := InWindow(s[1..], low);
      assert InWindow(s, low) == if s[0].at >= low then [s[0]] + rest else rest;
    }
  }

  lemma {:induction false} WindowSplits(s: seq<Sample>, d: nat, cutoff: Time)
    requires d <= |s|
    ensures InWindow(s, cutoff) == InWindow(s[..d], cutoff) + InWindow(s[d..], cutoff)
  {
    if d > 0 {
      WindowSplits(s[1..], d - 1, cutoff);
      assert s[1..][..d - 1] == s[..d][1..] && s[1..][d - 1..] == s[d..];
    }
  }

  /** A read of a long window is sandwiched: it holds, in order, every sample newer than the
      span, and it is a suffix of what the window of the full history holds. */
  lemma LongWindowSandwich(maxSpan: int, ops: seq<Event>, key: string, now: Time, window: int)
    requires ClockUpTo(ops, now) && 0 < maxSpan <= window
    ensures var read, naive := InWindow(Kept(maxSpan, ops, key), now - window), InWindow(Full(ops, key), now - window);
            && NewerThan(read, now - maxSpan) == NewerThan(Full(ops, key), now - maxSpan)
            && |read| <= |naive| && naive[|naive| - |read|..] == read
  {
    var d := KeptIsSuffix(maxSpan, ops, key, now);
    var full := Full(ops, key);
    var older, read := InWindow(full[..d], now - window), InWindow(full[d..], now - window);
    assert InWindow(full, now - window) == older + read by { WindowSplits(full, d, now - window); }
    assert (older + read)[|older|..] == read;
    assert NewerThan(read, now - maxSpan) == NewerThan(full, now - maxSpan) by {
      NewerOfWindow(full[d..], now - window, now - maxSpan);
      OldPrefixNotNewer(full, d, now - maxSpan);
    }
  }

  predicate InTimeOrder(s: seq<Sample>) {
    forall j, k :: 0 <= j <= k < |s| ==> s[j].at <= s[k].at
  }

  lemma {:induction false} AllNewer(s: seq<Sample>, low: Time, cutoff: Time)
    requires low <= cutoff && forall j :: 0 <= j < |s| ==> s[j].at > cutoff
    ensures InWindow(s, low) == s && NewerThan(s, cutoff) == s
  {
    if s != [] {
      AllNewer(s[1..], low, cutoff);
    }
  }

  lemma InOrderSuffix(full: seq<Sample>, e: nat, low: Time, cutoff: Time)
    requires InTimeOrder(full) && e <= |full| && low <= cutoff
    requires forall j :: 0 <= j < e ==> full[j].at <= cutoff
    requires e < |full| ==> full[e].at > cutoff
    ensures InWindow(full[e..], low) == NewerThan(full, cutoff)
  {
    var left := full[e..];
    forall j | 0 <= j < |left| ensures left[j].at > cutoff {
      assert left[j] == full[e + j];
    }
    AllNewer(left, low, cutoff);
    OldPrefixNotNewer(full, e, cutoff);
  }

  /** A read prunes down to the first sample newer than the span. */
  lemma ReadPrunes(maxSpan: int, ops: seq<Event>, key: string, now: Time) returns (e: nat)
    requires ClockUpTo(ops, now) && 0 < maxSpan
    ensures e <= |Full(ops, key)| && Kept(maxSpan, ops + [Reading(now)], key) == Full(ops, key)[e..]
    ensures forall j :: 0 <= j < e ==> Full(ops, key)[j].at <= now - maxSpan
    ensures e < |Full(ops, key)| ==> Full(ops, key)[e].at > now - maxSpan
  {
    var d := KeptIsSuffix(maxSpan, ops, key, now);
    var full := Full(ops, key);
    var d2 := DropOldSplits(full[d..], now - maxSpan);
    e := d + d2;
    assert (ops + [Reading(now)])[..|ops|] == ops;
    assert full[d..][d2..] == full[e..];
    forall j | 0 <= j < e ensures full[j].at <= now - maxSpan {
      if j >= d {
        assert full[d..][j - d] == full[j];
      }
    }
  }

  /** When samples arrive in time order, a read of a long window, at the clock it pruned at,
      is exactly the samples newer than the span. */
  lemma LongWindowInOrder(maxSpan: int, ops: seq<Event>, key: string, now: Time, window: int)
    requires ClockUpTo(ops, now) && 0 < maxSpan <= window && InTimeOrder(Full(ops, key))
    ensures InWindow(Kept(maxSpan, ops + [Reading(now)], key), now - window) == NewerThan(Full(ops, key), now - maxSpan)
  {
    var e := ReadPrunes(maxSpan, ops, key, now);
    InOrderSuffix(Full(ops, key), e, now - window, now - maxSpan);
  }

  // ----- when inputs mix -----

  /** One input name followed by "/" begins the other one followed by "/". */
  predicate Clash(a: string, b: string) {
    a + "/" <= b + "/" || b + "/" <= a + "/"
  }

  lemma PrefixesNest(p: string, q: string, k: string)
    requires p <= k && q <= k
    ensures p <= q || q <= p
  {
    if |p| <= |q| {
      assert p == k[..|p|] == q[..|p|];
    } else {
      assert q == k[..|q|] == p[..|q|];
    }
  }

  /** An input whose name with its "/" is a prefix of another name has a field in that input's buffers. */
  lemma PrefixMeets(a: string, b: string) returns (f: string)
    requires a + "/" <= b + "/"
    ensures Key(a, f) == Key(b, "")
  {
    f := (b + "/")[|a| + 1..];
    assert b + "/" == (b + "/")[..|a| + 1] + f;
  }

  /** Two inputs have a buffer in common exactly if their names clash. */
  lemma KeysMeetExactly(a: string, b: string)
    ensures (exists f, g :: Key(a, f) == Key(b, g)) <==> Clash(a, b)
  {
    if f, g :| Key(a, f) == Key(b, g) {
      assert a + "/" <= Key(a, f) && b + "/" <= Key(b, g);
      PrefixesNest(a + "/", b + "/", Key(a, f));
    }
    if a + "/" <= b + "/" {
      var f := PrefixMeets(a, b);
    } else if b + "/" <= a + "/" {
      var g := PrefixMeets(b, a);
    }
  }

  /** So a buffer key determines the input and the field, unless the names clash. */
  lemma KeyInjective(a: string, f: string, b: string, g: string)
    requires a == b || !Clash(a, b)
    ensures Key(a, f) == Key(b, g) <==> a == b && f == g
  {
    KeysMeetExactly(a, b);
    if a == b {
      FieldOfKey(a, f, Key(a, f));
      FieldOfKey(a, g, Key(a, g));
    }
  }

  lemma PrefixEnds(p: string, q: string)
    requires '/' !in q && p + "/" <= q + "/"
    ensures p == q
  {
    var p1, q1 := p + "/", q + "/";
    assert forall m :: 0 <= m < |q| ==> q1[m] == q[m] && q[m] in q;
    assert q1[|p|] == p1[|p|] == '/';
    assert p == p1[..|p|] == q1[..|p|] && q == q1[..|q|];
  }

  /** Different names without a "/" never clash; "x/y" and "z/w" show that a "/" alone does not
      make names clash. */
  lemma SlashFreeApart(a: string, b: string)
    ensures '/' !in a && '/' !in b && Clash(a, b) ==> a == b
    ensures !Clash("x/y", "z/w")
  {
    if '/' !in a && '/' !in b && Clash(a, b) {
      if a + "/" <= b + "/" {
        PrefixEnds(a, b);
      } else {
        PrefixEnds(b, a);
      }
    }
    assert ("x/y" + "/")[0] == 'x' && ("z/w" + "/")[0] == 'z';
  }

  /** The samples of one field of one input, told from the observations themselves. */
  function FieldSamples(ops: seq<Event>, inputRef: string, field: string): seq<Sample> {
    if ops == [] then []
    else
      var op := ops[|ops| - 1];
      FieldSamples(ops[..|ops| - 1], inputRef, field) +
      if op.Observation? && op.inputRef == inputRef && field in op.r && op.r[field].Number?
      then [Sample(op.when, op.r[field].v)] else []
  }

  lemma AddedToField(op: Event, inputRef: string, field: string)
    requires op.Observation? && (op.inputRef == inputRef || !Clash(op.inputRef, inputRef))
    ensures Added(op.inputRef, op.r, op.when, Key(inputRef, field)) ==
            if op.inputRef == inputRef && field in op.r && op.r[field].Number? then [Sample(op.when, op.r[field].v)] else []
  {
    var key := Key(inputRef, field);
    if op.inputRef == inputRef {
      FieldOfKey(inputRef, field, key);
    } else if FieldOf(op.inputRef, key).Some? {
      var other := FieldOf(op.inputRef, key).value;
      FieldOfKey(op.inputRef, other, key);
      KeyInjective(inputRef, field, op.inputRef, other);
    }
  }

  /** No other observed input clashes with this one. */
  predicate Apart(ops: seq<Event>, inputRef: string) {
    forall k :: 0 <= k < |ops| && ops[k].Observation? && ops[k].inputRef != inputRef ==> !Clash(ops[k].inputRef, inputRef)
  }

  /** The buffer of a field then holds the samples of that field of that input and no others. */
  lemma {:induction false} FullIsFieldSamples(ops: seq<Event>, inputRef: string, field: string)
    requires Apart(ops, inputRef)
    ensures Full(ops, Key(inputRef, field)) == FieldSamples(ops, inputRef, field)
  {
    if ops != [] {
      var op := ops[|ops| - 1];
      FullIsFieldSamples(ops[..|ops| - 1], inputRef, field);
      if op.Observation? {
        AddedToField(op, inputRef, field);
      }
    }
  }

  /** Only the inputs `names` are observed. */
  predicate Observes(ops: seq<Event>, names: set<string>) {
    forall k :: 0 <= k < |ops| && ops[k].Observation? ==> ops[k].inputRef in names
  }

  /** Whatever is observed of the inputs `names`, each field of each of them reads its own samples. */
  ghost predicate ReadTheirOwn(names: set<string>) {
    forall ops: seq<Event>, a: string, f: string :: Observes(ops, names) && a in names ==>
      Full(ops, Key(a, f)) == FieldSamples(ops, a, f)
  }

  predicate NoClash(names: set<string>) {
    forall a, b :: a in names && b in names && a != b ==> !Clash(a, b)
  }

  /** One observation of a clashing input shows up in a field of the other. */
  lemma ClashMixes(a: string, b: string) returns (ops: seq<Event>, f: string)
    requires a != b && Clash(a, b)
    ensures Observes(ops, {b}) && Full(ops, Key(a, f)) != FieldSamples(ops, a, f)
  {
    KeysMeetExactly(a, b);
    var f0, g :| Key(a, f0) == Key(b, g);
    f := f0;
    var op := Observation(b, map[g := Number(1.0)], 0, 0);
    ops := [op];
    FieldOfKey(b, g, Key(a, f));
    assert [op][..0] == [];
    assert Full([op], Key(a, f)) == [] + [Sample(0, 1.0)];
    assert FieldSamples([op], a, f) == [] + [];
  }

  /** Every field of every input reads only its own samples exactly if no input name followed
      by "/" is a prefix of another one followed by "/". */
  lemma InputsApartExactly(names: set<string>)
    ensures ReadTheirOwn(names) <==> NoClash(names)
  {
    if NoClash(names) {
      forall ops: seq<Event>, a: string, f: string | Observes(ops, names) && a in names
        ensures Full(ops, Key(a, f)) == FieldSamples(ops, a, f)
      {
        FullIsFieldSamples(ops, a, f);
      }
    } else {
      var a, b :| a in names && b in names && a != b && Clash(a, b);
      var ops, f := ClashMixes(a, b);
      assert Observes(ops, names);
    }
  }

  // ----- aggregates -----

  function Sum(s: seq<Sample>): real {
    if s == [] then 0.0 else s[0].v + Sum(s[1..])
  }

  predicate IsMin(m: real, s: seq<Sample>) {
    (exists k :: 0 <= k < |s| && s[k].v == m) && forall k :: 0 <= k < |s| ==> m <= s[k].v
  }

  predicate IsMax(m: real, s: seq<Sample>) {
    (exists k :: 0 <= k < |s| && s[k].v == m) && forall k :: 0 <= k < |s| ==> s[k].v <= m
  }

  lemma {:induction false} SumBounds(s: seq<Sample>, low: real, high: real)
    requires forall k :: 0 <= k < |s| ==> low <= s[k].v <= high
    ensures low * |s| as real <= Sum(s) <= high * |s| as real
  {
    if s != [] {
      var n := |s[1..]| as real;
      SumBounds(s[1..], low, high);
      assert |s| as real == n + 1.0;
      assert low * (n + 1.0) == low * n + low && high * (n + 1.0) == high * n + high;
    }
  }

  lemma Cancel(x: real, n: real, product: real)
    requires n > 0.0 && x * n == product >= 0.0
    ensures x >= 0.0
  {
  }

  lemma QuotientBounds(sum: real, n: real, low: real, high: real)
    requires n > 0.0 && low * n <= sum <= high * n
    ensures low <= sum / n <= high && sum / n * n == sum
  {
    var q := sum / n;
    assert q * n == sum;
    Cancel(q - low, n, sum - low * n);
    Cancel(high - q, n, high * n - sum);
  }

  lemma QuotientCompares(sum: real, n: real, v: real)
    requires n > 0.0
    ensures sum / n > v <==> sum > v * n
    ensures sum / n < v <==> sum < v * n
  {
    var q := sum / n;
    assert q * n == sum;
    if q > v {
      StrictScale(v, q, n);
    } else if q < v {
      StrictScale(q, v, n);
    }
  }

  lemma StrictScale(a: real, b: real, n: real)
    requires a < b && n > 0.0
    ensures a * n < b * n
  {
    assert b * n == a * n + (b - a) * n && (b - a) * n > 0.0;
  }

  /** A sum is taken sample by sample. */
  lemma {:induction false} SumConcat(a: seq<Sample>, b: seq<Sample>)
    ensures Sum(a + b) == Sum(a) + Sum(b)
    ensures forall x: Sample :: Sum([x]) == x.v
  {
    if a == [] {
      assert a + b == b;
    } else {
      assert (a + b)[1..] == a[1..] + b;
      SumConcat(a[1..], b);
    }
    forall x: Sample ensures Sum([x]) == x.v {
      assert [x][1..] == [];
    }
  }

  /** On a non-empty window Min <= Avg <= Max, and Sum is Avg times Count. */
  lemma AggregatesOrdered(s: seq<Sample>, low: real, high: real)
    requires s != [] && IsMin(low, s) && IsMax(high, s)
    ensures var avg := Sum(s) / |s| as real;
            low <= avg <= high && avg * |s| as real == Sum(s)
  {
    var n := |s| as real;
    assert low * n <= Sum(s) <= high * n by { SumBounds(s, low, high); }
    QuotientBounds(Sum(s), n, low, high);
  }
}
