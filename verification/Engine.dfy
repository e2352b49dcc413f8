/** The rule API and the cache of compiled rules that it keeps in step with the store. */
module Engine {
  import opened Base
  import opened RuleState
  import opened Conditions

  datatype CompiledRule = CompiledRule(rule: Rule, compiled: Condition)

  /** The stored rules and the cache. */
  datatype Rules = Rules(stored: map<RuleId, Rule>, cache: map<RuleId, CompiledRule>)

  /** What a load from the store into an empty cache builds: the enabled rules that compile. */
  function Rebuild(stored: map<RuleId, Rule>): map<RuleId, CompiledRule> {
    map id | id in stored && stored[id].enabled && stored[id].condition.Compiles() ::
      CompiledRule(stored[id], stored[id].condition)
  }

  predicate Synced(s: Rules) {
    s.cache == Rebuild(s.stored)
  }

  /** Rules are stored under their own id. */
  predicate WellKeyed(stored: map<RuleId, Rule>) {
    forall id :: id in stored ==> stored[id].id == id
  }

  /** One call of the rule API; `fails` says whether its store call fails. */
  datatype ApiCall =
    | CreateCall(r: Rule, fails: bool)
    | UpdateCall(r: Rule, fails: bool)
    | DeleteCall(id: RuleId, fails: bool)

  function Cached(s: Rules, r: Rule): Rules {
    if r.condition.Compiles() then s.(cache := s.cache[r.id := CompiledRule(r, r.condition)]) else s
  }

  /** The effect of a call. Creating needs a new id; updating an unknown id changes no row. */
  function After(s: Rules, c: ApiCall): Rules {
    match c
    case CreateCall(r, fails) =>
      if !r.Valid() || fails || r.id in s.stored then s
      else
        var s1 := s.(stored := s.stored[r.id := r]);
        if r.enabled then Cached(s1, r) else s1
    case UpdateCall(r, fails) =>
      if !r.Valid() || fails then s
      else
        var s1 := if r.id in s.stored then s.(stored := s.stored[r.id := r]) else s;
        if r.enabled then Cached(s1, r) else s1.(cache := s1.cache - {r.id})
    case DeleteCall(id, fails) =>
      if fails then s else Rules(s.stored - {id}, s.cache - {id})
  }

  // ----- what a call does, told from the call -----

  /** What validation asks of a rule. */
  predicate Acceptable(r: Rule) {
    r.name != "" && r.inputRef != "" && (r.condition.Mode() == Scheduled ==> r.schedule > 0)
  }

  /** The call goes through to the store and is about rule `id`. */
  predicate Matters(s: Rules, c: ApiCall, id: RuleId) {
    match c
    case CreateCall(r, fails) => r.id == id && Acceptable(r) && !fails && id !in s.stored
    case UpdateCall(r, fails) => r.id == id && Acceptable(r) && !fails && id in s.stored
    case DeleteCall(gone, fails) => gone == id && !fails
  }

  /** A call that goes through leaves exactly its rule stored under the id, or, for a delete, no
      rule in store and cache; an enabled rule that compiles is cached as it is stored, one
      that is created disabled or does not compile is not cached anew, and an update that
      disables a rule takes it out of the cache. */
  lemma CallMeaning(s: Rules, c: ApiCall, id: RuleId)
    requires Matters(s, c, id)
    ensures var s2 := After(s, c);
            && (c.DeleteCall? ==> id !in s2.stored && id !in s2.cache)
            && (!c.DeleteCall? ==> id in s2.stored && s2.stored[id] == c.r)
            && (!c.DeleteCall? && c.r.enabled && c.r.condition.Compiles() ==>
                  id in s2.cache && s2.cache[id] == CompiledRule(c.r, c.r.condition))
            && (!c.DeleteCall? && c.r.enabled && !c.r.condition.Compiles() ==>
                  (id in s2.cache <==> id in s.cache) && (id in s.cache ==> s2.cache[id] == s.cache[id]))
            && (c.UpdateCall? && !c.r.enabled ==> id !in s2.cache)
            && (c.CreateCall? && !c.r.enabled ==>
                  (id in s2.cache <==> id in s.cache) && (id in s.cache ==> s2.cache[id] == s.cache[id]))
  {
  }

  /** Rules that a call does not name keep their entries in store and cache. */
  lemma CallSparesOthers(s: Rules, c: ApiCall, id: RuleId)
    requires id != if c.DeleteCall? then c.id else c.r.id
    ensures var s2 := After(s, c);
            && SameStored(s, s2, id)
            && (id in s2.cache <==> id in s.cache) && (id in s.cache ==> s2.cache[id] == s.cache[id])
  {
  }

  /** A call that fails, an invalid rule, and a create under a taken id change nothing; an update of
      an unknown id stores nothing. */
  lemma CallRefused(s: Rules, c: ApiCall)
    ensures c.fails ==> After(s, c) == s
    ensures !c.DeleteCall? && !Acceptable(c.r) ==> After(s, c) == s
    ensures c.CreateCall? && c.r.id in s.stored ==> After(s, c) == s
    ensures c.UpdateCall? && c.r.id !in s.stored ==> After(s, c).stored == s.stored
  {
  }

  /** The rules after the first `n` calls. */
  function AfterFirst(s: Rules, calls: seq<ApiCall>, n: nat): Rules
    requires n <= |calls|
  {
    AfterAll(s, calls[..n])
  }

  lemma AfterNext(s: Rules, calls: seq<ApiCall>, n: nat)
    requires n < |calls|
    ensures AfterFirst(s, calls, n + 1) == After(AfterFirst(s, calls, n), calls[n])
  {
    assert calls[..n + 1][..n] == calls[..n];
  }

  predicate MattersAt(s: Rules, calls: seq<ApiCall>, k: nat, id: RuleId)
    requires k < |calls|
  {
    Matters(AfterFirst(s, calls, k), calls[k], id)
  }

  /** The rule `id` stands for what call `c` left there: its rule, or nothing for a delete. */
  predicate LeftBy(s: Rules, c: ApiCall, id: RuleId) {
    if c.DeleteCall? then id !in s.stored else id in s.stored && s.stored[id] == c.r
  }

  predicate SameStored(s: Rules, s2: Rules, id: RuleId) {
    (id in s2.stored <==> id in s.stored) && (id in s.stored ==> s2.stored[id] == s.stored[id])
  }

  /** What a rule id stands for after any sequence of calls: what the last call that went through
      for it left there, or what was there before if there was none. */
  lemma LastCallDecides(s: Rules, calls: seq<ApiCall>, id: RuleId) returns (last: Option<nat>)
    ensures last.Some? ==>
              last.value < |calls| && MattersAt(s, calls, last.value, id) && LeftBy(AfterAll(s, calls), calls[last.value], id)
    ensures last.None? ==> SameStored(s, AfterAll(s, calls), id)
    ensures forall k :: 0 <= k < |calls| && (last.Some? ==> k > last.value) ==> !MattersAt(s, calls, k, id)
  {
    last := LastOfFirst(s, calls, |calls|, id);
    assert calls[..|calls|] == calls;
  }

  lemma {:induction false} LastOfFirst(s: Rules, calls: seq<ApiCall>, n: nat, id: RuleId) returns (last: Option<nat>)
    requires n <= |calls|
    ensures last.Some? ==>
              last.value < n && MattersAt(s, calls, last.value, id) && LeftBy(AfterFirst(s, calls, n), calls[last.value], id)
    ensures last.None? ==> SameStored(s, AfterFirst(s, calls, n), id)
    ensures forall k :: 0 <= k < n && (last.Some? ==> k > last.value) ==> !MattersAt(s, calls, k, id)
  {
    if n == 0 {
      last := None;
    } else {
      var m := n - 1;
      last := LastOfFirst(s, calls, m, id);
      AfterNext(s, calls, m);
      if MattersAt(s, calls, m, id) {
        CallMeaning(AfterFirst(s, calls, m), calls[m], id);
        last := Some(m);
      } else {
        StoredUnlessMatters(AfterFirst(s, calls, m), calls[m], id);
      }
    }
  }

  lemma StoredUnlessMatters(s: Rules, c: ApiCall, id: RuleId)
    requires !Matters(s, c, id)
    ensures SameStored(s, After(s, c), id)
  {
  }

  predicate SoundRule(id: RuleId, r: Rule) {
    r.id == id && r.name != "" && r.inputRef != "" && (r.condition.Mode() == Scheduled ==> r.schedule > 0)
  }

  predicate SoundEntry(id: RuleId, cr: CompiledRule) {
    && cr.rule.id == id && cr.rule.enabled && cr.compiled == cr.rule.condition
    && match cr.compiled
       case Threshold(field, op, _) => field != "" && !op.UnknownOp?
       case WindowAggregate(field, agg, window, op, _) => field != "" && window > 0 && !agg.UnknownAgg? && !op.UnknownOp?
       case Foreign(_, wellFormed) => wellFormed
  }

  /** Every rule the API lets into the store is named, reads an input, and has a positive schedule
      if it is scheduled; every cached one is enabled, and was compiled from its own condition. */
  predicate Sound(s: Rules) {
    && (forall id :: id in s.stored ==> SoundRule(id, s.stored[id]))
    && (forall id :: id in s.cache ==> SoundEntry(id, s.cache[id]))
  }

  lemma {:induction false} StaysSound(s: Rules, calls: seq<ApiCall>)
    requires Sound(s)
    ensures Sound(AfterAll(s, calls))
  {
    if calls != [] {
      StaysSound(s, calls[..|calls| - 1]);
      CallKeepsSound(AfterAll(s, calls[..|calls| - 1]), calls[|calls| - 1]);
    }
  }

  lemma CallKeepsSound(s: Rules, c: ApiCall)
    requires Sound(s)
    ensures Sound(After(s, c))
  {
    forall id | id in After(s, c).stored ensures SoundRule(id, After(s, c).stored[id]) {
      StoredSound(s, c, id);
    }
    forall id | id in After(s, c).cache ensures SoundEntry(id, After(s, c).cache[id]) {
      EntrySound(s, c, id);
    }
  }

  lemma StoredSound(s: Rules, c: ApiCall, id: RuleId)
    requires (id in s.stored ==> SoundRule(id, s.stored[id])) && id in After(s, c).stored
    ensures SoundRule(id, After(s, c).stored[id])
  {
  }

  lemma EntrySound(s: Rules, c: ApiCall, id: RuleId)
    requires (id in s.cache ==> SoundEntry(id, s.cache[id])) && id in After(s, c).cache
    ensures SoundEntry(id, After(s, c).cache[id])
  {
  }

  // ----- cache and store -----

  /** A call that keeps the cache in step: creates and deletes always do; an update does if
      it fails, if it disables the rule, if it names a stored rule and compiles, or if it
      does not compile and the rule was not cached. */
  predicate KeepsInStep(s: Rules, c: ApiCall) {
    c.UpdateCall? && c.r.Valid() && !c.fails && c.r.enabled ==>
      if c.r.condition.Compiles() then c.r.id in s.stored else c.r.id !in s.cache
  }

  /** Exactly when one call keeps the cache equal to a rebuild. */
  lemma InStepExactly(s: Rules, c: ApiCall)
    requires Synced(s) && WellKeyed(s.stored)
    ensures Synced(After(s, c)) <==> KeepsInStep(s, c)
    ensures WellKeyed(After(s, c).stored)
  {
    match c {
      case CreateCall(r, _) =>
        if r.id !in s.stored { StoringExactly(s, r); }
      case UpdateCall(r, _) =>
        if r.id in s.stored {
          StoringExactly(s, r);
        } else {
          assert r.id !in s.cache && s.cache - {r.id} == s.cache;
        }
      case DeleteCall(id, _) =>
        assert Rebuild(s.stored - {id}) == Rebuild(s.stored) - {id};
    }
  }

  /** Storing a rule under its id changes a rebuild at that id only. */
  lemma StoringExactly(s: Rules, r: Rule)
    requires Synced(s)
    ensures Rebuild(s.stored[r.id := r]) ==
      if r.enabled && r.condition.Compiles() then s.cache[r.id := CompiledRule(r, r.condition)] else s.cache - {r.id}
  {
  }

  function AfterAll(s: Rules, calls: seq<ApiCall>): Rules {
    if calls == [] then s else After(AfterAll(s, calls[..|calls| - 1]), calls[|calls| - 1])
  }

  /** Every update names a stored rule and a condition that compiles, or disables the rule. */
  predicate ProperUpdates(s: Rules, calls: seq<ApiCall>) {
    forall k :: 0 <= k < |calls| && calls[k].UpdateCall? && calls[k].r.enabled ==>
      calls[k].r.condition.Compiles() && calls[k].r.id in AfterAll(s, calls[..k]).stored
  }

  /** Starting from a loaded engine, any sequence of creates, deletes and proper updates,
      failing or not, leaves the cache equal to what a rebuild from the store would give. */
  lemma {:induction false} CacheEqualsRebuild(s: Rules, calls: seq<ApiCall>)
    requires Synced(s) && WellKeyed(s.stored) && ProperUpdates(s, calls)
    ensures Synced(AfterAll(s, calls)) && WellKeyed(AfterAll(s, calls).stored)
  {
    if calls != [] {
      var n := |calls| - 1;
      forall k | 0 <= k < n ensures calls[..n][..k] == calls[..k] {}
      CacheEqualsRebuild(s, calls[..n]);
      assert calls[n].UpdateCall? && calls[n].r.enabled ==>
        calls[n].r.condition.Compiles() && calls[n].r.id in AfterAll(s, calls[..n]).stored;
      InStepExactly(AfterAll(s, calls[..n]), calls[n]);
    }
  }

  /** What the evaluators see after any such sequence: for an input, exactly the enabled rules of
      the store for that input that compile; for the schedule, exactly those that are
      scheduled; and each as it is stored. */
  lemma EvaluatorsSeeTheStore(s: Rules, calls: seq<ApiCall>, inputRef: string, id: RuleId)
    requires Synced(s) && WellKeyed(s.stored) && ProperUpdates(s, calls)
    ensures var s2 := AfterAll(s, calls);
            && (id in ForInput(s2.cache, inputRef) <==>
                  id in s2.stored && s2.stored[id].enabled && s2.stored[id].condition.Compiles() && s2.stored[id].inputRef == inputRef)
            && (id in ForSchedule(s2.cache) <==>
                  id in s2.stored && s2.stored[id].enabled && s2.stored[id].condition.Compiles()
                  && (s2.stored[id].condition.WindowAggregate? || s2.stored[id].condition == Foreign(Scheduled, true)))
            && (id in s2.cache ==> id in s2.stored && s2.cache[id] == CompiledRule(s2.stored[id], s2.stored[id].condition))
  {
    CacheEqualsRebuild(s, calls);
    var s2 := AfterAll(s, calls);
    assert id in s2.cache <==> id in Rebuild(s2.stored);
  }

  function ForInput(cache: map<RuleId, CompiledRule>, inputRef: string): set<RuleId> {
    set id | id in cache && cache[id].rule.inputRef == inputRef && cache[id].rule.enabled
  }

  function ForSchedule(cache: map<RuleId, CompiledRule>): set<RuleId> {
    set id | id in cache && cache[id].rule.enabled && cache[id].rule.condition.Mode() == Scheduled
  }

  /** A reload only adds: it brings a cache in step exactly if nothing in it is stale. */
  lemma ReloadExactly(s: Rules)
    ensures Synced(Rules(s.stored, s.cache + Rebuild(s.stored))) <==> s.cache.Keys <= Rebuild(s.stored).Keys
  {
    var all := s.cache + Rebuild(s.stored);
    if s.cache.Keys <= Rebuild(s.stored).Keys {
      assert all.Keys == Rebuild(s.stored).Keys;
    } else {
      var id :| id in s.cache.Keys && id !in Rebuild(s.stored).Keys;
      assert id in all;
    }
  }

  lemma LoadOne(all: map<RuleId, CompiledRule>, rest: set<RuleId>, id: RuleId)
    requires id in rest
    ensures all - (rest - {id}) == if id in all then (all - rest)[id := all[id]] else all - rest
  {
  }

  /** `out` holds the cached rules of `ids`, each once. */
  predicate Lists(out: seq<CompiledRule>, cache: map<RuleId, CompiledRule>, ids: set<RuleId>) {
    && |out| == |ids|
    && (forall id :: id in ids ==> id in cache && cache[id] in out)
    && (forall i :: 0 <= i < |out| ==> exists id :: id in ids && id in cache && cache[id] == out[i])
  }

  lemma ListsOneMore(out: seq<CompiledRule>, cache: map<RuleId, CompiledRule>, ids: set<RuleId>, id: RuleId)
    requires Lists(out, cache, ids) && id in cache && id !in ids
    ensures Lists(out + [cache[id]], cache, ids + {id})
  {
    var more := out + [cache[id]];
    forall i | 0 <= i < |more| ensures exists id2 :: id2 in ids + {id} && id2 in cache && cache[id2] == more[i] {
      if i < |out| {
        var id2 :| id2 in ids && id2 in cache && cache[id2] == out[i];
        assert id2 in ids + {id};
      } else {
        assert id in ids + {id};
      }
    }
  }

  /** Of the cached rules those outside `rest` have been looked at; `seen` are the wanted ones among them. */
  predicate Halfway(cache: map<RuleId, CompiledRule>, wanted: set<RuleId>, seen: set<RuleId>, rest: set<RuleId>) {
    rest <= cache.Keys && seen !! rest && seen <= wanted <= cache.Keys && wanted <= seen + rest
  }

  class RuleEngine {
    var stored: map<RuleId, Rule>
    var cache: map<RuleId, CompiledRule>

    constructor (stored: map<RuleId, Rule>)
      ensures View() == Rules(stored, map[])
    {
      this.stored, cache := stored, map[];
    }

    function View(): Rules
      reads this
    {
      Rules(stored, cache)
    }

    method CompileAndCache(r: Rule) returns (err: bool)
      modifies this`cache
      ensures View() == Cached(old(View()), r) && err == !r.condition.Compiles()
    {
      if !r.condition.Compiles() {
        return true;
      }
      cache := cache[r.id := CompiledRule(r, r.condition)];
      return false;
    }

    /** Load every enabled rule into the cache; one that does not compile is skipped. */
    method ReloadAll(fails: bool) returns (err: bool)
      requires WellKeyed(stored)
      modifies this`cache
      ensures err == fails
      ensures cache == if fails then old(cache) else old(cache) + Rebuild(stored)
    {
      if fails {
        return true;
      }
      var rest := stored.Keys;
      while rest != {}
        invariant rest <= stored.Keys
        invariant cache == old(cache) + (Rebuild(stored) - rest)
        decreases rest
      {
        var id :| id in rest;
        var r := stored[id];
        LoadOne(Rebuild(stored), rest, id);
        if r.enabled {
          var compileErr := CompileAndCache(r);
        }
        rest := rest - {id};
      }
      assert Rebuild(stored) - {} == Rebuild(stored);
      return false;
    }

    method Create(r: Rule, fails: bool) returns (err: bool)
      modifies this
      ensures View() == After(old(View()), CreateCall(r, fails))
      ensures err == (!r.Valid() || fails || r.id in old(stored) || (r.enabled && !r.condition.Compiles()))
      ensures var done := r.name != "" && r.inputRef != "" && (r.condition.Mode() == Scheduled ==> r.schedule > 0)
                          && !fails && r.id !in old(stored);
              && stored == (if done then old(stored)[r.id := r] else old(stored))
              && cache == (if done && r.enabled && r.condition.Compiles() then old(cache)[r.id := CompiledRule(r, r.condition)] else old(cache))
    {
      if !r.Valid() {
        return true;
      }
      if fails || r.id in stored {
        return true;
      }
      stored := stored[r.id := r];
      if r.enabled {
        err := CompileAndCache(r);
        return;
      }
      return false;
    }

    method Update(r: Rule, fails: bool) returns (err: bool)
      modifies this
      ensures View() == After(old(View()), UpdateCall(r, fails))
      ensures err == (!r.Valid() || fails || (r.enabled && !r.condition.Compiles()))
      ensures var done := r.name != "" && r.inputRef != "" && (r.condition.Mode() == Scheduled ==> r.schedule > 0) && !fails;
              && stored == (if done && r.id in old(stored) then old(stored)[r.id := r] else old(stored))
              && cache == (if !done || (r.enabled && !r.condition.Compiles()) then old(cache)
                           else if r.enabled then old(cache)[r.id := CompiledRule(r, r.condition)] else old(cache) - {r.id})
    {
      if !r.Valid() {
        return true;
      }
      if fails {
        return true;
      }
      if r.id in stored {
        stored := stored[r.id := r];
      }
      if r.enabled {
        err := CompileAndCache(r);
        return;
      }
      cache := cache - {r.id};
      return false;
    }

    method Delete(id: RuleId, fails: bool) returns (err: bool)
      modifies this
      ensures View() == After(old(View()), DeleteCall(id, fails))
      ensures err == fails
      ensures stored == (if fails then old(stored) else old(stored) - {id})
      ensures cache == (if fails then old(cache) else old(cache) - {id})
    {
      if fails {
        return true;
      }
      stored := stored - {id};
      cache := cache - {id};
      return false;
    }

    /** The cached rules of an input, in no particular order. */
    method ByInput(inputRef: string) returns (out: seq<CompiledRule>)
      ensures Lists(out, cache, ForInput(cache, inputRef))
    {
      out := [];
      var rest := cache.Keys;
      ghost var wanted, seen := ForInput(cache, inputRef), {};
      while rest != {}
        invariant Halfway(cache, wanted, seen, rest)
        invariant Lists(out, cache, seen)
        decreases rest
      {
        var id :| id in rest;
        var cr := cache[id];
        rest := rest - {id};
        if cr.rule.inputRef == inputRef && cr.rule.enabled {
          ListsOneMore(out, cache, seen, id);
          out := out + [cr];
          seen := seen + {id};
        }
      }
      assert seen == wanted;
    }

    /** The cached rules that run on a schedule, in no particular order. */
    method ScheduledRules() returns (out: seq<CompiledRule>)
      ensures Lists(out, cache, ForSchedule(cache))
    {
      out := [];
      var rest := cache.Keys;
      ghost var wanted, seen := ForSchedule(cache), {};
      while rest != {}
        invariant Halfway(cache, wanted, seen, rest)
        invariant Lists(out, cache, seen)
        decreases rest
      {
        var id :| id in rest;
        var cr := cache[id];
        rest := rest - {id};
        if cr.rule.enabled && cr.rule.condition.Mode() == Scheduled {
          ListsOneMore(out, cache, seen, id);
          out := out + [cr];
          seen := seen + {id};
        }
      }
      assert seen == wanted;
    }
  }
}
