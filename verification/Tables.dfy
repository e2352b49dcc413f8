/** The store's tables as values, and what one store call does to them. Timestamps are
    columns of whole milliseconds. */
module Tables {
  import opened Base
  import opened RuleState
  import opened Conditions

  type SubId = string

  datatype Kind = FiringKind | RepeatKind | ResolvedKind

  datatype Binding = Binding(channel: string, address: string)

  datatype Subscriber = Subscriber(id: string, channels: seq<Binding>)

  datatype Subscription = Subscription(
    id: SubId,
    subscriberId: string,
    ruleId: Option<RuleId>,
    selector: map<string, string>,
    dwell: int,
    repeatInterval: int,
    notifyOnResolve: bool,
    oneShot: bool,
    channelFilter: seq<string>)

  datatype LiveRow = LiveRow(
    state: State, triggeredMs: int, evalMs: int, lastValue: string, lastError: string, incidentId: Id)

  datatype IncidentRow = IncidentRow(
    ruleId: RuleId, triggeredMs: int, resolvedMs: Option<int>, lastValue: string)

  datatype SubStateRow = SubStateRow(lastMs: int, count: nat, resolved: bool)

  datatype NoteRow = NoteRow(
    id: Id, incidentId: Id, subscriptionId: SubId, subscriberId: string,
    channel: string, address: string, kind: Kind, sentMs: int, ok: bool)

  /** Delivery state of one subscription within one incident, as the dispatcher holds it. */
  datatype SubState = SubState(
    incidentId: Id, subscriptionId: SubId, lastNotifiedAt: Time, notifyCount: nat, resolutionSent: bool)

  datatype Db = Db(
    live: map<RuleId, LiveRow>,
    incidents: map<Id, IncidentRow>,
    subStates: map<(Id, SubId), SubStateRow>,
    notes: seq<NoteRow>,
    subscriptions: seq<Subscription>,
    subscribers: map<string, Subscriber>)

  // ----- live states -----

  function GetLive(db: Db, ruleId: RuleId): Option<Live> {
    if ruleId !in db.live then None
    else
      var row := db.live[ruleId];
      Some(Live(ruleId, row.state, LoadedTime(row.triggeredMs), LoadedTime(row.evalMs),
                row.lastValue, row.lastError, row.incidentId))
  }

  function RowOf(l: Live): LiveRow {
    LiveRow(l.state, StoredMs(l.triggeredAt), StoredMs(l.lastEvalAt), l.lastValue, l.lastError, l.incidentId)
  }

  function PutLive(db: Db, l: Live): Db {
    db.(live := db.live[l.ruleId := RowOf(l)])
  }

  /** What is stored as a live state is read back, with its times rounded down, or as zero times
      if they are not after the epoch; other rules keep their rows. */
  lemma LiveRoundTrip(db: Db, l: Live, other: RuleId)
    ensures var read := GetLive(PutLive(db, l), l.ruleId);
            && read.Some? && read.value.ruleId == l.ruleId && read.value.state == l.state && read.value.incidentId == l.incidentId
            && read.value.lastValue == l.lastValue && read.value.lastError == l.lastError
            && read.value.triggeredAt == (if l.triggeredAt >= MS then FloorMs(l.triggeredAt) else ZERO_TIME)
            && read.value.lastEvalAt == (if l.lastEvalAt >= MS then FloorMs(l.lastEvalAt) else ZERO_TIME)
    ensures other != l.ruleId ==> GetLive(PutLive(db, l), other) == GetLive(db, other)
  {
  }

  // ----- incidents -----

  function OpenIncident(db: Db, id: Id, ruleId: RuleId, triggeredAt: Time, value: string): Db {
    db.(incidents := db.incidents[id := IncidentRow(ruleId, Millis(triggeredAt), None, value)])
  }

  function ResolveIncident(db: Db, id: Id, resolvedMs: int): Db {
    if id in db.incidents then
      db.(incidents := db.incidents[id := db.incidents[id].(resolvedMs := Some(resolvedMs))])
    else
      db
  }

  /** An incident that is opened and then resolved keeps its rule, start and value, and is
      resolved once; other incidents keep their rows. */
  lemma OpenedThenResolved(db: Db, id: Id, ruleId: RuleId, triggeredAt: Time, value: string, resolvedMs: int, other: Id)
    ensures var first := OpenIncident(db, id, ruleId, triggeredAt, value);
            var resolved := ResolveIncident(first, id, resolvedMs);
            && first.incidents[id] == IncidentRow(ruleId, Millis(triggeredAt), None, value)
            && resolved.incidents[id] == IncidentRow(ruleId, Millis(triggeredAt), Some(resolvedMs), value)
            && (other != id ==> (other in resolved.incidents <==> other in db.incidents))
            && (other != id && other in db.incidents ==> resolved.incidents[other] == db.incidents[other])
            && (id !in db.incidents ==> ResolveIncident(db, id, resolvedMs) == db)
  {
  }

  predicate IsResolvedBefore(row: IncidentRow, before: int) {
    row.resolvedMs.Some? && row.resolvedMs.value < before
  }

  function ResolvedBefore(db: Db, before: int): set<Id> {
    set i | i in db.incidents && IsResolvedBefore(db.incidents[i], before)
  }

  predicate ResolvedNoLater(db: Db, i: Id, j: Id) {
    && i in db.incidents && db.incidents[i].resolvedMs.Some?
    && j in db.incidents && db.incidents[j].resolvedMs.Some?
    && db.incidents[i].resolvedMs.value <= db.incidents[j].resolvedMs.value
  }

  /** The incidents resolved before `before`, each once, by resolution time. */
  ghost predicate ListsResolved(db: Db, before: int, ids: seq<Id>) {
    && (forall i :: i in ids <==> i in ResolvedBefore(db, before))
    && (forall a, b :: 0 <= a < b < |ids| ==> ids[a] != ids[b] && ResolvedNoLater(db, ids[a], ids[b]))
  }

  /** Which lists these are: they hold an incident exactly if it was resolved before the cutoff, no
      incident twice, and none before one that was resolved earlier. */
  lemma ListsResolvedExactly(db: Db, before: int, ids: seq<Id>)
    ensures ListsResolved(db, before, ids) <==>
              && (forall i :: i in ids <==>
                    i in db.incidents && db.incidents[i].resolvedMs.Some? && db.incidents[i].resolvedMs.value < before)
              && (forall a, b :: 0 <= a < b < |ids| ==>
                    ids[a] != ids[b] && db.incidents[ids[a]].resolvedMs.value <= db.incidents[ids[b]].resolvedMs.value)
  {
    if ListsResolved(db, before, ids) {
      assert forall a, b :: 0 <= a < b < |ids| ==> ResolvedNoLater(db, ids[a], ids[b]);
    }
  }

  lemma ListedAny(db: Db, before: int, ids: seq<Id>)
    requires ListsResolved(db, before, ids)
    ensures ids == [] <==> ResolvedBefore(db, before) == {}
    ensures forall i :: i in ids ==> i in db.incidents
  {
    if ids != [] {
      assert ids[0] in ResolvedBefore(db, before);
    }
  }

  /** The audit rows of one incident, in insertion order. */
  function NotesFor(notes: seq<NoteRow>, incidentId: Id): seq<NoteRow> {
    if notes == [] then []
    else
      var n := notes[|notes| - 1];
      NotesFor(notes[..|notes| - 1], incidentId) + if n.incidentId == incidentId then [n] else []
  }

  function NotesExcept(notes: seq<NoteRow>, incidents: set<Id>): seq<NoteRow> {
    if notes == [] then []
    else
      var n := notes[|notes| - 1];
      NotesExcept(notes[..|notes| - 1], incidents) + if n.incidentId in incidents then [] else [n]
  }

  function SubStatesExcept(rows: map<(Id, SubId), SubStateRow>, incidents: set<Id>): map<(Id, SubId), SubStateRow> {
    map k | k in rows && k.0 !in incidents :: rows[k]
  }

  /** Delete the incidents resolved before `before`, with their audit rows and sub-states. */
  function Pruned(db: Db, before: int): Db {
    var ids := ResolvedBefore(db, before);
    db.(incidents := db.incidents - ids,
        notes := NotesExcept(db.notes, ids),
        subStates := SubStatesExcept(db.subStates, ids))
  }

  // ----- audit rows -----

  predicate ExistsForSubscription(notes: seq<NoteRow>, subscriptionId: SubId) {
    exists k :: 0 <= k < |notes| && notes[k].subscriptionId == subscriptionId
  }

  // ----- sub-states -----

  function GetSub(db: Db, incidentId: Id, subscriptionId: SubId): Option<SubState> {
    if (incidentId, subscriptionId) !in db.subStates then None
    else
      var row := db.subStates[(incidentId, subscriptionId)];
      Some(SubState(incidentId, subscriptionId, LoadedTime(row.lastMs), row.count, row.resolved))
  }

  function PutSub(db: Db, s: SubState): Db {
    db.(subStates := db.subStates[(s.incidentId, s.subscriptionId) :=
          SubStateRow(StoredMs(s.lastNotifiedAt), s.notifyCount, s.resolutionSent)])
  }

  /** What is stored as a sub-state is read back, with its time rounded down or zero; other pairs
      keep their rows. */
  lemma SubRoundTrip(db: Db, st: SubState, i: Id, s: SubId)
    ensures GetSub(PutSub(db, st), st.incidentId, st.subscriptionId) ==
            Some(st.(lastNotifiedAt := if st.lastNotifiedAt >= MS then FloorMs(st.lastNotifiedAt) else ZERO_TIME))
    ensures (i, s) != (st.incidentId, st.subscriptionId) ==> GetSub(PutSub(db, st), i, s) == GetSub(db, i, s)
  {
  }

  // ----- subscriptions -----

  /** A missing label reads as the empty string. */
  function Label(labels: map<string, string>, key: string): string {
    if key in labels then labels[key] else ""
  }

  /** An empty selector matches nothing. */
  predicate LabelsMatch(selector: map<string, string>, actual: map<string, string>) {
    selector != map[] && forall k | k in selector :: Label(actual, k) == selector[k]
  }

  predicate DirectMatch(s: Subscription, r: Rule) {
    s.ruleId == Some(r.id)
  }

  predicate LabelMatch(s: Subscription, r: Rule) {
    s.ruleId == None && LabelsMatch(s.selector, r.labels)
  }

  function DirectMatches(subs: seq<Subscription>, r: Rule): seq<Subscription> {
    if subs == [] then []
    else (if DirectMatch(subs[0], r) then [subs[0]] else []) + DirectMatches(subs[1..], r)
  }

  function LabelMatches(subs: seq<Subscription>, r: Rule): seq<Subscription> {
    if subs == [] then []
    else (if LabelMatch(subs[0], r) then [subs[0]] else []) + LabelMatches(subs[1..], r)
  }

  /** Subscriptions naming the rule first, then those selecting it by label. */
  function ListForRule(subs: seq<Subscription>, r: Rule): seq<Subscription> {
    DirectMatches(subs, r) + LabelMatches(subs, r)
  }

  /** Subscription ids are the table's primary key. */
  predicate DistinctIds(subs: seq<Subscription>) {
    forall i, j :: 0 <= i < j < |subs| ==> subs[i].id != subs[j].id
  }

  lemma ConsDistinct(s: Subscription, subs: seq<Subscription>)
    requires DistinctIds(subs) && forall x :: x in subs ==> x.id != s.id
    ensures DistinctIds([s] + subs)
  {
    forall i, j | 0 <= i < j < |[s] + subs| ensures ([s] + subs)[i].id != ([s] + subs)[j].id {
      assert subs[j - 1] in subs;
    }
  }

  lemma {:induction false} DirectMatchesMembers(subs: seq<Subscription>, r: Rule)
    requires DistinctIds(subs)
    ensures forall s :: s in DirectMatches(subs, r) <==> s in subs && DirectMatch(s, r)
    ensures DistinctIds(DirectMatches(subs, r))
  {
    if subs != [] {
      DirectMatchesMembers(subs[1..], r);
      forall s ensures s in subs <==> s == subs[0] || s in subs[1..] {}
      var rest := DirectMatches(subs[1..], r);
      ConsDistinct(subs[0], rest);
      assert [] + rest == rest;
    }
  }

  lemma {:induction false} LabelMatchesMembers(subs: seq<Subscription>, r: Rule)
    requires DistinctIds(subs)
    ensures forall s :: s in LabelMatches(subs, r) <==> s in subs && LabelMatch(s, r)
    ensures DistinctIds(LabelMatches(subs, r))
  {
    if subs != [] {
      LabelMatchesMembers(subs[1..], r);
      forall s ensures s in subs <==> s == subs[0] || s in subs[1..] {}
      var rest := LabelMatches(subs[1..], r);
      ConsDistinct(subs[0], rest);
      assert [] + rest == rest;
    }
  }

  /** Every subscription that names the rule or selects its labels is listed, exactly once,
      and nothing else is. */
  lemma ListForRuleExact(subs: seq<Subscription>, r: Rule)
    requires DistinctIds(subs)
    ensures forall s :: s in ListForRule(subs, r) <==> s in subs && (DirectMatch(s, r) || LabelMatch(s, r))
    ensures DistinctIds(ListForRule(subs, r))
  {
    DirectMatchesMembers(subs, r);
    LabelMatchesMembers(subs, r);
    var a, b := DirectMatches(subs, r), LabelMatches(subs, r);
    forall i, j | 0 <= i < j < |a + b|
      ensures ListForRule(subs, r)[i].id != ListForRule(subs, r)[j].id
    {
      if i < |a| <= j {
        assert a[i] in a && b[j - |a|] in b;
      }
    }
  }

  lemma {:induction false} ListedMembers(subs: seq<Subscription>, r: Rule, s: Subscription)
    ensures s in DirectMatches(subs, r) <==> s in subs && DirectMatch(s, r)
    ensures s in LabelMatches(subs, r) <==> s in subs && LabelMatch(s, r)
  {
    if subs != [] {
      ListedMembers(subs[1..], r, s);
      assert s in subs <==> s == subs[0] || s in subs[1..];
    }
  }

  /** Which subscriptions are listed for a rule: those that name it; and those that name no rule,
      select something, have each non-empty value they select literally among the labels of
      the rule, and each empty one missing or empty there. */
  lemma ListedExactly(subs: seq<Subscription>, r: Rule, s: Subscription)
    ensures s in ListForRule(subs, r) <==>
              s in subs &&
              match s.ruleId
              case Some(id) => id == r.id
              case None =>
                |s.selector| > 0 && forall k :: k in s.selector ==>
                  if s.selector[k] != "" then k in r.labels && r.labels[k] == s.selector[k] else k !in r.labels || r.labels[k] == ""
  {
    ListedMembers(subs, r, s);
    NotEmpty(s.selector);
    assert forall k :: k in s.selector ==> (Label(r.labels, k) == s.selector[k] <==>
      if s.selector[k] != "" then k in r.labels && r.labels[k] == s.selector[k] else k !in r.labels || r.labels[k] == "");
  }

  /** Those that name the rule come first. */
  lemma NamingFirst(subs: seq<Subscription>, r: Rule)
    ensures var out := ListForRule(subs, r);
            forall a, b :: 0 <= a < b < |out| && out[b].ruleId.Some? ==> out[a].ruleId.Some?
  {
    AllDirect(subs, r);
  }

  lemma {:induction false} AllDirect(subs: seq<Subscription>, r: Rule)
    ensures forall s :: s in DirectMatches(subs, r) ==> s.ruleId == Some(r.id)
    ensures forall s :: s in LabelMatches(subs, r) ==> s.ruleId == None
  {
    if subs != [] {
      AllDirect(subs[1..], r);
    }
  }

  lemma NotEmpty(selector: map<string, string>)
    ensures |selector| > 0 <==> selector != map[]
  {
    if selector != map[] {
      var k :| k in selector;
      assert k in selector.Keys && |selector| == |selector.Keys|;
    }
  }

  // ----- pruning -----

  lemma {:induction false} NotesExceptFor(notes: seq<NoteRow>, incidents: set<Id>, i: Id)
    ensures NotesFor(NotesExcept(notes, incidents), i) == if i in incidents then [] else NotesFor(notes, i)
  {
    if notes != [] {
      var n, front := notes[|notes| - 1], NotesExcept(notes[..|notes| - 1], incidents);
      NotesExceptFor(notes[..|notes| - 1], incidents, i);
      AppendNote(front, n, i);
      assert front + [] == front;
      assert NotesFor(notes[..|notes| - 1], i) + [] == NotesFor(notes[..|notes| - 1], i);
    }
  }

  lemma {:induction false} NotesExceptMembers(notes: seq<NoteRow>, incidents: set<Id>)
    ensures forall n :: n in NotesExcept(notes, incidents) <==> n in notes && n.incidentId !in incidents
  {
    if notes != [] {
      NotesExceptMembers(notes[..|notes| - 1], incidents);
      forall n ensures n in notes <==> n in notes[..|notes| - 1] || n == notes[|notes| - 1] {}
    }
  }

  lemma {:induction false} NotesExceptTwice(notes: seq<NoteRow>, a: set<Id>, b: set<Id>)
    ensures NotesExcept(NotesExcept(notes, a), b) == NotesExcept(notes, a + b)
  {
    if notes != [] {
      var n, front := notes[|notes| - 1], NotesExcept(notes[..|notes| - 1], a);
      NotesExceptTwice(notes[..|notes| - 1], a, b);
      assert front + [] == front;
      assert (front + [n])[..|front|] == front;
    }
  }

  lemma NotesForMembers(notes: seq<NoteRow>, i: Id)
    ensures forall n :: n in NotesFor(notes, i) <==> n in notes && n.incidentId == i
  {
    if notes != [] {
      NotesForMembers(notes[..|notes| - 1], i);
      forall n ensures n in notes <==> n in notes[..|notes| - 1] || n == notes[|notes| - 1] {}
    }
  }

  lemma AppendNote(notes: seq<NoteRow>, n: NoteRow, i: Id)
    ensures NotesFor(notes + [n], i) == NotesFor(notes, i) + if n.incidentId == i then [n] else []
  {
    assert (notes + [n])[..|notes|] == notes;
  }

  /** A prune removes exactly the incidents resolved before the cutoff; each of them loses
      every audit row and sub-state it had, and every other incident keeps all of its own. */
  lemma PruneExact(db: Db, before: int)
    ensures var p := Pruned(db, before);
            && (forall i :: i in p.incidents <==>
                  i in db.incidents && (db.incidents[i].resolvedMs.None? || db.incidents[i].resolvedMs.value >= before))
            && (forall i :: i in p.incidents ==> p.incidents[i] == db.incidents[i])
            && |db.incidents| == |p.incidents| + |ResolvedBefore(db, before)|
            && (forall i :: NotesFor(p.notes, i) == if i in db.incidents && i !in p.incidents then [] else NotesFor(db.notes, i))
            && (forall k :: k in p.subStates <==> k in db.subStates && (k.0 in db.incidents ==> k.0 in p.incidents))
            && (forall k :: k in p.subStates ==> p.subStates[k] == db.subStates[k])
            && p.live == db.live
  {
    PruneIncidents(db, before);
    forall i { NotesExceptFor(db.notes, ResolvedBefore(db, before), i); }
  }

  lemma PruneIncidents(db: Db, before: int)
    ensures var p, ids := Pruned(db, before).incidents, ResolvedBefore(db, before);
            && (forall i :: i in ids <==> i in db.incidents && i !in p)
            && (forall i :: i in p <==> i in db.incidents && (db.incidents[i].resolvedMs.None? || db.incidents[i].resolvedMs.value >= before))
            && |db.incidents| == |p| + |ids|
  {
    var p, ids := Pruned(db, before).incidents, ResolvedBefore(db, before);
    assert ids <= db.incidents.Keys && p.Keys == db.incidents.Keys - ids;
    assert |db.incidents.Keys - ids| == |db.incidents.Keys| - |ids|;
    assert |p| == |p.Keys| && |db.incidents| == |db.incidents.Keys|;
  }
}
