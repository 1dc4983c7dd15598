/** Forking a session: which mutations `createForkMutations` writes, and that a
    replay of them is the part of the source it promises. */
module Fork {
  import opened Wrappers
  import opened SessionTypes
  import opened Trail
  import opened Queries
  import TrailIndexes

  datatype Position = AtEntry | BeforeEntry

  datatype ForkOptions = TreeFork | BranchFork(entryId: Option<Id>, position: Option<Position>)

  datatype Pointer = Pointer(lane: string, leafId: Option<Id>)

  /** What a fork copies: entries, parents first, and the lanes over them. */
  datatype Plan = Plan(copied: seq<Entry>, pointers: seq<Pointer>)

  function LanesOf(s: State): seq<Pointer>
    requires LanesResolve(s)
  {
    seq(|s.laneOrder|, i requires 0 <= i < |s.laneOrder| && LanesResolve(s) =>
      assert s.laneOrder[i] in s.laneOrder;
      Pointer(s.laneOrder[i], s.lanes[s.laneOrder[i]]))
  }

  /** The entry a branch fork ends at. Only a message can be selected. */
  function ForkTarget(s: State, entryId: Option<Id>, position: Option<Position>): Result<Option<Id>, SessionError>
    requires LanesResolve(s)
  {
    var selected := if entryId.Some? then entryId else s.lanes[MAIN];
    if selected.None? then Ok(None)
    else if selected.value !in s.entriesById || !s.entriesById[selected.value].body.Message? then
      Err(InvalidForkTarget)
    else
      var entry := s.entriesById[selected.value];
      var at := position.GetOr(if entryId.None? then AtEntry else BeforeEntry);
      Ok(if at.AtEntry? then Some(entry.id) else entry.parentId)
  }

  function BranchPlan(s: State, target: Option<Id>): Plan
    requires Rooted(s.entriesById) && (target.Some? ==> target.value in s.entriesById)
  {
    Plan(if target.None? then [] else Reverse(PathUp(s.entriesById, target.value)), [Pointer(MAIN, target)])
  }

  lemma ForkTargetKnown(s: State, entryId: Option<Id>, position: Option<Position>)
    requires WellFormed(s) && ForkTarget(s, entryId, position).Ok?
    ensures var target := ForkTarget(s, entryId, position).value;
            target.Some? ==> target.value in s.entriesById
  {
    var selected := if entryId.Some? then entryId else s.lanes[MAIN];
    if selected.Some? {
      assert Grounded(s.entriesById, selected.value);
    }
  }

  function ForkPlan(s: State, options: ForkOptions): Result<Plan, SessionError>
    requires WellFormed(s)
  {
    match options
    case TreeFork => Ok(Plan(s.entries, LanesOf(s)))
    case BranchFork(entryId, position) =>
      var target :- ForkTarget(s, entryId, position);
      ForkTargetKnown(s, entryId, position);
      Ok(BranchPlan(s, target))
  }

  function Renumbered(es: seq<Entry>): seq<Entry> {
    seq(|es|, i requires 0 <= i < |es| => es[i].(seqNo := i + 1))
  }

  function CopyEntries(es: seq<Entry>): seq<Mutation> {
    seq(|es|, i requires 0 <= i < |es| => EntryMutation(None, es[i].(seqNo := i + 1)))
  }

  function MoveLanes(ps: seq<Pointer>, base: nat): seq<Mutation> {
    seq(|ps|, i requires 0 <= i < |ps| => LaneMutation(base + 1 + i, ps[i].lane, ps[i].leafId))
  }

  function NameFact(name: Option<string>, base: nat): seq<Mutation> {
    if name.Some? then [NameMutation(base + 1, name.value)] else []
  }

  function LabelFacts(es: seq<Entry>, labels: map<Id, string>, base: nat): seq<Mutation> {
    if es == [] then []
    else
      var front := LabelFacts(es[..|es| - 1], labels, base);
      var id := es[|es| - 1].id;
      if id in labels then front + [LabelMutation(base + |front| + 1, id, Some(labels[id]))] else front
  }

  function PlanMutations(s: State, plan: Plan): seq<Mutation> {
    var moved := CopyEntries(plan.copied) + MoveLanes(plan.pointers, |plan.copied|);
    var named := moved + NameFact(s.name, |moved|);
    named + LabelFacts(plan.copied, s.labels, |named|)
  }

  function ForkMutations(s: State, options: ForkOptions): Result<seq<Mutation>, SessionError>
    requires WellFormed(s)
  {
    var plan :- ForkPlan(s, options);
    Ok(PlanMutations(s, plan))
  }

  // ------------------------------------------------------- stage by stage

  function IdsOf(es: seq<Entry>): set<Id> {
    set i | 0 <= i < |es| :: es[i].id
  }

  ghost predicate HasParentBefore(es: seq<Entry>, i: int)
    requires 0 <= i < |es|
  {
    es[i].parentId.Some? ==> es[i].parentId.value in IdsOf(es[..i])
  }

  /** Each id once, each parent before its children. */
  ghost predicate Copyable(es: seq<Entry>) {
    && (forall i, j :: 0 <= i < j < |es| ==> es[i].id != es[j].id)
    && (forall i {:trigger HasParentBefore(es, i)} :: 0 <= i < |es| ==> HasParentBefore(es, i))
  }

  ghost predicate IsCopy(t: State, es: seq<Entry>) {
    && t.sequence == |es|
    && t.entries == Renumbered(es)
    && t.usedIds == t.entriesById.Keys == IdsOf(es)
    && (forall i :: 0 <= i < |es| ==> es[i].id in t.entriesById && t.entriesById[es[i].id] == Renumbered(es)[i])
    && t.stats == Stats(TrailIndexes.CountMessages(es), 0, 0, 0, 0.0)
    && t.records == [] && t.openOps == map[] && t.name == None && t.labels == map[]
    && t.lanes == INIT.lanes && t.laneOrder == INIT.laneOrder
  }

  lemma CopyableFront(es: seq<Entry>)
    requires Copyable(es) && es != []
    ensures Copyable(es[..|es| - 1])
    ensures es[|es| - 1].id !in IdsOf(es[..|es| - 1])
    ensures es[|es| - 1].parentId.Some? ==> es[|es| - 1].parentId.value in IdsOf(es[..|es| - 1])
  {
    var front := es[..|es| - 1];
    assert HasParentBefore(es, |es| - 1);
    forall i | 0 <= i < |front| ensures HasParentBefore(front, i) {
      assert HasParentBefore(es, i) && front[..i] == es[..i];
    }
  }

  lemma CopyStep(t: State, es: seq<Entry>)
    requires es != [] && IsCopy(t, es[..|es| - 1])
    requires es[|es| - 1].id !in IdsOf(es[..|es| - 1])
    requires es[|es| - 1].parentId.Some? ==> es[|es| - 1].parentId.value in IdsOf(es[..|es| - 1])
    ensures Apply(t, EntryMutation(None, es[|es| - 1].(seqNo := |es|))).Ok?
    ensures IsCopy(Apply(t, EntryMutation(None, es[|es| - 1].(seqNo := |es|))).value, es)
  {
    var front, e := es[..|es| - 1], es[|es| - 1];
    var u := After(t, EntryMutation(None, e.(seqNo := |es|)));
    assert Renumbered(es) == Renumbered(front) + [e.(seqNo := |es|)];
    forall i | 0 <= i < |es| ensures es[i].id in u.entriesById && u.entriesById[es[i].id] == Renumbered(es)[i] {
      if i < |front| {
        assert front[i].id in IdsOf(front) && Renumbered(front)[i] == Renumbered(es)[i];
      }
    }
  }

  lemma {:induction false} ReplayCopies(es: seq<Entry>)
    requires Copyable(es)
    ensures Replay(CopyEntries(es)).Ok? && IsCopy(Replay(CopyEntries(es)).value, es)
  {
    if es == [] {
      assert IsCopy(INIT, es);
    } else {
      var front := es[..|es| - 1];
      CopyableFront(es);
      ReplayCopies(front);
      CopyStep(Replay(CopyEntries(front)).value, es);
      CopyLast(es);
    }
  }

  lemma CopyLast(es: seq<Entry>)
    requires es != [] && Replay(CopyEntries(es[..|es| - 1])).Ok?
    ensures Replay(CopyEntries(es))
            == Apply(Replay(CopyEntries(es[..|es| - 1])).value, EntryMutation(None, es[|es| - 1].(seqNo := |es|)))
  {
    assert Front(CopyEntries(es)) == CopyEntries(es[..|es| - 1]);
  }

  function LanesAfter(lanes: map<string, Option<Id>>, ps: seq<Pointer>): map<string, Option<Id>> {
    if ps == [] then lanes
    else LanesAfter(lanes, ps[..|ps| - 1])[ps[|ps| - 1].lane := ps[|ps| - 1].leafId]
  }

  function OrderAfter(order: seq<string>, ps: seq<Pointer>): seq<string> {
    if ps == [] then order else WithLane(OrderAfter(order, ps[..|ps| - 1]), ps[|ps| - 1].lane)
  }

  lemma {:induction false} ReplayMoves(t: State, ps: seq<Pointer>)
    requires forall i :: 0 <= i < |ps| && ps[i].leafId.Some? ==> ps[i].leafId.value in t.entriesById
    ensures var r := ReplayFrom(t, MoveLanes(ps, t.sequence));
            && r.Ok?
            && r.value == t.(sequence := t.sequence + |ps|, log := r.value.log,
                             lanes := LanesAfter(t.lanes, ps), laneOrder := OrderAfter(t.laneOrder, ps))
  {
    if ps != [] {
      ReplayMoves(t, ps[..|ps| - 1]);
      assert Front(MoveLanes(ps, t.sequence)) == MoveLanes(ps[..|ps| - 1], t.sequence);
    }
  }

  function LabelsAfter(es: seq<Entry>, labels: map<Id, string>): map<Id, string> {
    if es == [] then map[]
    else
      var front := LabelsAfter(es[..|es| - 1], labels);
      var id := es[|es| - 1].id;
      if id in labels then front[id := labels[id]] else front
  }

  lemma {:induction false} ReplayLabels(t: State, es: seq<Entry>, labels: map<Id, string>)
    requires t.labels == map[] && (forall i :: 0 <= i < |es| ==> es[i].id in t.entriesById)
    ensures var r := ReplayFrom(t, LabelFacts(es, labels, t.sequence));
            && r.Ok?
            && r.value == t.(sequence := t.sequence + |LabelFacts(es, labels, t.sequence)|, log := r.value.log,
                             labels := LabelsAfter(es, labels))
  {
    if es != [] {
      var front := es[..|es| - 1];
      ReplayLabels(t, front, labels);
      if es[|es| - 1].id in labels {
        assert Front(LabelFacts(es, labels, t.sequence)) == LabelFacts(front, labels, t.sequence);
      }
    }
  }

  lemma {:induction false} LabelsAfterAre(es: seq<Entry>, labels: map<Id, string>)
    ensures LabelsAfter(es, labels) == map id | id in labels && id in IdsOf(es) :: labels[id]
  {
    if es != [] {
      LabelsAfterAre(es[..|es| - 1], labels);
    }
  }

  /** The fork of a plan: entries copied with fresh numbers, then lanes, then facts. */
  ghost predicate IsFork(c: State, s: State, plan: Plan) {
    && c.entries == Renumbered(plan.copied)
    && c.usedIds == c.entriesById.Keys == IdsOf(plan.copied)
    && (forall i :: 0 <= i < |plan.copied| ==>
          && plan.copied[i].id in c.entriesById
          && c.entriesById[plan.copied[i].id] == Renumbered(plan.copied)[i])
    && c.lanes == LanesAfter(INIT.lanes, plan.pointers)
    && c.laneOrder == OrderAfter(INIT.laneOrder, plan.pointers)
    && c.name == s.name
    && c.labels == (map id | id in s.labels && id in IdsOf(plan.copied) :: s.labels[id])
    && c.stats == Stats(TrailIndexes.CountMessages(plan.copied), 0, 0, 0, 0.0)
    && c.records == [] && c.openOps == map[]
  }

  ghost predicate Valid(plan: Plan) {
    && Copyable(plan.copied)
    && (forall i :: 0 <= i < |plan.pointers| && plan.pointers[i].leafId.Some? ==>
          plan.pointers[i].leafId.value in IdsOf(plan.copied))
  }

  lemma NameReplays(u: State, name: Option<string>)
    requires u.name == None
    ensures var r := ReplayFrom(u, NameFact(name, u.sequence));
            && r.Ok?
            && r.value == u.(sequence := u.sequence + |NameFact(name, u.sequence)|, log := r.value.log, name := name)
  {
    if name.Some? {
      assert Front(NameFact(name, u.sequence)) == [];
    }
  }

  lemma PlanFactsReplay(u: State, es: seq<Entry>, name: Option<string>, labels: map<Id, string>)
    requires u.name == None && u.labels == map[] && (forall i :: 0 <= i < |es| ==> es[i].id in u.entriesById)
    ensures var n := NameFact(name, u.sequence);
            var r := ReplayFrom(u, n + LabelFacts(es, labels, u.sequence + |n|));
            && r.Ok?
            && r.value == u.(sequence := r.value.sequence, log := r.value.log,
                             name := name, labels := LabelsAfter(es, labels))
  {
    var n := NameFact(name, u.sequence);
    NameReplays(u, name);
    var v := ReplayFrom(u, n).value;
    ReplayLabels(v, es, labels);
    ReplayConcat(u, n, LabelFacts(es, labels, v.sequence));
  }

  function PlanMoves(plan: Plan): seq<Mutation> {
    CopyEntries(plan.copied) + MoveLanes(plan.pointers, |plan.copied|)
  }

  lemma PlanMovesReplay(plan: Plan) returns (t: State, u: State)
    requires Valid(plan)
    ensures IsCopy(t, plan.copied) && Replay(PlanMoves(plan)) == Ok(u)
    ensures u == t.(sequence := |PlanMoves(plan)|, log := u.log,
                    lanes := LanesAfter(INIT.lanes, plan.pointers),
                    laneOrder := OrderAfter(INIT.laneOrder, plan.pointers))
    ensures u.name == None && u.labels == map[]
    ensures forall i :: 0 <= i < |plan.copied| ==> plan.copied[i].id in u.entriesById
  {
    ReplayCopies(plan.copied);
    t := Replay(CopyEntries(plan.copied)).value;
    ReplayMoves(t, plan.pointers);
    ReplayConcat(INIT, CopyEntries(plan.copied), MoveLanes(plan.pointers, |plan.copied|));
    u := Replay(PlanMoves(plan)).value;
  }

  lemma CopyBecomesFork(t: State, c: State, s: State, plan: Plan)
    requires IsCopy(t, plan.copied)
    requires c == t.(sequence := c.sequence, log := c.log,
                     lanes := LanesAfter(INIT.lanes, plan.pointers),
                     laneOrder := OrderAfter(INIT.laneOrder, plan.pointers),
                     name := s.name, labels := LabelsAfter(plan.copied, s.labels))
    ensures IsFork(c, s, plan)
  {
    LabelsAfterAre(plan.copied, s.labels);
  }

  function PlanFacts(s: State, plan: Plan, base: nat): seq<Mutation> {
    var name := NameFact(s.name, base);
    name + LabelFacts(plan.copied, s.labels, base + |name|)
  }

  lemma PlanConcat(s: State, plan: Plan)
    ensures PlanMutations(s, plan) == PlanMoves(plan) + PlanFacts(s, plan, |PlanMoves(plan)|)
  {
  }

  lemma ReplayThen(a: seq<Mutation>, b: seq<Mutation>, u: State, c: State)
    requires Replay(a) == Ok(u) && ReplayFrom(u, b) == Ok(c)
    ensures Replay(a + b) == Ok(c)
  {
    ReplayConcat(INIT, a, b);
  }

  /** A valid plan replays without error on a fresh state, into its fork. */
  lemma PlanReplays(s: State, plan: Plan)
    requires Valid(plan)
    ensures Replay(PlanMutations(s, plan)).Ok?
    ensures IsFork(Replay(PlanMutations(s, plan)).value, s, plan)
  {
    var t, u := PlanMovesReplay(plan);
    var c := PlanFactsFork(s, plan, t, u);
    PlanConcat(s, plan);
    ReplayThen(PlanMoves(plan), PlanFacts(s, plan, u.sequence), u, c);
  }

  lemma PlanFactsFork(s: State, plan: Plan, t: State, u: State) returns (c: State)
    requires IsCopy(t, plan.copied) && u.name == None && u.labels == map[]
    requires u == t.(sequence := u.sequence, log := u.log,
                     lanes := LanesAfter(INIT.lanes, plan.pointers),
                     laneOrder := OrderAfter(INIT.laneOrder, plan.pointers))
    requires forall i :: 0 <= i < |plan.copied| ==> plan.copied[i].id in u.entriesById
    ensures ReplayFrom(u, PlanFacts(s, plan, u.sequence)) == Ok(c) && IsFork(c, s, plan)
  {
    c := PlanFactsState(s, plan, u);
    assert c == t.(sequence := c.sequence, log := c.log, lanes := u.lanes, laneOrder := u.laneOrder,
                   name := c.name, labels := c.labels);
    CopyBecomesFork(t, c, s, plan);
  }

  lemma PlanFactsState(s: State, plan: Plan, u: State) returns (c: State)
    requires u.name == None && u.labels == map[]
    requires forall i :: 0 <= i < |plan.copied| ==> plan.copied[i].id in u.entriesById
    ensures ReplayFrom(u, PlanFacts(s, plan, u.sequence)) == Ok(c)
    ensures c == u.(sequence := c.sequence, log := c.log, name := s.name, labels := LabelsAfter(plan.copied, s.labels))
  {
    PlanFactsReplay(u, plan.copied, s.name, s.labels);
    c := ReplayFrom(u, PlanFacts(s, plan, u.sequence)).value;
  }

  // ------------------------------------------------ what a fork preserves

  lemma EntriesCopyable(s: State)
    requires WellFormed(s)
    ensures Copyable(s.entries)
  {
    forall i | 0 <= i < |s.entries| ensures HasParentBefore(s.entries, i) {
      var e := s.entries[i];
      assert Grounded(s.entriesById, e.id);
      if e.parentId.Some? {
        var p := e.parentId.value;
        assert Listed(s.entries, s.entriesById, p) && Grounded(s.entriesById, p);
        var j :| 0 <= j < |s.entries| && s.entries[j] == s.entriesById[p];
        assert s.entries[..i][j].id == p;
      }
    }
  }

  lemma ReverseParentBefore(up: seq<Entry>, i: nat)
    requires i < |up| && up[|up| - 1].parentId == None
    requires forall k {:trigger Linked(up, k)} :: 0 <= k < |up| - 1 ==> Linked(up, k)
    ensures HasParentBefore(Reverse(up), i)
  {
    var es := Reverse(up);
    if i > 0 {
      assert Linked(up, |up| - 1 - i);
      assert es[i - 1] == up[|up| - i] && es[i] == up[|up| - 1 - i];
      EarlierId(es, i);
    }
  }

  lemma EarlierId(es: seq<Entry>, i: nat)
    requires 0 < i <= |es|
    ensures es[i - 1].id in IdsOf(es[..i])
  {
    assert es[..i][i - 1] == es[i - 1];
  }

  lemma PathCopyable(byId: map<Id, Entry>, target: Id)
    requires Rooted(byId) && target in byId
    ensures Copyable(Reverse(PathUp(byId, target)))
  {
    UpCopyable(byId, PathUp(byId, target));
  }

  /** A path of known entries, falling in sequence number, is copyable from its root. */
  lemma UpCopyable(byId: map<Id, Entry>, up: seq<Entry>)
    requires up != [] && up[|up| - 1].parentId == None
    requires forall i :: 0 <= i < |up| ==> up[i].id in byId && byId[up[i].id] == up[i]
    requires forall k {:trigger Linked(up, k)} :: 0 <= k < |up| - 1 ==> Linked(up, k)
    requires forall i, j :: 0 <= i < j < |up| ==> up[j].seqNo < up[i].seqNo
    ensures Copyable(Reverse(up))
  {
    forall i | 0 <= i < |up| ensures HasParentBefore(Reverse(up), i) {
      ReverseParentBefore(up, i);
    }
    forall i, j | 0 <= i < j < |up| ensures up[i].id != up[j].id {
      assert byId[up[i].id].seqNo != byId[up[j].id].seqNo;
    }
  }

  lemma ForkPlanValid(s: State, options: ForkOptions)
    requires WellFormed(s) && ForkPlan(s, options).Ok?
    ensures Valid(ForkPlan(s, options).value)
    ensures forall i :: 0 <= i < |ForkPlan(s, options).value.copied| ==>
      var e := ForkPlan(s, options).value.copied[i]; e.id in s.entriesById && s.entriesById[e.id] == e
  {
    var plan := ForkPlan(s, options).value;
    match options
    case TreeFork =>
      EntriesCopyable(s);
      forall i | 0 <= i < |plan.pointers| && plan.pointers[i].leafId.Some?
        ensures plan.pointers[i].leafId.value in IdsOf(plan.copied)
      {
        assert s.laneOrder[i] in s.laneOrder;
        var leaf := plan.pointers[i].leafId.value;
        assert Listed(s.entries, s.entriesById, leaf) && Grounded(s.entriesById, leaf);
      }
    case BranchFork(entryId, position) =>
      ForkTargetKnown(s, entryId, position);
      var target := ForkTarget(s, entryId, position).value;
      if target.Some? {
        PathCopyable(s.entriesById, target.value);
        assert Grounded(s.entriesById, target.value);
        assert plan.copied[|plan.copied| - 1].id == target.value;
      }
  }

  lemma {:induction false} OrderAfterAll(s: State, k: nat)
    requires LanesResolve(s) && 0 < k <= |s.laneOrder|
    ensures OrderAfter(INIT.laneOrder, LanesOf(s)[..k]) == s.laneOrder[..k]
  {
    assert LanesOf(s)[..k][..k - 1] == LanesOf(s)[..k - 1];
    assert s.laneOrder[..k] == s.laneOrder[..k - 1] + [s.laneOrder[k - 1]];
    assert s.laneOrder[k - 1] in s.laneOrder;
    if k == 1 {
      assert OrderAfter(INIT.laneOrder, LanesOf(s)[..0]) == INIT.laneOrder;
    } else {
      OrderAfterAll(s, k - 1);
    }
  }

  lemma LanesAfterStep(s: State, k: nat)
    requires LanesResolve(s) && 0 < k <= |s.laneOrder|
    ensures s.laneOrder[k - 1] in s.lanes && |LanesOf(s)| == |s.laneOrder|
    ensures LanesAfter(INIT.lanes, LanesOf(s)[..k])
            == LanesAfter(INIT.lanes, LanesOf(s)[..k - 1])[s.laneOrder[k - 1] := s.lanes[s.laneOrder[k - 1]]]
  {
    assert s.laneOrder[k - 1] in s.laneOrder;
    assert LanesOf(s)[..k][..k - 1] == LanesOf(s)[..k - 1];
  }

  ghost predicate LanesAmong(lanes: map<string, Option<Id>>, s: State, names: seq<string>) {
    && (forall l :: l in lanes <==> l in names)
    && (forall l <- lanes :: l in s.lanes && lanes[l] == s.lanes[l])
  }

  lemma {:induction false} LanesAfterAll(s: State, k: nat)
    requires LanesResolve(s) && 0 < k <= |s.laneOrder|
    ensures LanesAmong(LanesAfter(INIT.lanes, LanesOf(s)[..k]), s, s.laneOrder[..k])
  {
    LanesAfterStep(s, k);
    var name := s.laneOrder[k - 1];
    assert s.laneOrder[..k] == s.laneOrder[..k - 1] + [name];
    if k == 1 {
      assert LanesAfter(INIT.lanes, LanesOf(s)[..0]) == INIT.lanes;
      assert INIT.lanes[name := s.lanes[name]] == map[name := s.lanes[name]];
    } else {
      LanesAfterAll(s, k - 1);
    }
  }

  ghost predicate SamePath(p: seq<Entry>, q: seq<Entry>) {
    |p| == |q| && forall i :: 0 <= i < |p| ==> p[i] == q[i].(seqNo := p[i].seqNo)
  }

  /** In a fork, the path from an entry to its root is the source's path, entry by
      entry, up to the new sequence numbers. */
  lemma {:induction false} ForkKeepsPaths(c: State, s: State, plan: Plan, id: Id)
    requires Rooted(c.entriesById) && Rooted(s.entriesById) && IsFork(c, s, plan) && id in c.entriesById
    requires forall i :: 0 <= i < |plan.copied| ==>
      plan.copied[i].id in s.entriesById && s.entriesById[plan.copied[i].id] == plan.copied[i]
    ensures id in s.entriesById && SamePath(PathUp(c.entriesById, id), PathUp(s.entriesById, id))
    decreases c.entriesById[id].seqNo
  {
    PathStepUp(c.entriesById, id);
    PathStepUp(s.entriesById, id);
    if s.entriesById[id].parentId.Some? {
      ForkKeepsPaths(c, s, plan, s.entriesById[id].parentId.value);
      var p := s.entriesById[id].parentId.value;
      SamePathGrows(PathUp(c.entriesById, p), PathUp(s.entriesById, p), c.entriesById[id], s.entriesById[id]);
    }
  }

  lemma SamePathGrows(p: seq<Entry>, q: seq<Entry>, e: Entry, f: Entry)
    requires SamePath(p, q) && e == f.(seqNo := e.seqNo)
    ensures SamePath([e] + p, [f] + q)
  {
  }

  lemma PathStepUp(byId: map<Id, Entry>, id: Id)
    requires Rooted(byId) && id in byId
    ensures match byId[id].parentId
            case None => PathUp(byId, id) == [byId[id]]
            case Some(p) => && p in byId && byId[p].seqNo < byId[id].seqNo
                            && PathUp(byId, id) == [byId[id]] + PathUp(byId, p)
  {
    assert Grounded(byId, id);
  }

  /** Fork preserves meaning: for every well-formed source and every option that does
      not fail, the fork's mutations replay without error on a fresh state, and every
      copied entry keeps its path. */
  lemma ForkReplays(s: State, options: ForkOptions)
    requires WellFormed(s) && ForkMutations(s, options).Ok?
    ensures var plan := ForkPlan(s, options).value;
            var r := Replay(ForkMutations(s, options).value);
            && r.Ok? && WellFormed(r.value)
            && IsFork(r.value, s, plan)
            && (forall id <- r.value.entriesById ::
                  && id in s.entriesById
                  && SamePath(PathUp(r.value.entriesById, id), PathUp(s.entriesById, id)))
  {
    var plan := ForkPlan(s, options).value;
    ForkPlanValid(s, options);
    PlanReplays(s, plan);
    var c := Replay(PlanMutations(s, plan)).value;
    InitWellFormed();
    ReplayKeepsWellFormed(INIT, PlanMutations(s, plan));
    forall id | id in c.entriesById
      ensures id in s.entriesById && SamePath(PathUp(c.entriesById, id), PathUp(s.entriesById, id))
    {
      ForkKeepsPaths(c, s, plan, id);
    }
  }

  lemma TreeLanes(s: State)
    requires LanesResolve(s)
    ensures LanesAfter(INIT.lanes, LanesOf(s)) == s.lanes
    ensures OrderAfter(INIT.laneOrder, LanesOf(s)) == s.laneOrder
  {
    var n := |s.laneOrder|;
    LanesAfterAll(s, n);
    OrderAfterAll(s, n);
    LanesAfterStep(s, n);
    assert LanesOf(s)[..n] == LanesOf(s) && s.laneOrder[..n] == s.laneOrder;
    AllLanes(LanesAfter(INIT.lanes, LanesOf(s)), s);
  }

  lemma AllLanes(lanes: map<string, Option<Id>>, s: State)
    requires LanesAmong(lanes, s, s.laneOrder) && LanesResolve(s)
    ensures lanes == s.lanes
  {
  }

  lemma TreeIds(s: State)
    requires WellFormed(s)
    ensures IdsOf(s.entries) == s.entriesById.Keys
  {
    forall id | id in s.entriesById ensures id in IdsOf(s.entries) {
      assert Listed(s.entries, s.entriesById, id) && Grounded(s.entriesById, id);
    }
  }

  lemma RestrictToAll(m: map<Id, string>, ids: set<Id>)
    requires m.Keys <= ids
    ensures (map id | id in m && id in ids :: m[id]) == m
  {
  }

  /** The entries are copies of the others, numbered from 1. */
  ghost predicate AreNumbered(copies: seq<Entry>, es: seq<Entry>) {
    |copies| == |es| && forall i :: 0 <= i < |copies| ==> copies[i] == es[i].(seqNo := i + 1)
  }

  lemma RenumberedAre(es: seq<Entry>)
    ensures AreNumbered(Renumbered(es), es)
  {
  }

  /** The child holds all the source's entries, numbered from 1, with the same lanes in
      the same order, name and labels, and none of its records. */
  ghost predicate IsWhole(c: State, s: State) {
    && AreNumbered(c.entries, s.entries)
    && c.entriesById.Keys == s.entriesById.Keys
    && c.lanes == s.lanes && c.laneOrder == s.laneOrder
    && c.name == s.name && c.labels == s.labels
    && c.records == [] && c.openOps == map[]
  }

  /** A tree fork is the whole source but its records: entries renumbered from 1,
      and the same lanes in the same order, name and labels. */
  lemma TreeForkIsWhole(s: State)
    requires WellFormed(s)
    ensures ForkMutations(s, TreeFork).Ok? && Replay(ForkMutations(s, TreeFork).value).Ok?
    ensures IsWhole(Replay(ForkMutations(s, TreeFork).value).value, s)
  {
    ForkReplays(s, TreeFork);
    RenumberedAre(s.entries);
    TreeLanes(s);
    TreeIds(s);
    RestrictToAll(s.labels, IdsOf(s.entries));
  }

  lemma BranchLanes(target: Option<Id>)
    ensures LanesAfter(INIT.lanes, [Pointer(MAIN, target)]) == map[MAIN := target]
    ensures OrderAfter(INIT.laneOrder, [Pointer(MAIN, target)]) == [MAIN]
  {
    assert [Pointer(MAIN, target)][..0] == [];
    assert LanesAfter(INIT.lanes, []) == INIT.lanes && OrderAfter(INIT.laneOrder, []) == [MAIN];
  }

  /** The child is the source's path from its root to `at`, with `main` there as the only
      lane, its name, and the labels of what was copied. */
  ghost predicate EndsAt(c: State, s: State, at: Option<Id>)
    requires Rooted(s.entriesById)
  {
    && c.lanes == map[MAIN := at] && c.laneOrder == [MAIN]
    && (at.None? ==> c.entries == [])
    && (at.Some? ==> at.value in s.entriesById && AreNumbered(c.entries, Reverse(PathUp(s.entriesById, at.value))))
    && c.name == s.name
    && c.labels == (map id | id in s.labels && id in c.entriesById :: s.labels[id])
    && c.records == [] && c.openOps == map[]
  }

  /** What branching at an entry, or at `main`'s leaf when none is given, answers: an entry
      that is unknown or no message cannot be selected. A given entry is left out unless
      the position says "at"; the leaf of `main` is kept unless it says "before". */
  ghost predicate Branches(s: State, entryId: Option<Id>, position: Option<Position>,
                           r: Result<seq<Mutation>, SessionError>)
    requires WellFormed(s)
  {
    var selected := if entryId.Some? then entryId else s.lanes[MAIN];
    && (r.Err? ==> r.error == InvalidForkTarget)
    && (r.Err? <==> selected.Some?
                    && !(selected.value in s.entriesById && s.entriesById[selected.value].body.Message?))
    && (r.Ok? ==> Replay(r.value).Ok?)
    && (r.Ok? && selected.None? ==> EndsAt(Replay(r.value).value, s, None))
    && (r.Ok? && selected.Some? ==>
          var child, e := Replay(r.value).value, s.entriesById[selected.value];
          && e.id == selected.value
          && (position == Some(AtEntry) ==> EndsAt(child, s, Some(e.id)))
          && (position == Some(BeforeEntry) ==> EndsAt(child, s, e.parentId))
          && (position.None? && entryId.Some? ==> EndsAt(child, s, e.parentId))
          && (position.None? && entryId.None? ==> EndsAt(child, s, Some(e.id))))
  }

  /** A branch fork is exactly a path of the source, ending where the options say. */
  lemma BranchForkIsPath(s: State, entryId: Option<Id>, position: Option<Position>)
    requires WellFormed(s)
    ensures Branches(s, entryId, position, ForkMutations(s, BranchFork(entryId, position)))
  {
    var selected := if entryId.Some? then entryId else s.lanes[MAIN];
    if selected.Some? && selected.value in s.entriesById {
      assert Grounded(s.entriesById, selected.value);
    }
    if ForkTarget(s, entryId, position).Ok? {
      BranchForkEnds(s, entryId, position);
    }
  }

  lemma BranchForkEnds(s: State, entryId: Option<Id>, position: Option<Position>)
    requires WellFormed(s) && ForkTarget(s, entryId, position).Ok?
    ensures ForkMutations(s, BranchFork(entryId, position)).Ok?
    ensures Replay(ForkMutations(s, BranchFork(entryId, position)).value).Ok?
    ensures EndsAt(Replay(ForkMutations(s, BranchFork(entryId, position)).value).value, s,
                   ForkTarget(s, entryId, position).value)
  {
    var target := ForkTarget(s, entryId, position).value;
    ForkTargetKnown(s, entryId, position);
    ForkReplays(s, BranchFork(entryId, position));
    BranchLanes(target);
    if target.Some? {
      RenumberedAre(Reverse(PathUp(s.entriesById, target.value)));
    }
  }

  /** What planning a fork answers, by the child its mutations replay into. */
  ghost predicate Forks(s: State, options: ForkOptions, r: Result<seq<Mutation>, SessionError>)
    requires WellFormed(s)
  {
    match options
    case TreeFork => r.Ok? && Replay(r.value).Ok? && IsWhole(Replay(r.value).value, s)
    case BranchFork(entryId, position) => Branches(s, entryId, position, r)
  }

  lemma ForkAnswers(s: State, options: ForkOptions)
    requires WellFormed(s)
    ensures Forks(s, options, ForkMutations(s, options))
  {
    match options
    case TreeFork => TreeForkIsWhole(s);
    case BranchFork(entryId, position) => BranchForkIsPath(s, entryId, position);
  }
}
