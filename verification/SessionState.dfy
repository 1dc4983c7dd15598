/** The class `SessionState`: the fields it updates in place, each method proved
    against the specification in `Trail`, `Queries` and `Fork`. */
module SessionStateClass {
  import opened Wrappers
  import opened SessionTypes
  import opened Trail
  import opened Queries
  import ParentWalk
  import Fork

  lemma KeptStep<T>(xs: seq<T>, i: nat, p: T -> bool)
    requires i < |xs|
    ensures Kept(xs[..i + 1], p) == if p(xs[i]) then Kept(xs[..i], p) + [xs[i]] else Kept(xs[..i], p)
  {
    assert xs[..i + 1][..i] == xs[..i];
  }

  /** Filtering a prefix and stopping there is filtering all and taking as many. */
  lemma {:induction false} KeptPrefix<T>(xs: seq<T>, i: nat, p: T -> bool)
    requires i <= |xs|
    ensures Kept(xs[..i], p) <= Kept(xs, p)
    ensures UpTo(Kept(xs, p), Some(|Kept(xs[..i], p)|)) == Kept(xs[..i], p)
    decreases |xs| - i
  {
    if i < |xs| {
      KeptStep(xs, i, p);
      KeptPrefix(xs, i + 1, p);
    } else {
      assert xs[..i] == xs;
    }
  }

  ghost predicate NoneStops(xs: seq<Entry>, b: Bounds) {
    forall i :: 0 <= i < |xs| ==> !Stops(xs[i], b)
  }

  lemma UntilStopAt(xs: seq<Entry>, b: Bounds, i: nat)
    requires i <= |xs| && NoneStops(xs[..i], b)
    ensures UntilStop(xs, b) == xs[..i] + UntilStop(xs[i..], b)
  {
    if i > 0 {
      assert xs[..i][0] == xs[0] && xs[1..][..i - 1] == xs[..i][1..] && xs[1..][i - 1..] == xs[i..];
      UntilStopAt(xs[1..], b, i - 1);
      assert xs[..i] == [xs[0]] + xs[1..][..i - 1];
    }
  }

  lemma UntilStopStep(xs: seq<Entry>, b: Bounds, i: nat)
    requires i < |xs| && NoneStops(xs[..i], b)
    ensures i < |UntilStop(xs, b)| && UntilStop(xs, b)[..i + 1] == xs[..i + 1]
    ensures Stops(xs[i], b) ==> UntilStop(xs, b) == xs[..i + 1]
  {
    UntilStopAt(xs, b, i);
  }

  /** When item i stops the oldest-first loop, or fills its limit, what the loop has
      kept is the selection from the walk cut at its bound. */
  lemma BoundStep(xs: seq<Entry>, b: Bounds, i: nat, p: Entry -> bool, limit: Option<int>)
    requires i < |xs| && NoneStops(xs[..i], b)
    requires limit.Some? ==> |Kept(xs[..i], p)| < limit.value
    ensures Kept(xs[..i + 1], p) == if p(xs[i]) then Kept(xs[..i], p) + [xs[i]] else Kept(xs[..i], p)
    ensures Stops(xs[i], b) || limit == Some(|Kept(xs[..i + 1], p)|) ==>
              UpTo(Kept(UntilStop(xs, b), p), limit) == Kept(xs[..i + 1], p)
    ensures !Stops(xs[i], b) ==> NoneStops(xs[..i + 1], b)
  {
    KeptStep(xs, i, p);
    UntilStopStep(xs, b, i);
    if !Stops(xs[i], b) {
      KeptPrefix(UntilStop(xs, b), i + 1, p);
      NoneStopsNext(xs, b, i);
    }
  }

  lemma NoneStopsNext(xs: seq<Entry>, b: Bounds, i: nat)
    requires i < |xs| && NoneStops(xs[..i], b) && !Stops(xs[i], b)
    ensures NoneStops(xs[..i + 1], b)
  {
  }

  lemma UntilStopNever(xs: seq<Entry>, b: Bounds)
    requires NoneStops(xs, b)
    ensures UntilStop(xs, b) == xs
  {
    if xs != [] {
      UntilStopNever(xs[1..], b);
    }
  }

  lemma UnboundedWalk(xs: seq<Entry>)
    ensures UntilStop(xs, UNBOUNDED) == xs
  {
    UntilStopNever(xs, UNBOUNDED);
  }

  lemma SelectEverything(xs: seq<Entry>)
    ensures Select(xs, ANY) == xs
  {
    KeptAll(xs, Matching(ANY));
  }

  class SessionState {
    var sequence: nat
    var usedIds: set<Id>
    var entries: seq<Entry>
    var entriesById: map<Id, Entry>
    var records: seq<LaneRecord>
    var openOperationsByLane: map<string, seq<LaneRecord>>
    var laneOrder: seq<string>
    var lanes: map<string, Option<Id>>
    var log: seq<LogItem>
    var stats: Stats
    var name: Option<string>
    var labels: map<Id, string>

    /** The fields, as one value of the specification. */
    function View(): State
      reads this
    {
      State(sequence, usedIds, entries, entriesById, records, openOperationsByLane,
            laneOrder, lanes, log, stats, name, labels)
    }

    ghost predicate Valid()
      reads this
    {
      WellFormed(View())
    }

    constructor ()
      ensures Valid() && View() == INIT
    {
      sequence, usedIds, entries, entriesById, records := 0, {}, [], map[], [];
      openOperationsByLane, laneOrder, lanes := map[], [MAIN], map[MAIN := None];
      log, stats, name, labels := [], Stats(0, 0, 0, 0, 0.0), None, map[];
      new;
      InitWellFormed();
    }

    method SetLane(lane: string, leaf: Option<Id>)
      modifies this`lanes, this`laneOrder
      ensures lanes == old(lanes)[lane := leaf] && laneOrder == WithLane(old(laneOrder), lane)
    {
      if lane !in laneOrder {
        laneOrder := laneOrder + [lane];
      }
      lanes := lanes[lane := leaf];
    }

    /** Apply one mutation. A refused mutation leaves every field as it was. */
    method ApplyMutation(m: Mutation) returns (r: Result<(), SessionError>)
      requires Valid()
      modifies this
      ensures Valid()
      ensures match Apply(old(View()), m)
              case Ok(t) => r == Ok(()) && View() == t
              case Err(e) => r == Err(e) && View() == old(View())
    {
      if Apply(View(), m).Ok? {
        ApplyKeepsWellFormed(View(), m);
      }
      if SeqOf(m) != sequence + 1 {
        return Err(InvalidEntry);
      }
      match m
      case EntryMutation(lane, entry) => r := ApplyEntry(lane, entry);
      case RecordMutation(record) => r := ApplyRecord(record);
      case LaneMutation(_, lane, leafId) => r := ApplyLane(lane, leafId);
      case NameMutation(_, newName) => ApplyName(newName); r := Ok(());
      case LabelMutation(_, targetId, tag) => r := ApplyLabel(targetId, tag);
    }

    method ApplyEntry(lane: Option<string>, entry: Entry) returns (r: Result<(), SessionError>)
      requires entry.seqNo == sequence + 1
      modifies this
      ensures var m := EntryMutation(lane, entry);
              if Accepts(old(View()), m) then r == Ok(()) && View() == After(old(View()), m)
              else r == Err(InvalidEntry) && View() == old(View())
    {
      if entry.id in usedIds {
        return Err(InvalidEntry);
      }
      if lane.Some? {
        if lane.value !in lanes {
          return Err(InvalidEntry);
        }
        if entry.parentId != lanes[lane.value] {
          return Err(InvalidEntry);
        }
      }
      if entry.parentId.Some? && entry.parentId.value !in entriesById {
        return Err(InvalidEntry);
      }
      AddEntry(lane, entry);
      return Ok(());
    }

    method AddEntry(lane: Option<string>, entry: Entry)
      requires entry.seqNo == sequence + 1
      modifies this`sequence, this`usedIds, this`entries, this`entriesById, this`lanes, this`laneOrder
      modifies this`log, this`stats
      ensures sequence == old(sequence) + 1 && usedIds == old(usedIds) + {entry.id}
      ensures entries == old(entries) + [entry] && entriesById == old(entriesById)[entry.id := entry]
      ensures lanes == if lane.Some? then old(lanes)[lane.value := Some(entry.id)] else old(lanes)
      ensures laneOrder == if lane.Some? then WithLane(old(laneOrder), lane.value) else old(laneOrder)
      ensures log == old(log) + [EntryItem(entry, entry.seqNo)] && stats == CountEntry(old(stats), entry.body)
    {
      sequence := entry.seqNo;
      usedIds := usedIds + {entry.id};
      entries := entries + [entry];
      entriesById := entriesById[entry.id := entry];
      if lane.Some? {
        SetLane(lane.value, Some(entry.id));
      }
      log := log + [EntryItem(entry, entry.seqNo)];
      if entry.body.Message? {
        stats := stats.(messageCount := stats.messageCount + 1);
      }
    }

    method ApplyRecord(record: LaneRecord) returns (r: Result<(), SessionError>)
      requires record.seqNo == sequence + 1
      modifies this
      ensures var m := RecordMutation(record);
              if Accepts(old(View()), m) then r == Ok(()) && View() == After(old(View()), m)
              else r == Err(InvalidEntry) && View() == old(View())
    {
      if record.lane !in lanes {
        return Err(InvalidEntry);
      }
      if record.id in usedIds {
        return Err(InvalidEntry);
      }
      AddRecord(record);
      return Ok(());
    }

    method AddRecord(record: LaneRecord)
      requires record.seqNo == sequence + 1
      modifies this`sequence, this`usedIds, this`records, this`openOperationsByLane, this`log, this`stats
      ensures sequence == old(sequence) + 1 && usedIds == old(usedIds) + {record.id}
      ensures records == old(records) + [record] && openOperationsByLane == NextOps(old(View()), record)
      ensures log == old(log) + [RecordItem(record, record.seqNo)] && stats == CountUsage(old(stats), record.body)
    {
      sequence := record.seqNo;
      usedIds := usedIds + {record.id};
      records := records + [record];
      UpdateOperations(record);
      log := log + [RecordItem(record, record.seqNo)];
      if record.body.UsageRecord? {
        var u := record.body.usage;
        stats := stats.(cachedTokens := stats.cachedTokens + u.cacheRead,
                        uncachedTokens := stats.uncachedTokens + u.input + u.cacheWrite,
                        totalTokens := stats.totalTokens + u.totalTokens,
                        costTotal := stats.costTotal + u.cost);
      }
    }

    method ApplyLane(lane: string, leafId: Option<Id>) returns (r: Result<(), SessionError>)
      modifies this
      ensures var m := LaneMutation(old(sequence) + 1, lane, leafId);
              if Accepts(old(View()), m) then r == Ok(()) && View() == After(old(View()), m)
              else r == Err(InvalidEntry) && View() == old(View())
    {
      if leafId.Some? && leafId.value !in entriesById {
        return Err(InvalidEntry);
      }
      sequence := sequence + 1;
      SetLane(lane, leafId);
      log := log + [LaneItem(lane, leafId, sequence)];
      return Ok(());
    }

    method ApplyName(newName: string)
      modifies this
      ensures View() == After(old(View()), NameMutation(old(sequence) + 1, newName))
    {
      sequence := sequence + 1;
      name := Some(newName);
      log := log + [NameItem(newName, sequence)];
    }

    method ApplyLabel(targetId: Id, tag: Option<string>) returns (r: Result<(), SessionError>)
      modifies this
      ensures var m := LabelMutation(old(sequence) + 1, targetId, tag);
              if Accepts(old(View()), m) then r == Ok(()) && View() == After(old(View()), m)
              else r == Err(InvalidEntry) && View() == old(View())
    {
      if targetId !in entriesById {
        return Err(InvalidEntry);
      }
      sequence := sequence + 1;
      if tag.None? {
        labels := labels - {targetId};
      } else {
        labels := labels[targetId := tag.value];
      }
      log := log + [LabelItem(targetId, tag, sequence)];
      return Ok(());
    }

    method UpdateOperations(record: LaneRecord)
      modifies this`openOperationsByLane
      ensures openOperationsByLane == NextOps(old(View()), record)
    {
      match record.body
      case OperationStarted(_) =>
        var open := if record.lane in openOperationsByLane then openOperationsByLane[record.lane] else [];
        openOperationsByLane := openOperationsByLane[record.lane := open + [record]];
      case OperationFinished(runId, _) =>
        if record.lane in openOperationsByLane {
          openOperationsByLane :=
            openOperationsByLane[record.lane := WithoutOp(openOperationsByLane[record.lane], runId)];
        }
      case _ =>
    }

    // -------------------------------------------------------- validation

    function NextSequence(): nat
      reads this
    {
      sequence + 1
    }

    function RequireLane(lane: string): Result<Option<Id>, SessionError>
      reads this
    {
      if lane in lanes then Ok(lanes[lane]) else Err(InvalidLane)
    }

    function ValidateNewLane(lane: string): Result<(), SessionError>
      reads this
    {
      if lane in lanes then Err(AlreadyExists) else Ok(())
    }

    function ValidateTarget(target: Option<Id>): Result<(), SessionError>
      reads this
    {
      if target.Some? && target.value !in entriesById then Err(NotFound) else Ok(())
    }

    function ValidateUnusedId(id: Id): Result<(), SessionError>
      reads this
    {
      if id in usedIds then Err(AlreadyExists) else Ok(())
    }

    // ----------------------------------------------------------- queries

    method FindEntries(q: EntryQuery) returns (r: Result<seq<Entry>, SessionError>)
      ensures r == Queries.FindEntries(View(), q)
    {
      if q.limit.Some? && q.limit.value <= 0 {
        return Err(InvalidQuery);
      }
      if q.afterSeq.Some? && q.afterSeq.value < 0 {
        return Err(InvalidQuery);
      }
      r := SelectAll(InOrder(entries, q.order), q);
    }

    method WalkToRoot(start: Id, b: Bounds) returns (r: Result<seq<Entry>, SessionError>)
      requires Valid()
      ensures r == ParentWalk.WalkToRoot(entriesById, start, b)
      ensures r == if start in entriesById then Ok(UntilStop(PathUp(entriesById, start), b)) else Err(NotFound)
    {
      ParentWalk.WalkReachesRoot(entriesById, start, b);
      if start !in entriesById {
        return Err(NotFound);
      }
      var visited: set<Id> := {};
      var walked: seq<Entry> := [];
      var current := start;
      ParentWalk.OntoNothing(ParentWalk.Walk(entriesById, start, b, {}));
      while true
        invariant ParentWalk.Walk(entriesById, start, b, {})
               == ParentWalk.Onto(walked, ParentWalk.Walk(entriesById, current, b, visited))
        decreases entriesById.Keys - visited
      {
        if current !in entriesById || current in visited {
          return Err(InvalidEntry);
        }
        ParentWalk.WalkStep(entriesById, current, b, visited, walked);
        var entry := entriesById[current];
        visited := visited + {current};
        if b.stopAtId == Some(entry.id) || b.stopAtType == Some(entry.body.Type()) || entry.parentId.None? {
          return Ok(walked + [entry]);
        }
        walked := walked + [entry];
        current := entry.parentId.value;
      }
    }

    method FindEntriesOnBranch(start: Id, q: EntryQuery, b: Bounds) returns (r: Result<seq<Entry>, SessionError>)
      requires Valid()
      ensures r == Queries.FindEntriesOnBranch(View(), start, q, b)
    {
      if q.limit.Some? && q.limit.value <= 0 {
        return Err(InvalidQuery);
      }
      if q.afterSeq.Some? && q.afterSeq.value < 0 {
        return Err(InvalidQuery);
      }
      if q.order.OldestFirst? {
        var path :- WalkToRoot(start, UNBOUNDED);
        UnboundedWalk(PathUp(entriesById, start));
        r := SelectUntilBound(Reverse(path), q, b);
      } else {
        var path :- WalkToRoot(start, b);
        r := SelectAll(path, q);
      }
    }

    /** The oldest-first loop: it looks for the bound itself, from the root down. */
    static method SelectUntilBound(items: seq<Entry>, q: EntryQuery, b: Bounds)
      returns (r: Result<seq<Entry>, SessionError>)
      requires q.limit.Some? ==> q.limit.value > 0
      ensures r == Ok(Select(UntilStop(items, b), q))
    {
      var results: seq<Entry> := [];
      for i := 0 to |items|
        invariant NoneStops(items[..i], b)
        invariant results == Kept(items[..i], Matching(q))
        invariant q.limit.Some? ==> |results| < q.limit.value
      {
        var reachedBound := b.stopAtId == Some(items[i].id) || b.stopAtType == Some(items[i].body.Type());
        BoundStep(items, b, i, Matching(q), q.limit);
        if MatchesEntryQuery(items[i], q) {
          results := results + [items[i]];
        }
        if reachedBound || q.limit == Some(|results|) {
          return Ok(results);
        }
      }
      assert items[..|items|] == items;
      UntilStopNever(items, b);
      return Ok(results);
    }

    /** The newest-first loop, over a walk that already stopped at its bound. */
    static method SelectAll(items: seq<Entry>, q: EntryQuery) returns (r: Result<seq<Entry>, SessionError>)
      requires q.limit.Some? ==> q.limit.value > 0
      ensures r == Ok(Select(items, q))
    {
      var results: seq<Entry> := [];
      for i := 0 to |items|
        invariant results == Kept(items[..i], Matching(q))
        invariant q.limit.Some? ==> |results| < q.limit.value
      {
        KeptStep(items, i, Matching(q));
        KeptPrefix(items, i + 1, Matching(q));
        if MatchesEntryQuery(items[i], q) {
          results := results + [items[i]];
        }
        if q.limit == Some(|results|) {
          return Ok(results);
        }
      }
      assert items[..|items|] == items;
      return Ok(results);
    }

    method FindOpenOperations(lane: string, limit: Option<int>) returns (r: Result<seq<LaneRecord>, SessionError>)
      ensures r == Queries.FindOpenOperations(View(), lane, limit)
    {
      if limit.Some? && limit.value <= 0 {
        return Err(InvalidQuery);
      }
      var open := if lane in openOperationsByLane then Reverse(openOperationsByLane[lane]) else [];
      return Ok(if limit.Some? && limit.value < |open| then open[..limit.value] else open);
    }

    method GetLog(afterSeq: Option<int>, limit: Option<int>) returns (r: Result<seq<LogItem>, SessionError>)
      ensures r == Queries.GetLog(View(), afterSeq, limit)
    {
      if limit.Some? && limit.value <= 0 {
        return Err(InvalidQuery);
      }
      if afterSeq.Some? && afterSeq.value < 0 {
        return Err(InvalidQuery);
      }
      var past := PastSeq(ItemKey, OldestFirst, afterSeq);
      var results: seq<LogItem> := [];
      for i := 0 to |log|
        invariant results == Kept(log[..i], past)
        invariant limit.Some? ==> |results| < limit.value
      {
        KeptStep(log, i, past);
        assert ItemKey(log[i]) == log[i].seqNo;
        if afterSeq.Some? && log[i].seqNo <= afterSeq.value {
          continue;
        }
        results := results + [log[i]];
        if limit == Some(|results|) {
          KeptPrefix(log, i + 1, past);
          return Ok(results);
        }
      }
      assert log[..|log|] == log;
      return Ok(results);
    }

    // -------------------------------------------------------------- fork

    function GetLanes(): seq<Fork.Pointer>
      reads this
      requires LanesResolve(View())
    {
      Fork.LanesOf(View())
    }

    method CreateForkMutations(options: Fork.ForkOptions) returns (r: Result<seq<Mutation>, SessionError>)
      requires Valid()
      ensures r == Fork.ForkMutations(View(), options)
      ensures Fork.Forks(View(), options, r)
    {
      Fork.ForkAnswers(View(), options);
      r := PlanFork(options);
    }

    method PlanFork(options: Fork.ForkOptions) returns (r: Result<seq<Mutation>, SessionError>)
      requires Valid()
      ensures r == Fork.ForkMutations(View(), options)
    {
      var copied: seq<Entry>;
      var pointers: seq<Fork.Pointer>;
      match options {
        case TreeFork =>
          var all := FindEntries(ANY);
          copied := all.value;
          SelectEverything(entries);
          pointers := GetLanes();
        case BranchFork(entryId, position) =>
          var target :- ResolveTarget(entryId, position);
          Fork.ForkTargetKnown(View(), entryId, position);
          if target.None? {
            copied := [];
          } else {
            var path := FindEntriesOnBranch(target.value, ANY, UNBOUNDED);
            copied := path.value;
            UnboundedWalk(Reverse(PathUp(entriesById, target.value)));
            SelectEverything(Reverse(PathUp(entriesById, target.value)));
          }
          pointers := [Fork.Pointer(MAIN, target)];
      }
      var mutations := WriteForkMutations(Fork.Plan(copied, pointers));
      r := Ok(mutations);
    }

    method ResolveTarget(entryId: Option<Id>, position: Option<Fork.Position>)
      returns (r: Result<Option<Id>, SessionError>)
      requires Valid()
      ensures r == Fork.ForkTarget(View(), entryId, position)
    {
      var selected := entryId;
      if selected.None? {
        selected := RequireLane(MAIN).value;
      }
      if selected.None? {
        return Ok(None);
      }
      if selected.value !in entriesById || !entriesById[selected.value].body.Message? {
        return Err(InvalidForkTarget);
      }
      var entry := entriesById[selected.value];
      var at := if position.Some? then position.value
                else if entryId.None? then Fork.AtEntry else Fork.BeforeEntry;
      return Ok(if at.AtEntry? then Some(entry.id) else entry.parentId);
    }

    /** The fork's mutations in order: entries, lanes, name, labels, numbered from 1. */
    method WriteForkMutations(plan: Fork.Plan) returns (mutations: seq<Mutation>)
      ensures mutations == Fork.PlanMutations(View(), plan)
    {
      var copied, pointers := plan.copied, plan.pointers;
      mutations := [];
      var counter := 0;
      for i := 0 to |copied|
        invariant counter == i && mutations == Fork.CopyEntries(copied[..i])
      {
        counter := counter + 1;
        mutations := mutations + [EntryMutation(None, copied[i].(seqNo := counter))];
      }
      assert copied[..|copied|] == copied;
      for i := 0 to |pointers|
        invariant counter == |copied| + i
        invariant mutations == Fork.CopyEntries(copied) + Fork.MoveLanes(pointers[..i], |copied|)
      {
        counter := counter + 1;
        mutations := mutations + [LaneMutation(counter, pointers[i].lane, pointers[i].leafId)];
      }
      assert pointers[..|pointers|] == pointers;
      if name.Some? {
        counter := counter + 1;
        mutations := mutations + [NameMutation(counter, name.value)];
      }
      ghost var named := mutations;
      for i := 0 to |copied|
        invariant counter == |mutations|
        invariant mutations == named + Fork.LabelFacts(copied[..i], labels, |named|)
      {
        assert copied[..i + 1][..i] == copied[..i];
        var id := copied[i].id;
        if id in labels {
          counter := counter + 1;
          mutations := mutations + [LabelMutation(counter, id, Some(labels[id]))];
        }
      }
    }
  }
}
