/** The specification of a session trail: one state value, one `Apply` step, and
    `Replay` as its fold over a log of mutations. */
module Trail {
  import opened Wrappers
  import opened SessionTypes

  const MAIN: string := "main"

  /** The fields of `SessionState`. A JavaScript `Map` iterates in insertion order:
      the lanes keep that order in `laneOrder`, and the open operations of a lane
      are a sequence. `Apply` refuses a used id, so an operation id is always new
      to its lane and insertion is appending. */
  datatype State = State(
    sequence: nat,
    usedIds: set<Id>,
    entries: seq<Entry>,
    entriesById: map<Id, Entry>,
    records: seq<LaneRecord>,
    openOps: map<string, seq<LaneRecord>>,
    laneOrder: seq<string>,
    lanes: map<string, Option<Id>>,
    log: seq<LogItem>,
    stats: Stats,
    name: Option<string>,
    labels: map<Id, string>)

  const INIT: State := State(
    0, {}, [], map[], [], map[], [MAIN], map[MAIN := None], [], Stats(0, 0, 0, 0, 0.0), None, map[])

  function OpsOf(s: State, lane: string): seq<LaneRecord> {
    if lane in s.openOps then s.openOps[lane] else []
  }

  function WithoutOp(ops: seq<LaneRecord>, runId: Id): seq<LaneRecord> {
    if ops == [] then []
    else WithoutOp(ops[..|ops| - 1], runId) + (if ops[|ops| - 1].id == runId then [] else [ops[|ops| - 1]])
  }

  function NextOps(s: State, r: LaneRecord): map<string, seq<LaneRecord>> {
    match r.body
    case OperationStarted(_) => s.openOps[r.lane := OpsOf(s, r.lane) + [r]]
    case OperationFinished(runId, _) =>
      if r.lane in s.openOps then s.openOps[r.lane := WithoutOp(s.openOps[r.lane], runId)] else s.openOps
    case _ => s.openOps
  }

  function CountUsage(t: Stats, body: RecordBody): Stats {
    match body
    case UsageRecord(u) =>
      t.(cachedTokens := t.cachedTokens + u.cacheRead,
         uncachedTokens := t.uncachedTokens + u.input + u.cacheWrite,
         totalTokens := t.totalTokens + u.totalTokens,
         costTotal := t.costTotal + u.cost)
    case _ => t
  }

  function CountEntry(t: Stats, body: EntryBody): Stats {
    if body.Message? then t.(messageCount := t.messageCount + 1) else t
  }

  function WithLane(order: seq<string>, lane: string): seq<string> {
    if lane in order then order else order + [lane]
  }

  /** Whether `applyMutation` accepts a mutation in a state. */
  predicate Accepts(s: State, m: Mutation) {
    && SeqOf(m) == s.sequence + 1
    && match m
       case EntryMutation(lane, e) =>
         && e.id !in s.usedIds
         && (lane.Some? ==> lane.value in s.lanes && e.parentId == s.lanes[lane.value])
         && (e.parentId.Some? ==> e.parentId.value in s.entriesById)
       case RecordMutation(r) => r.lane in s.lanes && r.id !in s.usedIds
       case LaneMutation(_, _, leaf) => leaf.Some? ==> leaf.value in s.entriesById
       case NameMutation(_, _) => true
       case LabelMutation(_, target, _) => target in s.entriesById
  }

  /** The state after an accepted mutation. */
  function After(s: State, m: Mutation): State {
    match m
    case EntryMutation(lane, e) =>
      s.(sequence := s.sequence + 1, log := s.log + [ItemOf(m)],
         usedIds := s.usedIds + {e.id},
         entries := s.entries + [e],
         entriesById := s.entriesById[e.id := e],
         lanes := if lane.Some? then s.lanes[lane.value := Some(e.id)] else s.lanes,
         laneOrder := if lane.Some? then WithLane(s.laneOrder, lane.value) else s.laneOrder,
         stats := CountEntry(s.stats, e.body))
    case RecordMutation(r) =>
      s.(sequence := s.sequence + 1, log := s.log + [ItemOf(m)],
         usedIds := s.usedIds + {r.id},
         records := s.records + [r],
         openOps := NextOps(s, r),
         stats := CountUsage(s.stats, r.body))
    case LaneMutation(_, lane, leaf) =>
      s.(sequence := s.sequence + 1, log := s.log + [ItemOf(m)],
         lanes := s.lanes[lane := leaf], laneOrder := WithLane(s.laneOrder, lane))
    case NameMutation(_, name) =>
      s.(sequence := s.sequence + 1, log := s.log + [ItemOf(m)], name := Some(name))
    case LabelMutation(_, target, tag) =>
      s.(sequence := s.sequence + 1, log := s.log + [ItemOf(m)],
         labels := if tag.Some? then s.labels[target := tag.value] else s.labels - {target})
  }

  function Apply(s: State, m: Mutation): Result<State, SessionError> {
    if Accepts(s, m) then Ok(After(s, m)) else Err(InvalidEntry)
  }

  function Front(ms: seq<Mutation>): seq<Mutation>
    requires ms != []
  {
    ms[..|ms| - 1]
  }

  function Last(ms: seq<Mutation>): Mutation
    requires ms != []
  {
    ms[|ms| - 1]
  }

  function ReplayFrom(s: State, ms: seq<Mutation>): Result<State, SessionError> {
    if ms == [] then Ok(s) else var t :- ReplayFrom(s, Front(ms)); Apply(t, Last(ms))
  }

  function Replay(ms: seq<Mutation>): Result<State, SessionError> {
    ReplayFrom(INIT, ms)
  }

  lemma {:induction false} ReplayConcat(s: State, a: seq<Mutation>, b: seq<Mutation>)
    ensures ReplayFrom(s, a + b) ==
            (match ReplayFrom(s, a) case Ok(t) => ReplayFrom(t, b) case Err(e) => Err(e))
  {
    if b == [] {
      assert a + b == a;
    } else {
      assert Front(a + b) == a + Front(b);
      ReplayConcat(s, a, Front(b));
    }
  }

  /** Any prefix of a log that replays also replays. */
  lemma ReplayPrefix(s: State, ms: seq<Mutation>, n: nat)
    requires ReplayFrom(s, ms).Ok? && n <= |ms|
    ensures ReplayFrom(s, ms[..n]).Ok?
  {
    assert ms[..n] + ms[n..] == ms;
    ReplayConcat(s, ms[..n], ms[n..]);
  }

  lemma ApplyCounts(s: State, m: Mutation)
    requires Apply(s, m).Ok?
    ensures Apply(s, m).value.sequence == s.sequence + 1 == SeqOf(m)
  {
  }

  lemma {:induction false} ReplayCounts(s: State, ms: seq<Mutation>)
    requires ReplayFrom(s, ms).Ok?
    ensures ReplayFrom(s, ms).value.sequence == s.sequence + |ms|
  {
    if ms != [] {
      ReplayCounts(s, Front(ms));
      ApplyCounts(ReplayFrom(s, Front(ms)).value, Last(ms));
    }
  }

  // ------------------------------------------------------------ invariant

  /** The entry filed under `k` is the one of that id, and its parent is a known
      entry with a smaller sequence number. */
  ghost predicate Grounded(byId: map<Id, Entry>, k: Id)
    requires k in byId
  {
    && byId[k].id == k
    && byId[k].seqNo > 0
    && (byId[k].parentId.Some? ==>
          byId[k].parentId.value in byId && byId[byId[k].parentId.value].seqNo < byId[k].seqNo)
  }

  /** The entries form a forest. */
  ghost predicate Rooted(byId: map<Id, Entry>) {
    forall k {:trigger Grounded(byId, k)} :: k in byId ==> Grounded(byId, k)
  }

  ghost predicate Listed(entries: seq<Entry>, byId: map<Id, Entry>, k: Id)
    requires k in byId
  {
    byId[k] in entries
  }

  ghost predicate EntriesIndexed(s: State) {
    && (forall i :: 0 <= i < |s.entries| ==>
          s.entries[i].id in s.entriesById && s.entriesById[s.entries[i].id] == s.entries[i])
    && (forall k {:trigger Listed(s.entries, s.entriesById, k)} ::
          k in s.entriesById ==> Listed(s.entries, s.entriesById, k))
    && (forall i, j :: 0 <= i < j < |s.entries| ==> s.entries[i].seqNo < s.entries[j].seqNo)
    && (forall i :: 0 <= i < |s.entries| ==> s.entries[i].seqNo <= s.sequence)
  }

  ghost predicate LanesResolve(s: State) {
    && MAIN in s.lanes
    && s.laneOrder != [] && s.laneOrder[0] == MAIN
    && (forall i, j :: 0 <= i < j < |s.laneOrder| ==> s.laneOrder[i] != s.laneOrder[j])
    && (forall l :: l in s.laneOrder <==> l in s.lanes)
    && (forall l <- s.lanes :: s.lanes[l].Some? ==> s.lanes[l].value in s.entriesById)
  }

  ghost predicate LogNumbered(s: State) {
    && |s.log| == s.sequence
    && (forall i :: 0 <= i < |s.log| ==> s.log[i].seqNo == i + 1)
  }

  ghost predicate OpsUsed(s: State) {
    forall l <- s.openOps :: forall i :: 0 <= i < |s.openOps[l]| ==> s.openOps[l][i].id in s.usedIds
  }

  /** What every state reachable by `Apply` satisfies. */
  ghost predicate WellFormed(s: State) {
    && Rooted(s.entriesById)
    && EntriesIndexed(s)
    && LanesResolve(s)
    && LogNumbered(s)
    && OpsUsed(s)
    && s.entriesById.Keys <= s.usedIds
    && s.labels.Keys <= s.entriesById.Keys
  }

  lemma InitWellFormed()
    ensures WellFormed(INIT)
  {
  }

  lemma WithoutOpKeeps(ops: seq<LaneRecord>, runId: Id)
    ensures forall r :: r in WithoutOp(ops, runId) <==> r in ops && r.id != runId
  {
    if ops != [] {
      WithoutOpKeeps(ops[..|ops| - 1], runId);
      assert ops == ops[..|ops| - 1] + [ops[|ops| - 1]];
    }
  }

  lemma AddEntryKeepsRooted(byId: map<Id, Entry>, e: Entry)
    requires Rooted(byId) && e.id !in byId && e.seqNo > 0
    requires e.parentId.Some? ==> e.parentId.value in byId && byId[e.parentId.value].seqNo < e.seqNo
    ensures Rooted(byId[e.id := e])
  {
    var t := byId[e.id := e];
    forall k | k in t ensures Grounded(t, k) {
      if k != e.id {
        assert Grounded(byId, k);
      }
    }
  }

  lemma AddEntryKeepsIndex(s: State, e: Entry)
    requires EntriesIndexed(s) && e.id !in s.entriesById && e.seqNo == s.sequence + 1
    ensures EntriesIndexed(s.(sequence := s.sequence + 1,
                              entries := s.entries + [e],
                              entriesById := s.entriesById[e.id := e]))
  {
    var entries := s.entries + [e];
    var byId := s.entriesById[e.id := e];
    forall k | k in byId ensures Listed(entries, byId, k) {
      if k == e.id {
        assert entries[|s.entries|] == e;
      } else {
        assert Listed(s.entries, s.entriesById, k);
      }
    }
  }

  lemma AfterKeepsEntries(s: State, m: Mutation)
    requires WellFormed(s) && Accepts(s, m)
    ensures Rooted(After(s, m).entriesById) && EntriesIndexed(After(s, m))
  {
    if m.EntryMutation? {
      var e := m.entry;
      if e.parentId.Some? {
        assert Listed(s.entries, s.entriesById, e.parentId.value);
      }
      AddEntryKeepsRooted(s.entriesById, e);
      AddEntryKeepsIndex(s, e);
    }
  }

  lemma AfterKeepsOps(s: State, m: Mutation)
    requires WellFormed(s) && Accepts(s, m)
    ensures OpsUsed(After(s, m))
  {
    if m.RecordMutation? {
      var r := m.record;
      if r.body.OperationFinished? && r.lane in s.openOps {
        WithoutOpKeeps(s.openOps[r.lane], r.body.finishedRunId);
        forall i | 0 <= i < |After(s, m).openOps[r.lane]|
          ensures After(s, m).openOps[r.lane][i].id in s.usedIds
        {
          assert After(s, m).openOps[r.lane][i] in s.openOps[r.lane];
        }
      }
    }
  }

  /** Every accepted mutation keeps the invariant. */
  lemma ApplyKeepsWellFormed(s: State, m: Mutation)
    requires WellFormed(s) && Apply(s, m).Ok?
    ensures WellFormed(Apply(s, m).value)
  {
    AfterKeepsEntries(s, m);
    AfterKeepsOps(s, m);
  }

  lemma {:induction false} ReplayKeepsWellFormed(s: State, ms: seq<Mutation>)
    requires WellFormed(s) && ReplayFrom(s, ms).Ok?
    ensures WellFormed(ReplayFrom(s, ms).value)
  {
    if ms != [] {
      ReplayKeepsWellFormed(s, Front(ms));
      ApplyKeepsWellFormed(ReplayFrom(s, Front(ms)).value, Last(ms));
    }
  }

  // ------------------------------------------------- history is append-only

  ghost predicate Linked(path: seq<Entry>, i: int)
    requires 0 <= i < |path| - 1
  {
    path[i].parentId == Some(path[i + 1].id)
  }

  /** The entry, its parent, and so on up to a root. */
  function PathUp(byId: map<Id, Entry>, id: Id): (path: seq<Entry>)
    requires Rooted(byId) && id in byId
    ensures path != [] && path[0] == byId[id]
    ensures path[|path| - 1].parentId == None
    ensures forall i :: 0 <= i < |path| ==> path[i].id in byId && byId[path[i].id] == path[i]
    ensures forall i {:trigger Linked(path, i)} :: 0 <= i < |path| - 1 ==> Linked(path, i)
    ensures forall i, j :: 0 <= i < j < |path| ==> path[j].seqNo < path[i].seqNo
    decreases byId[id].seqNo
  {
    assert Grounded(byId, id);
    var e := byId[id];
    if e.parentId.None? then [e]
    else
      var above := PathUp(byId, e.parentId.value);
      assert Grounded(byId, e.parentId.value);
      var path := [e] + above;
      assert forall i :: 0 < i < |path| - 1 ==> Linked(above, i - 1) ==> Linked(path, i);
      path
  }

  ghost predicate Extends(s: State, t: State) {
    && s.entries <= t.entries
    && s.log <= t.log
    && s.sequence <= t.sequence
    && s.usedIds <= t.usedIds
    && (forall k <- s.entriesById :: k in t.entriesById && t.entriesById[k] == s.entriesById[k])
  }

  lemma ApplyExtends(s: State, m: Mutation)
    requires WellFormed(s) && Apply(s, m).Ok?
    ensures Extends(s, Apply(s, m).value)
  {
  }

  lemma ExtendsTransitive(s: State, t: State, u: State)
    requires Extends(s, t) && Extends(t, u)
    ensures Extends(s, u)
  {
  }

  lemma {:induction false} ReplayExtends(s: State, ms: seq<Mutation>)
    requires WellFormed(s) && ReplayFrom(s, ms).Ok?
    ensures Extends(s, ReplayFrom(s, ms).value)
  {
    if ms != [] {
      var t := ReplayFrom(s, Front(ms)).value;
      ReplayExtends(s, Front(ms));
      ReplayKeepsWellFormed(s, Front(ms));
      ApplyExtends(t, Last(ms));
      ExtendsTransitive(s, t, ReplayFrom(s, ms).value);
    }
  }

  lemma {:induction false} PathUpStable(a: map<Id, Entry>, b: map<Id, Entry>, id: Id)
    requires Rooted(a) && Rooted(b) && id in a
    requires forall k <- a :: k in b && b[k] == a[k]
    ensures PathUp(a, id) == PathUp(b, id)
    decreases a[id].seqNo
  {
    assert Grounded(a, id);
    if a[id].parentId.Some? {
      PathUpStable(a, b, a[id].parentId.value);
    }
  }

  /** No later run of mutations, moved lanes and branches included, changes an entry
      already written, its place in the log, or its path to the root. */
  lemma HistoryIsAppendOnly(s: State, ms: seq<Mutation>, id: Id)
    requires WellFormed(s) && ReplayFrom(s, ms).Ok? && id in s.entriesById
    ensures var t := ReplayFrom(s, ms).value;
            && WellFormed(t)
            && s.entries <= t.entries && s.log <= t.log
            && id in t.entriesById && t.entriesById[id] == s.entriesById[id]
            && PathUp(t.entriesById, id) == PathUp(s.entriesById, id)
  {
    ReplayKeepsWellFormed(s, ms);
    ReplayExtends(s, ms);
    PathUpStable(s.entriesById, ReplayFrom(s, ms).value.entriesById, id);
  }
}
