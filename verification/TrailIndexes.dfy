/** Every derived field of a replayed state equals a scan of the mutation log. The
    scans are written without the state: they search the log from its end. */
module TrailIndexes {
  import opened Wrappers
  import opened SessionTypes
  import opened Trail

  function Lookup<K, V>(m: map<K, V>, k: K): Option<V> {
    if k in m then Some(m[k]) else None
  }

  function IdOf(m: Mutation): Option<Id> {
    match m
    case EntryMutation(_, e) => Some(e.id)
    case RecordMutation(r) => Some(r.id)
    case _ => None
  }

  ghost predicate Uses(ms: seq<Mutation>, id: Id) {
    exists i :: 0 <= i < |ms| && IdOf(ms[i]) == Some(id)
  }

  function EntriesIn(ms: seq<Mutation>): seq<Entry> {
    if ms == [] then []
    else if Last(ms).EntryMutation? then EntriesIn(Front(ms)) + [Last(ms).entry]
    else EntriesIn(Front(ms))
  }

  function RecordsIn(ms: seq<Mutation>): seq<LaneRecord> {
    if ms == [] then []
    else if Last(ms).RecordMutation? then RecordsIn(Front(ms)) + [Last(ms).record]
    else RecordsIn(Front(ms))
  }

  function EntryScan(ms: seq<Mutation>, id: Id): Option<Entry> {
    if ms == [] then None
    else if Last(ms).EntryMutation? && Last(ms).entry.id == id then Some(Last(ms).entry)
    else EntryScan(Front(ms), id)
  }

  /** The leaf the latest write to `lane` left there; `main` exists from the start. */
  function LaneScan(ms: seq<Mutation>, lane: string): Option<Option<Id>> {
    if ms == [] then if lane == MAIN then Some(None) else None
    else
      match Last(ms)
      case EntryMutation(on, e) => if on == Some(lane) then Some(Some(e.id)) else LaneScan(Front(ms), lane)
      case LaneMutation(_, moved, leaf) => if moved == lane then Some(leaf) else LaneScan(Front(ms), lane)
      case _ => LaneScan(Front(ms), lane)
  }

  function NameScan(ms: seq<Mutation>): Option<string> {
    if ms == [] then None
    else if Last(ms).NameMutation? then Some(Last(ms).name)
    else NameScan(Front(ms))
  }

  function LabelScan(ms: seq<Mutation>, id: Id): Option<string> {
    if ms == [] then None
    else if Last(ms).LabelMutation? && Last(ms).targetId == id then Last(ms).tag
    else LabelScan(Front(ms), id)
  }

  predicate Starts(m: Mutation, lane: string) {
    m.RecordMutation? && m.record.lane == lane && m.record.body.OperationStarted?
  }

  /** The run a mutation finishes on `lane`, if it finishes one. */
  function RunEnded(m: Mutation, lane: string): Option<Id> {
    if m.RecordMutation? && m.record.lane == lane && m.record.body.OperationFinished?
    then Some(m.record.body.finishedRunId)
    else None
  }

  predicate FinishedFrom(ms: seq<Mutation>, i: nat, lane: string, runId: Id) {
    exists j :: i <= j < |ms| && RunEnded(ms[j], lane) == Some(runId)
  }

  /** The operations started on `lane` at or after index `i` with no later finish. */
  function OpenScan(ms: seq<Mutation>, i: nat, lane: string): seq<LaneRecord>
    requires i <= |ms|
    decreases |ms| - i
  {
    if i == |ms| then []
    else
      var rest := OpenScan(ms, i + 1, lane);
      if Starts(ms[i], lane) && !FinishedFrom(ms, i + 1, lane, ms[i].record.id) then [ms[i].record] + rest
      else rest
  }

  function CountMessages(es: seq<Entry>): nat {
    if es == [] then 0
    else CountMessages(es[..|es| - 1]) + if es[|es| - 1].body.Message? then 1 else 0
  }

  function SumOf(rs: seq<LaneRecord>, part: Usage -> int): int {
    if rs == [] then 0
    else SumOf(rs[..|rs| - 1], part)
         + if rs[|rs| - 1].body.UsageRecord? then part(rs[|rs| - 1].body.usage) else 0
  }

  function CostOf(rs: seq<LaneRecord>): real {
    if rs == [] then 0.0
    else CostOf(rs[..|rs| - 1])
         + if rs[|rs| - 1].body.UsageRecord? then rs[|rs| - 1].body.usage.cost else 0.0
  }

  const CACHED: Usage -> int := (u: Usage) => u.cacheRead
  const UNCACHED: Usage -> int := (u: Usage) => u.input + u.cacheWrite
  const TOTAL: Usage -> int := (u: Usage) => u.totalTokens

  ghost predicate SumsAgree(rs: seq<LaneRecord>, t: Stats) {
    && t.cachedTokens == SumOf(rs, CACHED) && t.uncachedTokens == SumOf(rs, UNCACHED)
    && t.totalTokens == SumOf(rs, TOTAL) && t.costTotal == CostOf(rs)
  }

  ghost predicate StatsAgree(ms: seq<Mutation>, t: Stats) {
    t.messageCount == CountMessages(EntriesIn(ms)) && SumsAgree(RecordsIn(ms), t)
  }

  ghost predicate ItemsAgree(ms: seq<Mutation>, s: State) {
    && s.sequence == |s.log| == |ms|
    && forall i :: 0 <= i < |ms| ==> SeqOf(ms[i]) == i + 1 && s.log[i] == ItemOf(ms[i])
  }

  ghost predicate ListsAgree(ms: seq<Mutation>, s: State) {
    && s.entries == EntriesIn(ms)
    && s.records == RecordsIn(ms)
    && s.name == NameScan(ms)
    && (forall id :: id in s.usedIds <==> Uses(ms, id))
  }

  ghost predicate MapsAgree(ms: seq<Mutation>, s: State) {
    && (forall id :: Lookup(s.entriesById, id) == EntryScan(ms, id))
    && (forall lane :: Lookup(s.lanes, lane) == LaneScan(ms, lane))
    && (forall id :: Lookup(s.labels, id) == LabelScan(ms, id))
  }

  ghost predicate OpsAgree(ms: seq<Mutation>, s: State) {
    forall lane :: OpsOf(s, lane) == OpenScan(ms, 0, lane)
  }

  lemma {:induction false} WithoutOpConcat(a: seq<LaneRecord>, b: seq<LaneRecord>, runId: Id)
    ensures WithoutOp(a + b, runId) == WithoutOp(a, runId) + WithoutOp(b, runId)
  {
    if b == [] {
      assert a + b == a;
    } else {
      WithoutOpConcat(a, b[..|b| - 1], runId);
      assert (a + b)[..|a + b| - 1] == a + b[..|b| - 1];
    }
  }

  /** What one more mutation does to the open operations of a lane. */
  function OpenAfter(before: seq<LaneRecord>, m: Mutation, lane: string): seq<LaneRecord> {
    if Starts(m, lane) then before + [m.record]
    else if RunEnded(m, lane).Some? then WithoutOp(before, RunEnded(m, lane).value)
    else before
  }

  lemma OpenAfterCons(r: LaneRecord, before: seq<LaneRecord>, m: Mutation, lane: string)
    ensures OpenAfter([r] + before, m, lane) ==
            if RunEnded(m, lane) == Some(r.id) then OpenAfter(before, m, lane)
            else [r] + OpenAfter(before, m, lane)
  {
    if Starts(m, lane) {
      assert [r] + before + [m.record] == [r] + (before + [m.record]);
    } else if RunEnded(m, lane).Some? {
      var runId := RunEnded(m, lane).value;
      WithoutOpConcat([r], before, runId);
      assert [r][..0] == [] && WithoutOp([], runId) == [];
    }
  }

  lemma {:induction false} OpenScanLast(ms: seq<Mutation>, i: nat, lane: string)
    requires ms != [] && i < |ms|
    ensures OpenScan(ms, i, lane) == OpenAfter(OpenScan(Front(ms), i, lane), Last(ms), lane)
    decreases |ms| - i
  {
    if i == |ms| - 1 {
      assert OpenScan(ms, i + 1, lane) == [];
    } else {
      OpenScanLast(ms, i + 1, lane);
      assert ms[i] == Front(ms)[i];
      if Starts(ms[i], lane) {
        OpenAfterCons(ms[i].record, OpenScan(Front(ms), i + 1, lane), Last(ms), lane);
      }
    }
  }

  lemma StatsRecordStep(rs: seq<LaneRecord>, r: LaneRecord, part: Usage -> int)
    ensures SumOf(rs + [r], part) == SumOf(rs, part) + if r.body.UsageRecord? then part(r.body.usage) else 0
    ensures CostOf(rs + [r]) == CostOf(rs) + if r.body.UsageRecord? then r.body.usage.cost else 0.0
  {
    assert (rs + [r])[..|rs|] == rs;
  }

  lemma StatsStep(ms: seq<Mutation>, s: State)
    requires ms != [] && StatsAgree(Front(ms), s.stats)
    ensures StatsAgree(ms, After(s, Last(ms)).stats)
  {
    var m := Last(ms);
    if m.RecordMutation? {
      StatsUsageStep(ms, s.stats, m.record);
    } else if m.EntryMutation? {
      StatsEntryStep(ms, s.stats, m.entry);
    } else {
      assert EntriesIn(ms) == EntriesIn(Front(ms)) && RecordsIn(ms) == RecordsIn(Front(ms));
    }
  }

  lemma StatsEntryStep(ms: seq<Mutation>, t: Stats, e: Entry)
    requires ms != [] && Last(ms).EntryMutation? && Last(ms).entry == e && StatsAgree(Front(ms), t)
    ensures StatsAgree(ms, CountEntry(t, e.body))
  {
    assert EntriesIn(ms) == EntriesIn(Front(ms)) + [e] && RecordsIn(ms) == RecordsIn(Front(ms));
    MessagesGrow(EntriesIn(Front(ms)), e);
    SumsIgnoreMessages(RecordsIn(ms), t, CountEntry(t, e.body).messageCount);
  }

  lemma MessagesGrow(es: seq<Entry>, e: Entry)
    ensures CountMessages(es + [e]) == CountMessages(es) + if e.body.Message? then 1 else 0
  {
    assert (es + [e])[..|es|] == es;
  }

  lemma SumsIgnoreMessages(rs: seq<LaneRecord>, t: Stats, n: int)
    requires SumsAgree(rs, t)
    ensures SumsAgree(rs, t.(messageCount := n))
  {
  }

  lemma StatsUsageStep(ms: seq<Mutation>, t: Stats, r: LaneRecord)
    requires ms != [] && Last(ms) == RecordMutation(r) && StatsAgree(Front(ms), t)
    ensures StatsAgree(ms, CountUsage(t, r.body))
  {
    assert EntriesIn(ms) == EntriesIn(Front(ms)) && RecordsIn(ms) == RecordsIn(Front(ms)) + [r];
    UsageSums(RecordsIn(Front(ms)), r, t);
  }

  lemma UsageSums(rs: seq<LaneRecord>, r: LaneRecord, t: Stats)
    requires SumsAgree(rs, t)
    ensures SumsAgree(rs + [r], CountUsage(t, r.body))
  {
    StatsRecordStep(rs, r, CACHED);
    StatsRecordStep(rs, r, UNCACHED);
    StatsRecordStep(rs, r, TOTAL);
  }

  lemma OpsStep(ms: seq<Mutation>, s: State)
    requires ms != [] && OpsAgree(Front(ms), s) && Accepts(s, Last(ms))
    ensures OpsAgree(ms, After(s, Last(ms)))
  {
    forall lane ensures OpsOf(After(s, Last(ms)), lane) == OpenScan(ms, 0, lane) {
      OpenScanLast(ms, 0, lane);
    }
  }

  lemma ItemsStep(ms: seq<Mutation>, s: State)
    requires ms != [] && ItemsAgree(Front(ms), s) && Accepts(s, Last(ms))
    ensures ItemsAgree(ms, After(s, Last(ms)))
  {
  }

  lemma MapsStep(ms: seq<Mutation>, s: State)
    requires ms != [] && MapsAgree(Front(ms), s) && Accepts(s, Last(ms))
    ensures MapsAgree(ms, After(s, Last(ms)))
  {
  }

  ghost predicate IndexesAgree(ms: seq<Mutation>, s: State) {
    ItemsAgree(ms, s) && ListsAgree(ms, s) && MapsAgree(ms, s) && OpsAgree(ms, s) && StatsAgree(ms, s.stats)
  }

  lemma IndexesStep(ms: seq<Mutation>, s: State)
    requires ms != [] && IndexesAgree(Front(ms), s) && Accepts(s, Last(ms))
    ensures IndexesAgree(ms, After(s, Last(ms)))
  {
    ItemsStep(ms, s);
    MapsStep(ms, s);
    OpsStep(ms, s);
    StatsStep(ms, s);
  }

  /** After any log that replays, every index agrees with a scan of that log, and
      log item `i` carries sequence number `i + 1`. */
  lemma {:induction false} IndexesEqualScan(ms: seq<Mutation>)
    requires Replay(ms).Ok?
    ensures IndexesAgree(ms, Replay(ms).value)
  {
    if ms != [] {
      IndexesEqualScan(Front(ms));
      IndexesStep(ms, Replay(Front(ms)).value);
    }
  }

  /** The record started on `lane` at or after index `i` and nothing later there
      finishes it. */
  ghost predicate OpenFrom(ms: seq<Mutation>, i: nat, lane: string, r: LaneRecord) {
    exists k :: i <= k < |ms| && Starts(ms[k], lane) && ms[k].record == r && !FinishedFrom(ms, k + 1, lane, r.id)
  }

  /** The open operations of a lane, said without the scan: exactly the started
      records of that lane that no later record of the lane finishes. */
  lemma {:induction false} OpenScanMembers(ms: seq<Mutation>, i: nat, lane: string, r: LaneRecord)
    requires i <= |ms|
    ensures r in OpenScan(ms, i, lane) <==> OpenFrom(ms, i, lane, r)
    decreases |ms| - i
  {
    if i < |ms| {
      OpenScanMembers(ms, i + 1, lane, r);
    }
  }
}
