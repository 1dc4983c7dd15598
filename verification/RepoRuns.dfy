/** What the operations of a repo write, and that sessions side by side in one store
    never touch one another, over whole runs of creating, appending, forking and
    deleting. */
module RepoRuns {
  import opened Wrappers
  import opened SessionTypes
  import opened Trail
  import opened Keys
  import opened Store
  import opened StoreLoad
  import opened StorageOps
  import opened DoSession

  /** Nothing outside the session's own prefix differs. */
  ghost predicate OnlyUnder(before: Data, after: Data, id: string) {
    forall k :: !(SessionPrefix(id) <= k) ==>
      (k in before <==> k in after) && (k in before ==> before[k] == after[k])
  }

  ghost predicate SameUnder(d: Data, e: Data, id: string) {
    forall k :: SessionPrefix(id) <= k ==> (k in d <==> k in e) && (k in d ==> d[k] == e[k])
  }

  lemma {:induction false} SameReplay(d: Data, e: Data, id: string, nums: seq<nat>)
    requires SameUnder(d, e, id) && InStore(nums, d, id) && InStore(nums, e, id)
    ensures ReplayDocs(d, id, nums) == ReplayDocs(e, id, nums)
  {
    if nums != [] {
      SameReplay(d, e, id, nums[..|nums| - 1]);
    }
  }

  lemma SameLoads(d: Data, e: Data, id: string, r: Result<State, SessionError>)
    requires SameUnder(d, e, id) && Loads(d, id, r)
    ensures Loads(e, id, r)
  {
    if HasMeta(d, id) {
      var nums :| AreNumbers(nums, d, id) && InStore(nums, d, id) && r == ReplayDocs(d, id, nums);
      forall n: nat ensures Readable(d, id, n) <==> Readable(e, id, n) {
      }
      assert AreNumbers(nums, e, id) && InStore(nums, e, id);
      SameReplay(d, e, id, nums);
    }
  }

  /** Session isolation: what changes only under one session's prefix never changes
      what loading any other session answers. */
  lemma Isolated(before: Data, after: Data, a: string, b: string, r: Result<State, SessionError>)
    requires ValidSessionId(a) && ValidSessionId(b) && a != b && OnlyUnder(before, after, a)
    ensures Loads(before, b, r) <==> Loads(after, b, r)
  {
    forall k | SessionPrefix(b) <= k
      ensures (k in before <==> k in after) && (k in before ==> before[k] == after[k])
    {
      PrefixesDisjoint(a, b, k);
    }
    if Loads(before, b, r) {
      SameLoads(before, after, b, r);
    }
    if Loads(after, b, r) {
      SameLoads(after, before, b, r);
    }
  }

  /** A storage method writes only under its own session's prefix. */
  lemma CommittedOnlyUnder(op: Op, id: string, before: State, data: Data, after: State, dataAfter: Data,
                           error: Option<SessionError>)
    requires Committed(op, id, before, data, after, dataAfter, error)
    ensures OnlyUnder(data, dataAfter, id)
  {
  }

  /** The store after a log is written record by record. */
  function WriteLog(data: Data, id: string, ms: seq<Mutation>): Data {
    if ms == [] then data
    else WriteLog(data, id, Front(ms))[KeyOf(id, |ms|) := MutationDoc(Last(ms))]
  }

  lemma {:induction false} WriteLogHolds(data: Data, id: string, ms: seq<Mutation>)
    ensures var after := WriteLog(data, id, ms);
            && OnlyUnder(data, after, id)
            && (MetaKey(id) in after <==> MetaKey(id) in data)
            && (MetaKey(id) in data ==> after[MetaKey(id)] == data[MetaKey(id)])
            && (Canonical(data, id) ==> Canonical(after, id))
            && (forall k: nat :: KeyOf(id, k) in after <==> KeyOf(id, k) in data || 1 <= k <= |ms|)
            && (forall k: nat :: 1 <= k <= |ms| ==> after[KeyOf(id, k)] == MutationDoc(ms[k - 1]))
            && (forall k: nat :: KeyOf(id, k) in data && !(1 <= k <= |ms|) ==>
                  after[KeyOf(id, k)] == data[KeyOf(id, k)])
  {
    if ms != [] {
      WriteLogHolds(data, id, Front(ms));
      MetaIsNoLogKey(id, |ms|);
      assert IsKeyOfLog(KeyOf(id, |ms|), id);
      forall k: nat | KeyOf(id, k) == KeyOf(id, |ms|) ensures k == |ms| {
        KeyOfInjective(id, k, |ms|);
      }
    }
  }

  /** No readable record is left under the prefix past the first `n`. */
  ghost predicate NothingPast(data: Data, id: string, n: nat) {
    forall k: nat :: Readable(data, id, k) ==> 1 <= k <= n
  }

  lemma WriteLogOnDisk(data: Data, id: string, ms: seq<Mutation>)
    requires HasMeta(data, id) && Canonical(data, id)
    ensures OnDisk(WriteLog(data, id, ms), id, ms) <==> NothingPast(data, id, |ms|)
  {
    WriteLogHolds(data, id, ms);
    var after := WriteLog(data, id, ms);
    forall k: nat | 1 <= k <= |ms| ensures Readable(after, id, k) {
    }
    if OnDisk(after, id, ms) {
      forall k: nat | Readable(data, id, k) ensures 1 <= k <= |ms| {
        assert Readable(after, id, k);
      }
    }
    if NothingPast(data, id, |ms|) {
      forall k: nat | Readable(after, id, k) ensures 1 <= k <= |ms| {
        if !(1 <= k <= |ms|) {
          assert Readable(data, id, k);
        }
      }
    }
  }

  // ------------------------------------------------------------ operations

  /** What an operation writes. A fork that is refused or dies between two puts has
      written its metadata and a part of its log. A delete that dies has removed some of
      the keys, and no order among them is promised. */
  datatype RepoOp =
    | CreateSession(meta: Metadata)
    | PutRecord(id: string, n: nat, m: Mutation)
    | ForkInto(child: Metadata, ms: seq<Mutation>)
    | DeleteSession(id: string)
    | InterruptedDelete(id: string, gone: set<string>)

  function Owner(op: RepoOp): string {
    match op
    case CreateSession(meta) => meta.id
    case PutRecord(id, _, _) => id
    case ForkInto(child, _) => child.id
    case DeleteSession(id) => id
    case InterruptedDelete(id, _) => id
  }

  function StoreAfter(data: Data, op: RepoOp): Data {
    match op
    case CreateSession(meta) => if MetaKey(meta.id) in data then data else data[MetaKey(meta.id) := MetaDoc(meta)]
    case PutRecord(id, n, m) => data[KeyOf(id, n) := MutationDoc(m)]
    case ForkInto(child, ms) =>
      if MetaKey(child.id) in data then data else WriteLog(data[MetaKey(child.id) := MetaDoc(child)], child.id, ms)
    case DeleteSession(id) => map k | k in data && !(SessionPrefix(id) <= k) :: data[k]
    case InterruptedDelete(id, gone) => map k | k in data && !(SessionPrefix(id) <= k && k in gone) :: data[k]
  }

  function RunRepo(data: Data, ops: seq<RepoOp>): Data {
    if ops == [] then data else StoreAfter(RunRepo(data, ops[..|ops| - 1]), ops[|ops| - 1])
  }

  lemma AfterOnlyUnder(data: Data, op: RepoOp)
    ensures OnlyUnder(data, StoreAfter(data, op), Owner(op))
  {
    match op
    case CreateSession(meta) => assert SessionPrefix(meta.id) <= MetaKey(meta.id);
    case PutRecord(id, n, _) => assert SessionPrefix(id) <= KeyOf(id, n);
    case ForkInto(child, ms) =>
      assert SessionPrefix(child.id) <= MetaKey(child.id);
      WriteLogHolds(data[MetaKey(child.id) := MetaDoc(child)], child.id, ms);
    case _ =>
  }

  /** Session isolation over runs: whatever is created, appended, forked into or deleted
      elsewhere, and in any order, loading a session answers the same. */
  lemma {:induction false} IsolatedRun(data: Data, ops: seq<RepoOp>, id: string, r: Result<State, SessionError>)
    requires ValidSessionId(id)
    requires forall i :: 0 <= i < |ops| ==> ValidSessionId(Owner(ops[i])) && Owner(ops[i]) != id
    ensures Loads(data, id, r) <==> Loads(RunRepo(data, ops), id, r)
  {
    if ops != [] {
      var before, last := RunRepo(data, ops[..|ops| - 1]), ops[|ops| - 1];
      IsolatedRun(data, ops[..|ops| - 1], id, r);
      AfterOnlyUnder(before, last);
      Isolated(before, StoreAfter(before, last), Owner(last), id, r);
    }
  }

  lemma AfterCanonical(data: Data, op: RepoOp, id: string)
    requires ValidSessionId(id) && ValidSessionId(Owner(op)) && Canonical(data, id)
    ensures Canonical(StoreAfter(data, op), id)
  {
    if Owner(op) == id {
      match op
      case CreateSession(meta) => MetaKeepsLog(data, meta);
      case PutRecord(_, n, _) => assert IsKeyOfLog(KeyOf(id, n), id);
      case ForkInto(child, ms) =>
        MetaKeepsLog(data, child);
        WriteLogHolds(data[MetaKey(id) := MetaDoc(child)], id, ms);
      case _ =>
    } else {
      AfterOnlyUnder(data, op);
      forall k | k in StoreAfter(data, op) && SessionPrefix(id) + "log/" <= k ensures IsKeyOfLog(k, id) {
        assert SessionPrefix(id) <= k;
        PrefixesDisjoint(Owner(op), id, k);
      }
    }
  }

  /** In every store a repo has grown from an empty one, each session's log keys are
      ones the log key constructor makes, as loading supposes. */
  lemma {:induction false} ReachableCanonical(ops: seq<RepoOp>, id: string)
    requires ValidSessionId(id) && forall i :: 0 <= i < |ops| ==> ValidSessionId(Owner(ops[i]))
    ensures Canonical(RunRepo(map[], ops), id)
  {
    if ops != [] {
      ReachableCanonical(ops[..|ops| - 1], id);
      AfterCanonical(RunRepo(map[], ops[..|ops| - 1]), ops[|ops| - 1], id);
    }
  }

  // ----------------------------------------------------- what a delete leaves

  /** A session created, named, deleted but for its log when the delete died, and
      created again under the same id. */
  function Recreated(id: string): seq<RepoOp> {
    var meta := Metadata(id, "", 0, None);
    [CreateSession(meta), PutRecord(id, 1, NameMutation(1, "old")),
     InterruptedDelete(id, {MetaKey(id)}), CreateSession(meta)]
  }

  lemma RecreatedStore(id: string)
    ensures RunRepo(map[], Recreated(id))
         == map[MetaKey(id) := MetaDoc(Metadata(id, "", 0, None)), KeyOf(id, 1) := MutationDoc(NameMutation(1, "old"))]
  {
    var ops, meta := Recreated(id), Metadata(id, "", 0, None);
    MetaIsNoLogKey(id, 1);
    var a: Data := map[MetaKey(id) := MetaDoc(meta)];
    var b := a[KeyOf(id, 1) := MutationDoc(NameMutation(1, "old"))];
    var c: Data := map[KeyOf(id, 1) := MutationDoc(NameMutation(1, "old"))];
    assert ops[..4] == ops && ops[..4][..3] == ops[..3] && ops[..3][..2] == ops[..2] && ops[..2][..1] == ops[..1];
    assert RunRepo(map[], ops[..1]) == StoreAfter(map[], ops[0]) == a by {
      assert ops[..1][..0] == [];
    }
    assert RunRepo(map[], ops[..2]) == b;
    assert SessionPrefix(id) <= MetaKey(id);
    assert RunRepo(map[], ops[..3]) == c;
    assert c[MetaKey(id) := MetaDoc(meta)] == b;
  }

  /** An interrupted delete can leave a readable record behind, and then the session
      created over it does not load as the empty session its creator holds: it loads
      with the name of the deleted one. */
  lemma RecreatedLoadsOldLog(id: string)
    ensures var data := RunRepo(map[], Recreated(id));
            && !Loads(data, id, Ok(INIT))
            && Replay([NameMutation(1, "old")]).Ok? && Loads(data, id, Replay([NameMutation(1, "old")]))
            && Replay([NameMutation(1, "old")]).value.name == Some("old")
  {
    var data, ms := RunRepo(map[], Recreated(id)), [NameMutation(1, "old")];
    RecreatedStore(id);
    MetaIsNoLogKey(id, 1);
    assert Front(ms) == [] && Replay([]) == Ok(INIT);
    forall k: nat ensures Readable(data, id, k) <==> k == 1 {
      MetaIsNoLogKey(id, k);
      if KeyOf(id, k) == KeyOf(id, 1) {
        KeyOfInjective(id, k, 1);
      }
    }
    assert Readable(data, id, 1);
    ReloadExactly(data, id, []);
    ReloadExactly(data, id, ms);
  }
}
