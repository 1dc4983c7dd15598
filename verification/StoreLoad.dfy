/** What `load` makes of a store that holds a log, all of it or with records lost. */
module StoreLoad {
  import opened Wrappers
  import opened SessionTypes
  import opened Trail
  import opened Store
  import opened Keys

  ghost predicate HasMeta(data: Data, id: string) {
    MetaKey(id) in data && data[MetaKey(id)].MetaDoc? && data[MetaKey(id)].meta.id == id
  }

  /** Every readable log record is the mutation of that number; others may be lost or
      corrupt. */
  ghost predicate Survivors(data: Data, id: string, ms: seq<Mutation>) {
    forall n: nat :: Readable(data, id, n) ==> 1 <= n <= |ms| && data[KeyOf(id, n)] == MutationDoc(ms[n - 1])
  }

  /** The readable records are numbered 1 to `n`, with no hole. */
  ghost predicate ReadableUpTo(data: Data, id: string, n: nat) {
    forall k: nat :: Readable(data, id, k) <==> 1 <= k <= n
  }

  /** The store holds exactly this log of the session. */
  ghost predicate OnDisk(data: Data, id: string, ms: seq<Mutation>) {
    HasMeta(data, id) && Canonical(data, id) && Survivors(data, id, ms) && ReadableUpTo(data, id, |ms|)
  }

  function UpToSeq(n: nat): seq<nat> {
    seq(n, i => i + 1)
  }

  lemma {:induction false} SeqsConsecutive(ms: seq<Mutation>)
    requires Replay(ms).Ok?
    ensures forall i :: 0 <= i < |ms| ==> SeqOf(ms[i]) == i + 1
  {
    if ms != [] {
      SeqsConsecutive(Front(ms));
      ReplayCounts(INIT, Front(ms));
    }
  }

  lemma UpToSeqGrows(n: nat)
    ensures UpToSeq(n) + [n + 1] == UpToSeq(n + 1)
  {
  }

  ghost predicate Holds(data: Data, id: string, ms: seq<Mutation>, i: int)
    requires 0 <= i < |ms|
  {
    KeyOf(id, i + 1) in data && data[KeyOf(id, i + 1)] == MutationDoc(ms[i])
  }

  lemma ReplayNext(ms: seq<Mutation>, m: Mutation)
    ensures Replay(ms + [m]) == match Replay(ms) case Ok(t) => Apply(t, m) case Err(e) => Err(e)
    ensures Replay(ms + [m]).Ok? ==> SeqOf(m) == |ms| + 1
  {
    assert Front(ms + [m]) == ms;
    if Replay(ms).Ok? {
      ReplayCounts(INIT, ms);
    }
  }

  lemma HoldsNext(data: Data, id: string, ms: seq<Mutation>, m: Mutation)
    requires forall i {:trigger Holds(data, id, ms, i)} :: 0 <= i < |ms| ==> Holds(data, id, ms, i)
    requires KeyOf(id, |ms| + 1) in data && data[KeyOf(id, |ms| + 1)] == MutationDoc(m)
    ensures forall i {:trigger Holds(data, id, ms + [m], i)} :: 0 <= i < |ms + [m]| ==> Holds(data, id, ms + [m], i)
  {
    forall i | 0 <= i < |ms + [m]| ensures Holds(data, id, ms + [m], i) {
      if i < |ms| {
        assert Holds(data, id, ms, i);
      }
    }
  }

  ghost predicate Numbered(data: Data, id: string, nums: seq<nat>) {
    forall i :: 0 <= i < |nums| ==>
      && KeyOf(id, nums[i]) in data
      && (data[KeyOf(id, nums[i])].MutationDoc? ==> SeqOf(data[KeyOf(id, nums[i])].mutation) == nums[i])
  }

  /** Whatever the store holds, a successful replay met the numbers 1, 2, 3, ... */
  lemma {:induction false} ReplayDocsCounts(data: Data, id: string, nums: seq<nat>) returns (ms: seq<Mutation>)
    requires Numbered(data, id, nums) && ReplayDocs(data, id, nums).Ok?
    ensures |ms| == |nums| && nums == UpToSeq(|nums|)
    ensures forall i {:trigger Holds(data, id, ms, i)} :: 0 <= i < |ms| ==> Holds(data, id, ms, i)
    ensures ReplayDocs(data, id, nums) == Replay(ms)
  {
    ms := [];
    if nums != [] {
      var front, last := nums[..|nums| - 1], nums[|nums| - 1];
      ms := ReplayDocsCounts(data, id, front);
      var m := data[KeyOf(id, last)].mutation;
      ReplayNext(ms, m);
      HoldsNext(data, id, ms, m);
      UpToSeqGrows(|front|);
      assert nums == front + [last];
      ms := ms + [m];
    }
  }

  lemma {:induction false} ReplayDocsOfLog(data: Data, id: string, ms: seq<Mutation>, n: nat)
    requires n <= |ms|
    requires forall k: nat :: 1 <= k <= n ==> KeyOf(id, k) in data && data[KeyOf(id, k)] == MutationDoc(ms[k - 1])
    ensures ReplayDocs(data, id, UpToSeq(n)) == Replay(ms[..n])
  {
    if n > 0 {
      ReplayDocsOfLog(data, id, ms, n - 1);
      assert UpToSeq(n)[..n - 1] == UpToSeq(n - 1);
      assert Front(ms[..n]) == ms[..n - 1];
    } else {
      assert ms[..0] == [];
    }
  }

  /** Loading stops at the first record that is no mutation, or whose mutation does not
      apply to the state the records before it give; each has its own error. */
  lemma {:induction false} FirstBadRecord(data: Data, id: string, nums: seq<nat>) returns (i: nat)
    requires InStore(nums, data, id) && ReplayDocs(data, id, nums).Err?
    ensures i < |nums| && ReplayDocs(data, id, nums[..i]).Ok?
    ensures match data[KeyOf(id, nums[i])]
            case MutationDoc(m) =>
              !Accepts(ReplayDocs(data, id, nums[..i]).value, m) && ReplayDocs(data, id, nums).error == InvalidEntry
            case _ => ReplayDocs(data, id, nums).error == StorageFault
  {
    var front := nums[..|nums| - 1];
    if ReplayDocs(data, id, front).Err? {
      i := FirstBadRecord(data, id, front);
      assert front[..i] == nums[..i];
    } else {
      i := |nums| - 1;
    }
  }

  lemma NumbersUpTo(data: Data, id: string, nums: seq<nat>, n: nat)
    requires ReadableUpTo(data, id, n) && AreNumbers(nums, data, id)
    ensures nums == UpToSeq(n)
  {
    forall k: nat ensures k in nums <==> k in UpToSeq(n) {
      if 1 <= k <= n {
        assert UpToSeq(n)[k - 1] == k;
      }
      assert k in nums <==> Readable(data, id, k);
    }
    AscendingUnique(nums, UpToSeq(n));
  }

  lemma NumbersOfUpTo(data: Data, id: string, n: nat)
    requires AreNumbers(UpToSeq(n), data, id)
    ensures ReadableUpTo(data, id, n)
  {
    forall k: nat ensures Readable(data, id, k) <==> 1 <= k <= n {
      assert k in UpToSeq(n) <==> Readable(data, id, k);
      if 1 <= k <= n {
        assert UpToSeq(n)[k - 1] == k;
      }
    }
  }

  /** Load detects holes: over any survivors of a log that replays, loading succeeds
      exactly when they are numbered 1 to some `n`, and then yields the state after
      the first `n` mutations. */
  lemma LoadDetectsHoles(data: Data, id: string, ms: seq<Mutation>, r: Result<State, SessionError>)
    requires HasMeta(data, id) && Survivors(data, id, ms) && Replay(ms).Ok? && Loads(data, id, r)
    ensures r.Ok? <==> exists n: nat :: ReadableUpTo(data, id, n)
    ensures forall n: nat :: ReadableUpTo(data, id, n) ==> n <= |ms| && r == Replay(ms[..n])
  {
    var nums :| AreNumbers(nums, data, id) && r == ReplayDocs(data, id, nums);
    SeqsConsecutive(ms);
    if r.Ok? {
      assert Numbered(data, id, nums) by {
        forall i | 0 <= i < |nums| ensures Readable(data, id, nums[i]) {
          assert nums[i] in nums;
        }
      }
      var replayed := ReplayDocsCounts(data, id, nums);
      NumbersOfUpTo(data, id, |nums|);
    }
    forall n: nat | ReadableUpTo(data, id, n) ensures n <= |ms| && r == Replay(ms[..n]) {
      NumbersUpTo(data, id, nums, n);
      assert n > 0 ==> Readable(data, id, n);
      assert forall k: nat :: 1 <= k <= n ==> Readable(data, id, k);
      ReplayDocsOfLog(data, id, ms, n);
    }
    if exists n: nat :: ReadableUpTo(data, id, n) {
      var n: nat :| ReadableUpTo(data, id, n);
      ReplayPrefix(INIT, ms, n);
    }
  }

  lemma LogLoads(data: Data, id: string, ms: seq<Mutation>)
    requires HasMeta(data, id) && ReadableUpTo(data, id, |ms|)
    requires forall k: nat :: 1 <= k <= |ms| ==> KeyOf(id, k) in data && data[KeyOf(id, k)] == MutationDoc(ms[k - 1])
    ensures Loads(data, id, Replay(ms))
  {
    ReplayDocsOfLog(data, id, ms, |ms|);
    assert ms[..|ms|] == ms;
    var nums := UpToSeq(|ms|);
    forall k: nat ensures k in nums <==> Readable(data, id, k) {
      if 1 <= k <= |ms| {
        assert nums[k - 1] == k;
      }
    }
    assert AreNumbers(nums, data, id) && InStore(nums, data, id);
  }

  /** Replay equals live state: a store that holds exactly a log that replays loads
      into that log's state, and nothing else. */
  lemma OnDiskLoads(data: Data, id: string, ms: seq<Mutation>)
    requires OnDisk(data, id, ms) && Replay(ms).Ok?
    ensures Loads(data, id, Replay(ms))
    ensures forall r :: Loads(data, id, r) ==> r == Replay(ms)
  {
    assert forall k: nat :: 1 <= k <= |ms| ==> Readable(data, id, k);
    LogLoads(data, id, ms);
    forall r | Loads(data, id, r) ensures r == Replay(ms) {
      LoadsOnce(data, id, r, Replay(ms));
    }
  }

  /** Writing the next record extends the log on disk. */
  lemma PutExtends(data: Data, id: string, ms: seq<Mutation>, m: Mutation)
    requires OnDisk(data, id, ms)
    ensures OnDisk(data[KeyOf(id, |ms| + 1) := MutationDoc(m)], id, ms + [m])
  {
    var key := KeyOf(id, |ms| + 1);
    var after := data[key := MutationDoc(m)];
    MetaIsNoLogKey(id, |ms| + 1);
    forall n: nat ensures Readable(after, id, n) <==> Readable(data, id, n) || n == |ms| + 1 {
      if KeyOf(id, n) == key {
        KeyOfInjective(id, n, |ms| + 1);
      }
    }
    forall n: nat | Readable(after, id, n) ensures after[KeyOf(id, n)] == MutationDoc((ms + [m])[n - 1]) {
      if n != |ms| + 1 && KeyOf(id, n) == key {
        KeyOfInjective(id, n, |ms| + 1);
      }
    }
    assert IsKeyOfLog(key, id);
  }

  lemma MetaIsNoLogKey(id: string, n: nat)
    ensures MetaKey(id) != KeyOf(id, n)
  {
    assert MetaKey(id)[|SessionPrefix(id)|] == 'm';
    assert KeyOf(id, n)[|SessionPrefix(id)|] == 'l';
  }

  lemma {:induction false} ReplayDocsSequence(data: Data, id: string, nums: seq<nat>)
    requires InStore(nums, data, id) && ReplayDocs(data, id, nums).Ok?
    ensures ReplayDocs(data, id, nums).value.sequence == |nums|
  {
    if nums != [] {
      var front, last := nums[..|nums| - 1], nums[|nums| - 1];
      ReplayDocsSequence(data, id, front);
      ApplyCounts(ReplayDocs(data, id, front).value, data[KeyOf(id, last)].mutation);
    }
  }

  lemma {:induction false} AscendingAtLeast(nums: seq<nat>, n: nat)
    requires Ascending(nums) && (forall k: nat :: 1 <= k <= n ==> k in nums)
    ensures |nums| >= n
  {
    if n > 0 {
      assert n in nums;
      var front := nums[..|nums| - 1];
      AscendingFront(nums, n);
      forall k: nat | 1 <= k <= n - 1 ensures k in front {
        AscendingFront(nums, k);
      }
      AscendingAtLeast(front, n - 1);
    }
  }

  lemma {:induction false} AscendingExactly(nums: seq<nat>, n: nat)
    requires Ascending(nums) && |nums| == n && (forall k: nat :: 1 <= k <= n ==> k in nums)
    ensures nums == UpToSeq(n)
  {
    if n > 0 {
      assert n in nums;
      var front, last := nums[..|nums| - 1], nums[|nums| - 1];
      AscendingFront(nums, n);
      forall k: nat | 1 <= k <= n && k != last ensures k in front {
        AscendingFront(nums, k);
      }
      if last > n {
        AscendingAtLeast(front, n);
        assert false;
      }
      AscendingExactly(front, n - 1);
      UpToSeqGrows(n - 1);
      assert nums == front + [last];
    }
  }

  /** After writing a log over whatever the prefix held, reloading gives that log's
      state exactly when no other readable record was left under the prefix. */
  lemma ReloadExactly(data: Data, id: string, ms: seq<Mutation>)
    requires HasMeta(data, id) && Replay(ms).Ok?
    requires forall k: nat :: 1 <= k <= |ms| ==> KeyOf(id, k) in data && data[KeyOf(id, k)] == MutationDoc(ms[k - 1])
    ensures Loads(data, id, Replay(ms)) <==> ReadableUpTo(data, id, |ms|)
  {
    if ReadableUpTo(data, id, |ms|) {
      LogLoads(data, id, ms);
    }
    if Loads(data, id, Replay(ms)) {
      var nums :| AreNumbers(nums, data, id) && InStore(nums, data, id) && Replay(ms) == ReplayDocs(data, id, nums);
      ReplayDocsSequence(data, id, nums);
      ReplayCounts(INIT, ms);
      forall k: nat | 1 <= k <= |ms| ensures k in nums {
        assert Readable(data, id, k);
      }
      AscendingExactly(nums, |ms|);
      NumbersOfUpTo(data, id, |ms|);
    }
  }
}
