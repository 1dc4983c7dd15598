/** What a reader of a lane's open operations learns about the log. */
module OpenOperations {
  import opened Wrappers
  import opened SessionTypes
  import opened Trail
  import opened TrailIndexes
  import opened Queries

  ghost predicate Ascends(rs: seq<LaneRecord>, floor: int) {
    && (forall a :: 0 <= a < |rs| ==> rs[a].seqNo > floor)
    && (forall a, b :: 0 <= a < b < |rs| ==> rs[a].seqNo < rs[b].seqNo)
  }

  lemma {:induction false} OpenScanAscends(ms: seq<Mutation>, i: nat, lane: string)
    requires i <= |ms| && forall k :: 0 <= k < |ms| ==> SeqOf(ms[k]) == k + 1
    ensures Ascends(OpenScan(ms, i, lane), i)
    decreases |ms| - i
  {
    if i < |ms| {
      OpenScanAscends(ms, i + 1, lane);
    }
  }

  lemma NewestOpen(ms: seq<Mutation>, lane: string)
    requires forall k :: 0 <= k < |ms| ==> SeqOf(ms[k]) == k + 1
    ensures var newest := Reverse(OpenScan(ms, 0, lane));
            && (forall r :: r in newest <==> OpenFrom(ms, 0, lane, r))
            && (forall a, b :: 0 <= a < b < |newest| ==> newest[a].seqNo > newest[b].seqNo)
  {
    OpenScanAscends(ms, 0, lane);
    var open := OpenScan(ms, 0, lane);
    var newest := Reverse(open);
    forall r ensures r in newest <==> OpenFrom(ms, 0, lane, r) {
      OpenScanMembers(ms, 0, lane, r);
      if r in open {
        var k :| 0 <= k < |open| && open[k] == r;
        assert newest[|open| - 1 - k] == r;
      }
    }
  }

  /** What a caller learns from `findOpenOperations`: open operations only, the latest
      first, so the first one is the latest of all; and without a limit all of them. */
  lemma OpenOperationsNewestFirst(ms: seq<Mutation>, lane: string, limit: Option<int>)
    requires Replay(ms).Ok? && (limit.Some? ==> limit.value > 0)
    ensures var found := FindOpenOperations(Replay(ms).value, lane, limit);
            && found.Ok?
            && (forall a, b :: 0 <= a < b < |found.value| ==> found.value[a].seqNo > found.value[b].seqNo)
            && (forall r <- found.value :: OpenFrom(ms, 0, lane, r))
            && (forall r :: OpenFrom(ms, 0, lane, r) ==> found.value != [] && r.seqNo <= found.value[0].seqNo)
            && (limit.None? ==> forall r :: OpenFrom(ms, 0, lane, r) ==> r in found.value)
  {
    IndexesEqualScan(ms);
    NewestOpen(ms, lane);
    var newest := Reverse(OpenScan(ms, 0, lane));
    assert OpsOf(Replay(ms).value, lane) == OpenScan(ms, 0, lane);
    var found := FindOpenOperations(Replay(ms).value, lane, limit).value;
    assert found == UpTo(newest, limit) && found <= newest;
    forall r | OpenFrom(ms, 0, lane, r) ensures found != [] && r.seqNo <= found[0].seqNo {
      LatestFirst(newest, found, r);
    }
    forall r | r in found ensures r in newest {
      var k :| 0 <= k < |found| && found[k] == r;
      assert newest[k] == r;
    }
  }

  lemma LatestFirst(newest: seq<LaneRecord>, found: seq<LaneRecord>, r: LaneRecord)
    requires forall a, b :: 0 <= a < b < |newest| ==> newest[a].seqNo > newest[b].seqNo
    requires found <= newest && (newest != [] ==> found != []) && r in newest
    ensures found != [] && r.seqNo <= found[0].seqNo
  {
    var k :| 0 <= k < |newest| && newest[k] == r;
    assert found[0] == newest[0];
  }
}
