/** The parent walk of `SessionState`, on any map of entries: it always ends, and on
    a forest it ends at a root with neither of its errors. */
module ParentWalk {
  import opened Wrappers
  import opened SessionTypes
  import opened Trail
  import opened Queries

  /** The walk from `current`, given the ids already seen. It fails on a cycle and on
      a missing parent. */
  function Walk(byId: map<Id, Entry>, current: Id, b: Bounds, visited: set<Id>): Result<seq<Entry>, SessionError>
    decreases byId.Keys - visited
  {
    if current !in byId then Err(InvalidEntry)
    else if current in visited then Err(InvalidEntry)
    else if Stops(byId[current], b) || byId[current].parentId.None? then Ok([byId[current]])
    else
      var above :- Walk(byId, byId[current].parentId.value, b, visited + {current});
      Ok([byId[current]] + above)
  }

  function WalkToRoot(byId: map<Id, Entry>, start: Id, b: Bounds): Result<seq<Entry>, SessionError> {
    if start !in byId then Err(NotFound) else Walk(byId, start, b, {})
  }

  /** What the walk has found so far, and what it will find from here. */
  function Onto(walked: seq<Entry>, rest: Result<seq<Entry>, SessionError>): Result<seq<Entry>, SessionError> {
    if rest.Ok? then Ok(walked + rest.value) else rest
  }

  lemma OntoNothing(rest: Result<seq<Entry>, SessionError>)
    ensures Onto([], rest) == rest
  {
    if rest.Ok? {
      assert [] + rest.value == rest.value;
    }
  }

  lemma WalkStep(byId: map<Id, Entry>, current: Id, b: Bounds, visited: set<Id>, walked: seq<Entry>)
    requires current in byId && current !in visited
    ensures Onto(walked, Walk(byId, current, b, visited))
            == if Stops(byId[current], b) || byId[current].parentId.None? then Ok(walked + [byId[current]])
               else Onto(walked + [byId[current]], Walk(byId, byId[current].parentId.value, b, visited + {current}))
  {
    if !Stops(byId[current], b) && byId[current].parentId.Some? {
      var above := Walk(byId, byId[current].parentId.value, b, visited + {current});
      if above.Ok? {
        assert walked + ([byId[current]] + above.value) == (walked + [byId[current]]) + above.value;
      }
    }
  }

  lemma PathStep(byId: map<Id, Entry>, id: Id, b: Bounds)
    requires Rooted(byId) && id in byId
    ensures byId[id].seqNo > 0
    ensures byId[id].parentId.Some? ==>
      byId[id].parentId.value in byId && byId[byId[id].parentId.value].seqNo < byId[id].seqNo
    ensures UntilStop(PathUp(byId, id), b)
            == if Stops(byId[id], b) || byId[id].parentId.None? then [byId[id]]
               else [byId[id]] + UntilStop(PathUp(byId, byId[id].parentId.value), b)
  {
    assert Grounded(byId, id);
    if byId[id].parentId.Some? {
      assert PathUp(byId, id)[1..] == PathUp(byId, byId[id].parentId.value);
    } else {
      assert PathUp(byId, id)[1..] == [] && [byId[id]] + UntilStop([], b) == [byId[id]];
    }
  }

  lemma {:induction false} WalkSucceeds(byId: map<Id, Entry>, current: Id, b: Bounds, visited: set<Id>)
    requires Rooted(byId) && current in byId
    requires forall v :: v in visited && v in byId ==> byId[v].seqNo > byId[current].seqNo
    ensures Walk(byId, current, b, visited) == Ok(UntilStop(PathUp(byId, current), b))
    decreases byId[current].seqNo
  {
    PathStep(byId, current, b);
    if byId[current].parentId.Some? {
      PathStep(byId, byId[current].parentId.value, b);
      WalkSucceeds(byId, byId[current].parentId.value, b, visited + {current});
    }
  }

  /** From a known entry of a forest the walk reaches a root, or the first stopping
      entry before it; its cycle and missing-entry errors never fire. */
  lemma WalkReachesRoot(byId: map<Id, Entry>, start: Id, b: Bounds)
    requires Rooted(byId)
    ensures WalkToRoot(byId, start, b) ==
            if start in byId then Ok(UntilStop(PathUp(byId, start), b)) else Err(NotFound)
  {
    if start in byId {
      WalkSucceeds(byId, start, b, {});
    }
  }
}
