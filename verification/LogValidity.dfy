/** Which logs replay, said of the log alone. */
module LogValidity {
  import opened Wrappers
  import opened SessionTypes
  import opened Trail
  import opened TrailIndexes

  ghost predicate HasEntry(ms: seq<Mutation>, id: Id) {
    exists i :: 0 <= i < |ms| && ms[i].EntryMutation? && ms[i].entry.id == id
  }

  /** The lane `main` exists from the start, any other once it was pointed somewhere. */
  ghost predicate HasLane(ms: seq<Mutation>, lane: string) {
    lane == MAIN || exists i :: 0 <= i < |ms| && ms[i].LaneMutation? && ms[i].movedLane == lane
  }

  /** The mutation continues the log before it: the next number, no id used before, and
      every lane, leaf, parent and label target already there. An entry written on a lane
      is a child of what the log left that lane pointing at. */
  ghost predicate Continues(ms: seq<Mutation>, m: Mutation) {
    && SeqOf(m) == |ms| + 1
    && (IdOf(m).Some? ==> !Uses(ms, IdOf(m).value))
    && match m
       case EntryMutation(lane, e) =>
         && (lane.Some? ==> HasLane(ms, lane.value) && LaneScan(ms, lane.value) == Some(e.parentId))
         && (e.parentId.Some? ==> HasEntry(ms, e.parentId.value))
       case RecordMutation(r) => HasLane(ms, r.lane)
       case LaneMutation(_, _, leaf) => leaf.Some? ==> HasEntry(ms, leaf.value)
       case NameMutation(_, _) => true
       case LabelMutation(_, target, _) => HasEntry(ms, target)
  }

  lemma {:induction false} EntryScanFinds(ms: seq<Mutation>, id: Id)
    ensures EntryScan(ms, id).Some? <==> HasEntry(ms, id)
  {
    if ms != [] {
      EntryScanFinds(Front(ms), id);
      if HasEntry(Front(ms), id) {
        var i :| 0 <= i < |Front(ms)| && Front(ms)[i].EntryMutation? && Front(ms)[i].entry.id == id;
        assert ms[i] == Front(ms)[i];
      }
    }
  }

  /** An entry is never what brings a lane into being. */
  lemma {:induction false} LaneScanFinds(ms: seq<Mutation>, lane: string)
    requires forall i :: 0 <= i < |ms| ==> Continues(ms[..i], ms[i])
    ensures LaneScan(ms, lane).Some? <==> HasLane(ms, lane)
  {
    if ms != [] {
      var front := Front(ms);
      forall i | 0 <= i < |front| ensures Continues(front[..i], front[i]) {
        assert front[..i] == ms[..i];
      }
      LaneScanFinds(front, lane);
      assert Continues(ms[..|ms| - 1], Last(ms));
      HasLaneGrows(ms, lane);
    }
  }

  lemma HasLaneGrows(ms: seq<Mutation>, lane: string)
    requires ms != []
    ensures HasLane(ms, lane) <==> HasLane(Front(ms), lane) || (Last(ms).LaneMutation? && Last(ms).movedLane == lane)
  {
    if HasLane(Front(ms), lane) && lane != MAIN {
      var i :| 0 <= i < |Front(ms)| && Front(ms)[i].LaneMutation? && Front(ms)[i].movedLane == lane;
      assert ms[i] == Front(ms)[i];
    }
  }

  lemma AcceptsContinuation(ms: seq<Mutation>, m: Mutation)
    requires Replay(ms).Ok? && forall i :: 0 <= i < |ms| ==> Continues(ms[..i], ms[i])
    ensures Accepts(Replay(ms).value, m) <==> Continues(ms, m)
  {
    var s := Replay(ms).value;
    IndexesEqualScan(ms);
    forall id ensures id in s.entriesById <==> HasEntry(ms, id) {
      EntryScanFinds(ms, id);
      assert Lookup(s.entriesById, id) == EntryScan(ms, id);
    }
    forall lane ensures lane in s.lanes <==> HasLane(ms, lane) {
      LaneScanFinds(ms, lane);
      assert Lookup(s.lanes, lane) == LaneScan(ms, lane);
    }
    if m.EntryMutation? && m.lane.Some? {
      assert Lookup(s.lanes, m.lane.value) == LaneScan(ms, m.lane.value);
    }
  }

  /** A log replays exactly when each of its mutations continues the ones before it. */
  lemma {:induction false} ReplaysExactly(ms: seq<Mutation>)
    ensures Replay(ms).Ok? <==> forall i :: 0 <= i < |ms| ==> Continues(ms[..i], ms[i])
  {
    if ms != [] {
      var front := Front(ms);
      ReplaysExactly(front);
      assert forall i :: 0 <= i < |front| ==> front[..i] == ms[..i];
      if forall i :: 0 <= i < |front| ==> Continues(front[..i], front[i]) {
        AcceptsContinuation(front, Last(ms));
        assert front == ms[..|ms| - 1];
      }
    }
  }
}
