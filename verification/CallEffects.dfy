/** What an accepted call of the storage leaves in the state, said of the state's own
    fields, and exactly when a call is refused. */
module CallEffects {
  import opened Wrappers
  import opened SessionTypes
  import opened Trail
  import opened StorageOps

  predicate Unknown(s: State, target: Option<Id>) {
    target.Some? && target.value !in s.entriesById
  }

  ghost predicate LaneCreated(s: State, t: State, lane: string, at: Option<Id>) {
    t == s.(sequence := s.sequence + 1, log := s.log + [LaneItem(lane, at, s.sequence + 1)],
            lanes := s.lanes[lane := at], laneOrder := s.laneOrder + [lane])
  }

  ghost predicate LaneMoved(s: State, t: State, lane: string, to: Option<Id>) {
    t == s.(sequence := s.sequence + 1, log := s.log + [LaneItem(lane, to, s.sequence + 1)],
            lanes := s.lanes[lane := to])
  }

  /** The entry is appended under its id, its lane points at it, and a message counts. */
  ghost predicate EntryAppended(s: State, t: State, lane: string, e: Entry) {
    && t == s.(sequence := s.sequence + 1, log := s.log + [EntryItem(e, s.sequence + 1)],
               usedIds := s.usedIds + {e.id}, entries := s.entries + [e],
               entriesById := s.entriesById[e.id := e], lanes := s.lanes[lane := Some(e.id)],
               stats := t.stats)
    && t.stats == s.stats.(messageCount := s.stats.messageCount + if e.body.Message? then 1 else 0)
  }

  /** The record is appended, what it starts is its lane's only open operation, what it
      finishes is no longer open, and usage is added up. */
  ghost predicate RecordAppended(s: State, t: State, r: LaneRecord) {
    && t == s.(sequence := s.sequence + 1, log := s.log + [RecordItem(r, s.sequence + 1)],
               usedIds := s.usedIds + {r.id}, records := s.records + [r],
               openOps := t.openOps, stats := t.stats)
    && (forall lane :: lane != r.lane ==> OpsOf(t, lane) == OpsOf(s, lane))
    && (r.body.OperationStarted? ==> OpsOf(t, r.lane) == [r])
    && (r.body.OperationFinished? ==>
          forall x :: x in OpsOf(t, r.lane) <==> x in OpsOf(s, r.lane) && x.id != r.body.finishedRunId)
    && (!r.body.OperationStarted? && !r.body.OperationFinished? ==> OpsOf(t, r.lane) == OpsOf(s, r.lane))
    && (if r.body.UsageRecord? then UsageAdded(s.stats, t.stats, r.body.usage) else t.stats == s.stats)
  }

  ghost predicate UsageAdded(a: Stats, b: Stats, u: Usage) {
    b == Stats(a.messageCount, a.cachedTokens + u.cacheRead, a.uncachedTokens + u.input + u.cacheWrite,
               a.totalTokens + u.totalTokens, a.costTotal + u.cost)
  }

  ghost predicate NameSet(s: State, t: State, name: string) {
    t == s.(sequence := s.sequence + 1, log := s.log + [NameItem(name, s.sequence + 1)], name := Some(name))
  }

  ghost predicate LabelSet(s: State, t: State, target: Id, tag: Option<string>) {
    && t == s.(sequence := s.sequence + 1, log := s.log + [LabelItem(target, tag, s.sequence + 1)], labels := t.labels)
    && (tag.Some? ==> t.labels == s.labels[target := tag.value])
    && (tag.None? ==> target !in t.labels && t.labels == s.labels - {target})
  }

  /** What a call may answer: refused for that reason with the state as it was, or
      accepted. */
  ghost predicate Answers(s: State, op: Op, refusal: Option<SessionError>) {
    match refusal
    case Some(e) => Prepare(s, op) == Err(e) && Step(s, op) == s
    case None => Prepare(s, op).Ok?
  }

  /** Creating a lane fails for a lane that exists or a leaf that does not. */
  lemma CreateLaneEffect(s: State, lane: string, at: Option<Id>)
    requires WellFormed(s)
    ensures var op := Op.CreateLane(lane, at);
            && Answers(s, op, if lane in s.lanes then Some(AlreadyExists)
                              else if Unknown(s, at) then Some(NotFound) else None)
            && (Prepare(s, op).Ok? ==> LaneCreated(s, Step(s, op), lane, at))
  {
    assert lane !in s.lanes ==> lane !in s.laneOrder;
  }

  /** Moving a lane fails for a lane or a leaf that does not exist. */
  lemma MoveLaneEffect(s: State, lane: string, to: Option<Id>)
    requires WellFormed(s)
    ensures var op := Op.MoveLane(lane, to);
            && Answers(s, op, if lane !in s.lanes then Some(InvalidLane)
                              else if Unknown(s, to) then Some(NotFound) else None)
            && (Prepare(s, op).Ok? ==> LaneMoved(s, Step(s, op), lane, to))
  {
    assert lane in s.lanes ==> lane in s.laneOrder;
  }

  /** An entry is chained to the leaf its lane had, under the next number. */
  lemma AppendEntryEffect(s: State, id: Id, body: EntryBody, lane: string, now: int)
    requires WellFormed(s)
    ensures var op := Op.AppendEntry(id, body, lane, now);
            && Answers(s, op, if lane !in s.lanes then Some(InvalidLane)
                              else if id in s.usedIds then Some(AlreadyExists) else None)
            && (Prepare(s, op).Ok? ==>
                  && lane in s.lanes
                  && EntryAppended(s, Step(s, op), lane, Entry(id, s.lanes[lane], s.sequence + 1, now, body)))
  {
    var op := Op.AppendEntry(id, body, lane, now);
    if Prepare(s, op).Ok? {
      PreparedIsAccepted(s, op);
      assert lane in s.laneOrder;
    }
  }

  lemma RecordIsAppended(s: State, r: LaneRecord)
    requires r.seqNo == s.sequence + 1 && (r.body.OperationStarted? ==> OpsOf(s, r.lane) == [])
    ensures RecordAppended(s, After(s, RecordMutation(r)), r)
  {
    if r.body.OperationFinished? {
      WithoutOpKeeps(OpsOf(s, r.lane), r.body.finishedRunId);
    }
  }

  /** A lane takes a second operation only after the first one has finished. */
  lemma AppendRecordEffect(s: State, id: Id, body: RecordBody, lane: string, now: int)
    requires WellFormed(s)
    ensures var op := Op.AppendRecord(id, body, lane, now);
            && Answers(s, op, if lane !in s.lanes then Some(InvalidLane)
                              else if id in s.usedIds then Some(AlreadyExists)
                              else if body.OperationStarted? && OpsOf(s, lane) != [] then Some(StorageFault) else None)
            && (Prepare(s, op).Ok? ==>
                  RecordAppended(s, Step(s, op), LaneRecord(id, lane, s.sequence + 1, now, body)))
  {
    if Prepare(s, Op.AppendRecord(id, body, lane, now)).Ok? {
      RecordIsAppended(s, LaneRecord(id, lane, s.sequence + 1, now, body));
    }
  }

  lemma SetNameEffect(s: State, name: string)
    requires WellFormed(s)
    ensures Answers(s, Op.SetName(name), None) && NameSet(s, Step(s, Op.SetName(name)), name)
  {
  }

  lemma SetLabelEffect(s: State, target: Id, tag: Option<string>)
    requires WellFormed(s)
    ensures var op := Op.SetLabel(target, tag);
            && Answers(s, op, if target !in s.entriesById then Some(NotFound) else None)
            && (Prepare(s, op).Ok? ==> LabelSet(s, Step(s, op), target, tag))
  {
  }

  // ------------------------------------------------------- across calls

  /** The path from an entry just appended is that entry and then the path of the leaf
      its lane had. */
  lemma AppendExtendsPath(s: State, id: Id, body: EntryBody, lane: string, now: int)
    requires WellFormed(s) && lane in s.lanes && id !in s.usedIds
    ensures var t := Step(s, Op.AppendEntry(id, body, lane, now));
            && WellFormed(t) && lane in t.lanes && t.lanes[lane] == Some(id) && id in t.entriesById
            && PathUp(t.entriesById, id)
               == [Entry(id, s.lanes[lane], s.sequence + 1, now, body)]
                  + match s.lanes[lane] case None => [] case Some(leaf) => PathUp(s.entriesById, leaf)
  {
    var op := Op.AppendEntry(id, body, lane, now);
    PreparedIsAccepted(s, op);
    AppendEntryEffect(s, id, body, lane, now);
    var t := Step(s, op);
    assert Grounded(t.entriesById, id);
    if s.lanes[lane].Some? {
      PathUpStable(s.entriesById, t.entriesById, s.lanes[lane].value);
    }
  }

  lemma RunTwo(s: State, a: Op, b: Op)
    ensures Run(s, [a, b]) == Step(Step(s, a), b)
  {
    assert [a, b][..1] == [a] && [a][..0] == [];
    assert Run(s, [a]) == Step(Run(s, []), a);
  }

  lemma MovedLane(s: State, lane: string, at: Id)
    requires WellFormed(s) && lane in s.lanes && at in s.entriesById
    ensures var moved := Step(s, Op.MoveLane(lane, Some(at)));
            WellFormed(moved) && LaneMoved(s, moved, lane, Some(at))
  {
    MoveLaneEffect(s, lane, Some(at));
    PreparedIsAccepted(s, Op.MoveLane(lane, Some(at)));
  }

  /** Branching: after a lane is moved to an earlier entry, what is appended to it
      continues that entry's path, whatever the lane pointed at before; the entries of
      the branch left behind stay. */
  lemma BranchContinuesPath(s: State, lane: string, at: Id, id: Id, body: EntryBody, now: int)
    requires WellFormed(s) && lane in s.lanes && at in s.entriesById && id !in s.usedIds
    ensures var t := Run(s, [Op.MoveLane(lane, Some(at)), Op.AppendEntry(id, body, lane, now)]);
            var e := Entry(id, Some(at), s.sequence + 2, now, body);
            && WellFormed(t) && t.entries == s.entries + [e]
            && id in t.entriesById && PathUp(t.entriesById, id) == [e] + PathUp(s.entriesById, at)
  {
    var move, append := Op.MoveLane(lane, Some(at)), Op.AppendEntry(id, body, lane, now);
    RunTwo(s, move, append);
    MovedLane(s, lane, at);
    BranchAppends(s, Step(s, move), lane, at, id, body, now);
  }

  lemma BranchAppends(s: State, moved: State, lane: string, at: Id, id: Id, body: EntryBody, now: int)
    requires WellFormed(s) && at in s.entriesById && id !in s.usedIds
    requires WellFormed(moved) && LaneMoved(s, moved, lane, Some(at))
    ensures var t := Step(moved, Op.AppendEntry(id, body, lane, now));
            var e := Entry(id, Some(at), s.sequence + 2, now, body);
            && WellFormed(t) && t.entries == s.entries + [e]
            && id in t.entriesById && PathUp(t.entriesById, id) == [e] + PathUp(s.entriesById, at)
  {
    AppendExtendsPath(moved, id, body, lane, now);
    AppendEntryEffect(moved, id, body, lane, now);
  }
}
