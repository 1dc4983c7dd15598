/** What each mutating method of `DoSessionStorage` validates and which mutation it
    then writes, and what holds over any run of them. */
module StorageOps {
  import opened Wrappers
  import opened SessionTypes
  import opened Trail
  import Fork

  datatype Op =
    | CreateLane(lane: string, at: Option<Id>)
    | MoveLane(lane: string, to: Option<Id>)
    | AppendEntry(id: Id, body: EntryBody, lane: string, now: int)
    | AppendRecord(recordId: Id, recordBody: RecordBody, lane: string, now: int)
    | SetName(name: string)
    | SetLabel(target: Id, tag: Option<string>)

  function RequireTarget(s: State, target: Option<Id>, m: Mutation): Result<Mutation, SessionError> {
    if target.Some? && target.value !in s.entriesById then Err(NotFound) else Ok(m)
  }

  /** The mutation an operation writes in a state, or why it is refused. */
  function Prepare(s: State, op: Op): Result<Mutation, SessionError> {
    var next := s.sequence + 1;
    match op
    case CreateLane(lane, at) =>
      if lane in s.lanes then Err(AlreadyExists) else RequireTarget(s, at, LaneMutation(next, lane, at))
    case MoveLane(lane, to) =>
      if lane !in s.lanes then Err(InvalidLane) else RequireTarget(s, to, LaneMutation(next, lane, to))
    case AppendEntry(id, body, lane, now) =>
      if lane !in s.lanes then Err(InvalidLane)
      else if id in s.usedIds then Err(AlreadyExists)
      else Ok(EntryMutation(Some(lane), Entry(id, s.lanes[lane], next, now, body)))
    case AppendRecord(id, body, lane, now) =>
      if lane !in s.lanes then Err(InvalidLane)
      else if id in s.usedIds then Err(AlreadyExists)
      else if body.OperationStarted? && OpsOf(s, lane) != [] then Err(StorageFault)
      else Ok(RecordMutation(LaneRecord(id, lane, next, now, body)))
    case SetName(name) => Ok(NameMutation(next, name))
    case SetLabel(target, tag) => RequireTarget(s, Some(target), LabelMutation(next, target, tag))
  }

  /** Never a poisoned log: whatever a method's own validation lets through,
      `applyMutation` accepts. */
  lemma PreparedIsAccepted(s: State, op: Op)
    requires WellFormed(s) && Prepare(s, op).Ok?
    ensures SeqOf(Prepare(s, op).value) == s.sequence + 1
    ensures Apply(s, Prepare(s, op).value).Ok?
    ensures WellFormed(Apply(s, Prepare(s, op).value).value)
  {
    var m := Prepare(s, op).value;
    assert Accepts(s, m);
    ApplyKeepsWellFormed(s, m);
  }

  /** The state after one call: a refused call changes nothing. */
  function Step(s: State, op: Op): State {
    match Prepare(s, op)
    case Ok(m) => (match Apply(s, m) case Ok(t) => t case Err(_) => s)
    case Err(_) => s
  }

  function Run(s: State, ops: seq<Op>): State {
    if ops == [] then s else Step(Run(s, ops[..|ops| - 1]), ops[|ops| - 1])
  }

  /** The mutations a run writes. */
  function Written(s: State, ops: seq<Op>): seq<Mutation> {
    if ops == [] then []
    else
      var before := ops[..|ops| - 1];
      match Prepare(Run(s, before), ops[|ops| - 1])
      case Ok(m) => Written(s, before) + [m]
      case Err(_) => Written(s, before)
  }

  /** Replaying what a run wrote gives the state the run left. */
  lemma {:induction false} RunIsReplay(s: State, ops: seq<Op>)
    requires WellFormed(s)
    ensures WellFormed(Run(s, ops)) && ReplayFrom(s, Written(s, ops)) == Ok(Run(s, ops))
  {
    if ops != [] {
      var before, op := ops[..|ops| - 1], ops[|ops| - 1];
      RunIsReplay(s, before);
      if Prepare(Run(s, before), op).Ok? {
        PreparedIsAccepted(Run(s, before), op);
        assert Front(Written(s, ops)) == Written(s, before);
      }
    }
  }

  // -------------------------------------------------- one open operation

  ghost predicate OneOpen(s: State) {
    forall lane :: |OpsOf(s, lane)| <= 1
  }

  lemma WithoutOpShorter(ops: seq<LaneRecord>, runId: Id)
    ensures |WithoutOp(ops, runId)| <= |ops|
  {
  }

  lemma StepKeepsOneOpen(s: State, op: Op)
    requires WellFormed(s) && OneOpen(s)
    ensures OneOpen(Step(s, op))
  {
    if op.AppendRecord? && Prepare(s, op).Ok? {
      PreparedIsAccepted(s, op);
      var r := Prepare(s, op).value.record;
      assert Step(s, op).openOps == NextOps(s, r);
      if op.recordBody.OperationFinished? {
        WithoutOpShorter(OpsOf(s, op.lane), op.recordBody.finishedRunId);
      }
      forall lane ensures |OpsOf(Step(s, op), lane)| <= 1 {
        assert |OpsOf(s, lane)| <= 1;
      }
    } else {
      assert Step(s, op).openOps == s.openOps;
      forall lane ensures |OpsOf(Step(s, op), lane)| <= 1 {
        assert |OpsOf(s, lane)| <= 1;
      }
    }
  }

  lemma {:induction false} RunKeepsOneOpen(s: State, ops: seq<Op>)
    requires WellFormed(s) && OneOpen(s)
    ensures OneOpen(Run(s, ops))
  {
    if ops != [] {
      RunKeepsOneOpen(s, ops[..|ops| - 1]);
      RunIsReplay(s, ops[..|ops| - 1]);
      StepKeepsOneOpen(Run(s, ops[..|ops| - 1]), ops[|ops| - 1]);
    }
  }

  /** A session grown by the storage methods, from a fresh session or from any fork,
      has at most one open operation per lane; a fork starts with none. */
  lemma AtMostOneOpenOperation(source: State, options: Fork.ForkOptions, ops: seq<Op>)
    requires WellFormed(source)
    ensures OneOpen(Run(INIT, ops))
    ensures Fork.ForkMutations(source, options).Ok? ==>
              var child := Replay(Fork.ForkMutations(source, options).value);
              && child.Ok?
              && (forall lane :: OpsOf(child.value, lane) == [])
              && OneOpen(Run(child.value, ops))
  {
    InitWellFormed();
    RunKeepsOneOpen(INIT, ops);
    if Fork.ForkMutations(source, options).Ok? {
      Fork.ForkReplays(source, options);
      RunKeepsOneOpen(Replay(Fork.ForkMutations(source, options).value).value, ops);
    }
  }
}
