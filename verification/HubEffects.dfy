/** What each hub operation leaves in the registry, the caches and the timers, said of
    those fields. */
module HubEffects {
  import opened Wrappers
  import opened Hub

  /** Whether an idle thread would be stopped: a sandbox whose env is ready. */
  predicate Stoppable(records: map<string, HubRecord>, id: string) {
    id in records && records[id].mode == SandboxMode && records[id].env == Ready
  }

  ghost predicate OnlyTimer(h: HubState, g: HubState, id: string) {
    forall x :: x != id ==> (x in g.timers <==> x in h.timers)
  }

  ghost predicate SameRecords(h: HubState, g: HubState) {
    g.records == h.records && g.stored == h.stored
  }

  /** One record was written, in the cache and in the store. */
  ghost predicate Wrote(h: HubState, g: HubState, id: string, r: HubRecord) {
    g.records == h.records[id := r] && g.stored == h.stored[id := r]
  }

  /** A thread's view as consoles see it, field by field. */
  ghost predicate Shows(info: ThreadInfo, h: HubState, id: string)
    requires id in h.records
  {
    var r := h.records[id];
    && info.id == r.id && info.name == r.name && info.cwd == r.cwd && info.mode == r.mode
    && info.sessionId == r.sessionId && info.env == r.env && info.archivedAt == r.archivedAt
    && (if id in h.states then info.state == h.states[id] else info.state == IdleState)
    && (if id in h.tailSeqs then info.tailSeq == h.tailSeqs[id] else info.tailSeq == 0)
  }

  ghost predicate BroadcastOnce(h: HubState, g: HubState, id: string) {
    && id in g.records
    && |g.broadcasts| == |h.broadcasts| + 1
    && g.broadcasts[..|h.broadcasts|] == h.broadcasts
    && Shows(g.broadcasts[|h.broadcasts|], g, id)
  }

  ghost predicate SameCaches(h: HubState, g: HubState) {
    g.states == h.states && g.tailSeqs == h.tailSeqs
  }

  // -------------------------------------------------------------- reports

  /** The timer: armed by an idle report on a stoppable thread, disarmed by a working one,
      and left alone by any other. */
  ghost predicate ReportTimers(h: HubState, g: HubState, id: string, r: Report) {
    && OnlyTimer(h, g, id)
    && (r.state == Some(IdleState) ==> (id in g.timers <==> id in h.timers || Stoppable(h.records, id)))
    && (r.state == Some(WorkingState) ==> id !in g.timers)
    && (r.state != Some(IdleState) && r.state != Some(WorkingState) ==> (id in g.timers <==> id in h.timers))
  }

  /** The caches hold what was reported, known thread or not. */
  ghost predicate ReportCaches(h: HubState, g: HubState, id: string, r: Report) {
    && (if r.state.Some? then g.states == h.states[id := r.state.value] else g.states == h.states)
    && (if r.tailSeq.Some? then g.tailSeqs == h.tailSeqs[id := r.tailSeq.value] else g.tailSeqs == h.tailSeqs)
  }

  /** A known thread takes the session id, and the name while its own is automatic. */
  ghost predicate ReportRecords(h: HubState, g: HubState, id: string, r: Report) {
    && g.records.Keys == h.records.Keys
    && (forall x <- h.records :: x != id ==> g.records[x] == h.records[x])
    && (id in h.records ==>
          && g.records[id] == h.records[id].(name := g.records[id].name, autoName := g.records[id].autoName,
                                             sessionId := g.records[id].sessionId)
          && (r.sessionId.Some? ==> g.records[id].sessionId == r.sessionId.value)
          && (r.sessionId.None? ==> g.records[id].sessionId == h.records[id].sessionId)
          && (r.name.Some? && h.records[id].autoName ==>
                g.records[id].name == r.name.value && !g.records[id].autoName)
          && (r.name.None? || !h.records[id].autoName ==>
                g.records[id].name == h.records[id].name && g.records[id].autoName == h.records[id].autoName))
  }

  /** Consoles hear of a known thread exactly when one of its fields they see changed. */
  ghost predicate ReportBroadcasts(h: HubState, g: HubState, id: string) {
    if id !in h.records then g.broadcasts == h.broadcasts
    else if id in g.records && Shows(Info(h, id), g, id) then g.broadcasts == h.broadcasts
    else BroadcastOnce(h, g, id)
  }

  ghost predicate ReportEffect(h: HubState, g: HubState, id: string, r: Report) {
    ReportTimers(h, g, id, r) && ReportCaches(h, g, id, r) && ReportRecords(h, g, id, r) && ReportBroadcasts(h, g, id)
  }

  lemma RecordedRecords(h: HubState, id: string, r: Report)
    ensures ReportRecords(h, Recorded(h, id, r), id, r)
    ensures Recorded(h, id, r).timers == h.timers
    ensures SameCaches(h, Recorded(h, id, r)) && Recorded(h, id, r).broadcasts == h.broadcasts
    ensures forall x :: Suspendable(Recorded(h, id, r), x) <==> Stoppable(h.records, x)
  {
  }

  lemma ReportedTimers(h: HubState, id: string, r: Report)
    ensures ReportTimers(h, Reported(h, id, r), id, r) && ReportCaches(h, Reported(h, id, r), id, r)
    ensures Reported(h, id, r).records == Recorded(h, id, r).records
    ensures Reported(h, id, r).broadcasts == h.broadcasts
  {
    RecordedRecords(h, id, r);
  }

  lemma ShowsExactly(info: ThreadInfo, h: HubState, id: string)
    requires id in h.records
    ensures Shows(info, h, id) <==> info == Info(h, id)
  {
  }

  /** Everything a worker's report changes. */
  lemma ReportDoes(h: HubState, id: string, r: Report)
    ensures ReportEffect(h, ApplyReport(h, id, r), id, r)
  {
    RecordedRecords(h, id, r);
    ReportedTimers(h, id, r);
    ReportedBroadcast(h, Reported(h, id, r), ApplyReport(h, id, r), id);
  }

  lemma ReportedBroadcast(h: HubState, after: HubState, g: HubState, id: string)
    requires after.broadcasts == h.broadcasts && after.records.Keys == h.records.Keys
    requires g == if id in h.records && Info(h, id) != Info(after, id) then Broadcast(after, id) else after
    ensures ReportBroadcasts(h, g, id)
    ensures g == after.(broadcasts := g.broadcasts)
  {
    if id in h.records {
      ShowsExactly(Info(h, id), g, id);
      ShowsExactly(Info(after, id), g, id);
    }
  }

  // ------------------------------------------------------- session events

  /** A session event stores the tail and arms an idle stoppable thread. */
  ghost predicate EventEffect(h: HubState, g: HubState, id: string, tailSeq: int) {
    && SameRecords(h, g) && g.states == h.states && g.broadcasts == h.broadcasts
    && g.tailSeqs == h.tailSeqs[id := tailSeq]
    && OnlyTimer(h, g, id)
    && (id in g.timers <==> id in h.timers || (Stoppable(h.records, id) && StateOf(h, id) == IdleState))
  }

  lemma EventDoes(h: HubState, id: string, tailSeq: int)
    ensures EventEffect(h, SessionEvent(h, id, tailSeq), id, tailSeq)
  {
  }

  // -------------------------------------------------------------- env gate

  /** A ready env is only kept awake. Any other is provisioned first: on failure it is in
      error and unarmed, on success it is ready with what the provisioner gave, armed if
      the sandbox thread is idle. */
  ghost predicate GateEffect(h: HubState, g: HubState, id: string, provisioned: Option<Provisioned>)
    requires id in h.records
  {
    var r, idle := h.records[id], StateOf(h, id) == IdleState;
    && SameCaches(h, g) && OnlyTimer(h, g, id)
    && (r.env == Ready ==>
          && SameRecords(h, g) && g.broadcasts == h.broadcasts
          && (id in g.timers <==> id in h.timers || (r.mode == SandboxMode && idle)))
    && (r.env != Ready && provisioned.None? ==>
          Wrote(h, g, id, r.(env := EnvError)) && BroadcastOnce(h, g, id) && id !in g.timers)
    && (r.env != Ready && provisioned.Some? ==>
          && Wrote(h, g, id, r.(env := Ready, envHandle := provisioned.value.handle,
                                remoteMachineId := provisioned.value.remoteMachineId))
          && BroadcastOnce(h, g, id)
          && (id in g.timers <==> r.mode == SandboxMode && idle))
  }

  lemma GateDoes(h: HubState, id: string, provisioned: Option<Provisioned>)
    requires id in h.records
    ensures GateEffect(h, EnsureEnv(h, id, provisioned), id, provisioned)
  {
    ShowsExactly(Info(EnsureEnv(h, id, provisioned), id), EnsureEnv(h, id, provisioned), id);
  }

  /** The state the worker is asked in: a read goes past the env gate. */
  ghost predicate Gated(h: HubState, mid: HubState, id: string, readOnly: bool, provisioned: Option<Provisioned>)
    requires id in h.records
  {
    if readOnly then mid == h else GateEffect(h, mid, id, provisioned)
  }

  /** A session command on a known thread passes the gate, and then changes at most the
      tail, to what the worker answered; a gate that fails asks no worker. */
  ghost predicate CommandEffect(h: HubState, g: HubState, id: string, readOnly: bool,
                                provisioned: Option<Provisioned>, answered: Option<int>)
    requires id in h.records
  {
    exists mid ::
      && Gated(h, mid, id, readOnly, provisioned)
      && g == mid.(tailSeqs := g.tailSeqs)
      && (if answered.Some? && (readOnly || (id in mid.records && mid.records[id].env == Ready))
          then g.tailSeqs == mid.tailSeqs[id := answered.value]
          else g.tailSeqs == mid.tailSeqs)
  }

  /** A command on an unknown thread changes nothing. */
  ghost predicate CommandResult(h: HubState, g: HubState, id: string, readOnly: bool,
                                provisioned: Option<Provisioned>, answered: Option<int>)
  {
    if id in h.records then CommandEffect(h, g, id, readOnly, provisioned, answered) else g == h
  }

  lemma CommandDoes(h: HubState, id: string, readOnly: bool, provisioned: Option<Provisioned>, answered: Option<int>)
    ensures CommandResult(h, Command(h, id, readOnly, provisioned, answered), id, readOnly, provisioned, answered)
  {
    if id in h.records {
      GateDoes(h, id, provisioned);
      var mid := if readOnly then h else EnsureEnv(h, id, provisioned);
      assert Gated(h, mid, id, readOnly, provisioned);
    }
  }

  lemma CommandKeepsHub(stored: map<string, HubRecord>, ops: seq<Op>, op: Op)
    requires Inv(Run(Boot(stored), ops)) && op.RunCommand?
    ensures var h := Run(Boot(stored), ops);
            var g := Command(h, op.id, op.readOnly, op.provisioned, op.answered);
            && Inv(g) && g == Run(Boot(stored), ops + [op])
            && CommandResult(h, g, op.id, op.readOnly, op.provisioned, op.answered)
  {
    var h := Run(Boot(stored), ops);
    RunAppend(Boot(stored), ops, op);
    StepKeepsInv(h, op);
    CommandDoes(h, op.id, op.readOnly, op.provisioned, op.answered);
  }

  // --------------------------------------------------- threads come and go

  /** A created thread: a sandbox has no directory and a stopped env, a local one keeps its
      directory and is ready; both start idle at tail 0. */
  ghost predicate CreateEffect(h: HubState, g: HubState, op: Op)
    requires op.CreateThread?
  {
    var id, sandbox := op.id, op.mode == SandboxMode;
    && g.timers == h.timers
    && (!op.workerCreated ==>
          && g.records == h.records - {id} && g.stored == h.stored - {id}
          && g.states == h.states - {id} && g.tailSeqs == h.tailSeqs - {id} && g.broadcasts == h.broadcasts)
    && (op.workerCreated ==>
          && id in g.records && Wrote(h, g, id, g.records[id]) && BroadcastOnce(h, g, id)
          && g.states == h.states[id := IdleState] && g.tailSeqs == h.tailSeqs[id := 0]
          && var r := g.records[id];
             && r.id == id && r.name == op.name && r.mode == op.mode && r.autoName == op.autoName
             && r.createdAt == op.now && r.sessionId == None && r.archivedAt == None
             && r.remoteMachineId == None && r.envHandle == None
             && (sandbox ==> r.cwd == None && r.env == Stopped)
             && (!sandbox ==> r.cwd == op.cwd && r.env == Ready))
  }

  lemma CreateDoes(h: HubState, op: Op)
    requires op.CreateThread? && op.id !in h.records
    ensures CreateEffect(h, Step(h, op), op)
  {
    if op.workerCreated {
      ShowsExactly(Info(Step(h, op), op.id), Step(h, op), op.id);
    } else {
      var g := Step(h, op);
      assert g.records == h.records - {op.id} && g.stored == h.stored - {op.id};
      assert g.states == h.states - {op.id} && g.tailSeqs == h.tailSeqs - {op.id};
    }
  }

  /** A rename or an archive of a known thread writes its record and broadcasts it. */
  ghost predicate PatchEffect(h: HubState, g: HubState, id: string, r: HubRecord) {
    Wrote(h, g, id, r) && BroadcastOnce(h, g, id) && SameCaches(h, g) && g.timers == h.timers
  }

  lemma RenameDoes(h: HubState, id: string, trimmed: string)
    requires id in h.records && trimmed != ""
    ensures PatchEffect(h, Rename(h, id, trimmed), id, h.records[id].(name := trimmed, autoName := false))
  {
    ShowsExactly(Info(Rename(h, id, trimmed), id), Rename(h, id, trimmed), id);
  }

  lemma ArchiveDoes(h: HubState, id: string, at: Option<int>)
    requires id in h.records
    ensures PatchEffect(h, Archive(h, id, at), id, h.records[id].(archivedAt := at))
  {
    ShowsExactly(Info(Archive(h, id, at), id), Archive(h, id, at), id);
  }

  /** The idle stop: the timer is spent. A stoppable thread that is idle has its env
      stopped; any other is left as it is, because arming asks for an idle thread too. */
  ghost predicate FireEffect(h: HubState, g: HubState, id: string) {
    && OnlyTimer(h, g, id) && id !in g.timers && SameCaches(h, g)
    && (if Stoppable(h.records, id) && StateOf(h, id) == IdleState
        then Wrote(h, g, id, h.records[id].(env := Stopped)) && BroadcastOnce(h, g, id)
        else SameRecords(h, g) && g.broadcasts == h.broadcasts)
  }

  lemma FireDoes(h: HubState, id: string)
    ensures FireEffect(h, Fire(h, id), id)
  {
    if id in h.records {
      ShowsExactly(Info(Fire(h, id), id), Fire(h, id), id);
    }
  }

  lemma FireKeepsHub(stored: map<string, HubRecord>, ops: seq<Op>, id: string)
    requires Inv(Run(Boot(stored), ops))
    ensures var h := Run(Boot(stored), ops);
            && Inv(Fire(h, id)) && Fire(h, id) == Run(Boot(stored), ops + [IdleStopFired(id)])
            && FireEffect(h, Fire(h, id), id)
  {
    var h := Run(Boot(stored), ops);
    FireKeepsInv(h, id);
    FireDoes(h, id);
    RunAppend(Boot(stored), ops, IdleStopFired(id));
  }

  // ----------------------------------------------------------- over runs

  /** An operation that lets a thread sleep: an idle report, an event, or a command that
      passes the gate. */
  ghost predicate ArmedBy(h: HubState, op: Op, id: string) {
    && Stoppable(Step(h, op).records, id) && StateOf(Step(h, op), id) == IdleState
    && (|| (op.WorkerReport? && op.id == id && op.report.state == Some(IdleState))
        || (op.WorkerEvent? && op.id == id)
        || (op.RunCommand? && op.id == id && id in h.records && !op.readOnly))
  }

  /** The operations that put a thread's timer out. */
  predicate PutsOut(op: Op, id: string) {
    || op == Close || op == IdleStopFired(id) || op == DeleteThread(id)
    || (op.WorkerReport? && op.id == id && op.report.state == Some(WorkingState))
  }

  lemma StepStaysArmed(h: HubState, op: Op, id: string)
    requires Inv(h) && id in h.timers && !PutsOut(op, id)
    ensures id in Step(h, op).timers
  {
    match op
    case WorkerReport(target, report) => ReportDoes(h, target, report);
    case WorkerEvent(target, tailSeq) => EventDoes(h, target, tailSeq);
    case RunCommand(target, readOnly, provisioned, answered) =>
      CommandDoes(h, target, readOnly, provisioned, answered);
    case CreateThread(target, _, _, _, _, _, _) =>
      if target !in h.records {
        CreateDoes(h, op);
      }
    case IdleStopFired(target) => FireDoes(h, target);
    case _ =>
  }

  /** An armed timer stays armed over any run that does not put it out: commands that only
      pass the gate, reports of other threads, renames and archives do not. */
  lemma {:induction false} StaysArmed(h: HubState, ops: seq<Op>, id: string)
    requires Inv(h) && id in h.timers
    requires forall i :: 0 <= i < |ops| ==> !PutsOut(ops[i], id)
    ensures id in Run(h, ops).timers
  {
    if ops != [] {
      StaysArmed(h, ops[..|ops| - 1], id);
      RunKeepsInv(h, ops[..|ops| - 1]);
      StepStaysArmed(Run(h, ops[..|ops| - 1]), ops[|ops| - 1], id);
    }
  }

  lemma ArmedAfter(h: HubState, op: Op, id: string)
    requires ArmedBy(h, op, id)
    ensures id in Step(h, op).timers
  {
    match op
    case WorkerReport(_, report) => ReportDoes(h, id, report);
    case WorkerEvent(_, tailSeq) => EventDoes(h, id, tailSeq);
    case RunCommand(_, readOnly, provisioned, answered) =>
      GateDoes(h, id, provisioned);
      CommandDoes(h, id, readOnly, provisioned, answered);
    case _ =>
  }

  /** The timer is armed, its thread is a ready sandbox, and firing it stops the env exactly
      if the thread is idle. */
  ghost predicate FiresWell(h: HubState, id: string) {
    && id in h.timers && Stoppable(h.records, id)
    && id in Fire(h, id).records
    && (Fire(h, id).records[id].env == Stopped <==> StateOf(h, id) == IdleState)
  }

  lemma FiringStops(h: HubState, id: string)
    requires Inv(h) && id in h.timers
    ensures FiresWell(h, id)
  {
    assert Suspendable(h, id);
    FireDoes(h, id);
  }

  /** No idle sandbox runs on unwatched: once a thread with a ready sandbox reports idle,
      or gets an event or a command while idle, its timer stays armed over every run that
      does not put it out, and its firing then finds a ready sandbox and stops it unless
      the thread is no longer idle. */
  lemma IdleIsStopped(h: HubState, op: Op, ops: seq<Op>, id: string)
    requires Inv(h) && ArmedBy(h, op, id)
    requires forall i :: 0 <= i < |ops| ==> !PutsOut(ops[i], id)
    ensures FiresWell(Run(Step(h, op), ops), id)
  {
    ArmedAfter(h, op, id);
    StepKeepsInv(h, op);
    StaysArmed(Step(h, op), ops, id);
    RunKeepsInv(Step(h, op), ops);
    FiringStops(Run(Step(h, op), ops), id);
  }
}
