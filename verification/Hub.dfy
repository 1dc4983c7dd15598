/** The hub's control plane: the thread registry with its store and caches, the env
    gate, and the idle-stop timers. Each hub operation is one step from one value of
    the hub to the next; what the worker and the provisioner answer is part of the
    step. The rest proves what every run of steps keeps. */
module Hub {
  import opened Wrappers

  datatype Mode = LocalMode | SandboxMode

  datatype EnvState = Stopped | Provisioning | Ready | EnvError

  datatype ThreadState = IdleState | WorkingState | InterruptedState

  datatype HubRecord = HubRecord(
    id: string,
    name: string,
    cwd: Option<string>,
    mode: Mode,
    autoName: bool,
    createdAt: int,
    sessionId: Option<string>,
    env: EnvState,
    remoteMachineId: Option<string>,
    envHandle: Option<string>,
    archivedAt: Option<int>)

  datatype ThreadInfo = ThreadInfo(
    id: string,
    name: string,
    cwd: Option<string>,
    mode: Mode,
    sessionId: Option<string>,
    env: EnvState,
    archivedAt: Option<int>,
    state: ThreadState,
    tailSeq: int)

  /** The registry's record cache and its store, the volatile caches, the armed
      timers, and the thread views broadcast so far. */
  datatype HubState = HubState(
    records: map<string, HubRecord>,
    stored: map<string, HubRecord>,
    states: map<string, ThreadState>,
    tailSeqs: map<string, int>,
    timers: set<string>,
    broadcasts: seq<ThreadInfo>)

  datatype Report = Report(
    state: Option<ThreadState>, sessionId: Option<Option<string>>, name: Option<string>, tailSeq: Option<int>)

  datatype Provisioned = Provisioned(remoteMachineId: Option<string>, handle: Option<string>)

  function StateOf(h: HubState, id: string): ThreadState {
    if id in h.states then h.states[id] else IdleState
  }

  function Info(h: HubState, id: string): ThreadInfo
    requires id in h.records
  {
    var r := h.records[id];
    ThreadInfo(r.id, r.name, r.cwd, r.mode, r.sessionId, r.env, r.archivedAt, StateOf(h, id),
               if id in h.tailSeqs then h.tailSeqs[id] else 0)
  }

  function Put(h: HubState, id: string, r: HubRecord): HubState {
    h.(records := h.records[id := r], stored := h.stored[id := r])
  }

  function Broadcast(h: HubState, id: string): HubState {
    if id in h.records then h.(broadcasts := h.broadcasts + [Info(h, id)]) else h
  }

  // ------------------------------------------------------------ idle stop

  predicate Suspendable(h: HubState, id: string) {
    id in h.records && h.records[id].mode.SandboxMode? && h.records[id].env.Ready?
  }

  function Arm(h: HubState, id: string): HubState {
    if Suspendable(h, id) && StateOf(h, id).IdleState? then h.(timers := h.timers + {id}) else h
  }

  function Disarm(h: HubState, id: string): HubState {
    h.(timers := h.timers - {id})
  }

  function Fire(h: HubState, id: string): HubState {
    var d := Disarm(h, id);
    if id !in d.records then d
    else if !StateOf(d, id).IdleState? then Arm(d, id)
    else if !Suspendable(d, id) then d
    else Broadcast(Put(d, id, d.records[id].(env := Stopped)), id)
  }

  // ----------------------------------------------------------- operations

  function Create(h: HubState, id: string, name: string, cwd: Option<string>, mode: Mode, autoName: bool, now: int,
                  workerCreated: bool): HubState {
    var record := HubRecord(id, name, if mode.SandboxMode? then None else cwd, mode, autoName, now, None,
                            if mode.SandboxMode? then Stopped else Ready, None, None, None);
    var created := Put(h, id, record).(states := h.states[id := IdleState], tailSeqs := h.tailSeqs[id := 0]);
    if workerCreated then Broadcast(created, id) else Removed(created, id)
  }

  function Removed(h: HubState, id: string): HubState {
    h.(records := h.records - {id}, stored := h.stored - {id}, states := h.states - {id}, tailSeqs := h.tailSeqs - {id})
  }

  function Delete(h: HubState, id: string): HubState {
    if id !in h.records then h
    else Removed(Disarm(h, id), id).(broadcasts := h.broadcasts + [Info(h, id)])
  }

  function Rename(h: HubState, id: string, trimmed: string): HubState {
    if id !in h.records || trimmed == "" then h
    else Broadcast(Put(h, id, h.records[id].(autoName := false, name := trimmed)), id)
  }

  function Archive(h: HubState, id: string, at: Option<int>): HubState {
    if id !in h.records then h else Broadcast(Put(h, id, h.records[id].(archivedAt := at)), id)
  }

  /** The registry writes of a report, before its effect on the caches. */
  function Recorded(h: HubState, id: string, r: Report): HubState {
    var named := if r.name.Some? && id in h.records && h.records[id].autoName
                 then Put(h, id, h.records[id].(autoName := false, name := r.name.value)) else h;
    if r.sessionId.Some? && id in named.records
    then Put(named, id, named.records[id].(sessionId := r.sessionId.value)) else named
  }

  function Reported(h: HubState, id: string, r: Report): HubState {
    var known := Recorded(h, id, r);
    var cached := known.(states := if r.state.Some? then known.states[id := r.state.value] else known.states,
                         tailSeqs := if r.tailSeq.Some? then known.tailSeqs[id := r.tailSeq.value] else known.tailSeqs);
    if r.state == Some(WorkingState) then Disarm(cached, id)
    else if r.state == Some(IdleState) then Arm(cached, id)
    else cached
  }

  /** A worker report; broadcast only when the thread's view changed. */
  function ApplyReport(h: HubState, id: string, r: Report): HubState {
    var after := Reported(h, id, r);
    if id in h.records && id in after.records && Info(h, id) != Info(after, id) then Broadcast(after, id) else after
  }

  function SessionEvent(h: HubState, id: string, tailSeq: int): HubState {
    Arm(h.(tailSeqs := h.tailSeqs[id := tailSeq]), id)
  }

  /** The env gate, given what provisioning answers. */
  function EnsureEnv(h: HubState, id: string, provisioned: Option<Provisioned>): HubState
    requires id in h.records
  {
    if h.records[id].env.Ready? then Arm(h, id)
    else
      var d := Disarm(h, id);
      if provisioned.None? then Broadcast(Put(d, id, d.records[id].(env := EnvError)), id)
      else
        var p := provisioned.value;
        var ready := d.records[id].(remoteMachineId := p.remoteMachineId, envHandle := p.handle, env := Ready);
        Arm(Broadcast(Put(d, id, ready), id), id)
  }

  /** A session command, given what provisioning and the worker answer. */
  function Command(h: HubState, id: string, readOnly: bool, provisioned: Option<Provisioned>,
                   tailSeq: Option<int>): HubState {
    if id !in h.records then h
    else
      var gated := if readOnly then h else EnsureEnv(h, id, provisioned);
      if !readOnly && !gated.records[id].env.Ready? then gated
      else if tailSeq.None? then gated
      else gated.(tailSeqs := gated.tailSeqs[id := tailSeq.value])
  }

  datatype Op =
    | CreateThread(
        id: string, name: string, cwd: Option<string>, mode: Mode, autoName: bool, now: int, workerCreated: bool)
    | DeleteThread(id: string)
    | RenameThread(id: string, trimmed: string)
    | ArchiveThread(id: string, at: Option<int>)
    | WorkerReport(id: string, report: Report)
    | WorkerEvent(id: string, eventTail: int)
    | RunCommand(id: string, readOnly: bool, provisioned: Option<Provisioned>, answered: Option<int>)
    | IdleStopFired(id: string)
    | Close

  function Step(h: HubState, op: Op): HubState {
    match op
    case CreateThread(id, name, cwd, mode, autoName, now, ok) =>
      // A generated thread id is new.
      if id in h.records then h else Create(h, id, name, cwd, mode, autoName, now, ok)
    case DeleteThread(id) => Delete(h, id)
    case RenameThread(id, trimmed) => Rename(h, id, trimmed)
    case ArchiveThread(id, at) => Archive(h, id, at)
    case WorkerReport(id, report) => ApplyReport(h, id, report)
    case WorkerEvent(id, tailSeq) => SessionEvent(h, id, tailSeq)
    case RunCommand(id, readOnly, provisioned, answered) => Command(h, id, readOnly, provisioned, answered)
    case IdleStopFired(id) => Fire(h, id)
    case Close => h.(timers := {})
  }

  function Run(h: HubState, ops: seq<Op>): HubState {
    if ops == [] then h else Step(Run(h, ops[..|ops| - 1]), ops[|ops| - 1])
  }

  lemma RunAppend(h: HubState, ops: seq<Op>, op: Op)
    ensures Run(h, ops + [op]) == Step(Run(h, ops), op)
  {
    assert (ops + [op])[..|ops|] == ops;
  }

  lemma {:induction false} RunConcat(h: HubState, a: seq<Op>, b: seq<Op>)
    ensures Run(h, a + b) == Run(Run(h, a), b)
    decreases |b|
  {
    if b == [] {
      assert a + b == a;
    } else {
      var front := b[..|b| - 1];
      assert a + b == (a + front) + [b[|b| - 1]];
      RunConcat(h, a, front);
      RunAppend(h, a + front, b[|b| - 1]);
    }
  }

  /** A hub built over a store: every record loaded, every thread idle, no timer. */
  function Boot(stored: map<string, HubRecord>): HubState {
    HubState(stored, stored, map id | id in stored :: IdleState, map[], {}, [])
  }

  // ----------------------------------------------------------- invariants

  ghost predicate RecordOk(r: HubRecord, id: string) {
    r.id == id && (r.mode.LocalMode? ==> r.env.Ready?)
  }

  ghost predicate Inv(h: HubState) {
    && h.stored == h.records
    && (forall id <- h.records :: RecordOk(h.records[id], id))
    && (forall id <- h.timers :: Suspendable(h, id) && !StateOf(h, id).WorkingState?)
  }

  lemma ArmKeepsInv(h: HubState, id: string)
    requires Inv(h)
    ensures Inv(Arm(h, id)) && Inv(Disarm(h, id)) && Inv(Broadcast(h, id))
  {
  }

  lemma CreateKeepsInv(h: HubState, id: string, name: string, cwd: Option<string>, mode: Mode, autoName: bool,
                       now: int, ok: bool)
    requires Inv(h) && id !in h.records
    ensures Inv(Create(h, id, name, cwd, mode, autoName, now, ok))
  {
  }

  lemma RemoveKeepsInv(h: HubState, id: string)
    requires Inv(h)
    ensures Inv(Removed(Disarm(h, id), id))
  {
  }

  lemma FireKeepsInv(h: HubState, id: string)
    requires Inv(h)
    ensures Inv(Fire(h, id))
  {
    var d := Disarm(h, id);
    ArmKeepsInv(h, id);
    ArmKeepsInv(d, id);
    if Suspendable(d, id) {
      ArmKeepsInv(Put(d, id, d.records[id].(env := Stopped)), id);
    }
  }

  lemma RecordedKeepsInv(h: HubState, id: string, r: Report)
    requires Inv(h)
    ensures Inv(Recorded(h, id, r))
  {
    if id in h.records {
      var named := if r.name.Some? && h.records[id].autoName
                   then Put(h, id, h.records[id].(autoName := false, name := r.name.value)) else h;
    }
  }

  lemma ReportKeepsInv(h: HubState, id: string, r: Report)
    requires Inv(h)
    ensures Inv(ApplyReport(h, id, r))
  {
    var known := Recorded(h, id, r);
    RecordedKeepsInv(h, id, r);
    var tailed := if r.tailSeq.Some? then known.(tailSeqs := known.tailSeqs[id := r.tailSeq.value]) else known;
    if r.state.Some? {
      if !r.state.value.WorkingState? {
        ArmKeepsInv(tailed.(states := tailed.states[id := r.state.value]), id);
      }
    }
    ArmKeepsInv(Reported(h, id, r), id);
  }

  lemma EnsureEnvKeepsInv(h: HubState, id: string, provisioned: Option<Provisioned>)
    requires Inv(h) && id in h.records
    ensures Inv(EnsureEnv(h, id, provisioned))
  {
    var d := Disarm(h, id);
    ArmKeepsInv(h, id);
    if !h.records[id].env.Ready? {
      var r := if provisioned.None? then d.records[id].(env := EnvError)
               else d.records[id].(remoteMachineId := provisioned.value.remoteMachineId,
                                   envHandle := provisioned.value.handle, env := Ready);
      ArmKeepsInv(Put(d, id, r), id);
      ArmKeepsInv(Broadcast(Put(d, id, r), id), id);
    }
  }

  lemma StepKeepsInv(h: HubState, op: Op)
    requires Inv(h)
    ensures Inv(Step(h, op))
  {
    match op
    case CreateThread(id, name, cwd, mode, autoName, now, ok) =>
      if id !in h.records {
        CreateKeepsInv(h, id, name, cwd, mode, autoName, now, ok);
      }
    case DeleteThread(id) => RemoveKeepsInv(h, id);
    case RenameThread(id, trimmed) =>
      if id in h.records && trimmed != "" {
        ArmKeepsInv(Put(h, id, h.records[id].(autoName := false, name := trimmed)), id);
      }
    case ArchiveThread(id, at) =>
      if id in h.records {
        ArmKeepsInv(Put(h, id, h.records[id].(archivedAt := at)), id);
      }
    case WorkerReport(id, report) => ReportKeepsInv(h, id, report);
    case WorkerEvent(id, tailSeq) =>
      ArmKeepsInv(h.(tailSeqs := h.tailSeqs[id := tailSeq]), id);
    case RunCommand(id, readOnly, provisioned, answered) =>
      if id in h.records {
        EnsureEnvKeepsInv(h, id, provisioned);
      }
    case IdleStopFired(id) => FireKeepsInv(h, id);
    case Close =>
  }

  lemma {:induction false} RunKeepsInv(h: HubState, ops: seq<Op>)
    requires Inv(h)
    ensures Inv(Run(h, ops))
  {
    if ops != [] {
      RunKeepsInv(h, ops[..|ops| - 1]);
      StepKeepsInv(Run(h, ops[..|ops| - 1]), ops[|ops| - 1]);
    }
  }

  /** On every sequence of hub operations, from a hub built over any sound store: the
      record cache equals the store, a thread that is not sandboxed keeps a ready env,
      and an armed timer belongs to an existing sandbox thread with a ready env that is
      not working. A hub built again over the store that leaves is as sound. */
  lemma HubRunInvariant(stored: map<string, HubRecord>, ops: seq<Op>)
    requires forall id <- stored :: RecordOk(stored[id], id)
    ensures var h := Run(Boot(stored), ops);
            && h.records == h.stored
            && (forall id <- h.records :: h.records[id].mode.LocalMode? ==> h.records[id].env.Ready?)
            && (forall id <- h.timers ::
                  && id in h.records && h.records[id].mode.SandboxMode? && h.records[id].env.Ready?
                  && !StateOf(h, id).WorkingState?)
            && Inv(Boot(h.stored))
  {
    RunKeepsInv(Boot(stored), ops);
  }

  /** The name of a thread that is no longer automatic. */
  ghost predicate Named(h: HubState, id: string, name: string) {
    id in h.records && !h.records[id].autoName && h.records[id].name == name
  }

  /** Operations keep a name that is settled, and keep the thread. */
  ghost predicate KeepsName(h: HubState, g: HubState, id: string)
    requires id in h.records
  {
    id in g.records && g.records[id].name == h.records[id].name && g.records[id].autoName == h.records[id].autoName
  }

  lemma RecordedKeepsName(h: HubState, target: string, r: Report, id: string)
    requires id in h.records && !h.records[id].autoName
    ensures KeepsName(h, Recorded(h, target, r), id)
  {
  }

  lemma ReportKeepsName(h: HubState, target: string, r: Report, id: string)
    requires id in h.records && !h.records[id].autoName
    ensures KeepsName(h, ApplyReport(h, target, r), id)
  {
    RecordedKeepsName(h, target, r, id);
    ReportedCaches(h, target, r);
  }

  lemma CommandKeepsName(h: HubState, target: string, readOnly: bool, provisioned: Option<Provisioned>,
                         answered: Option<int>, id: string)
    requires id in h.records
    ensures KeepsName(h, Command(h, target, readOnly, provisioned, answered), id)
  {
    if target in h.records {
      assert KeepsName(h, EnsureEnv(h, target, provisioned), id);
    }
  }

  lemma StepKeepsName(h: HubState, op: Op, id: string, name: string)
    requires Named(h, id, name)
    requires !(op.RenameThread? && op.id == id) && op != DeleteThread(id)
    ensures Named(Step(h, op), id, name)
  {
    match op
    case WorkerReport(target, report) => ReportKeepsName(h, target, report, id);
    case RunCommand(target, readOnly, provisioned, answered) =>
      CommandKeepsName(h, target, readOnly, provisioned, answered, id);
    case CreateThread(_, _, _, _, _, _, _) =>
    case DeleteThread(_) =>
    case RenameThread(_, _) =>
    case ArchiveThread(_, _) =>
    case WorkerEvent(_, _) =>
    case IdleStopFired(_) =>
    case Close =>
  }

  /** Once a name is no longer automatic, no run of operations changes it but a user
      rename, or deleting the thread. */
  lemma {:induction false} NameSticks(h: HubState, ops: seq<Op>, id: string, name: string)
    requires Named(h, id, name)
    requires forall i :: 0 <= i < |ops| ==> !(ops[i].RenameThread? && ops[i].id == id) && ops[i] != DeleteThread(id)
    ensures Named(Run(h, ops), id, name)
  {
    if ops != [] {
      var before := Run(h, ops[..|ops| - 1]);
      NameSticks(h, ops[..|ops| - 1], id, name);
      StepKeepsName(before, ops[|ops| - 1], id, name);
    }
  }

  // ------------------------------------------------------- what consoles saw

  /** The latest view of a thread that was broadcast. */
  function Seen(broadcasts: seq<ThreadInfo>, id: string): Option<ThreadInfo> {
    if broadcasts == [] then None
    else if broadcasts[|broadcasts| - 1].id == id then Some(broadcasts[|broadcasts| - 1])
    else Seen(broadcasts[..|broadcasts| - 1], id)
  }

  /** The view last broadcast is the current one, up to the tail sequence number. */
  ghost predicate UpToDate(h: HubState, id: string)
    requires id in h.records
  {
    Seen(h.broadcasts, id).Some? && Seen(h.broadcasts, id).value.(tailSeq := Info(h, id).tailSeq) == Info(h, id)
  }

  ghost predicate ConsolesCurrent(h: HubState) {
    forall id {:trigger UpToDate(h, id)} :: id in h.records ==> UpToDate(h, id)
  }

  ghost predicate CurrentBut(h: HubState, but: string) {
    forall id {:trigger UpToDate(h, id)} :: id in h.records && id != but ==> UpToDate(h, id)
  }

  /** The same views and the same broadcasts: timers and tails do not matter. */
  ghost predicate SameViews(h: HubState, g: HubState) {
    g.records == h.records && g.states == h.states && g.broadcasts == h.broadcasts
  }

  lemma SameViewsCurrent(h: HubState, g: HubState)
    requires ConsolesCurrent(h) && SameViews(h, g)
    ensures ConsolesCurrent(g)
  {
    forall id | id in g.records ensures UpToDate(g, id) {
      assert UpToDate(h, id);
    }
  }

  /** Whatever changed about one thread, broadcasting it brings the consoles up to
      date. */
  lemma BroadcastCurrent(h: HubState, id: string)
    requires CurrentBut(h, id) && id in h.records && h.records[id].id == id
    ensures ConsolesCurrent(Broadcast(h, id))
  {
    var g := Broadcast(h, id);
    forall x | x in g.records ensures UpToDate(g, x) {
      if x != id {
        assert UpToDate(h, x);
      }
    }
  }

  lemma PutCurrent(h: HubState, id: string, r: HubRecord)
    requires CurrentBut(h, id)
    ensures CurrentBut(Put(h, id, r), id)
  {
    forall x | x in Put(h, id, r).records && x != id ensures UpToDate(Put(h, id, r), x) {
      assert UpToDate(h, x);
    }
  }

  lemma PutBroadcastCurrent(h: HubState, id: string, r: HubRecord)
    requires CurrentBut(h, id) && r.id == id
    ensures ConsolesCurrent(Broadcast(Put(h, id, r), id))
  {
    PutCurrent(h, id, r);
    BroadcastCurrent(Put(h, id, r), id);
  }

  lemma CreateCurrent(h: HubState, op: Op)
    requires ConsolesCurrent(h) && op.CreateThread? && op.id !in h.records
    ensures ConsolesCurrent(Step(h, op))
  {
    var g := Step(h, op);
    forall x | x in g.records ensures UpToDate(g, x) {
      if x in h.records {
        assert UpToDate(h, x);
      }
    }
  }

  lemma DeleteCurrent(h: HubState, id: string)
    requires Inv(h) && ConsolesCurrent(h)
    ensures ConsolesCurrent(Delete(h, id))
  {
    var g := Delete(h, id);
    if id in h.records {
      assert RecordOk(h.records[id], id);
      forall x | x in g.records ensures UpToDate(g, x) {
        assert UpToDate(h, x);
      }
    }
  }

  /** Nothing differs about any other thread's view. */
  ghost predicate OnlyThread(h: HubState, g: HubState, id: string) {
    && g.broadcasts == h.broadcasts
    && (forall x :: x != id ==>
          (x in g.records <==> x in h.records) && (x in h.records ==> g.records[x] == h.records[x]))
    && (forall x :: x != id ==> StateOf(g, x) == StateOf(h, x))
  }

  lemma OnlyThreadCurrent(h: HubState, g: HubState, id: string)
    requires ConsolesCurrent(h) && OnlyThread(h, g, id)
    ensures CurrentBut(g, id)
  {
    forall x | x in g.records && x != id ensures UpToDate(g, x) {
      assert UpToDate(h, x);
    }
  }

  lemma RecordedOnlyThread(h: HubState, id: string, r: Report)
    ensures var g := Recorded(h, id, r);
            && OnlyThread(h, g, id) && g.states == h.states
            && (id in g.records <==> id in h.records)
            && (id in h.records ==> g.records[id].id == h.records[id].id)
  {
  }

  lemma ReportedCaches(h: HubState, id: string, r: Report)
    ensures var g, known := Reported(h, id, r), Recorded(h, id, r);
            && g.records == known.records && g.broadcasts == known.broadcasts
            && g.states == if r.state.Some? then known.states[id := r.state.value] else known.states
  {
  }

  lemma ReportedOnlyThread(h: HubState, id: string, r: Report)
    requires Inv(h)
    ensures OnlyThread(h, Reported(h, id, r), id)
    ensures id in Reported(h, id, r).records <==> id in h.records
    ensures id in h.records ==> Reported(h, id, r).records[id].id == id
  {
    RecordedOnlyThread(h, id, r);
    ReportedCaches(h, id, r);
    if id in h.records {
      assert RecordOk(h.records[id], id);
    }
  }

  lemma ReportCurrent(h: HubState, id: string, r: Report)
    requires Inv(h) && ConsolesCurrent(h)
    ensures ConsolesCurrent(ApplyReport(h, id, r))
  {
    var g := Reported(h, id, r);
    ReportedOnlyThread(h, id, r);
    OnlyThreadCurrent(h, g, id);
    if id in h.records {
      assert UpToDate(h, id);
      if Info(h, id) == Info(g, id) {
        assert UpToDate(g, id);
      } else {
        BroadcastCurrent(g, id);
      }
    }
  }

  lemma EnsureEnvCurrent(h: HubState, id: string, provisioned: Option<Provisioned>)
    requires Inv(h) && ConsolesCurrent(h) && id in h.records
    ensures ConsolesCurrent(EnsureEnv(h, id, provisioned))
  {
    assert RecordOk(h.records[id], id);
    var d := Disarm(h, id);
    SameViewsCurrent(h, d);
    if h.records[id].env.Ready? {
      SameViewsCurrent(h, Arm(h, id));
    } else {
      var r := if provisioned.None? then d.records[id].(env := EnvError)
               else d.records[id].(remoteMachineId := provisioned.value.remoteMachineId,
                                   envHandle := provisioned.value.handle, env := Ready);
      PutBroadcastCurrent(d, id, r);
      var g := Broadcast(Put(d, id, r), id);
      SameViewsCurrent(g, Arm(g, id));
    }
  }

  lemma FireCurrent(h: HubState, id: string)
    requires Inv(h) && ConsolesCurrent(h)
    ensures ConsolesCurrent(Fire(h, id))
  {
    var d := Disarm(h, id);
    SameViewsCurrent(h, d);
    SameViewsCurrent(d, Arm(d, id));
    if Suspendable(d, id) {
      assert RecordOk(h.records[id], id);
      PutBroadcastCurrent(d, id, d.records[id].(env := Stopped));
    }
  }

  lemma StepKeepsCurrent(h: HubState, op: Op)
    requires Inv(h) && ConsolesCurrent(h)
    ensures ConsolesCurrent(Step(h, op))
  {
    match op
    case CreateThread(id, _, _, _, _, _, _) =>
      if id !in h.records {
        CreateCurrent(h, op);
      }
    case DeleteThread(id) => DeleteCurrent(h, id);
    case RenameThread(id, trimmed) =>
      if id in h.records && trimmed != "" {
        assert RecordOk(h.records[id], id);
        PutBroadcastCurrent(h, id, h.records[id].(autoName := false, name := trimmed));
      }
    case ArchiveThread(id, at) =>
      if id in h.records {
        assert RecordOk(h.records[id], id);
        PutBroadcastCurrent(h, id, h.records[id].(archivedAt := at));
      }
    case WorkerReport(id, report) => ReportCurrent(h, id, report);
    case WorkerEvent(id, tailSeq) => SameViewsCurrent(h, SessionEvent(h, id, tailSeq));
    case RunCommand(id, readOnly, provisioned, answered) =>
      if id in h.records {
        EnsureEnvCurrent(h, id, provisioned);
        var gated := if readOnly then h else EnsureEnv(h, id, provisioned);
        SameViewsCurrent(gated, gated.(tailSeqs := gated.tailSeqs[id := answered.GetOr(0)]));
      }
    case IdleStopFired(id) => FireCurrent(h, id);
    case Close => SameViewsCurrent(h, h.(timers := {}));
  }

  /** On every run of a hub that starts empty, the view last broadcast of each thread
      is its current view, up to the tail sequence number. */
  lemma {:induction false} BroadcastsKeepUp(ops: seq<Op>)
    ensures ConsolesCurrent(Run(Boot(map[]), ops))
  {
    if ops != [] {
      BroadcastsKeepUp(ops[..|ops| - 1]);
      RunKeepsInv(Boot(map[]), ops[..|ops| - 1]);
      StepKeepsCurrent(Run(Boot(map[]), ops[..|ops| - 1]), ops[|ops| - 1]);
    }
  }
}
