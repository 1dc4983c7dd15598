/** The run machine of a session host: commands arrive at any moment, the fiber a state
    spawned advances between them, and both leave a trace of events. */
module HostMachine {
  import opened Wrappers

  datatype Lifecycle = Idle | Interrupted | Working | Compacting | Crashed

  datatype ThreadState = IdleThread | WorkingThread | InterruptedThread

  function WireStateOf(s: Lifecycle): ThreadState {
    match s
    case Working => WorkingThread
    case Interrupted => InterruptedThread
    case _ => IdleThread
  }

  /** How far the fiber spawned by `Working` or `Compacting` has come. */
  datatype Task =
    | NoTask
    | Prompting         // the agent's prompt is in flight
    | AutoCompacting    // the run's own compaction is in flight
    | Titling           // settled; the auto-title may still run
    | RunOver           // RunFinished is in the mailbox
    | RunBroken         // RunFailed is in the mailbox
    | Preparing         // a manual compaction before its start event
    | ManualCompacting  // a manual compaction in flight
    | CompactOver       // CompactFinished or CompactFailed is in the mailbox

  datatype Outcome = Done | Aborted | Failed

  datatype Event =
    | Accepted
    | Settled
    | CompactionStart
    | CompactionEnd(outcome: Outcome)
    | Pushed(state: ThreadState)

  /** `abort` is the compaction's abort controller and whether it was triggered. */
  datatype Host = Host(state: Lifecycle, task: Task, abort: Option<bool>, hasModel: bool, trace: seq<Event>)

  datatype Command = Run | Abort | Compact(preparable: bool) | SetModel(known: bool) | OtherConfig

  datatype Reply = ReplyOk | ReplyFailed(reason: string)

  /** What a command is answered and where it leaves the host. */
  function Ask(h: Host, cmd: Command): (Host, Reply) {
    match cmd
    case Run =>
      (match h.state
       case Working => (h, ReplyFailed("agent is already processing"))
       case Compacting => (h, ReplyFailed("cannot start a run while compacting"))
       case Crashed => (h, ReplyFailed("host crashed; retry"))
       case _ =>
         if !h.hasModel then (h, ReplyFailed("no model selected for this thread; use set_model first"))
         else (h.(state := Working, task := Prompting, trace := h.trace + [Pushed(WorkingThread), Accepted]), ReplyOk))
    case Abort =>
      (if h.state.Working? && h.abort.Some? then h.(abort := Some(true)) else h, ReplyOk)
    case Compact(preparable) =>
      (match h.state
       case Working => (h, ReplyFailed("cannot compact while the agent is working"))
       case Compacting => (h, ReplyFailed("already compacting"))
       case Crashed => (h, ReplyFailed("host crashed; retry"))
       case _ =>
         if !preparable then (h, ReplyFailed("nothing to compact"))
         else (h.(state := Compacting, task := Preparing), ReplyOk))
    case SetModel(known) =>
      if known then (h.(hasModel := true), ReplyOk) else (h, ReplyFailed("unknown model"))
    case OtherConfig => (h, ReplyOk)
  }

  /** What the libraries under the fiber answer next. */
  datatype Answer =
    | PromptFails
    | PromptThenSettle   // no compaction due, or nothing to compact
    | PromptThenPrepareFails
    | PromptThenCompact  // a threshold compaction starts
    | CompactSucceeds
    | CompactFails
    | NothingPrepared(failed: bool)
    | ManualStarts
    | Proceed            // the auto-title returns, or the mailbox is read

  function Emit(h: Host, task: Task, events: seq<Event>): Host {
    h.(task := task, trace := h.trace + events)
  }

  /** The end of a compaction in flight: the controller is dropped, and a failure after
      an abort counts as aborted. */
  function EndOf(h: Host, answer: Answer): Outcome {
    if answer.CompactSucceeds? then Done else if h.abort == Some(true) then Aborted else Failed
  }

  /** One step of that fiber; an answer that does not fit changes nothing. */
  function Advance(h: Host, answer: Answer): Host {
    match h.task
    case Prompting =>
      (match answer
       case PromptFails => Emit(h, RunBroken, [Settled])
       case PromptThenPrepareFails => Emit(h, RunBroken, [Settled])
       case PromptThenSettle => Emit(h, Titling, [Settled])
       case PromptThenCompact => Emit(h, AutoCompacting, [CompactionStart]).(abort := Some(false))
       case _ => h)
    case AutoCompacting =>
      if !answer.CompactSucceeds? && !answer.CompactFails? then h
      else
        var end := EndOf(h, answer);
        Emit(h, if end.Failed? then RunBroken else Titling, [CompactionEnd(end), Settled]).(abort := None)
    case Titling => if answer.Proceed? then Emit(h, RunOver, []) else h
    case RunOver => if answer.Proceed? then Emit(h, NoTask, [Pushed(IdleThread)]).(state := Idle) else h
    case RunBroken => if answer.Proceed? then Emit(h, NoTask, [Pushed(IdleThread)]).(state := Crashed) else h
    case Preparing =>
      (match answer
       case NothingPrepared(_) => Emit(h, CompactOver, [])
       case ManualStarts => Emit(h, ManualCompacting, [CompactionStart]).(abort := Some(false))
       case _ => h)
    case ManualCompacting =>
      if !answer.CompactSucceeds? && !answer.CompactFails? then h
      else Emit(h, CompactOver, [CompactionEnd(EndOf(h, answer))]).(abort := None)
    case CompactOver => if answer.Proceed? then Emit(h, NoTask, [Pushed(IdleThread)]).(state := Idle) else h
    case NoTask => h
  }

  datatype Step = Asked(cmd: Command) | Advanced(answer: Answer) | Disposed

  function Next(h: Host, step: Step): Host {
    match step
    case Asked(cmd) => Ask(h, cmd).0
    case Advanced(answer) => Advance(h, answer)
    case Disposed => if h.abort.Some? then h.(abort := Some(true)) else h
  }

  function Exec(h: Host, steps: seq<Step>): Host {
    if steps == [] then h else Next(Exec(h, steps[..|steps| - 1]), steps[|steps| - 1])
  }

  /** A host at boot: `Interrupted` when the trail had an open operation. */
  function Booted(interrupted: bool, hasModel: bool): Host {
    Host(if interrupted then Interrupted else Idle, NoTask, None, hasModel, [])
  }

  // ------------------------------------------------------ trace discipline

  function OpenRuns(trace: seq<Event>): int {
    if trace == [] then 0
    else
      var e := trace[|trace| - 1];
      OpenRuns(trace[..|trace| - 1]) + if e.Accepted? then 1 else if e.Settled? then -1 else 0
  }

  function OpenCompactions(trace: seq<Event>): int {
    if trace == [] then 0
    else
      var e := trace[|trace| - 1];
      OpenCompactions(trace[..|trace| - 1]) + if e.CompactionStart? then 1 else if e.CompactionEnd? then -1 else 0
  }

  function LastPushed(trace: seq<Event>): Option<ThreadState> {
    if trace == [] then None
    else if trace[|trace| - 1].Pushed? then Some(trace[|trace| - 1].state)
    else LastPushed(trace[..|trace| - 1])
  }

  /** At every moment of the trace at most one run and one compaction is open, and
      none is closed that was not opened: each pair strictly alternates. */
  ghost predicate Disciplined(trace: seq<Event>) {
    forall k :: 0 <= k <= |trace| ==> 0 <= OpenRuns(trace[..k]) <= 1 && 0 <= OpenCompactions(trace[..k]) <= 1
  }

  ghost predicate TaskFits(h: Host) {
    match h.task
    case NoTask => !h.state.Working? && !h.state.Compacting?
    case Preparing => h.state.Compacting?
    case ManualCompacting => h.state.Compacting?
    case CompactOver => h.state.Compacting?
    case _ => h.state.Working?
  }

  ghost predicate Inv(h: Host) {
    && TaskFits(h)
    && Disciplined(h.trace)
    && OpenRuns(h.trace) == (if h.task.Prompting? || h.task.AutoCompacting? then 1 else 0)
    && OpenCompactions(h.trace) == (if h.task.AutoCompacting? || h.task.ManualCompacting? then 1 else 0)
    && (h.abort.Some? <==> h.task.AutoCompacting? || h.task.ManualCompacting?)
    && PushFits(LastPushed(h.trace), h.state)
  }

  /** The registry shows the wire state of the machine; an interrupted host has pushed
      nothing yet, a working one has pushed that it works. */
  predicate PushFits(last: Option<ThreadState>, state: Lifecycle) {
    && (last.Some? ==> last.value == WireStateOf(state))
    && (state.Working? ==> last.Some?)
    && (state.Interrupted? ==> last.None?)
  }

  lemma TraceGrows(trace: seq<Event>, e: Event)
    ensures OpenRuns(trace + [e]) == OpenRuns(trace) + if e.Accepted? then 1 else if e.Settled? then -1 else 0
    ensures OpenCompactions(trace + [e])
            == OpenCompactions(trace) + if e.CompactionStart? then 1 else if e.CompactionEnd? then -1 else 0
    ensures LastPushed(trace + [e]) == if e.Pushed? then Some(e.state) else LastPushed(trace)
    ensures Disciplined(trace) && 0 <= OpenRuns(trace + [e]) <= 1 && 0 <= OpenCompactions(trace + [e]) <= 1 ==>
              Disciplined(trace + [e])
  {
    assert (trace + [e])[..|trace|] == trace;
    assert forall k :: 0 <= k <= |trace| ==> (trace + [e])[..k] == trace[..k];
    assert (trace + [e])[..|trace| + 1] == trace + [e];
  }

  lemma TraceGrowsTwice(trace: seq<Event>, a: Event, b: Event)
    requires Disciplined(trace) && Disciplined(trace + [a])
    ensures trace + [a, b] == (trace + [a]) + [b]
    ensures OpenRuns(trace + [a, b]) == OpenRuns(trace + [a]) + if b.Accepted? then 1 else if b.Settled? then -1 else 0
    ensures OpenCompactions(trace + [a, b])
            == OpenCompactions(trace + [a]) + if b.CompactionStart? then 1 else if b.CompactionEnd? then -1 else 0
    ensures LastPushed(trace + [a, b]) == if b.Pushed? then Some(b.state) else LastPushed(trace + [a])
    ensures 0 <= OpenRuns(trace + [a, b]) <= 1 && 0 <= OpenCompactions(trace + [a, b]) <= 1 ==>
              Disciplined(trace + [a, b])
  {
    assert trace + [a, b] == (trace + [a]) + [b];
    TraceGrows(trace + [a], b);
  }

  lemma AskKeepsInv(h: Host, cmd: Command)
    requires Inv(h)
    ensures Inv(Ask(h, cmd).0)
  {
    if cmd.Run? {
      RunKeepsInv(h);
    }
  }

  lemma RunKeepsInv(h: Host)
    requires Inv(h)
    ensures Inv(Ask(h, Run).0)
  {
    if (h.state.Idle? || h.state.Interrupted?) && h.hasModel {
      TraceGrows(h.trace, Pushed(WorkingThread));
      TraceGrowsTwice(h.trace, Pushed(WorkingThread), Accepted);
    }
  }

  lemma EndKeepsInv(h: Host, answer: Answer)
    requires Inv(h) && (h.task.AutoCompacting? || h.task.ManualCompacting?)
    ensures Inv(Advance(h, answer))
  {
    var end := CompactionEnd(EndOf(h, answer));
    TraceGrows(h.trace, end);
    TraceGrowsTwice(h.trace, end, Settled);
  }

  lemma PromptingKeepsInv(h: Host, answer: Answer)
    requires Inv(h) && h.task.Prompting?
    ensures Inv(Advance(h, answer))
  {
    TraceGrows(h.trace, Settled);
    TraceGrows(h.trace, CompactionStart);
  }

  lemma QuietKeepsInv(h: Host, answer: Answer)
    requires Inv(h) && (h.task.Preparing? || h.task.Titling? || h.task.NoTask?)
    ensures Inv(Advance(h, answer))
  {
    TraceGrows(h.trace, CompactionStart);
    assert h.trace + [] == h.trace;
  }

  lemma OverKeepsInv(h: Host, answer: Answer)
    requires Inv(h) && (h.task.RunOver? || h.task.RunBroken? || h.task.CompactOver?)
    ensures Inv(Advance(h, answer))
  {
    TraceGrows(h.trace, Pushed(IdleThread));
  }

  lemma AdvanceKeepsInv(h: Host, answer: Answer)
    requires Inv(h)
    ensures Inv(Advance(h, answer))
  {
    match h.task
    case AutoCompacting => EndKeepsInv(h, answer);
    case ManualCompacting => EndKeepsInv(h, answer);
    case Prompting => PromptingKeepsInv(h, answer);
    case RunOver => OverKeepsInv(h, answer);
    case RunBroken => OverKeepsInv(h, answer);
    case CompactOver => OverKeepsInv(h, answer);
    case _ => QuietKeepsInv(h, answer);
  }

  lemma {:induction false} ExecKeepsInv(h: Host, steps: seq<Step>)
    requires Inv(h)
    ensures Inv(Exec(h, steps))
  {
    if steps != [] {
      var before := Exec(h, steps[..|steps| - 1]);
      ExecKeepsInv(h, steps[..|steps| - 1]);
      match steps[|steps| - 1]
      case Asked(cmd) => AskKeepsInv(before, cmd);
      case Advanced(answer) => AdvanceKeepsInv(before, answer);
      case Disposed =>
    }
  }

  /** On every run of the machine: accepted runs and settled events alternate,
      compaction starts and ends alternate, a compaction is in flight exactly when
      there is a controller to abort it, and the last state pushed to the registry is
      the machine's wire state, so `working` exactly when the machine is in `Working`. */
  lemma TraceDiscipline(interrupted: bool, hasModel: bool, steps: seq<Step>)
    ensures var h := Exec(Booted(interrupted, hasModel), steps);
            && Disciplined(h.trace)
            && (OpenCompactions(h.trace) == 1 <==> h.abort.Some?)
            && (LastPushed(h.trace).Some? ==> LastPushed(h.trace).value == WireStateOf(h.state))
            && (LastPushed(h.trace) == Some(WorkingThread) <==> h.state.Working?)
            && (OpenRuns(h.trace) == 1 ==> h.state.Working?)
  {
    ExecKeepsInv(Booted(interrupted, hasModel), steps);
  }

  /** A run command is accepted exactly when nothing is in flight, the host has not
      crashed and a model is chosen: it is pushed as working and then acknowledged; a
      refused one leaves no trace. */
  lemma RunAcceptedExactly(interrupted: bool, hasModel: bool, steps: seq<Step>)
    ensures var h := Exec(Booted(interrupted, hasModel), steps);
            && (Ask(h, Run).1.ReplyOk? <==> h.task.NoTask? && !h.state.Crashed? && h.hasModel)
            && (Ask(h, Run).1.ReplyOk? ==>
                  && Ask(h, Run).0.state.Working?
                  && Ask(h, Run).0.trace == h.trace + [Pushed(WorkingThread), Accepted])
            && (!Ask(h, Run).1.ReplyOk? ==> Ask(h, Run).0 == h)
  {
    ExecKeepsInv(Booted(interrupted, hasModel), steps);
  }

  /** A crashed host stays crashed, whatever is asked of it. */
  lemma {:induction false} CrashIsFinal(h: Host, steps: seq<Step>)
    requires Inv(h) && h.state.Crashed?
    ensures Exec(h, steps).state.Crashed? && Exec(h, steps).trace == h.trace
  {
    if steps != [] {
      CrashIsFinal(h, steps[..|steps| - 1]);
      ExecKeepsInv(h, steps[..|steps| - 1]);
    }
  }
}
