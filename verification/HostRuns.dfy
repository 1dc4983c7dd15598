/** How the runs and compactions of a session host end, said of the answers its libraries
    gave, the commands it was sent and the events it emitted. */
module HostRuns {
  import opened Wrappers
  import opened HostMachine

  /** A run is in flight and so is its own compaction, or not. */
  predicate RunInFlight(h: Host, compacting: bool) {
    OpenRuns(h.trace) == 1 && OpenCompactions(h.trace) == if compacting then 1 else 0
  }

  /** The answer on which a run fails: its prompt, the preparation of its compaction, or
      that compaction when nobody aborted it. */
  predicate FailsRun(h: Host, step: Step) {
    step.Advanced? &&
    if RunInFlight(h, true) then step.answer.CompactFails? && h.abort == Some(false)
    else RunInFlight(h, false) && (step.answer.PromptFails? || step.answer.PromptThenPrepareFails?)
  }

  ghost predicate RunFailed(h: Host, steps: seq<Step>) {
    exists i :: 0 <= i < |steps| && FailsRun(Exec(h, steps[..i]), steps[i])
  }

  lemma RunFailedGrows(h: Host, steps: seq<Step>)
    requires steps != []
    ensures var front := steps[..|steps| - 1];
            RunFailed(h, steps) <==> RunFailed(h, front) || FailsRun(Exec(h, front), steps[|steps| - 1])
  {
    var front := steps[..|steps| - 1];
    if RunFailed(h, steps) {
      var i :| 0 <= i < |steps| && FailsRun(Exec(h, steps[..i]), steps[i]);
      assert i < |front| ==> front[..i] == steps[..i] && front[i] == steps[i];
    }
    if RunFailed(h, front) {
      var i :| 0 <= i < |front| && FailsRun(Exec(h, front[..i]), front[i]);
      assert front[..i] == steps[..i];
    }
  }

  /** A run's failure sends it to `Crashed`, and nothing else does. */
  ghost predicate BrokenExactly(h: Host, failed: bool) {
    failed <==> h.state.Crashed? || h.task.RunBroken?
  }

  lemma StepBreaks(h: Host, step: Step, failed: bool)
    requires Inv(h) && BrokenExactly(h, failed)
    ensures BrokenExactly(Next(h, step), failed || FailsRun(h, step))
  {
    match step
    case Asked(cmd) =>
    case Advanced(answer) => AdvanceBreaks(h, answer);
    case Disposed =>
  }

  lemma AdvanceBreaks(h: Host, answer: Answer)
    requires Inv(h)
    ensures var g := Advance(h, answer);
            (g.state.Crashed? || g.task.RunBroken? <==>
             h.state.Crashed? || h.task.RunBroken? || FailsRun(h, Advanced(answer)))
  {
    if h.task.AutoCompacting? {
      assert RunInFlight(h, true);
      if h.abort.value {
        assert h.abort == Some(true);
      } else {
        assert h.abort == Some(false);
      }
    }
  }

  lemma {:induction false} BreaksExactly(h: Host, steps: seq<Step>)
    requires Inv(h) && !h.state.Crashed? && !h.task.RunBroken?
    ensures Inv(Exec(h, steps)) && BrokenExactly(Exec(h, steps), RunFailed(h, steps))
  {
    ExecKeepsInv(h, steps);
    if steps != [] {
      var front := steps[..|steps| - 1];
      BreaksExactly(h, front);
      StepBreaks(Exec(h, front), steps[|steps| - 1], RunFailed(h, front));
      RunFailedGrows(h, steps);
    }
  }

  /** On every run of the machine, the host is crashed exactly when a run failed and is no
      longer shown as working; when no run has failed, a host with nothing in flight is idle,
      or still interrupted and never having pushed a state. */
  lemma CrashedExactly(interrupted: bool, hasModel: bool, steps: seq<Step>)
    ensures var h0 := Booted(interrupted, hasModel);
            var h, failed := Exec(h0, steps), RunFailed(h0, steps);
            && (h.state.Crashed? <==> failed && !h.state.Working?)
            && (failed ==> h.state.Crashed? || h.state.Working?)
            && (h.state.Idle? || h.state.Interrupted? <==> !failed && h.task.NoTask?)
            && (h.state.Interrupted? ==> LastPushed(h.trace) == None)
  {
    BreaksExactly(Booted(interrupted, hasModel), steps);
  }

  lemma TwoSteps(h: Host, a: Step, b: Step)
    ensures Exec(h, [a, b]) == Next(Next(h, a), b)
  {
    assert [a, b][..1] == [a] && [a][..0] == [];
    assert Exec(h, [a]) == Next(h, a);
  }

  lemma ThreeSteps(h: Host, a: Step, b: Step, c: Step)
    ensures Exec(h, [a, b, c]) == Next(Next(Next(h, a), b), c)
  {
    assert [a, b, c][..2] == [a, b];
    TwoSteps(h, a, b);
  }

  const PROCEED: Step := Advanced(Proceed)

  /** A run that has settled ends: once the auto-title returns and the mailbox is read,
      the host has pushed idle and is crashed exactly if the run failed, idle otherwise. */
  lemma SettledRunEnds(interrupted: bool, hasModel: bool, steps: seq<Step>)
    requires var h := Exec(Booted(interrupted, hasModel), steps); h.state.Working? && OpenRuns(h.trace) == 0
    ensures var h0 := Booted(interrupted, hasModel);
            var end := Exec(Exec(h0, steps), [PROCEED, PROCEED]);
            && end.state == (if RunFailed(h0, steps) then Crashed else Idle)
            && end.task.NoTask?
            && end.trace == Exec(h0, steps).trace + [Pushed(IdleThread)]
  {
    BreaksExactly(Booted(interrupted, hasModel), steps);
    var h := Exec(Booted(interrupted, hasModel), steps);
    TwoSteps(h, PROCEED, PROCEED);
    assert h.trace + [] == h.trace;
  }

  /** What a run in flight emits for each answer: it settles, or starts its own
      compaction with a fresh controller. */
  lemma PromptAnswered(interrupted: bool, hasModel: bool, steps: seq<Step>, answer: Answer)
    requires RunInFlight(Exec(Booted(interrupted, hasModel), steps), false)
    ensures var h := Exec(Booted(interrupted, hasModel), steps);
            var next := Next(h, Advanced(answer));
            && next.state.Working?
            && (answer.PromptFails? || answer.PromptThenPrepareFails? || answer.PromptThenSettle? ==>
                  next.trace == h.trace + [Settled] && next.abort == None)
            && (answer.PromptThenCompact? ==> next.trace == h.trace + [CompactionStart] && next.abort == Some(false))
            && (answer.PromptFails? || answer.PromptThenPrepareFails? || answer.PromptThenSettle?
                || answer.PromptThenCompact? || next == h)
  {
    ExecKeepsInv(Booted(interrupted, hasModel), steps);
  }

  // --------------------------------------------------------- compactions

  /** What aborts a compaction in flight: the thread's abort while it works, or disposing
      of the host. */
  predicate Aborts(h: Host, step: Step) {
    step.Disposed? || (step == Asked(Abort) && h.state.Working?)
  }

  ghost predicate InFlightAt(h: Host, steps: seq<Step>, i: int)
    requires 0 <= i <= |steps|
  {
    OpenCompactions(Exec(h, steps[..i]).trace) == 1
  }

  /** The compaction now in flight started with step `k - 1`. */
  ghost predicate InFlightSince(h: Host, steps: seq<Step>, k: nat) {
    && 0 < k <= |steps|
    && !InFlightAt(h, steps, k - 1)
    && (forall i :: k <= i <= |steps| ==> InFlightAt(h, steps, i))
  }

  ghost predicate AbortedSince(h: Host, steps: seq<Step>, k: nat) {
    exists i :: k <= i < |steps| && Aborts(Exec(h, steps[..i]), steps[i])
  }

  lemma StepAborts(h: Host, step: Step)
    requires Inv(h) && OpenCompactions(Next(h, step).trace) == 1
    ensures Next(h, step).abort
            == if OpenCompactions(h.trace) != 1 then Some(false)
               else if Aborts(h, step) then Some(true) else h.abort
  {
    StepKeepsInv(h, step);
  }

  lemma StepKeepsInv(h: Host, step: Step)
    requires Inv(h)
    ensures Inv(Next(h, step))
  {
    match step
    case Asked(cmd) => AskKeepsInv(h, cmd);
    case Advanced(answer) => AdvanceKeepsInv(h, answer);
    case Disposed =>
  }

  lemma AbortedSinceGrows(h: Host, steps: seq<Step>, k: nat)
    requires k < |steps|
    ensures var front := steps[..|steps| - 1];
            AbortedSince(h, steps, k) <==>
            AbortedSince(h, front, k) || Aborts(Exec(h, front), steps[|steps| - 1])
  {
    var front := steps[..|steps| - 1];
    if AbortedSince(h, steps, k) {
      var i :| k <= i < |steps| && Aborts(Exec(h, steps[..i]), steps[i]);
      assert i < |front| ==> front[..i] == steps[..i] && front[i] == steps[i];
    }
    if AbortedSince(h, front, k) {
      var i :| k <= i < |front| && Aborts(Exec(h, front[..i]), front[i]);
      assert front[..i] == steps[..i];
    }
  }

  lemma InFlightFront(h: Host, steps: seq<Step>, k: nat)
    requires InFlightSince(h, steps, k) && k < |steps|
    ensures InFlightSince(h, steps[..|steps| - 1], k)
  {
    var front := steps[..|steps| - 1];
    forall i | k - 1 <= i <= |front| ensures InFlightAt(h, front, i) <==> InFlightAt(h, steps, i) {
      assert front[..i] == steps[..i];
    }
  }

  /** The controller of the compaction in flight was triggered exactly when an abort came
      since it started. */
  lemma {:induction false} AbortedExactly(interrupted: bool, hasModel: bool, steps: seq<Step>, k: nat)
    requires InFlightSince(Booted(interrupted, hasModel), steps, k)
    ensures Exec(Booted(interrupted, hasModel), steps).abort
            == Some(AbortedSince(Booted(interrupted, hasModel), steps, k))
  {
    var h, front := Booted(interrupted, hasModel), steps[..|steps| - 1];
    assert InFlightAt(h, steps, |steps|) && steps[..|steps|] == steps;
    ExecKeepsInv(h, front);
    StepAborts(Exec(h, front), steps[|steps| - 1]);
    if k < |steps| {
      assert InFlightAt(h, steps, |steps| - 1);
      InFlightFront(h, steps, k);
      AbortedExactly(interrupted, hasModel, front, k);
      AbortedSinceGrows(h, steps, k);
    }
  }

  /** How a compaction ends: done when the library succeeds; when it fails, aborted if an
      abort came since it started and failed otherwise. The run it belongs to settles with
      it, and the failure that counts is the run's failure. */
  lemma CompactionOutcome(interrupted: bool, hasModel: bool, steps: seq<Step>, k: nat, answer: Answer)
    requires InFlightSince(Booted(interrupted, hasModel), steps, k)
    requires answer.CompactSucceeds? || answer.CompactFails?
    ensures var h0 := Booted(interrupted, hasModel);
            var h := Exec(h0, steps);
            var outcome := if answer.CompactSucceeds? then Done
                           else if AbortedSince(h0, steps, k) then Aborted else Failed;
            && Next(h, Advanced(answer)).trace
               == h.trace + [CompactionEnd(outcome)] + (if h.state.Working? then [Settled] else [])
            && Next(h, Advanced(answer)).abort == None
            && (FailsRun(h, Advanced(answer)) <==> h.state.Working? && outcome == Failed)
  {
    var h0 := Booted(interrupted, hasModel);
    AbortedExactly(interrupted, hasModel, steps, k);
    ExecKeepsInv(h0, steps);
    assert InFlightAt(h0, steps, |steps|) && steps[..|steps|] == steps;
  }

  /** A manual compaction never crashes the host: while it lasts each step leaves the host
      compacting or idle, and however it is answered it ends idle, pushed as such. */
  lemma ManualCompactionEndsIdle(interrupted: bool, hasModel: bool, steps: seq<Step>, step: Step, answer: Answer)
    requires Exec(Booted(interrupted, hasModel), steps).state.Compacting?
    requires answer.CompactSucceeds? || answer.CompactFails?
    ensures var h := Exec(Booted(interrupted, hasModel), steps);
            && (Next(h, step).state.Compacting? || Next(h, step).state.Idle?)
            && var end := Exec(h, [Advanced(ManualStarts), Advanced(answer), PROCEED]);
               end.state.Idle? && end.task.NoTask? && LastPushed(end.trace) == Some(IdleThread)
  {
    var h := Exec(Booted(interrupted, hasModel), steps);
    ExecKeepsInv(Booted(interrupted, hasModel), steps);
    ThreeSteps(h, Advanced(ManualStarts), Advanced(answer), PROCEED);
    CompactingLasts(h, step);
    CompactionEnds(h, answer);
  }

  lemma CompactingLasts(h: Host, step: Step)
    requires Inv(h) && h.state.Compacting?
    ensures Next(h, step).state.Compacting? || Next(h, step).state.Idle?
  {
  }

  lemma CompactionEnds(h: Host, answer: Answer)
    requires Inv(h) && h.state.Compacting? && (answer.CompactSucceeds? || answer.CompactFails?)
    ensures var end := Next(Next(Next(h, Advanced(ManualStarts)), Advanced(answer)), PROCEED);
            end.state.Idle? && end.task.NoTask? && LastPushed(end.trace) == Some(IdleThread)
  {
    var started := Next(h, Advanced(ManualStarts));
    ManualStarted(h);
    CompactionAnswered(started, answer);
    CompactionRead(Next(started, Advanced(answer)));
  }

  lemma ManualStarted(h: Host)
    requires TaskFits(h) && h.state.Compacting?
    ensures var g := Next(h, Advanced(ManualStarts));
            g.state.Compacting? && (g.task.ManualCompacting? || g.task.CompactOver?)
  {
  }

  lemma CompactionAnswered(h: Host, answer: Answer)
    requires h.state.Compacting? && (h.task.ManualCompacting? || h.task.CompactOver?)
    requires answer.CompactSucceeds? || answer.CompactFails?
    ensures Next(h, Advanced(answer)).state.Compacting? && Next(h, Advanced(answer)).task.CompactOver?
  {
  }

  lemma CompactionRead(h: Host)
    requires h.task.CompactOver?
    ensures var end := Next(h, PROCEED);
            end.state.Idle? && end.task.NoTask? && LastPushed(end.trace) == Some(IdleThread)
  {
    TraceGrows(h.trace, Pushed(IdleThread));
  }

  /** A manual compaction that finds nothing to do emits nothing and ends idle; one that
      does emits its start, with a fresh controller. */
  lemma ManualPrepared(interrupted: bool, hasModel: bool, steps: seq<Step>, failed: bool)
    requires Exec(Booted(interrupted, hasModel), steps).task.Preparing?
    ensures var h := Exec(Booted(interrupted, hasModel), steps);
            var end := Exec(h, [Advanced(NothingPrepared(failed)), PROCEED]);
            var started := Next(h, Advanced(ManualStarts));
            && end.state.Idle? && end.trace == h.trace + [Pushed(IdleThread)]
            && started.state.Compacting? && started.trace == h.trace + [CompactionStart] && started.abort == Some(false)
  {
    var h := Exec(Booted(interrupted, hasModel), steps);
    ExecKeepsInv(Booted(interrupted, hasModel), steps);
    TwoSteps(h, Advanced(NothingPrepared(failed)), PROCEED);
    PreparedAnswered(h, failed);
  }

  lemma PreparedAnswered(h: Host, failed: bool)
    requires TaskFits(h) && h.task.Preparing?
    ensures var end := Next(Next(h, Advanced(NothingPrepared(failed))), PROCEED);
            end.state.Idle? && end.trace == h.trace + [Pushed(IdleThread)]
    ensures var started := Next(h, Advanced(ManualStarts));
            && started.state.Compacting? && started.trace == h.trace + [CompactionStart] && started.abort == Some(false)
  {
    assert h.trace + [] == h.trace;
  }

  /** A compact command is accepted exactly when nothing is in flight, no run has failed
      and there is something to compact; a refused one leaves the host as it was. */
  lemma CompactAcceptedExactly(interrupted: bool, hasModel: bool, steps: seq<Step>, preparable: bool)
    ensures var h0 := Booted(interrupted, hasModel);
            var h := Exec(h0, steps);
            var asked := Ask(h, Compact(preparable));
            && (asked.1.ReplyOk? <==> (h.state.Idle? || h.state.Interrupted?) && preparable)
            && (asked.1.ReplyOk? <==> h.task.NoTask? && !RunFailed(h0, steps) && preparable)
            && (asked.1.ReplyOk? ==> asked.0.state.Compacting? && asked.0.trace == h.trace)
            && (!asked.1.ReplyOk? ==> asked.0 == h)
  {
    BreaksExactly(Booted(interrupted, hasModel), steps);
  }

  /** An abort is always answered and never moves the host by itself: while a run's
      compaction is in flight it triggers the controller, and otherwise changes nothing. */
  lemma AbortDoes(interrupted: bool, hasModel: bool, steps: seq<Step>)
    ensures var h := Exec(Booted(interrupted, hasModel), steps);
            var asked := Ask(h, Abort);
            && asked.1.ReplyOk?
            && asked.0 == (if RunInFlight(h, true) then h.(abort := Some(true)) else h)
  {
    ExecKeepsInv(Booted(interrupted, hasModel), steps);
  }

  lemma StepSetsModel(h: Host, step: Step)
    ensures Next(h, step).hasModel <==> h.hasModel || step == Asked(SetModel(true))
  {
  }

  /** Whether a run can start at all: a model was there from the start or set since. */
  lemma {:induction false} HasModelExactly(interrupted: bool, hasModel: bool, steps: seq<Step>)
    ensures Exec(Booted(interrupted, hasModel), steps).hasModel <==>
            hasModel || Asked(SetModel(true)) in steps
  {
    if steps != [] {
      var front, last := steps[..|steps| - 1], steps[|steps| - 1];
      HasModelExactly(interrupted, hasModel, front);
      StepSetsModel(Exec(Booted(interrupted, hasModel), front), last);
      assert steps == front + [last];
    }
  }
}
