/** One repo at work: sessions created, forked, deleted and reopened over one store
    while any number of callers use their storages, with failing puts, crashes and
    deletes that die. */
module RepoConsistency {
  import opened Wrappers
  import opened SessionTypes
  import opened Trail
  import opened Keys
  import opened Store
  import opened StoreLoad
  import StorageOps
  import opened StorageRuns
  import opened DoSession
  import opened RepoRuns
  import Fork

  /** The store and the sessions in use, each as a process over it. */
  datatype Repo = Repo(data: Data, sessions: map<string, World>)

  datatype RepoStep =
    | Created(meta: Metadata)
    | Forked(source: string, options: Fork.ForkOptions, child: Metadata, puts: nat)  // at most `puts` records written
    | Deleted(id: string)
    | DeleteDied(id: string, gone: set<string>)
    | Reopened(id: string)
    | Stored(id: string, event: Event)  // a step of one session's storage

  /** A session's process over the store as it is now. */
  function At(r: Repo, id: string): World
    requires id in r.sessions
  {
    r.sessions[id].(data := r.data)
  }

  function StateAt(ms: seq<Mutation>): State {
    if Replay(ms).Ok? then Replay(ms).value else INIT
  }

  function Using(data: Data, up: bool, ms: seq<Mutation>): World {
    World(data, up, StateAt(ms), map[], None, ms, [])
  }

  ghost predicate Logged(data: Data, id: string, ms: seq<Mutation>) {
    OnDisk(data, id, ms) && Replay(ms).Ok?
  }

  /** What a fork writes for its child: nothing when the fork is refused, and a part of
      the plan when it dies between two puts. */
  ghost function ForkLog(data: Data, source: string, options: Fork.ForkOptions, puts: nat): (seq<Mutation>, bool)
    requires CanLoad(data, source)
  {
    LoadedWellFormed(data, source);
    match Fork.ForkMutations(LoadedState(data, source), options)
    case Err(_) => ([], false)
    case Ok(plan) => if puts < |plan| then (plan[..puts], false) else (plan, true)
  }

  ghost function StepRepo(r: Repo, step: RepoStep): Repo {
    match step
    case Created(meta) =>
      if !ValidSessionId(meta.id) || MetaKey(meta.id) in r.data then r
      else
        var data := StoreAfter(r.data, CreateSession(meta));
        Repo(data, r.sessions[meta.id := Using(data, true, [])])
    case Forked(source, options, child, puts) =>
      if !CanLoad(r.data, source) || !ValidSessionId(child.id) || MetaKey(child.id) in r.data then r
      else
        var (ms, whole) := ForkLog(r.data, source, options, puts);
        var data := StoreAfter(r.data, ForkInto(child, ms));
        Repo(data, r.sessions[child.id := Using(data, whole, ms)])
    case Deleted(id) => Repo(StoreAfter(r.data, DeleteSession(id)), r.sessions - {id})
    case DeleteDied(id, gone) => Repo(StoreAfter(r.data, InterruptedDelete(id, gone)), r.sessions - {id})
    case Reopened(id) =>
      if id in r.sessions || !exists ms :: Logged(r.data, id, ms) then r
      else
        var ms :| Logged(r.data, id, ms);
        r.(sessions := r.sessions[id := Using(r.data, true, ms)])
    case Stored(id, event) =>
      if id !in r.sessions then r
      else
        var w := Step(At(r, id), id, event);
        Repo(w.data, r.sessions[id := w])
  }

  ghost function RunSteps(steps: seq<RepoStep>): Repo {
    if steps == [] then Repo(map[], map[]) else StepRepo(RunSteps(steps[..|steps| - 1]), steps[|steps| - 1])
  }

  // ------------------------------------------------------------- invariant

  /** Every log key is well formed and numbered like the mutation it holds. */
  ghost predicate KeysFit(data: Data, id: string) {
    Canonical(data, id) && SeqsMatchKeys(data, id)
  }

  ghost predicate SessionFits(r: Repo, id: string) {
    && (ValidSessionId(id) ==> KeysFit(r.data, id))
    && (id in r.sessions ==> ValidSessionId(id) && Inv(At(r, id), id))
  }

  ghost predicate RepoInv(r: Repo) {
    forall id {:trigger SessionFits(r, id)} :: SessionFits(r, id)
  }

  /** A session that is not there has left nothing readable. */
  ghost predicate NothingLeft(data: Data, id: string) {
    MetaKey(id) !in data ==> NothingPast(data, id, 0)
  }

  /** Creating or forking finds no readable record under a new id. */
  ghost predicate Clean(r: Repo, step: RepoStep) {
    (step.Created? || step.Forked?) && ValidSessionId(Target(step)) ==> NothingLeft(r.data, Target(step))
  }

  ghost predicate CleanRun(steps: seq<RepoStep>) {
    forall i :: 0 <= i < |steps| ==> Clean(RunSteps(steps[..i]), steps[i])
  }

  // ---------------------------------------------------------- one step's reach

  function Target(step: RepoStep): string {
    match step
    case Created(meta) => meta.id
    case Forked(_, _, child, _) => child.id
    case Deleted(id) => id
    case DeleteDied(id, _) => id
    case Reopened(id) => id
    case Stored(id, _) => id
  }

  /** Creating and forking check the new id; the other steps are about sessions the repo
      has made, whose ids were checked. */
  predicate Proper(step: RepoStep) {
    step.Created? || step.Forked? || ValidSessionId(Target(step))
  }

  lemma EventOnlyUnder(w: World, id: string, e: Event)
    ensures OnlyUnder(w.data, Step(w, id, e).data, id)
  {
    if w.up && e.Land? && w.holder.Some? && w.holder.value.phase.Writing? {
      var n := SeqOf(w.holder.value.phase.written);
      if n >= 0 {
        assert SessionPrefix(id) <= KeyOf(id, n);
      }
    }
  }

  lemma StepOnlyUnder(r: Repo, step: RepoStep)
    ensures OnlyUnder(r.data, StepRepo(r, step).data, Target(step))
    ensures forall id :: id != Target(step) ==>
              (id in StepRepo(r, step).sessions <==> id in r.sessions)
              && (id in r.sessions ==> StepRepo(r, step).sessions[id] == r.sessions[id])
  {
    match step
    case Created(meta) => AfterOnlyUnder(r.data, CreateSession(meta));
    case Forked(source, options, child, puts) =>
      if CanLoad(r.data, source) {
        AfterOnlyUnder(r.data, ForkInto(child, ForkLog(r.data, source, options, puts).0));
      }
    case Deleted(id) => AfterOnlyUnder(r.data, DeleteSession(id));
    case DeleteDied(id, gone) => AfterOnlyUnder(r.data, InterruptedDelete(id, gone));
    case Reopened(_) =>
    case Stored(id, event) =>
      if id in r.sessions {
        EventOnlyUnder(At(r, id), id, event);
      }
  }

  lemma ElsewhereSame(before: Data, after: Data, id: string, other: string)
    requires ValidSessionId(id) && ValidSessionId(other) && id != other && OnlyUnder(before, after, id)
    ensures SameUnder(before, after, other)
  {
    forall k | SessionPrefix(other) <= k
      ensures (k in before <==> k in after) && (k in before ==> before[k] == after[k])
    {
      PrefixesDisjoint(id, other, k);
    }
  }

  lemma KeysFitSame(d: Data, e: Data, id: string)
    requires SameUnder(d, e, id)
    ensures KeysFit(d, id) ==> KeysFit(e, id)
    ensures forall n: nat :: KeyOf(id, n) in d <==> KeyOf(id, n) in e
    ensures forall n: nat :: KeyOf(id, n) in d ==> d[KeyOf(id, n)] == e[KeyOf(id, n)]
    ensures MetaKey(id) in d <==> MetaKey(id) in e
    ensures MetaKey(id) in d ==> d[MetaKey(id)] == e[MetaKey(id)]
  {
    assert SessionPrefix(id) <= MetaKey(id);
    forall n: nat ensures SessionPrefix(id) <= KeyOf(id, n) {
    }
    forall k | k in e && SessionPrefix(id) + "log/" <= k ensures SessionPrefix(id) <= k {
    }
  }

  lemma OnDiskSame(d: Data, e: Data, id: string, ms: seq<Mutation>)
    requires SameUnder(d, e, id) && OnDisk(d, id, ms)
    ensures OnDisk(e, id, ms)
  {
    KeysFitSame(d, e, id);
    forall k | k in e && SessionPrefix(id) + "log/" <= k ensures IsKeyOfLog(k, id) {
      assert SessionPrefix(id) <= k;
    }
    forall n: nat ensures Readable(e, id, n) <==> Readable(d, id, n) {
    }
  }

  /** A session's invariant speaks of its own prefix alone. */
  lemma InvElsewhere(w: World, data: Data, id: string)
    requires Inv(w, id) && SameUnder(w.data, data, id)
    ensures Inv(w.(data := data), id)
  {
    if OnDisk(w.data, id, w.history) {
      OnDiskSame(w.data, data, id, w.history);
    } else {
      var m :| OnDisk(w.data, id, w.history + [m]) && Replay(w.history + [m]).Ok?;
      OnDiskSame(w.data, data, id, w.history + [m]);
    }
    if w.up && w.holder.Some? && w.holder.value.phase.Landed? {
      OnDiskSame(w.data, data, id, w.history + [w.holder.value.phase.landed]);
    }
  }

  lemma OthersFit(r: Repo, step: RepoStep, id: string)
    requires SessionFits(r, id) && Proper(step) && id != Target(step)
    ensures SessionFits(StepRepo(r, step), id)
  {
    StepOnlyUnder(r, step);
    if ValidSessionId(id) && ValidSessionId(Target(step)) {
      ElsewhereSame(r.data, StepRepo(r, step).data, Target(step), id);
      KeysFitSame(r.data, StepRepo(r, step).data, id);
      if id in r.sessions {
        InvElsewhere(At(r, id), StepRepo(r, step).data, id);
      }
    }
  }

  // ------------------------------------------------------ the session itself

  lemma UsingInv(data: Data, id: string, up: bool, ms: seq<Mutation>)
    requires Logged(data, id, ms)
    ensures Inv(Using(data, up, ms), id)
  {
    InitWellFormed();
    ReplayKeepsWellFormed(INIT, ms);
  }

  /** A log that replays, written under a clean id, is that session's log. */
  lemma WrittenFits(data: Data, meta: Metadata, ms: seq<Mutation>)
    requires KeysFit(data, meta.id) && NothingPast(data, meta.id, 0) && Replay(ms).Ok?
    requires MetaKey(meta.id) !in data
    ensures var after := StoreAfter(data, ForkInto(meta, ms)); KeysFit(after, meta.id) && Logged(after, meta.id, ms)
  {
    var id := meta.id;
    var with := data[MetaKey(id) := MetaDoc(meta)];
    MetaKeepsLog(data, meta);
    WriteLogHolds(with, id, ms);
    SeqsConsecutive(ms);
    assert forall k: nat :: !Readable(data, id, k) && !Readable(with, id, k);
    WriteLogOnDisk(with, id, ms);
    forall n: nat ensures KeyOf(id, n) in with <==> KeyOf(id, n) in data {
      MetaIsNoLogKey(id, n);
    }
  }

  lemma {:induction false} DocsWellFormed(data: Data, id: string, nums: seq<nat>)
    requires InStore(nums, data, id) && ReplayDocs(data, id, nums).Ok?
    ensures WellFormed(ReplayDocs(data, id, nums).value)
  {
    if nums == [] {
      InitWellFormed();
    } else {
      var front := nums[..|nums| - 1];
      DocsWellFormed(data, id, front);
      ApplyKeepsWellFormed(ReplayDocs(data, id, front).value, data[KeyOf(id, nums[|nums| - 1])].mutation);
    }
  }

  lemma LoadedWellFormed(data: Data, id: string)
    requires CanLoad(data, id)
    ensures WellFormed(LoadedState(data, id))
  {
    var s := LoadedState(data, id);
    assert Loads(data, id, Ok(s));
    var nums :| AreNumbers(nums, data, id) && InStore(nums, data, id) && Ok(s) == ReplayDocs(data, id, nums);
    DocsWellFormed(data, id, nums);
  }

  lemma ForkLogReplays(data: Data, source: string, options: Fork.ForkOptions, puts: nat)
    requires CanLoad(data, source)
    ensures Replay(ForkLog(data, source, options, puts).0).Ok?
  {
    var s := LoadedState(data, source);
    LoadedWellFormed(data, source);
    if Fork.ForkMutations(s, options).Ok? {
      var plan := Fork.ForkMutations(s, options).value;
      Fork.ForkReplays(s, options);
      if puts < |plan| {
        ReplayPrefix(INIT, plan, puts);
      }
    }
  }

  lemma CreatedFits(r: Repo, step: RepoStep)
    requires SessionFits(r, Target(step)) && Clean(r, step) && step.Created?
    ensures SessionFits(StepRepo(r, step), Target(step))
  {
    var meta := step.meta;
    if ValidSessionId(meta.id) && MetaKey(meta.id) !in r.data {
      WrittenFits(r.data, meta, []);
      var data := StoreAfter(r.data, CreateSession(meta));
      assert data == StoreAfter(r.data, ForkInto(meta, []));
      UsingInv(data, meta.id, true, []);
    }
  }

  lemma ForkedFits(r: Repo, step: RepoStep)
    requires SessionFits(r, Target(step)) && Clean(r, step) && step.Forked?
    ensures SessionFits(StepRepo(r, step), Target(step))
  {
    var child := step.child;
    if CanLoad(r.data, step.source) && ValidSessionId(child.id) && MetaKey(child.id) !in r.data {
      var log := ForkLog(r.data, step.source, step.options, step.puts);
      ForkLogReplays(r.data, step.source, step.options, step.puts);
      WrittenFits(r.data, child, log.0);
      UsingInv(StoreAfter(r.data, ForkInto(child, log.0)), child.id, log.1, log.0);
    }
  }

  lemma EventKeysFit(w: World, id: string, event: Event)
    requires KeysFit(w.data, id) && StorageRuns.Inv(StorageRuns.Step(w, id, event), id)
    ensures KeysFit(StorageRuns.Step(w, id, event).data, id)
  {
    var data := StorageRuns.Step(w, id, event).data;
    if data != w.data {
      var m := w.holder.value.phase.written;
      forall n: nat | KeyOf(id, n) in data && data[KeyOf(id, n)].MutationDoc?
        ensures SeqOf(data[KeyOf(id, n)].mutation) == n
      {
        if KeyOf(id, n) == KeyOf(id, SeqOf(m)) {
          KeyOfInjective(id, n, SeqOf(m));
        }
      }
    }
  }

  lemma StoredFits(r: Repo, id: string, event: Event)
    requires SessionFits(r, id)
    ensures SessionFits(StepRepo(r, Stored(id, event)), id)
  {
    if id in r.sessions {
      var v := StorageRuns.Step(At(r, id), id, event);
      StorageRuns.StepKeepsInv(At(r, id), id, event);
      EventKeysFit(At(r, id), id, event);
      assert v == v.(data := v.data);
    }
  }

  lemma StepKeepsRepoInv(r: Repo, step: RepoStep)
    requires RepoInv(r) && Clean(r, step) && Proper(step)
    ensures RepoInv(StepRepo(r, step))
  {
    var g := StepRepo(r, step);
    forall id ensures SessionFits(g, id) {
      assert SessionFits(r, id);
      if id != Target(step) {
        OthersFit(r, step, id);
      } else {
        match step
        case Created(_) => CreatedFits(r, step);
        case Forked(_, _, _, _) => ForkedFits(r, step);
        case Reopened(_) =>
          if id !in r.sessions && exists ms :: Logged(r.data, id, ms) {
            UsingInv(r.data, id, true, g.sessions[id].history);
          }
        case Stored(_, event) => StoredFits(r, id, event);
        case _ =>
      }
    }
  }

  ghost predicate AllProper(steps: seq<RepoStep>) {
    forall i :: 0 <= i < |steps| ==> Proper(steps[i])
  }

  lemma {:induction false} RunKeepsRepoInv(steps: seq<RepoStep>)
    requires AllProper(steps) && CleanRun(steps)
    ensures RepoInv(RunSteps(steps))
  {
    if steps != [] {
      var front := steps[..|steps| - 1];
      forall i | 0 <= i < |front| ensures Clean(RunSteps(front[..i]), front[i]) {
        assert front[..i] == steps[..i];
      }
      RunKeepsRepoInv(front);
      StepKeepsRepoInv(RunSteps(front), steps[|steps| - 1]);
    }
  }

  /** Every session of a repo stays crash consistent, whatever is created, forked,
      deleted or reopened beside it and whoever uses it, with puts that fail, processes
      that crash and deletes and forks that die, as long as no session is created over
      readable records a dead delete left behind. */
  lemma EverySessionConsistent(steps: seq<RepoStep>, id: string)
    requires AllProper(steps) && CleanRun(steps)
    requires id in RunSteps(steps).sessions
    ensures Consistent(At(RunSteps(steps), id), id)
  {
    RunKeepsRepoInv(steps);
    assert SessionFits(RunSteps(steps), id);
    InvConsistent(At(RunSteps(steps), id), id);
  }

  // ------------------------------------------------------------ no leftovers

  ghost predicate NoLeftovers(data: Data) {
    forall id {:trigger NothingLeft(data, id)} :: ValidSessionId(id) ==> NothingLeft(data, id)
  }

  lemma TargetLeavesNothing(r: Repo, step: RepoStep)
    requires RepoInv(r) && Clean(r, step) && Proper(step) && !step.DeleteDied? && NothingLeft(r.data, Target(step))
    ensures NothingLeft(StepRepo(r, step).data, Target(step))
  {
    var id, g := Target(step), StepRepo(r, step);
    assert SessionFits(r, id);
    match step
    case Created(_) => CreatedFits(r, step);
    case Forked(_, _, child, _) =>
      if g != r {
        var log := ForkLog(r.data, step.source, step.options, step.puts);
        WriteLogHolds(r.data[MetaKey(id) := MetaDoc(child)], id, log.0);
      }
    case Deleted(_) =>
      forall n: nat ensures !Readable(g.data, id, n) {
        assert SessionPrefix(id) <= KeyOf(id, n);
      }
    case Stored(_, event) =>
      if id in r.sessions {
        StoredFits(r, id, event);
        assert HasMeta(g.data, id);
      }
    case _ =>
  }

  lemma StepLeavesNothing(r: Repo, step: RepoStep)
    requires RepoInv(r) && Clean(r, step) && Proper(step) && !step.DeleteDied? && NoLeftovers(r.data)
    ensures NoLeftovers(StepRepo(r, step).data)
  {
    var g := StepRepo(r, step);
    forall id | ValidSessionId(id) ensures NothingLeft(g.data, id) {
      assert NothingLeft(r.data, id);
      if id == Target(step) {
        TargetLeavesNothing(r, step);
      } else {
        StepOnlyUnder(r, step);
        if ValidSessionId(Target(step)) {
          ElsewhereSame(r.data, g.data, Target(step), id);
          KeysFitSame(r.data, g.data, id);
          assert forall n: nat :: Readable(g.data, id, n) <==> Readable(r.data, id, n);
        }
      }
    }
  }

  /** Where no delete dies, nothing readable is ever left behind, so every session is
      created and forked cleanly. */
  lemma {:induction false} CleanUnlessDeletesDie(steps: seq<RepoStep>)
    requires AllProper(steps) && forall i :: 0 <= i < |steps| ==> !steps[i].DeleteDied?
    ensures CleanRun(steps) && NoLeftovers(RunSteps(steps).data)
  {
    if steps != [] {
      var front, last := steps[..|steps| - 1], steps[|steps| - 1];
      CleanUnlessDeletesDie(front);
      RunKeepsRepoInv(front);
      var r := RunSteps(front);
      assert ValidSessionId(Target(last)) ==> NothingLeft(r.data, Target(last));
      StepLeavesNothing(r, last);
      forall i | 0 <= i < |steps| ensures Clean(RunSteps(steps[..i]), steps[i]) {
        if i < |front| {
          assert steps[..i] == front[..i] && steps[i] == front[i];
        }
      }
    }
  }

  // --------------------------------------------- the steps and the classes

  function CallSteps(caller: nat, op: StorageOps.Op): seq<Event> {
    [Call(caller, op), Acquire(caller), Validate, Land, Return]
  }

  lemma ExecStep(w: World, id: string, es: seq<Event>, e: Event)
    ensures Exec(w, id, es + [e]) == StorageRuns.Step(Exec(w, id, es), id, e)
  {
    assert (es + [e])[..|es|] == es;
  }

  lemma ExecCall(w: World, id: string, caller: nat, op: StorageOps.Op)
    ensures var es := CallSteps(caller, op);
            var admitted := StorageRuns.Step(StorageRuns.Step(w, id, es[0]), id, es[1]);
            var landed := StorageRuns.Step(StorageRuns.Step(admitted, id, es[2]), id, es[3]);
            Exec(w, id, es) == StorageRuns.Step(landed, id, es[4])
  {
    var es := CallSteps(caller, op);
    ExecStep(w, id, [], es[0]);
    ExecStep(w, id, es[..1], es[1]);
    ExecStep(w, id, es[..2], es[2]);
    ExecStep(w, id, es[..3], es[3]);
    ExecStep(w, id, es[..4], es[4]);
    assert [] + [es[0]] == es[..1] && es[..1] + [es[1]] == es[..2] && es[..2] + [es[2]] == es[..3];
    assert es[..3] + [es[3]] == es[..4] && es[..4] + [es[4]] == es;
  }

  lemma Admits(w: World, id: string, caller: nat, op: StorageOps.Op)
    requires w.up && w.holder.None? && caller !in w.waiting
    ensures StorageRuns.Step(StorageRuns.Step(w, id, Call(caller, op)), id, Acquire(caller))
         == w.(holder := Some(Holder(op, Admitted)))
  {
    assert w.waiting[caller := op] - {caller} == w.waiting;
  }

  /** An accepted call is acknowledged, with the mutation it wrote; a refused one writes
      nothing. */
  ghost predicate AckedOnce(w: World, v: World, op: StorageOps.Op) {
    match StorageOps.Prepare(w.mem, op)
    case Ok(m) => v.acked == w.acked + [m] && v.history == w.history + [m]
    case Err(_) => v.data == w.data && v.mem == w.mem && v.acked == w.acked && v.history == w.history
  }

  /** What an admitted call comes to when nothing fails. */
  lemma AdmittedCommits(w: World, id: string, op: StorageOps.Op)
    requires Inv(w, id) && w.up && w.holder == Some(Holder(op, Admitted))
    ensures var v := StorageRuns.Step(StorageRuns.Step(StorageRuns.Step(w, id, Validate), id, Land), id, Return);
            && Committed(op, id, w.mem, w.data, v.mem, v.data, DoSession.ErrorOf(StorageOps.Prepare(w.mem, op)))
            && v.up && v.holder.None? && v.waiting == w.waiting
            && AckedOnce(w, v, op)
  {
    if StorageOps.Prepare(w.mem, op).Ok? {
      StorageOps.PreparedIsAccepted(w.mem, op);
      WriteCommits(w, id, op, StorageOps.Prepare(w.mem, op).value);
    }
  }

  lemma WriteCommits(w: World, id: string, op: StorageOps.Op, m: Mutation)
    requires w.up && w.holder == Some(Holder(op, Admitted)) && StorageOps.Prepare(w.mem, op) == Ok(m)
    requires SeqOf(m) == w.mem.sequence + 1 && Apply(w.mem, m).Ok?
    ensures var v := StorageRuns.Step(StorageRuns.Step(StorageRuns.Step(w, id, Validate), id, Land), id, Return);
            v == w.(data := w.data[KeyOf(id, w.mem.sequence + 1) := MutationDoc(m)], mem := Apply(w.mem, m).value,
                    holder := None, history := w.history + [m], acked := w.acked + [m])
  {
    var writing := StorageRuns.Step(w, id, Validate);
    assert writing == w.(holder := Some(Holder(op, Writing(m))));
    var landed := StorageRuns.Step(writing, id, Land);
    assert landed == writing.(data := w.data[KeyOf(id, SeqOf(m)) := MutationDoc(m)],
                              holder := Some(Holder(op, Landed(m))));
  }

  /** The steps of one undisturbed call do to memory and store what the storage class
      promises of its method, acknowledge it if it was accepted, and leave the permit and
      the queue as they were. */
  lemma CallCommits(w: World, id: string, caller: nat, op: StorageOps.Op)
    requires Inv(w, id) && w.up && w.holder.None? && caller !in w.waiting
    ensures var v := Exec(w, id, CallSteps(caller, op));
            && Committed(op, id, w.mem, w.data, v.mem, v.data, DoSession.ErrorOf(StorageOps.Prepare(w.mem, op)))
            && v.up && v.holder.None? && v.waiting == w.waiting
            && AckedOnce(w, v, op)
  {
    ExecCall(w, id, caller, op);
    Admits(w, id, caller, op);
    AdmittedCommits(w.(holder := Some(Holder(op, Admitted))), id, op);
  }
}
