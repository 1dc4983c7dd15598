/** The write-ahead protocol of `DoSessionStorage` as small steps: any number of
    callers queue for the one permit, the write of a record can fail, and the process
    can crash between any two steps and load again. */
module StorageRuns {
  import opened Wrappers
  import opened SessionTypes
  import opened Trail
  import opened Store
  import opened StoreLoad
  import opened StorageOps
  import TrailIndexes

  /** Where the caller holding the permit stands. */
  datatype Phase = Admitted | Writing(written: Mutation) | Landed(landed: Mutation)

  datatype Holder = Holder(op: Op, phase: Phase)

  /** One process over one store. `history` and `acked` are kept for the proof: the
      mutations in memory, and those whose callers have returned. */
  datatype World = World(
    data: Data,
    up: bool,
    mem: State,
    waiting: map<nat, Op>,
    holder: Option<Holder>,
    history: seq<Mutation>,
    acked: seq<Mutation>)

  datatype Event =
    | Call(caller: nat, op: Op)  // a storage method is called
    | Acquire(turn: nat)         // a waiting caller gets the permit
    | Validate                   // it validates and builds its mutation, or fails
    | Land                       // the atomic put takes effect
    | Return                     // the mutation is applied and the call returns
    | Fault                      // the put reports a defect, landed or not
    | Crash                      // the process dies
    | Recover                    // a new process loads the store

  ghost predicate CanLoad(data: Data, id: string) {
    exists s :: Loads(data, id, Ok(s))
  }

  ghost function LoadedState(data: Data, id: string): State
    requires CanLoad(data, id)
  {
    var s :| Loads(data, id, Ok(s)); s
  }

  function NextRecord(data: Data, id: string, n: nat): seq<Mutation> {
    if KeyOf(id, n) in data && data[KeyOf(id, n)].MutationDoc? then [data[KeyOf(id, n)].mutation] else []
  }

  /** One step; an event that is not possible changes nothing. */
  ghost function Step(w: World, id: string, e: Event): World {
    if !w.up then
      if e.Recover? && CanLoad(w.data, id) then
        w.(up := true, mem := LoadedState(w.data, id), waiting := map[], holder := None,
           history := w.history + NextRecord(w.data, id, |w.history| + 1))
      else w
    else
      match e
      case Call(caller, op) => if caller in w.waiting then w else w.(waiting := w.waiting[caller := op])
      case Acquire(turn) =>
        if w.holder.None? && turn in w.waiting then
          w.(waiting := w.waiting - {turn}, holder := Some(Holder(w.waiting[turn], Admitted)))
        else w
      case Validate =>
        if w.holder.Some? && w.holder.value.phase.Admitted? then
          match Prepare(w.mem, w.holder.value.op)
          case Ok(m) => w.(holder := Some(w.holder.value.(phase := Writing(m))))
          case Err(_) => w.(holder := None)
        else w
      case Land =>
        if w.holder.Some? && w.holder.value.phase.Writing? then
          var m := w.holder.value.phase.written;
          if SeqOf(m) < 0 then w
          else w.(data := w.data[KeyOf(id, SeqOf(m)) := MutationDoc(m)],
                  holder := Some(w.holder.value.(phase := Landed(m))))
        else w
      case Return =>
        if w.holder.Some? && w.holder.value.phase.Landed? then
          var m := w.holder.value.phase.landed;
          match Apply(w.mem, m)
          case Ok(t) => w.(mem := t, holder := None, history := w.history + [m], acked := w.acked + [m])
          case Err(_) => w.(holder := None)
        else w
      case Fault =>
        if w.holder.Some? && !w.holder.value.phase.Admitted? then w.(holder := None) else w
      case Crash => w.(up := false)
      case Recover => w
  }

  ghost function Exec(w: World, id: string, es: seq<Event>): World {
    if es == [] then w else Step(Exec(w, id, es[..|es| - 1]), id, es[|es| - 1])
  }

  /** A process that has opened a session whose log is `ms`: the empty log of a new
      session, the log of a fork, or any log a store loads. */
  function Opened(data: Data, ms: seq<Mutation>): World
    requires Replay(ms).Ok?
  {
    World(data, true, Replay(ms).value, map[], None, ms, [])
  }

  // ----------------------------------------------------------- invariant

  /** The store holds the history, or the history and one acceptable record more. */
  ghost predicate DiskAgrees(data: Data, id: string, history: seq<Mutation>) {
    || OnDisk(data, id, history)
    || (exists m :: OnDisk(data, id, history + [m]) && Replay(history + [m]).Ok?)
  }

  ghost predicate HolderAgrees(w: World, id: string) {
    w.up && w.holder.Some? ==>
      match w.holder.value.phase
      case Admitted => true
      case Writing(m) => Accepts(w.mem, m)
      case Landed(m) => Accepts(w.mem, m) && OnDisk(w.data, id, w.history + [m])
  }

  ghost predicate AckedKept(w: World) {
    forall i :: 0 <= i < |w.acked| ==>
      1 <= SeqOf(w.acked[i]) <= |w.history| && w.history[SeqOf(w.acked[i]) - 1] == w.acked[i]
  }

  ghost predicate AckedAscending(acked: seq<Mutation>) {
    forall i, j :: 0 <= i < j < |acked| ==> SeqOf(acked[i]) < SeqOf(acked[j])
  }

  ghost predicate Inv(w: World, id: string) {
    && Replay(w.history).Ok?
    && (w.up ==> Replay(w.history) == Ok(w.mem) && WellFormed(w.mem))
    && DiskAgrees(w.data, id, w.history)
    && HolderAgrees(w, id)
    && AckedKept(w)
    && AckedAscending(w.acked)
  }

  lemma PutReplaces(data: Data, id: string, ms: seq<Mutation>, old_: Mutation, m: Mutation)
    requires OnDisk(data, id, ms + [old_])
    ensures OnDisk(data[KeyOf(id, |ms| + 1) := MutationDoc(m)], id, ms + [m])
  {
    var key := KeyOf(id, |ms| + 1);
    var after := data[key := MutationDoc(m)];
    MetaIsNoLogKey(id, |ms| + 1);
    assert Readable(data, id, |ms| + 1);
    forall n: nat ensures Readable(after, id, n) <==> Readable(data, id, n) {
    }
    forall n: nat | Readable(after, id, n) ensures after[KeyOf(id, n)] == MutationDoc((ms + [m])[n - 1]) {
      if n != |ms| + 1 {
        if KeyOf(id, n) == key {
          KeyOfInjective(id, n, |ms| + 1);
        }
        assert (ms + [old_])[n - 1] == (ms + [m])[n - 1];
      }
    }
  }

  lemma PutLands(data: Data, id: string, history: seq<Mutation>, m: Mutation)
    requires DiskAgrees(data, id, history)
    ensures OnDisk(data[KeyOf(id, |history| + 1) := MutationDoc(m)], id, history + [m])
  {
    if OnDisk(data, id, history) {
      PutExtends(data, id, history, m);
    } else {
      var old_ :| OnDisk(data, id, history + [old_]) && Replay(history + [old_]).Ok?;
      PutReplaces(data, id, history, old_, m);
    }
  }

  /** Loading a store that agrees with a history yields the history's state, or that
      state and the one record whose write had landed. */
  lemma AgreeingLoads(data: Data, id: string, history: seq<Mutation>)
    requires DiskAgrees(data, id, history) && Replay(history).Ok?
    ensures CanLoad(data, id)
    ensures forall r :: Loads(data, id, r) ==> r == Replay(history + NextRecord(data, id, |history| + 1))
    ensures OnDisk(data, id, history + NextRecord(data, id, |history| + 1))
    ensures Replay(history + NextRecord(data, id, |history| + 1)).Ok?
  {
    var n := |history| + 1;
    if OnDisk(data, id, history) {
      assert !Readable(data, id, n);
      assert history + NextRecord(data, id, n) == history;
      OnDiskLoads(data, id, history);
    } else {
      var m :| OnDisk(data, id, history + [m]) && Replay(history + [m]).Ok?;
      assert Readable(data, id, n);
      assert NextRecord(data, id, n) == [m];
      OnDiskLoads(data, id, history + [m]);
    }
    var r := Replay(history + NextRecord(data, id, n));
    assert Loads(data, id, r) && r == Ok(r.value);
  }

  lemma KeepAcked(w: World, v: World)
    requires AckedKept(w) && w.history <= v.history && v.acked == w.acked
    ensures AckedKept(v)
  {
  }

  lemma RecoverKeepsInv(w: World, id: string)
    requires Inv(w, id) && !w.up
    ensures Inv(Step(w, id, Recover), id)
  {
    AgreeingLoads(w.data, id, w.history);
    var v := Step(w, id, Recover);
    assert Loads(w.data, id, Ok(LoadedState(w.data, id)));
    InitWellFormed();
    ReplayKeepsWellFormed(INIT, v.history);
    KeepAcked(w, v);
  }

  lemma PutOnDisk(data: Data, id: string, history: seq<Mutation>, mem: State, m: Mutation)
    requires DiskAgrees(data, id, history) && Replay(history) == Ok(mem) && Accepts(mem, m)
    ensures SeqOf(m) == |history| + 1 && Replay(history + [m]).Ok?
    ensures OnDisk(data[KeyOf(id, |history| + 1) := MutationDoc(m)], id, history + [m])
  {
    ReplayCounts(INIT, history);
    PutLands(data, id, history, m);
    ReplayNext(history, m);
  }

  lemma LandKeepsInv(w: World, id: string)
    requires Inv(w, id) && w.up && w.holder.Some? && w.holder.value.phase.Writing?
    ensures Inv(Step(w, id, Land), id)
  {
    PutOnDisk(w.data, id, w.history, w.mem, w.holder.value.phase.written);
  }

  lemma ReturnKeepsInv(w: World, id: string)
    requires Inv(w, id) && w.up && w.holder.Some? && w.holder.value.phase.Landed?
    ensures Inv(Step(w, id, Return), id)
  {
    var m := w.holder.value.phase.landed;
    ReplayNext(w.history, m);
    ReplayCounts(INIT, w.history);
    ApplyKeepsWellFormed(w.mem, m);
    AckGrows(w, Step(w, id, Return), m);
  }

  lemma AckGrows(w: World, v: World, m: Mutation)
    requires AckedKept(w) && AckedAscending(w.acked) && SeqOf(m) == |w.history| + 1
    requires v.history == w.history + [m] && v.acked == w.acked + [m]
    ensures AckedKept(v) && AckedAscending(v.acked)
  {
  }

  lemma ValidateKeepsInv(w: World, id: string)
    requires Inv(w, id) && w.up && w.holder.Some? && w.holder.value.phase.Admitted?
    ensures Inv(Step(w, id, Validate), id)
  {
    if Prepare(w.mem, w.holder.value.op).Ok? {
      PreparedIsAccepted(w.mem, w.holder.value.op);
    }
  }

  lemma StepKeepsInv(w: World, id: string, e: Event)
    requires Inv(w, id)
    ensures Inv(Step(w, id, e), id)
  {
    if !w.up {
      if e.Recover? {
        RecoverKeepsInv(w, id);
      }
    } else if e.Land? && w.holder.Some? && w.holder.value.phase.Writing? {
      LandKeepsInv(w, id);
    } else if e.Return? && w.holder.Some? && w.holder.value.phase.Landed? {
      ReturnKeepsInv(w, id);
    } else if e.Validate? && w.holder.Some? && w.holder.value.phase.Admitted? {
      ValidateKeepsInv(w, id);
    } else {
      OtherKeepsInv(w, id, e);
    }
  }

  /** Who waits and who holds the permit does not matter, until it writes. */
  lemma SameLogInv(w: World, v: World, id: string)
    requires Inv(w, id) && w.up
    requires v == w.(up := v.up, waiting := v.waiting, holder := v.holder)
    requires v.up ==> v.holder == w.holder || v.holder.None? || v.holder.value.phase.Admitted?
    ensures Inv(v, id)
  {
  }

  /** Calling, queueing, a failed put and a crash leave store and memory alone. */
  lemma OtherKeepsInv(w: World, id: string, e: Event)
    requires Inv(w, id) && w.up
    requires !(e.Land? && w.holder.Some? && w.holder.value.phase.Writing?)
    requires !(e.Return? && w.holder.Some? && w.holder.value.phase.Landed?)
    requires !(e.Validate? && w.holder.Some? && w.holder.value.phase.Admitted?)
    ensures Inv(Step(w, id, e), id)
  {
    SameLogInv(w, Step(w, id, e), id);
  }

  lemma {:induction false} ExecKeepsInv(data: Data, id: string, ms: seq<Mutation>, es: seq<Event>)
    requires Replay(ms).Ok? && OnDisk(data, id, ms)
    ensures Inv(Exec(Opened(data, ms), id, es), id)
  {
    if es == [] {
      InitWellFormed();
      ReplayKeepsWellFormed(INIT, ms);
    } else {
      ExecKeepsInv(data, id, ms, es[..|es| - 1]);
      StepKeepsInv(Exec(Opened(data, ms), id, es[..|es| - 1]), id, es[|es| - 1]);
    }
  }

  /** The log that was opened stays a prefix of the history, and every mutation
      acknowledged since is numbered past it. */
  ghost predicate GrewFrom(w: World, ms: seq<Mutation>) {
    ms <= w.history && forall i :: 0 <= i < |w.acked| ==> SeqOf(w.acked[i]) > |ms|
  }

  lemma StepExtends(w: World, id: string, e: Event, ms: seq<Mutation>)
    requires Inv(w, id) && GrewFrom(w, ms)
    ensures GrewFrom(Step(w, id, e), ms)
  {
    if w.up && e.Return? && w.holder.Some? && w.holder.value.phase.Landed? {
      ReturnExtends(w, id, ms);
    }
  }

  lemma ReturnExtends(w: World, id: string, ms: seq<Mutation>)
    requires Inv(w, id) && GrewFrom(w, ms) && w.up && w.holder.Some? && w.holder.value.phase.Landed?
    ensures GrewFrom(Step(w, id, Return), ms)
  {
    ReplayCounts(INIT, w.history);
  }

  lemma {:induction false} ExecExtends(data: Data, id: string, ms: seq<Mutation>, es: seq<Event>)
    requires Replay(ms).Ok? && OnDisk(data, id, ms)
    ensures GrewFrom(Exec(Opened(data, ms), id, es), ms)
  {
    if es != [] {
      ExecExtends(data, id, ms, es[..|es| - 1]);
      ExecKeepsInv(data, id, ms, es[..|es| - 1]);
      StepExtends(Exec(Opened(data, ms), id, es[..|es| - 1]), id, es[|es| - 1], ms);
    }
  }

  /** The store loads, into the state in memory or that state and the one mutation
      whose put had landed, and the log it loads has every acknowledged mutation at its
      own number. */
  ghost predicate Consistent(w: World, id: string) {
    var landed := NextRecord(w.data, id, |w.history| + 1);
    && Replay(w.history).Ok?
    && (w.up ==> Replay(w.history) == Ok(w.mem))
    && CanLoad(w.data, id)
    && (forall r :: Loads(w.data, id, r) ==> r == ReplayFrom(Replay(w.history).value, landed) && r.Ok?)
    && (forall r, i :: Loads(w.data, id, r) && 0 <= i < |w.acked| ==>
          && 1 <= SeqOf(w.acked[i]) <= |r.value.log|
          && r.value.log[SeqOf(w.acked[i]) - 1] == ItemOf(w.acked[i]))
  }

  /** Crash consistency. On every run over any session whose log replays, with any
      number of callers and crashes, the store loads at every moment, into the state in
      memory or that state and the one mutation whose put had landed. Nothing the
      session held when it was opened and no acknowledged mutation is ever lost or
      renumbered. */
  lemma CrashConsistency(data: Data, id: string, ms: seq<Mutation>, es: seq<Event>)
    requires Replay(ms).Ok? && OnDisk(data, id, ms)
    ensures var w := Exec(Opened(data, ms), id, es);
            Consistent(w, id) && ms <= w.history
  {
    ExecKeepsInv(data, id, ms, es);
    ExecExtends(data, id, ms, es);
    InvConsistent(Exec(Opened(data, ms), id, es), id);
  }

  lemma InvConsistent(w: World, id: string)
    requires Inv(w, id)
    ensures Consistent(w, id)
  {
    var landed := NextRecord(w.data, id, |w.history| + 1);
    AgreeingLoads(w.data, id, w.history);
    ReplayConcat(INIT, w.history, landed);
    AckedInLog(w, landed);
  }

  lemma AckedInLog(w: World, landed: seq<Mutation>)
    requires AckedKept(w) && Replay(w.history + landed).Ok?
    ensures var log := Replay(w.history + landed).value.log;
            forall i :: 0 <= i < |w.acked| ==>
              1 <= SeqOf(w.acked[i]) <= |log| && log[SeqOf(w.acked[i]) - 1] == ItemOf(w.acked[i])
  {
    LogOfReplay(w.history, landed);
  }

  /** The log of a replayed state lists what was replayed. */
  lemma LogOfReplay(history: seq<Mutation>, landed: seq<Mutation>)
    requires Replay(history + landed).Ok?
    ensures var log := Replay(history + landed).value.log;
            |history| <= |log| && forall i :: 0 <= i < |history| ==> log[i] == ItemOf(history[i])
  {
    TrailIndexes.IndexesEqualScan(history + landed);
    assert forall i :: 0 <= i < |history| ==> (history + landed)[i] == history[i];
  }

  /** Acknowledged mutations carry strictly increasing sequence numbers, all past those
      of the log that was opened: no two mutations of a session share one. */
  lemma AckedSeqsAscend(data: Data, id: string, ms: seq<Mutation>, es: seq<Event>)
    requires Replay(ms).Ok? && OnDisk(data, id, ms)
    ensures var acked := Exec(Opened(data, ms), id, es).acked;
            && AckedAscending(acked)
            && (forall i :: 0 <= i < |acked| ==> SeqOf(acked[i]) > |ms|)
  {
    ExecKeepsInv(data, id, ms, es);
    ExecExtends(data, id, ms, es);
  }
}
