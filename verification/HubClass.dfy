/** The hub as an object: registry, idle-stop policy and operations updating their
    fields in place, each proved against its step in `Hub`. What the worker and the
    provisioner answer comes in as a parameter. */
module HubClass {
  import opened Wrappers
  import H = Hub
  import E = HubEffects

  class HubObject {
    var records: map<string, H.HubRecord>
    var stored: map<string, H.HubRecord>
    var states: map<string, H.ThreadState>
    var tailSeqs: map<string, int>
    var timers: set<string>
    var broadcasts: seq<H.ThreadInfo>
    /** The records the hub was built over, and the operations since. */
    ghost const loaded: map<string, H.HubRecord>
    ghost var history: seq<H.Op>

    function View(): H.HubState
      reads this
    {
      H.HubState(records, stored, states, tailSeqs, timers, broadcasts)
    }

    ghost predicate Sound()
      reads this
    {
      H.Inv(View())
    }

    /** The hub is where its history of operations takes it. */
    ghost predicate Valid()
      reads this
    {
      Sound() && View() == H.Run(H.Boot(loaded), history)
    }

    constructor (stored: map<string, H.HubRecord>)
      requires forall id <- stored :: H.RecordOk(stored[id], id)
      ensures Valid() && loaded == stored && history == []
    {
      loaded, history := stored, [];
      records, this.stored := stored, stored;
      states := map id | id in stored :: H.IdleState;
      tailSeqs, timers, broadcasts := map[], {}, [];
    }

    // ------------------------------------------------- what the object keeps

    /** A name that was settled after `n` operations is the thread's name now, unless the
        user renamed or deleted the thread since. */
    lemma NameStays(n: nat, id: string, name: string)
      requires Valid() && n <= |history| && H.Named(H.Run(H.Boot(loaded), history[..n]), id, name)
      requires forall i :: n <= i < |history| ==>
        !(history[i].RenameThread? && history[i].id == id) && history[i] != H.Op.DeleteThread(id)
      ensures id in records && !records[id].autoName && records[id].name == name
    {
      assert history[..n] + history[n..] == history;
      H.RunConcat(H.Boot(loaded), history[..n], history[n..]);
      H.NameSticks(H.Run(H.Boot(loaded), history[..n]), history[n..], id, name);
    }

    /** Over an empty store, every console saw each thread as it is now, up to the tail
        sequence number. */
    lemma ConsolesSee(id: string)
      requires Valid() && loaded == map[] && id in records
      ensures var seen := H.Seen(broadcasts, id);
              seen.Some? && E.Shows(seen.value.(tailSeq := if id in tailSeqs then tailSeqs[id] else 0), View(), id)
    {
      assert H.Boot(loaded) == H.Boot(map[]);
      H.BroadcastsKeepUp(history);
      assert H.UpToDate(View(), id);
    }

    // ---------------------------------------------------------- registry

    method Patch(id: string, next: H.HubRecord)
      modifies this`records, this`stored
      ensures records == old(records)[id := next] && stored == old(stored)[id := next]
    {
      stored := stored[id := next];
      records := records[id := next];
    }

    method EmitThreadChanged(id: string)
      requires id in records
      modifies this`broadcasts
      ensures View() == H.Broadcast(old(View()), id)
    {
      broadcasts := broadcasts + [H.Info(View(), id)];
    }

    method Remove(id: string)
      modifies this`records, this`stored, this`states, this`tailSeqs
      ensures View() == H.Removed(old(View()), id)
    {
      records := records - {id};
      states := states - {id};
      tailSeqs := tailSeqs - {id};
      stored := stored - {id};
    }

    // --------------------------------------------------------- idle stop

    method Arm(id: string)
      modifies this`timers
      ensures View() == H.Arm(old(View()), id)
      ensures id in timers <==>
                id in old(timers) || (H.Suspendable(View(), id) && H.StateOf(View(), id) == H.IdleState)
    {
      if id !in records {
        return;
      }
      if records[id].mode != H.SandboxMode || records[id].env != H.Ready {
        return;
      }
      if H.StateOf(View(), id) != H.IdleState {
        return;
      }
      timers := timers + {id};
    }

    method Disarm(id: string)
      modifies this`timers
      ensures View() == H.Disarm(old(View()), id)
    {
      timers := timers - {id};
    }

    method Fire(id: string)
      requires Valid()
      modifies this
      ensures Valid() && View() == H.Fire(old(View()), id)
      ensures history == old(history) + [H.IdleStopFired(id)]
      ensures E.FireEffect(old(View()), View(), id)
    {
      E.FireKeepsHub(loaded, history, id);
      StopIdle(id);
      history := history + [H.IdleStopFired(id)];
    }

    method StopIdle(id: string)
      modifies this`records, this`stored, this`timers, this`broadcasts
      ensures View() == H.Fire(old(View()), id)
    {
      Disarm(id);
      if id !in records {
        return;
      }
      if H.StateOf(View(), id) != H.IdleState {
        Arm(id);
        return;
      }
      if records[id].mode != H.SandboxMode || records[id].env != H.Ready {
        return;
      }
      Patch(id, records[id].(env := H.Stopped));
      EmitThreadChanged(id);
    }

    // -------------------------------------------------------- operations

    method CreateThread(id: string, name: string, cwd: Option<string>, mode: H.Mode, autoName: bool, now: int,
                        workerCreated: bool) returns (info: Option<H.ThreadInfo>)
      requires Valid() && id !in records
      modifies this
      ensures Valid() && View() == H.Create(old(View()), id, name, cwd, mode, autoName, now, workerCreated)
      ensures history == old(history) + [H.CreateThread(id, name, cwd, mode, autoName, now, workerCreated)]
      ensures E.CreateEffect(old(View()), View(), H.CreateThread(id, name, cwd, mode, autoName, now, workerCreated))
      ensures !workerCreated ==> info == None && id !in records
      ensures workerCreated ==> id in records && info.Some? && E.Shows(info.value, View(), id)
    {
      E.CreateDoes(View(), H.CreateThread(id, name, cwd, mode, autoName, now, workerCreated));
      H.CreateKeepsInv(View(), id, name, cwd, mode, autoName, now, workerCreated);
      H.RunAppend(H.Boot(loaded), history, H.CreateThread(id, name, cwd, mode, autoName, now, workerCreated));
      info := MakeThread(id, name, cwd, mode, autoName, now, workerCreated);
      history := history + [H.CreateThread(id, name, cwd, mode, autoName, now, workerCreated)];
    }

    method MakeThread(id: string, name: string, cwd: Option<string>, mode: H.Mode, autoName: bool, now: int,
                      workerCreated: bool) returns (info: Option<H.ThreadInfo>)
      modifies this`records, this`stored, this`states, this`tailSeqs, this`broadcasts
      ensures View() == H.Create(old(View()), id, name, cwd, mode, autoName, now, workerCreated)
      ensures !workerCreated ==> info == None && id !in records
      ensures workerCreated ==> id in records && info == Some(H.Info(View(), id))
    {
      var sandbox := mode == H.SandboxMode;
      var record := H.HubRecord(id, name, if sandbox then None else cwd, mode, autoName, now, None,
                                if sandbox then H.Stopped else H.Ready, None, None, None);
      Patch(id, record);
      states := states[id := H.IdleState];
      tailSeqs := tailSeqs[id := 0];
      if !workerCreated {
        Remove(id);
        return None;
      }
      EmitThreadChanged(id);
      return Some(H.Info(View(), id));
    }

    method DeleteThread(id: string) returns (info: Option<H.ThreadInfo>)
      requires Valid()
      modifies this
      ensures Valid() && View() == H.Delete(old(View()), id)
      ensures history == old(history) + [H.DeleteThread(id)]
      ensures id !in records && id !in timers
      ensures forall x <- old(records) :: x != id ==> x in records && records[x] == old(records)[x]
      ensures info == if id in old(records) then Some(H.Info(old(View()), id)) else None
      ensures broadcasts == old(broadcasts) + if info.Some? then [info.value] else []
    {
      H.RemoveKeepsInv(View(), id);
      H.RunAppend(H.Boot(loaded), history, H.DeleteThread(id));
      info := DropThread(id);
      history := history + [H.DeleteThread(id)];
    }

    method DropThread(id: string) returns (info: Option<H.ThreadInfo>)
      modifies this`records, this`stored, this`states, this`tailSeqs, this`timers, this`broadcasts
      ensures View() == H.Delete(old(View()), id)
      ensures id !in records && (id in old(records) ==> id !in timers)
      ensures forall x <- old(records) :: x != id ==> x in records && records[x] == old(records)[x]
      ensures info == if id in old(records) then Some(H.Info(old(View()), id)) else None
      ensures broadcasts == old(broadcasts) + if info.Some? then [info.value] else []
    {
      if id !in records {
        return None;
      }
      info := Some(H.Info(View(), id));
      Disarm(id);
      Remove(id);
      broadcasts := broadcasts + [info.value];
    }

    /** Rename to a name already trimmed; an empty one is refused. */
    method RenameThread(id: string, trimmed: string) returns (ok: bool)
      requires Valid()
      modifies this
      ensures Valid() && View() == H.Rename(old(View()), id, trimmed)
      ensures history == old(history) + [H.RenameThread(id, trimmed)]
      ensures ok <==> id in old(records) && trimmed != ""
      ensures ok ==> E.PatchEffect(old(View()), View(), id, old(records)[id].(name := trimmed, autoName := false))
      ensures !ok ==> View() == old(View())
    {
      if id in records && trimmed != "" {
        E.RenameDoes(View(), id, trimmed);
      }
      H.RunAppend(H.Boot(loaded), history, H.RenameThread(id, trimmed));
      H.StepKeepsInv(View(), H.RenameThread(id, trimmed));
      history := history + [H.RenameThread(id, trimmed)];
      if id !in records {
        return false;
      }
      if trimmed == "" {
        return false;
      }
      Patch(id, records[id].(autoName := false, name := trimmed));
      EmitThreadChanged(id);
      return true;
    }

    method SetArchived(id: string, at: Option<int>) returns (ok: bool)
      requires Valid()
      modifies this
      ensures Valid() && View() == H.Archive(old(View()), id, at)
      ensures history == old(history) + [H.ArchiveThread(id, at)]
      ensures ok <==> id in old(records)
      ensures ok ==> E.PatchEffect(old(View()), View(), id, old(records)[id].(archivedAt := at))
      ensures !ok ==> View() == old(View())
    {
      if id in records {
        E.ArchiveDoes(View(), id, at);
      }
      H.RunAppend(H.Boot(loaded), history, H.ArchiveThread(id, at));
      H.StepKeepsInv(View(), H.ArchiveThread(id, at));
      history := history + [H.ArchiveThread(id, at)];
      if id !in records {
        return false;
      }
      Patch(id, records[id].(archivedAt := at));
      EmitThreadChanged(id);
      return true;
    }

    method Record(id: string, report: H.Report)
      modifies this`records, this`stored
      ensures View() == H.Recorded(old(View()), id, report)
    {
      if report.name.Some? && id in records && records[id].autoName {
        Patch(id, records[id].(autoName := false, name := report.name.value));
      }
      if report.sessionId.Some? && id in records {
        Patch(id, records[id].(sessionId := report.sessionId.value));
      }
    }

    method ApplyReport(id: string, report: H.Report)
      requires Valid()
      modifies this
      ensures Valid() && View() == H.ApplyReport(old(View()), id, report)
      ensures history == old(history) + [H.WorkerReport(id, report)]
      ensures E.ReportEffect(old(View()), View(), id, report)
    {
      H.RunAppend(H.Boot(loaded), history, H.WorkerReport(id, report));
      H.ReportKeepsInv(View(), id, report);
      E.ReportDoes(View(), id, report);
      TakeReport(id, report);
      history := history + [H.WorkerReport(id, report)];
    }

    method TakeReport(id: string, report: H.Report)
      modifies this`records, this`stored, this`states, this`tailSeqs, this`timers, this`broadcasts
      ensures View() == H.ApplyReport(old(View()), id, report)
    {
      var before := if id in records then Some(H.Info(View(), id)) else None;
      Record(id, report);
      if report.state.Some? {
        states := states[id := report.state.value];
      }
      if report.tailSeq.Some? {
        tailSeqs := tailSeqs[id := report.tailSeq.value];
      }
      if report.state == Some(H.WorkingState) {
        Disarm(id);
      } else if report.state == Some(H.IdleState) {
        Arm(id);
      }
      if before.Some? && id in records && before.value != H.Info(View(), id) {
        EmitThreadChanged(id);
      }
    }

    method SessionEvent(id: string, tailSeq: int)
      requires Valid()
      modifies this
      ensures Valid() && View() == H.SessionEvent(old(View()), id, tailSeq)
      ensures history == old(history) + [H.WorkerEvent(id, tailSeq)]
      ensures E.EventEffect(old(View()), View(), id, tailSeq)
    {
      E.EventDoes(View(), id, tailSeq);
      H.RunAppend(H.Boot(loaded), history, H.WorkerEvent(id, tailSeq));
      H.StepKeepsInv(View(), H.WorkerEvent(id, tailSeq));
      history := history + [H.WorkerEvent(id, tailSeq)];
      tailSeqs := tailSeqs[id := tailSeq];
      Arm(id);
    }

    method MarkReady(id: string, p: H.Provisioned)
      requires id in records
      modifies this`records, this`stored
      ensures var ready :=
                old(records)[id].(remoteMachineId := p.remoteMachineId, envHandle := p.handle, env := H.Ready);
              records == old(records)[id := ready] && stored == old(stored)[id := ready]
    {
      ghost var r, s := records, stored;
      Patch(id, records[id].(remoteMachineId := p.remoteMachineId));
      Patch(id, records[id].(envHandle := p.handle));
      assert records == r[id := records[id]] && stored == s[id := records[id]];
      Patch(id, records[id].(env := H.Ready));
      assert records == r[id := records[id]] && stored == s[id := records[id]];
    }

    method EnsureEnv(id: string, provisioned: Option<H.Provisioned>) returns (ok: bool)
      requires Sound() && id in records
      modifies this`records, this`stored, this`timers, this`broadcasts
      ensures Sound() && View() == H.EnsureEnv(old(View()), id, provisioned)
      ensures id in records && (ok <==> records[id].env == H.Ready)
      ensures ok <==> old(records)[id].env == H.Ready || provisioned.Some?
      ensures E.GateEffect(old(View()), View(), id, provisioned)
    {
      E.GateDoes(View(), id, provisioned);
      H.EnsureEnvKeepsInv(View(), id, provisioned);
      if records[id].env == H.Ready {
        Arm(id);
        return true;
      }
      Disarm(id);
      if provisioned.None? {
        Patch(id, records[id].(env := H.EnvError));
        EmitThreadChanged(id);
        return false;
      }
      MarkReady(id, provisioned.value);
      EmitThreadChanged(id);
      Arm(id);
      return true;
    }

    method RunSessionCommand(id: string, readOnly: bool, provisioned: Option<H.Provisioned>, answered: Option<int>)
      returns (ok: bool)
      requires Valid()
      modifies this
      ensures Valid() && View() == H.Command(old(View()), id, readOnly, provisioned, answered)
      ensures history == old(history) + [H.RunCommand(id, readOnly, provisioned, answered)]
      ensures E.CommandResult(old(View()), View(), id, readOnly, provisioned, answered)
      ensures ok <==> id in old(records) && answered.Some?
                      && (readOnly || old(records)[id].env == H.Ready || provisioned.Some?)
      ensures ok ==> id in tailSeqs && tailSeqs[id] == answered.value
      ensures ok && !readOnly ==> id in records && records[id].env == H.Ready
    {
      E.CommandKeepsHub(loaded, history, H.RunCommand(id, readOnly, provisioned, answered));
      ok := AskWorker(id, readOnly, provisioned, answered);
      history := history + [H.RunCommand(id, readOnly, provisioned, answered)];
    }

    /** The env gate for a command that writes, then the worker. */
    method AskWorker(id: string, readOnly: bool, provisioned: Option<H.Provisioned>, answered: Option<int>)
      returns (ok: bool)
      requires Sound()
      modifies this`records, this`stored, this`timers, this`broadcasts, this`tailSeqs
      ensures View() == H.Command(old(View()), id, readOnly, provisioned, answered)
      ensures ok <==> id in old(records) && answered.Some?
                      && (readOnly || old(records)[id].env == H.Ready || provisioned.Some?)
      ensures ok ==> id in tailSeqs && tailSeqs[id] == answered.value
      ensures ok && !readOnly ==> id in records && records[id].env == H.Ready
    {
      if id !in records {
        return false;
      }
      if !readOnly {
        var ready := EnsureEnv(id, provisioned);
        if !ready {
          return false;
        }
      }
      if answered.None? {
        return false;
      }
      tailSeqs := tailSeqs[id := answered.value];
      return true;
    }

    method Close()
      requires Valid()
      modifies this`timers, this`history
      ensures Valid() && timers == {} && history == old(history) + [H.Close]
    {
      H.RunAppend(H.Boot(loaded), history, H.Close);
      H.StepKeepsInv(View(), H.Close);
      history := history + [H.Close];
      timers := {};
    }
  }
}
