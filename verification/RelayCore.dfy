/** The relay as an object: its three tables, its buffers and the sockets it listens
    to, updated in place by each socket event and proved against `Relay`. */
module RelayCore {
  import R = Relay
  import I = RelayInvariant
  import RelayRuns
  import RelayTables

  lemma CloseAllTwice(h: R.RelayState, a: set<R.SocketId>, b: set<R.SocketId>)
    ensures R.CloseAll(R.CloseAll(h, a), b).sockets == R.CloseAll(h, a + b).sockets
  {
  }

  /** The sockets of a set are closed from our side, and nothing else differs. */
  ghost predicate ClosedOnly(before: R.Sockets, after: R.Sockets, held: set<R.SocketId>) {
    && after.Keys == before.Keys
    && (forall s <- before :: s in held ==> after[s] == before[s].(closing := true))
    && (forall s <- before :: s !in held ==> after[s] == before[s])
  }

  class HubRelayCore {
    var envs: map<R.EnvId, R.SocketId>
    var waiting: map<R.EnvId, seq<R.SocketId>>
    var workers: map<R.EnvId, R.SocketId>
    var buffers: map<R.SocketId, seq<string>>
    var closed: bool
    var sockets: map<R.SocketId, R.Socket>
    /** The socket events handled so far. */
    ghost var events: seq<R.Event>

    function View(): R.RelayState
      reads this
    {
      R.RelayState(envs, waiting, workers, buffers, closed, sockets)
    }

    /** The relay is where its history of events takes it. */
    ghost predicate Valid()
      reads this
    {
      View() == R.Run(R.START, events)
    }

    constructor ()
      ensures Valid() && events == []
    {
      envs, waiting, workers, buffers, closed, sockets := map[], map[], map[], map[], false, map[];
      events := [];
    }

    // ------------------------------------------------- what the object keeps

    /** The envs registered: those whose last accepted hello came from a socket that has
        not closed since, and that no shutdown has ended. */
    method Registered() returns (ids: set<R.EnvId>)
      requires Valid()
      ensures forall e :: e in ids <==> RelayTables.LastHello(events, e).Some?
    {
      ids := envs.Keys;
      forall e ensures e in ids <==> RelayTables.LastHello(events, e).Some? {
        RelayTables.RegisteredExactly(events, e);
      }
    }

    /** While a worker is connected, an open daemon it is piped to was sent exactly what
        the worker said, and a worker piped to nobody has it all in its buffer. */
    lemma Delivers(w: R.SocketId)
      requires Valid() && R.PastOf(events, w).role.Worker? && !R.PastOf(events, w).gone
      ensures forall d :: I.Linked(View(), w, d) && !R.Down(View(), d) ==>
                d in sockets && I.From(sockets[d].sent, w) == R.PastOf(events, w).said
      ensures (forall d :: !I.Linked(View(), w, d)) ==> w in buffers && buffers[w] == R.PastOf(events, w).said
    {
      RelayRuns.RelayDelivers(events, w);
    }

    /** An open worker was sent, from any daemon, what that daemon said while piped. */
    lemma Answers(d: R.SocketId, w: R.SocketId)
      requires Valid() && R.PastOf(events, w).role.Worker? && !R.Down(View(), w)
      ensures w in sockets && I.From(sockets[w].sent, d) == RelayRuns.SaidWhilePiped(events, d, w)
    {
      RelayRuns.RelayAnswers(events, d, w);
    }

    /** A piped worker and its daemon pipe to each other, and while they are open they
        are the ones the tables name. */
    lemma Pairs(w: R.SocketId, d: R.SocketId)
      requires Valid() && R.PastOf(events, w).role.Worker? && I.Linked(View(), w, d)
      ensures var e := R.PastOf(events, w).role.env;
              && I.Linked(View(), d, w) && R.PastOf(events, d).role == R.Daemon(e)
              && (!R.Down(View(), w) ==> e in workers && workers[e] == w)
              && (!R.Down(View(), d) ==> e in envs && envs[e] == d)
    {
      RelayRuns.PipesAreMutual(events, w, d);
      RelayRuns.OnePairPerEnv(events, R.PastOf(events, w).role.env, w, d);
    }

    lemma Handled(before: R.RelayState, past: seq<R.Event>, event: R.Event)
      requires before == R.Run(R.START, past) && View() == R.Step(before, event) && events == past + [event]
      ensures Valid()
    {
      assert events[..|events| - 1] == past;
    }

    // ------------------------------------------------------------- sockets

    method Send(s: R.SocketId, d: R.Delivery)
      modifies this`sockets
      ensures View() == R.Send(old(View()), s, d)
    {
      if s in sockets && !sockets[s].closing && !sockets[s].gone {
        sockets := sockets[s := sockets[s].(sent := sockets[s].sent + [d])];
      }
    }

    method CloseSocket(s: R.SocketId)
      modifies this`sockets
      ensures View() == R.CloseSocket(old(View()), s)
    {
      if s in sockets {
        sockets := sockets[s := sockets[s].(closing := true)];
      }
    }

    method FailSocket(s: R.SocketId)
      modifies this`sockets
      ensures View() == R.Fail(old(View()), s)
    {
      Send(s, R.Failure);
      CloseSocket(s);
    }

    method On(s: R.SocketId, listener: R.Listener)
      modifies this`sockets
      ensures View() == R.On(old(View()), s, listener)
    {
      if s in sockets {
        sockets := sockets[s := sockets[s].(onMessage := sockets[s].onMessage + [listener])];
      }
    }

    method OnceClosed(s: R.SocketId, listener: R.CloseListener)
      modifies this`sockets
      ensures View() == R.OnceClosed(old(View()), s, listener)
    {
      if s in sockets {
        sockets := sockets[s := sockets[s].(onClose := sockets[s].onClose + [listener])];
      }
    }

    method Off(s: R.SocketId, listener: R.Listener)
      modifies this`sockets
      ensures View() == R.Off(old(View()), s, listener)
    {
      if s in sockets {
        sockets := sockets[s := sockets[s].(onMessage := R.Without(sockets[s].onMessage, listener))];
      }
    }

    // -------------------------------------------------------------- pairing

    method Unregister(e: R.EnvId, s: R.SocketId)
      modifies this`envs
      ensures envs == R.Forgotten(old(envs), e, s)
    {
      if e in envs && envs[e] == s {
        envs := envs - {e};
      }
    }

    method DetachFromWorker(e: R.EnvId, s: R.SocketId)
      modifies this`waiting
      ensures waiting == R.Detached(old(waiting), e, s)
    {
      if e in waiting && s in waiting[e] {
        waiting := waiting[e := R.Without(waiting[e], s)];
      }
    }

    /** Send the daemon what was held for the worker. */
    method Flush(worker: R.SocketId, daemon: R.SocketId)
      modifies this`buffers, this`sockets
      ensures View() == R.Flushed(old(View()), worker, daemon)
    {
      if worker in buffers {
        var buffered := buffers[worker];
        buffers := buffers - {worker};
        for i := 0 to |buffered|
          invariant R.FlushedTo(sockets, worker, daemon, buffered[i..])
                 == R.FlushedTo(old(sockets), worker, daemon, buffered)
          invariant buffers == old(buffers) - {worker}
        {
          assert buffered[i..][1..] == buffered[i + 1..];
          Send(daemon, R.Piped(worker, buffered[i]));
        }
      }
    }

    /** Close a stale worker of this env, and note the new one. */
    method Assign(e: R.EnvId, worker: R.SocketId)
      modifies this`workers, this`sockets
      ensures View() == R.Assigned(old(View()), e, worker)
    {
      if e in workers && workers[e] != worker {
        CloseSocket(workers[e]);
      }
      workers := workers[e := worker];
    }

    method PipeBoth(e: R.EnvId, worker: R.SocketId, daemon: R.SocketId)
      modifies this`buffers, this`sockets, this`workers
      ensures View() == R.PipeBoth(old(View()), e, worker, daemon)
    {
      Flush(worker, daemon);
      Assign(e, worker);
      On(worker, R.OnForward(daemon));
      OnceClosed(worker, R.WorkerClosed(e, daemon));
      On(daemon, R.OnForward(worker));
      OnceClosed(daemon, R.DaemonClosed(e, worker));
    }

    method Attach(e: R.EnvId, s: R.SocketId)
      modifies this
      ensures events == old(events)
      ensures View() == R.AttachWorker(old(View()), e, s)
    {
      if e !in envs {
        buffers := buffers[s := []];
        On(s, R.OnBuffer);
        var pending := if e in waiting then waiting[e] else [];
        waiting := waiting[e := if s in pending then pending else pending + [s]];
        OnceClosed(s, R.WaiterClosed);
        return;
      }
      PipeBoth(e, s, envs[e]);
    }

    /** Pair the first worker waiting for this env, refuse the rest. */
    method PairWaiting(e: R.EnvId, s: R.SocketId)
      requires e in waiting
      modifies this
      ensures events == old(events)
      ensures View() == R.PairWaiting(old(View()), e, s)
    {
      var pending := waiting[e];
      var paired := false;
      ghost var start := View();
      ghost var first := if pending == [] then start else R.PipeBoth(start, e, pending[0], s);
      for i := 0 to |pending|
        invariant events == old(events)
        invariant paired <==> i > 0
        invariant !paired ==> View() == start
        invariant paired ==> R.Refuse(View(), pending[i..]) == R.Refuse(first, pending[1..])
      {
        assert pending[i..][1..] == pending[i + 1..];
        if !paired {
          PipeBoth(e, pending[i], s);
          paired := true;
        } else {
          FailSocket(pending[i]);
        }
      }
      waiting := waiting[e := []];
    }

    method Register(e: R.EnvId, s: R.SocketId)
      modifies this
      ensures events == old(events)
      ensures View() == R.Register(old(View()), e, s)
    {
      if e in envs && envs[e] != s {
        CloseSocket(envs[e]);
      }
      envs := envs[e := s];
      if e in waiting {
        PairWaiting(e, s);
      }
    }

    // --------------------------------------------------------------- events

    method HandleConnection(s: R.SocketId)
      requires Valid()
      modifies this
      ensures Valid() && events == old(events) + [R.Connected(s)]
    {
      if s !in sockets {
        sockets := sockets[s := R.Socket([R.OnFirst], [], false, false, [])];
      }
      events := events + [R.Connected(s)];
      Handled(old(View()), old(events), R.Connected(s));
    }

    method HandleFirst(s: R.SocketId, reading: R.Reading)
      modifies this
      ensures events == old(events)
      ensures View() == R.First(old(View()), s, reading)
    {
      match reading {
        case NotRelay =>
        case Undecodable =>
          FailSocket(s);
        case Refused =>
          Off(s, R.OnFirst);
          FailSocket(s);
        case Hello(e) =>
          Off(s, R.OnFirst);
          Register(e, s);
          OnceClosed(s, R.EnvClosed(e));
        case Attach(e) =>
          Off(s, R.OnFirst);
          Attach(e, s);
      }
    }

    method Deliver(s: R.SocketId, text: string, reading: R.Reading, listener: R.Listener)
      modifies this
      ensures events == old(events)
      ensures View() == R.Deliver(old(View()), s, text, reading, listener)
    {
      match listener {
        case OnFirst => HandleFirst(s, reading);
        case OnBuffer =>
          if s in buffers {
            buffers := buffers[s := buffers[s] + [text]];
          }
        case OnForward(to) => Send(to, R.Piped(s, text));
      }
    }

    method OnMessage(s: R.SocketId, message: R.Message)
      requires Valid()
      modifies this
      ensures Valid() && events == old(events) + [R.Received(s, message)]
    {
      if s in sockets && !sockets[s].gone && message.Text? {
        var listeners := sockets[s].onMessage;
        ghost var start := View();
        for i := 0 to |listeners|
          invariant events == old(events)
          invariant R.Dispatch(View(), s, message.text, message.reading, listeners[i..])
                 == R.Dispatch(start, s, message.text, message.reading, listeners)
        {
          assert listeners[i..][1..] == listeners[i + 1..];
          Deliver(s, message.text, message.reading, listeners[i]);
        }
      }
      events := events + [R.Received(s, message)];
      Handled(old(View()), old(events), R.Received(s, message));
    }

    method HandleClose(s: R.SocketId, listener: R.CloseListener)
      modifies this
      ensures events == old(events)
      ensures View() == R.HandleClose(old(View()), s, listener)
    {
      match listener {
        case WaiterClosed =>
          buffers := buffers - {s};
          Off(s, R.OnBuffer);
        case WorkerClosed(e, daemon) =>
          CloseSocket(daemon);
          DetachFromWorker(e, s);
          if e in workers && workers[e] == s {
            workers := workers - {e};
          }
        case DaemonClosed(e, worker) =>
          CloseSocket(worker);
          Unregister(e, s);
        case EnvClosed(e) => Unregister(e, s);
      }
    }

    method OnClose(s: R.SocketId)
      requires Valid()
      modifies this
      ensures Valid() && events == old(events) + [R.Closed(s)]
    {
      if s in sockets && !sockets[s].gone {
        var listeners := sockets[s].onClose;
        sockets := sockets[s := sockets[s].(gone := true, onClose := [])];
        ghost var start := View();
        for i := 0 to |listeners|
          invariant events == old(events)
          invariant R.DispatchClose(View(), s, listeners[i..]) == R.DispatchClose(start, s, listeners)
        {
          assert listeners[i..][1..] == listeners[i + 1..];
          HandleClose(s, listeners[i]);
        }
      }
      events := events + [R.Closed(s)];
      Handled(old(View()), old(events), R.Closed(s));
    }

    /** The sockets registered for an env, waiting for one or piped for one. */
    ghost function HeldSockets(): set<R.SocketId>
      reads this
    {
      set s | s in sockets
              && (|| (exists e :: e in envs && envs[e] == s)
                  || (exists e :: e in waiting && s in waiting[e])
                  || (exists e :: e in workers && workers[e] == s))
    }

    lemma ShutdownCloses()
      ensures var next := R.Step(View(), R.Shutdown);
              !closed ==> next.buffers == buffers && ClosedOnly(sockets, next.sockets, HeldSockets())
    {
      forall s | s in sockets ensures s in R.Held(View()) <==> s in HeldSockets() {
      }
    }

    method CloseAll(all: set<R.SocketId>)
      modifies this`sockets
      ensures View() == R.CloseAll(old(View()), all)
    {
      var rest := all;
      assert sockets == R.CloseAll(View(), {}).sockets;
      while rest != {}
        invariant rest <= all
        invariant View() == R.CloseAll(old(View()), all - rest)
      {
        var s :| s in rest;
        assert all - (rest - {s}) == all - rest + {s};
        CloseSocket(s);
        rest := rest - {s};
      }
      assert all - rest == all;
    }

    /** Drop every socket registered, waiting or piped. */
    method Close()
      requires Valid()
      modifies this
      ensures Valid() && events == old(events) + [R.Shutdown]
      ensures closed && (!old(closed) ==> envs == map[] && waiting == map[] && workers == map[])
      ensures old(closed) ==> View() == old(View())
      ensures !old(closed) ==> buffers == old(buffers) && ClosedOnly(old(sockets), sockets, old(HeldSockets()))
    {
      ShutdownCloses();
      if !closed {
        CloseHeld();
      }
      events := events + [R.Shutdown];
      Handled(old(View()), old(events), R.Shutdown);
    }

    method CloseHeld()
      requires !closed
      modifies this`closed, this`envs, this`waiting, this`workers, this`sockets
      ensures View() == R.Step(old(View()), R.Shutdown)
    {
      closed := true;
      ghost var start := View();
      var registered := envs.Values;
      CloseAll(registered);
      envs := map[];
      var held := set e, s | e in waiting && s in waiting[e] :: s;
      CloseAll(held);
      CloseAllTwice(start, registered, held);
      waiting := map[];
      var active := workers.Values;
      CloseAllTwice(start, registered + held, active);
      CloseAll(active);
      workers := map[];
    }
  }
}
