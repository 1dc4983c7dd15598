/** Whom the relay refuses: sockets whose first relay frame it does not accept, and
    workers that waited for a daemon another one gets. Each is told and closed. */
module RelayRefusals {
  import opened Relay
  import opened RelayInvariant
  import opened RelayLater
  import opened RelayTables
  import opened RelayPairs

  /** The socket was sent one failure if it was open, is closed from our side, and nothing
      about any other socket or table changed. */
  ghost predicate Failed(h: RelayState, g: RelayState, s: SocketId)
    requires s in h.sockets
  {
    && s in g.sockets && g.sockets[s].closing
    && g.sockets[s].sent == (if Down(h, s) then h.sockets[s].sent else h.sockets[s].sent + [Failure])
    && g.sockets[s].gone == h.sockets[s].gone && g.sockets[s].onClose == h.sockets[s].onClose
    && g.sockets.Keys == h.sockets.Keys
    && (forall x <- h.sockets :: x != s ==> g.sockets[x] == h.sockets[x])
    && g == h.(sockets := g.sockets)
  }

  /** A relay frame that does not decode, or one of the wrong version or token, fails the
      socket that sent it first. A refused socket is not listened to again; an undecodable
      frame decides nothing. */
  lemma FirstFrameFails(past: seq<Event>, s: SocketId, text: string, reading: Reading)
    requires reading.Undecodable? || reading.Refused?
    requires PastOf(past, s).role.Undecided? && !PastOf(past, s).gone
    ensures var h, g := Run(START, past), Run(START, past + [Received(s, Text(text, reading))]);
            && s in h.sockets && Failed(h, g, s)
            && g.sockets[s].onMessage == (if reading.Refused? then [] else h.sockets[s].onMessage)
            && PastOf(past + [Received(s, Text(text, reading))], s).role
               == (if reading.Refused? then Rejected else Undecided)
  {
    var h := Run(START, past);
    RunKeepsInv(past);
    assert SocketOk(h, past, s);
    RunAppend(past, Received(s, Text(text, reading)));
    PastAppend(past, Received(s, Text(text, reading)), s);
    StepIsFirst(h, past, s, text, reading);
    if reading.Refused? {
      OffFirst(h, s);
      FailEffect(Off(h, s, OnFirst), s);
    } else {
      FailEffect(h, s);
    }
  }

  // ------------------------------------------------------ workers not chosen

  ghost predicate WorkerLinked(h: RelayState, e: EnvId) {
    e in h.workers ==> exists d :: Linked(h, h.workers[e], d)
  }

  ghost predicate KeptWorker(h: RelayState, g: RelayState, e: EnvId) {
    e in g.workers && e in h.workers && g.workers[e] == h.workers[e]
  }

  lemma {:induction false} DispatchCloseWorkers(h: RelayState, s: SocketId, cs: seq<CloseListener>, e: EnvId)
    ensures var g := DispatchClose(h, s, cs); e in g.workers ==> KeptWorker(h, g, e)
    decreases |cs|
  {
    if cs != [] {
      DispatchCloseWorkers(HandleClose(h, s, cs[0]), s, cs[1..], e);
    }
  }

  lemma HelloWorkers(h: RelayState, past: seq<Event>, s: SocketId, f: EnvId, e: EnvId)
    requires Inv(h, past) && s in h.sockets && !h.sockets[s].gone && PastOf(past, s).role.Undecided?
    ensures var g := First(h, s, Hello(f));
            e in g.workers ==> KeptWorker(h, g, e) || Linked(g, g.workers[e], s)
  {
    var g := First(h, s, Hello(f));
    var pending := Waiters(h, f);
    if pending != [] {
      HelloPairs(h, past, s, f, pending[0], s);
    }
  }

  lemma AttachWorkers(h: RelayState, past: seq<Event>, s: SocketId, f: EnvId, e: EnvId)
    requires Inv(h, past) && s in h.sockets && !h.sockets[s].gone && PastOf(past, s).role.Undecided?
    ensures var g := First(h, s, Attach(f));
            e in g.workers ==> KeptWorker(h, g, e) || (f in h.envs && Linked(g, g.workers[e], h.envs[f]))
  {
    AttachTables(h, past, s, f);
  }

  lemma StepKeepsWorkers(h: RelayState, past: seq<Event>, event: Event, e: EnvId)
    requires Inv(h, past) && WorkerLinked(h, e)
    ensures WorkerLinked(Step(h, event), e)
  {
    var g := Step(h, event);
    StepLater(h, event);
    if e in g.workers && KeptWorker(h, g, e) {
      var d :| Linked(h, h.workers[e], d);
      LaterLinks(h, g, h.workers[e], d);
    } else if event.Closed? {
      var s := event.socket;
      if s in h.sockets && !h.sockets[s].gone {
        DispatchCloseWorkers(MarkGone(h, s), s, h.sockets[s].onClose, e);
      }
    } else if event.Received? && e in g.workers {
      ReceivedKeepsWorkers(h, past, event.socket, event.message, e);
    }
  }

  lemma ReceivedKeepsWorkers(h: RelayState, past: seq<Event>, s: SocketId, message: Message, e: EnvId)
    requires Inv(h, past)
    ensures var g := Step(h, Received(s, message)); e in g.workers && !KeptWorker(h, g, e) ==> WorkerLinked(g, e)
  {
    assert SocketOk(h, past, s);
    if s in h.sockets && !h.sockets[s].gone && message.Text? {
      var reading := message.reading;
      if PastOf(past, s).role.Undecided? {
        StepIsFirst(h, past, s, message.text, reading);
        if reading.Hello? {
          HelloWorkers(h, past, s, reading.env, e);
        } else if reading.Attach? {
          AttachWorkers(h, past, s, reading.env, e);
        }
      } else {
        DispatchForwards(h, s, message.text, message.reading, h.sockets[s].onMessage);
      }
    }
  }

  /** The worker a table names for an env was piped. */
  lemma {:induction false} WorkersAreLinked(past: seq<Event>, e: EnvId)
    ensures WorkerLinked(Run(START, past), e)
  {
    if past != [] {
      var front := past[..|past| - 1];
      WorkersAreLinked(front, e);
      RunKeepsInv(front);
      StepKeepsWorkers(Run(START, front), front, past[|past| - 1], e);
    }
  }

  /** Told once if it was open, and closed. */
  ghost predicate ToldOff(h: RelayState, g: RelayState, x: SocketId) {
    && x in h.sockets && x in g.sockets && g.sockets[x].closing
    && g.sockets[x].sent == if Down(h, x) then h.sockets[x].sent else h.sockets[x].sent + [Failure]
  }

  /** A socket already closed from our side is sent nothing more. */
  lemma {:induction false} RefuseClosed(h: RelayState, pending: seq<SocketId>, x: SocketId)
    requires x in h.sockets && h.sockets[x].closing
    ensures x in Refuse(h, pending).sockets && Refuse(h, pending).sockets[x].closing
    ensures Refuse(h, pending).sockets[x].sent == h.sockets[x].sent
    decreases |pending|
  {
    if pending != [] {
      FailOther(h, pending[0], x);
      RefuseClosed(Fail(h, pending[0]), pending[1..], x);
    }
  }

  lemma FailOther(h: RelayState, s: SocketId, x: SocketId)
    requires x in h.sockets && (x != s || h.sockets[x].closing)
    ensures x in Fail(h, s).sockets && Fail(h, s).sockets[x] == h.sockets[x]
  {
  }

  lemma {:induction false} RefuseTells(h: RelayState, pending: seq<SocketId>, x: SocketId)
    requires x in h.sockets && x in pending
    ensures ToldOff(h, Refuse(h, pending), x)
    decreases |pending|
  {
    var k := Fail(h, pending[0]);
    if pending[0] == x {
      FailEffect(h, x);
      RefuseClosed(k, pending[1..], x);
    } else {
      FailOther(h, pending[0], x);
      assert pending == [pending[0]] + pending[1..];
      RefuseTells(k, pending[1..], x);
    }
  }

  lemma PairWaitingTells(h: RelayState, e: EnvId, s: SocketId, x: SocketId)
    requires s in h.sockets && (e in h.workers ==> h.workers[e] != s && h.workers[e] != x)
    requires forall w <- Waiters(h, e) :: w in h.sockets && w != s
    requires x in Waiters(h, e) && x != Waiters(h, e)[0]
    ensures ToldOff(h, PairWaiting(h, e, s), x)
  {
    var pending := Waiters(h, e);
    assert pending[0] in Waiters(h, e);
    PipeBothOthers(h, e, pending[0], s, x);
    assert pending == [pending[0]] + pending[1..];
    RefuseTells(PipeBoth(h, e, pending[0], s), pending[1..], x);
  }

  /** Pairing does not touch a socket that is neither end nor the worker piped before. */
  lemma PipeBothOthers(h: RelayState, e: EnvId, w: SocketId, d: SocketId, x: SocketId)
    requires d in h.sockets && x in h.sockets && x != w && x != d && (e in h.workers ==> h.workers[e] != x)
    ensures x in PipeBoth(h, e, w, d).sockets && PipeBoth(h, e, w, d).sockets[x] == h.sockets[x]
  {
    PipeBothFields(h, e, w, d);
    FlushedFrom(h.sockets, w, d, HeldFor(h, w));
  }

  /** One daemon serves one worker: when its hello is accepted, every worker that waits
      for the env but the first is told so and closed. */
  lemma OthersAreRefused(past: seq<Event>, event: Event, e: EnvId, x: SocketId)
    requires Hails(past, event, e)
    requires var waiting := Waiters(Run(START, past), e); x in waiting && x != waiting[0]
    ensures ToldOff(Run(START, past), Run(START, past + [event]), x)
  {
    var h, s := Run(START, past), event.socket;
    RunKeepsInv(past);
    RunAppend(past, event);
    assert SocketOk(h, past, s) && SocketOk(h, past, x);
    StepIsFirst(h, past, s, event.message.text, event.message.reading);
    WorkersAreLinked(past, e);
    HelloTells(h, past, s, e, x);
  }

  lemma HelloTells(h: RelayState, past: seq<Event>, s: SocketId, e: EnvId, x: SocketId)
    requires Inv(h, past) && s in h.sockets && PastOf(past, s).role.Undecided? && WorkerLinked(h, e)
    requires x in Waiters(h, e) && x != Waiters(h, e)[0]
    ensures ToldOff(h, First(h, s, Hello(e)), x)
  {
    assert SocketOk(h, past, s) && SocketOk(h, past, x);
    TakeOverTables(h, past, s, e);
    TakeOverKeeps(h, past, s, e, x);
    var t := TakeOver(Off(h, s, OnFirst), e, s);
    assert Waiters(t, e) == Waiters(h, e);
    PairWaitingTells(t, e, s, x);
    OnceClosedKeeps(h, PairWaiting(t, e, s), s, e, x);
  }

  lemma OnceClosedKeeps(h: RelayState, p: RelayState, s: SocketId, e: EnvId, x: SocketId)
    requires ToldOff(h, p, x)
    ensures ToldOff(h, OnceClosed(p, s, EnvClosed(e)), x)
  {
  }

  lemma TakeOverKeeps(h: RelayState, past: seq<Event>, s: SocketId, e: EnvId, x: SocketId)
    requires Inv(h, past) && s in h.sockets && PastOf(past, s).role.Undecided?
    requires x in h.sockets && PastOf(past, x).role.Worker?
    ensures var t := TakeOver(Off(h, s, OnFirst), e, s); x in t.sockets && t.sockets[x] == h.sockets[x]
  {
  }

  // ------------------------------------------------- frames held for the gone

  /** Frames are held only for a connected socket whose close will drop them. */
  ghost predicate HeldOk(h: RelayState, w: SocketId) {
    w in h.buffers ==> w in h.sockets && !h.sockets[w].gone && WaiterClosed in h.sockets[w].onClose
  }

  lemma {:induction false} CloseDropsFrames(h: RelayState, s: SocketId, cs: seq<CloseListener>)
    ensures var g := DispatchClose(h, s, cs);
            g.buffers.Keys <= h.buffers.Keys && (WaiterClosed in cs ==> s !in g.buffers)
    decreases |cs|
  {
    if cs != [] {
      CloseDropsFrames(HandleClose(h, s, cs[0]), s, cs[1..]);
      assert cs == [cs[0]] + cs[1..];
    }
  }

  lemma FirstBuffers(h: RelayState, past: seq<Event>, s: SocketId, reading: Reading)
    requires Inv(h, past) && s in h.sockets && !h.sockets[s].gone && PastOf(past, s).role.Undecided?
    ensures var g := First(h, s, reading);
            && g.buffers.Keys <= h.buffers.Keys + {s}
            && (s in g.buffers ==> s in g.sockets && WaiterClosed in g.sockets[s].onClose)
  {
    assert SocketOk(h, past, s);
    if reading.Hello? {
      HelloBuffers(h, s, reading.env);
    }
  }

  lemma HelloBuffers(h: RelayState, s: SocketId, e: EnvId)
    ensures First(h, s, Hello(e)).buffers.Keys <= h.buffers.Keys
  {
    var pending := Waiters(h, e);
    if pending != [] {
      PipeBothFields(TakeOver(Off(h, s, OnFirst), e, s), e, pending[0], s);
    }
  }

  lemma ReceivedBuffers(h: RelayState, past: seq<Event>, s: SocketId, message: Message)
    requires Inv(h, past)
    ensures var g := Step(h, Received(s, message));
            && g.buffers.Keys <= h.buffers.Keys + {s}
            && (s in g.buffers && s !in h.buffers ==> s in g.sockets && WaiterClosed in g.sockets[s].onClose)
  {
    assert SocketOk(h, past, s);
    if s in h.sockets && !h.sockets[s].gone && message.Text? {
      if PastOf(past, s).role.Undecided? {
        StepIsFirst(h, past, s, message.text, message.reading);
        FirstBuffers(h, past, s, message.reading);
      } else {
        DispatchForwards(h, s, message.text, message.reading, h.sockets[s].onMessage);
      }
    }
  }

  lemma StepKeepsHeld(h: RelayState, past: seq<Event>, event: Event, w: SocketId)
    requires Inv(h, past) && HeldOk(h, w)
    ensures HeldOk(Step(h, event), w)
  {
    StepLater(h, event);
    assert w in h.sockets ==> LaterAt(h, Step(h, event), w);
    if w in h.sockets && !h.sockets[w].gone && event != Closed(w) {
      StillConnected(h, past, event, w);
    }
    match event
    case Received(s, message) => ReceivedBuffers(h, past, s, message);
    case Closed(s) =>
      if s in h.sockets && !h.sockets[s].gone {
        CloseDropsFrames(MarkGone(h, s), s, h.sockets[s].onClose);
      }
    case _ =>
  }

  /** On every run, nothing is held for a worker that has gone: its frames are dropped
      with it. */
  lemma {:induction false} GoneHoldsNothing(past: seq<Event>, w: SocketId)
    ensures HeldOk(Run(START, past), w)
    ensures PastOf(past, w).gone ==> w !in Run(START, past).buffers
  {
    RunKeepsInv(past);
    if past != [] {
      var front := past[..|past| - 1];
      GoneHoldsNothing(front, w);
      RunKeepsInv(front);
      StepKeepsHeld(Run(START, front), front, past[|past| - 1], w);
    }
    assert SocketOk(Run(START, past), past, w);
  }
}
