/** What only grows while the relay runs: sockets are never forgotten, never come back
    up, stay linked, and keep their close listeners while they are connected. Each lemma
    follows one function of the relay; `StepLater` puts them together for one event, so
    that what holds of a pair at one moment can be carried to any later one, whatever
    happens in between. */
module RelayLater {
  import opened Relay
  import opened RelayInvariant

  ghost predicate LaterAt(h: RelayState, g: RelayState, x: SocketId)
    requires x in h.sockets
  {
    && x in g.sockets
    && (h.sockets[x].closing ==> g.sockets[x].closing) && (h.sockets[x].gone ==> g.sockets[x].gone)
    && (g.sockets[x].gone || h.sockets[x].onClose <= g.sockets[x].onClose)
    && (forall y {:trigger OnForward(y)} ::
          OnForward(y) in h.sockets[x].onMessage ==> OnForward(y) in g.sockets[x].onMessage)
  }

  /** Sockets are never forgotten, never come back up, stay linked, and keep their close
      listeners while they are connected. */
  ghost predicate Later(h: RelayState, g: RelayState) {
    forall x {:trigger x in h.sockets} {:trigger x in g.sockets} :: x in h.sockets ==> LaterAt(h, g, x)
  }

  lemma LaterLinks(h: RelayState, g: RelayState, x: SocketId, y: SocketId)
    requires Later(h, g)
    ensures Linked(h, x, y) ==> Linked(g, x, y)
    ensures x in h.sockets && Down(h, x) ==> Down(g, x)
    ensures Gone(h, x) ==> Gone(g, x)
  {
    if x in h.sockets {
      assert LaterAt(h, g, x);
    }
  }

  lemma LaterTransitive(h: RelayState, g: RelayState, k: RelayState)
    requires Later(h, g) && Later(g, k)
    ensures Later(h, k)
  {
    forall x | x in h.sockets ensures LaterAt(h, k, x) {
      assert LaterAt(h, g, x);
      assert LaterAt(g, k, x);
    }
  }

  lemma OneLater(h: RelayState, g: RelayState, s: SocketId)
    requires s in h.sockets ==> s in g.sockets && g.sockets == h.sockets[s := g.sockets[s]] && LaterAt(h, g, s)
    requires s !in h.sockets ==> g.sockets == h.sockets
    ensures Later(h, g)
  {
  }

  lemma OffLater(h: RelayState, s: SocketId, l: Listener)
    requires !l.OnForward?
    ensures Later(h, Off(h, s, l))
  {
    if s in h.sockets {
      forall y | OnForward(y) in h.sockets[s].onMessage
        ensures OnForward(y) in Without(h.sockets[s].onMessage, l)
      {
        WithoutMembers(h.sockets[s].onMessage, l, OnForward(y));
      }
    }
    OneLater(h, Off(h, s, l), s);
  }

  lemma {:induction false} FlushLater(h: RelayState, w: SocketId, d: SocketId, frames: seq<string>)
    ensures Later(h, h.(sockets := FlushedTo(h.sockets, w, d, frames)))
    decreases |frames|
  {
    if frames != [] {
      var k := Send(h, d, Piped(w, frames[0]));
      OneLater(h, k, d);
      FlushLater(k, w, d, frames[1..]);
      LaterTransitive(h, k, h.(sockets := FlushedTo(h.sockets, w, d, frames)));
    }
  }

  lemma ListenLater(h: RelayState, s: SocketId, l: Listener, c: CloseListener)
    ensures Later(h, OnceClosed(On(h, s, l), s, c))
  {
    OneLater(h, On(h, s, l), s);
    OneLater(On(h, s, l), OnceClosed(On(h, s, l), s, c), s);
    LaterTransitive(h, On(h, s, l), OnceClosed(On(h, s, l), s, c));
  }

  lemma FlushedLater(h: RelayState, w: SocketId, d: SocketId)
    ensures Later(h, Flushed(h, w, d))
  {
    if w in h.buffers {
      FlushLater(h, w, d, h.buffers[w]);
    }
  }

  lemma PipeBothLater(h: RelayState, e: EnvId, w: SocketId, d: SocketId)
    ensures Later(h, PipeBoth(h, e, w, d))
  {
    var f := Flushed(h, w, d);
    FlushedLater(h, w, d);
    var a := Assigned(f, e, w);
    LaterTransitive(h, f, a);
    var c := OnceClosed(On(a, w, OnForward(d)), w, WorkerClosed(e, d));
    ListenLater(a, w, OnForward(d), WorkerClosed(e, d));
    LaterTransitive(h, a, c);
    ListenLater(c, d, OnForward(w), DaemonClosed(e, w));
    LaterTransitive(h, c, PipeBoth(h, e, w, d));
  }

  lemma FailLater(h: RelayState, s: SocketId)
    ensures Later(h, Fail(h, s)) && Down(Fail(h, s), s)
  {
    if s in h.sockets {
      FailEffect(h, s);
    }
    OneLater(h, Fail(h, s), s);
  }

  lemma {:induction false} RefuseLater(h: RelayState, pending: seq<SocketId>)
    ensures Later(h, Refuse(h, pending))
    ensures forall x <- pending :: x in h.sockets ==> Down(Refuse(h, pending), x)
    decreases |pending|
  {
    if pending != [] {
      var k := Fail(h, pending[0]);
      FailLater(h, pending[0]);
      RefuseLater(k, pending[1..]);
      LaterTransitive(h, k, Refuse(h, pending));
      forall x | x in pending && x in h.sockets ensures Down(Refuse(h, pending), x) {
        assert LaterAt(h, k, x);
        LaterLinks(k, Refuse(h, pending), x, 0);
        assert x == pending[0] || x in pending[1..];
      }
    }
  }

  lemma AttachLater(h: RelayState, e: EnvId, s: SocketId)
    ensures Later(h, AttachWorker(h, e, s))
  {
    if e in h.envs {
      PipeBothLater(h, e, s, h.envs[e]);
    } else {
      OneLater(h, Hold(h, e, s), s);
    }
  }

  lemma RegisterLater(h: RelayState, e: EnvId, s: SocketId)
    ensures Later(h, Register(h, e, s))
  {
    var t := TakeOver(h, e, s);
    OneLater(h, t, if e in h.envs then h.envs[e] else s);
    var pending := Waiters(t, e);
    if pending != [] {
      var p := PipeBoth(t, e, pending[0], s);
      PipeBothLater(t, e, pending[0], s);
      RefuseLater(p, pending[1..]);
      LaterTransitive(t, p, Refuse(p, pending[1..]));
      LaterTransitive(h, t, Refuse(p, pending[1..]));
    }
  }

  lemma FirstLater(h: RelayState, s: SocketId, reading: Reading)
    ensures Later(h, First(h, s, reading))
  {
    var o := Off(h, s, OnFirst);
    OffLater(h, s, OnFirst);
    match reading
    case NotRelay =>
    case Undecodable => FailLater(h, s);
    case Refused =>
      FailLater(o, s);
      LaterTransitive(h, o, Fail(o, s));
    case Hello(e) =>
      var r := Register(o, e, s);
      RegisterLater(o, e, s);
      LaterTransitive(h, o, r);
      OneLater(r, OnceClosed(r, s, EnvClosed(e)), s);
      LaterTransitive(h, r, OnceClosed(r, s, EnvClosed(e)));
    case Attach(e) =>
      AttachLater(o, e, s);
      LaterTransitive(h, o, AttachWorker(o, e, s));
  }

  lemma DeliverLater(h: RelayState, s: SocketId, text: string, reading: Reading, listener: Listener)
    ensures Later(h, Deliver(h, s, text, reading, listener))
  {
    match listener
    case OnFirst => FirstLater(h, s, reading);
    case OnBuffer =>
    case OnForward(to) => OneLater(h, Deliver(h, s, text, reading, listener), to);
  }

  lemma {:induction false} DispatchLater(h: RelayState, s: SocketId, text: string, reading: Reading, ls: seq<Listener>)
    ensures Later(h, Dispatch(h, s, text, reading, ls))
    decreases |ls|
  {
    if ls != [] {
      var k := Deliver(h, s, text, reading, ls[0]);
      DeliverLater(h, s, text, reading, ls[0]);
      DispatchLater(k, s, text, reading, ls[1..]);
      LaterTransitive(h, k, Dispatch(h, s, text, reading, ls));
    }
  }

  lemma HandleCloseLater(h: RelayState, s: SocketId, c: CloseListener)
    ensures Later(h, HandleClose(h, s, c))
    ensures c.WorkerClosed? ==> Down(HandleClose(h, s, c), c.daemon)
    ensures c.DaemonClosed? ==> Down(HandleClose(h, s, c), c.worker)
  {
    match c
    case WaiterClosed =>
      OffLater(h, s, OnBuffer);
    case WorkerClosed(_, d) =>
    case DaemonClosed(_, w) =>
    case EnvClosed(_) =>
  }

  lemma HandleCloseSent(h: RelayState, s: SocketId, c: CloseListener)
    ensures HandleClose(h, s, c).sockets.Keys == h.sockets.Keys
    ensures forall x <- h.sockets :: HandleClose(h, s, c).sockets[x].sent == h.sockets[x].sent
  {
    match c
    case WaiterClosed =>
    case WorkerClosed(_, d) => assert HandleClose(h, s, c).sockets == CloseSocket(h, d).sockets;
    case DaemonClosed(_, w) => assert HandleClose(h, s, c).sockets == CloseSocket(h, w).sockets;
    case EnvClosed(_) =>
  }

  lemma {:induction false} DispatchCloseLater(h: RelayState, s: SocketId, cs: seq<CloseListener>)
    ensures var g := DispatchClose(h, s, cs);
            && Later(h, g) && g.sockets.Keys == h.sockets.Keys
            && (forall x <- h.sockets :: g.sockets[x].sent == h.sockets[x].sent)
            && (forall c <- cs :: (c.WorkerClosed? ==> Down(g, c.daemon)) && (c.DaemonClosed? ==> Down(g, c.worker)))
    decreases |cs|
  {
    if cs != [] {
      var k := HandleClose(h, s, cs[0]);
      var g := DispatchClose(k, s, cs[1..]);
      HandleCloseLater(h, s, cs[0]);
      HandleCloseSent(h, s, cs[0]);
      DispatchCloseLater(k, s, cs[1..]);
      LaterTransitive(h, k, g);
      forall c | c in cs ensures (c.WorkerClosed? ==> Down(g, c.daemon)) && (c.DaemonClosed? ==> Down(g, c.worker)) {
        if c == cs[0] {
          LaterLinks(k, g, if c.WorkerClosed? then c.daemon else if c.DaemonClosed? then c.worker else s, 0);
        } else {
          assert c in cs[1..];
        }
      }
    }
  }

  lemma StepLater(h: RelayState, event: Event)
    ensures Later(h, Step(h, event))
  {
    match event
    case Connected(s) =>
    case Received(s, message) =>
      if s in h.sockets && message.Text? {
        DispatchLater(h, s, message.text, message.reading, h.sockets[s].onMessage);
      }
    case Closed(s) =>
      if s in h.sockets {
        var m := MarkGone(h, s);
        OneLater(h, m, s);
        DispatchCloseLater(m, s, h.sockets[s].onClose);
        LaterTransitive(h, m, DispatchClose(m, s, h.sockets[s].onClose));
      }
    case Shutdown =>
  }

  lemma RunAppend(events: seq<Event>, event: Event)
    ensures Run(START, events + [event]) == Step(Run(START, events), event)
  {
    assert (events + [event])[..|events|] == events;
  }

}
