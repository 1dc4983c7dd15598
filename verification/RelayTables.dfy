/** The relay's registrations and waiting lists over whole runs: a registration ends
    only for the reasons it should, and who waits is on the list. Each lemma follows one
    function of the relay and says what it does to the tables; `RegistrationStep` and
    `WaitingStep` put them together for one event, and the lemmas after them for whole
    histories. */
module RelayTables {
  import opened Wrappers
  import opened Relay
  import opened RelayInvariant
  import opened RelayLater

  /** A registered daemon is connected, and its close will end the registration. */
  ghost predicate RegisteredOk(h: RelayState, e: EnvId)
    requires e in h.envs
  {
    var d := h.envs[e];
    d in h.sockets && !h.sockets[d].gone && EnvClosed(e) in h.sockets[d].onClose && Waiters(h, e) == []
  }

  /** A worker that is up and piped to nobody is on its env's waiting list. */
  ghost predicate WaitsOk(h: RelayState, past: seq<Event>, w: SocketId) {
    PastOf(past, w).role.Worker? && !Down(h, w) && Unlinked(h, w) ==> w in Waiters(h, PastOf(past, w).role.env)
  }

  ghost predicate Tables(h: RelayState, past: seq<Event>) {
    && (forall e {:trigger RegisteredOk(h, e)} :: e in h.envs ==> RegisteredOk(h, e))
    && (forall w {:trigger WaitsOk(h, past, w)} :: WaitsOk(h, past, w))
  }

  /** The event is a hello for `e` that the relay accepts. */
  predicate Hails(past: seq<Event>, event: Event, e: EnvId) {
    && event.Received? && event.message.Text? && event.message.reading == Hello(e)
    && PastOf(past, event.socket).role.Undecided? && !PastOf(past, event.socket).gone
  }

  /** What one event does to a registration: an accepted hello sets it, the registered
      socket's close and a first shutdown end it, and nothing else touches it. */
  function RegistrationAfter(h: RelayState, past: seq<Event>, event: Event, e: EnvId): Option<SocketId> {
    if Hails(past, event, e) then Some(event.socket)
    else if event.Shutdown? && !h.closed then None
    else if e in h.envs && event == Closed(h.envs[e]) then None
    else Registration(h, e)
  }

  function Registration(h: RelayState, e: EnvId): Option<SocketId> {
    if e in h.envs then Some(h.envs[e]) else None
  }

  // -------------------------------------------------------------- close events

  lemma HandleCloseTables(h: RelayState, s: SocketId, c: CloseListener)
    ensures var g := HandleClose(h, s, c);
            && (forall e <- g.envs :: e in h.envs && g.envs[e] == h.envs[e])
            && (forall e <- h.envs :: h.envs[e] != s ==> e in g.envs)
            && (c.EnvClosed? && c.env in g.envs ==> g.envs[c.env] != s)
  {
  }

  lemma HandleCloseWaiting(h: RelayState, s: SocketId, c: CloseListener, e: EnvId)
    ensures var g := HandleClose(h, s, c);
            && (Waiters(h, e) == [] ==> Waiters(g, e) == [])
            && (forall w <- Waiters(h, e) :: w != s ==> w in Waiters(g, e))
  {
    if c.WorkerClosed? && e in h.waiting {
      forall w | w in Waiters(h, e) && w != s ensures w in Waiters(HandleClose(h, s, c), e) {
        WithoutMembers(h.waiting[e], s, w);
      }
    }
  }

  lemma {:induction false} DispatchCloseTables(h: RelayState, s: SocketId, cs: seq<CloseListener>)
    ensures var g := DispatchClose(h, s, cs);
            && (forall e <- g.envs :: e in h.envs && g.envs[e] == h.envs[e])
            && (forall e <- h.envs :: h.envs[e] != s ==> e in g.envs)
            && (forall e <- g.envs :: EnvClosed(e) in cs ==> g.envs[e] != s)
    decreases |cs|
  {
    if cs != [] {
      var k := HandleClose(h, s, cs[0]);
      HandleCloseTables(h, s, cs[0]);
      DispatchCloseTables(k, s, cs[1..]);
      assert cs == [cs[0]] + cs[1..];
    }
  }

  lemma {:induction false} DispatchCloseWaiting(h: RelayState, s: SocketId, cs: seq<CloseListener>, e: EnvId)
    ensures var g := DispatchClose(h, s, cs);
            && (Waiters(h, e) == [] ==> Waiters(g, e) == [])
            && (forall w <- Waiters(h, e) :: w != s ==> w in Waiters(g, e))
    decreases |cs|
  {
    if cs != [] {
      HandleCloseWaiting(h, s, cs[0], e);
      DispatchCloseWaiting(HandleClose(h, s, cs[0]), s, cs[1..], e);
    }
  }

  // ------------------------------------------------------------------- messages

  lemma PairWaitingTables(h: RelayState, e: EnvId, s: SocketId)
    requires s in h.sockets && (e in h.workers ==> h.workers[e] != s)
    requires forall w <- Waiters(h, e) :: w in h.sockets && w != s
    ensures var g := PairWaiting(h, e, s);
            && g.envs == h.envs && s in g.sockets
            && (forall f :: Waiters(g, f) == if f == e then [] else Waiters(h, f))
            && (forall w <- Waiters(h, e) :: Down(g, w) || Linked(g, w, s))
  {
    var pending := Waiters(h, e);
    if pending != [] {
      var w := pending[0];
      assert w in Waiters(h, e);
      var p := PipeBoth(h, e, w, s);
      PipeBothPairs(h, e, w, s);
      assert Linked(p, w, s);
      var r := Refuse(p, pending[1..]);
      RefuseLater(p, pending[1..]);
      LaterLinks(p, r, w, s);
      assert LaterAt(p, r, s);
      forall x | x in pending ensures Down(r, x) || Linked(r, x, s) {
        assert x in Waiters(h, e);
        assert x == w || x in pending[1..];
      }
    }
  }

  lemma TakeOverTables(h: RelayState, past: seq<Event>, s: SocketId, e: EnvId)
    requires Inv(h, past) && s in h.sockets && PastOf(past, s).role.Undecided?
    ensures var t := TakeOver(Off(h, s, OnFirst), e, s);
            && t.waiting == h.waiting && t.envs == h.envs[e := s] && s in t.sockets
            && (e in t.workers ==> t.workers[e] != s)
            && forall w <- Waiters(t, e) :: w in t.sockets && w != s
  {
    forall w | w in Waiters(h, e) ensures w in h.sockets && w != s {
      assert SocketOk(h, past, w);
    }
  }

  lemma HelloTables(h: RelayState, past: seq<Event>, s: SocketId, e: EnvId)
    requires Inv(h, past) && s in h.sockets && !h.sockets[s].gone && PastOf(past, s).role.Undecided?
    ensures var g := First(h, s, Hello(e));
            && g.envs == h.envs[e := s]
            && (forall f :: Waiters(g, f) == if f == e then [] else Waiters(h, f))
            && (forall w <- Waiters(h, e) :: Down(g, w) || Linked(g, w, s))
            && s in g.sockets && EnvClosed(e) in g.sockets[s].onClose
  {
    var t := TakeOver(Off(h, s, OnFirst), e, s);
    TakeOverTables(h, past, s, e);
    assert forall f :: Waiters(t, f) == Waiters(h, f);
    PairWaitingTables(t, e, s);
    var p := PairWaiting(t, e, s);
    assert First(h, s, Hello(e)) == OnceClosed(p, s, EnvClosed(e));
  }

  lemma AttachTables(h: RelayState, past: seq<Event>, s: SocketId, e: EnvId)
    requires Inv(h, past) && s in h.sockets && !h.sockets[s].gone && PastOf(past, s).role.Undecided?
    ensures var g := First(h, s, Attach(e));
            && g.envs == h.envs && s in g.sockets
            && (forall f :: Waiters(g, f) == Waiters(h, f) + if f == e && e !in h.envs then [s] else [])
            && (e in h.envs ==> Linked(g, s, h.envs[e]))
  {
    assert SocketOk(h, past, s);
    var o := Off(h, s, OnFirst);
    if e in h.envs {
      assert SocketOk(h, past, h.envs[e]);
      PipeBothPairs(o, e, s, h.envs[e]);
      PairedLinks(o, PipeBoth(o, e, s, h.envs[e]), e, s, h.envs[e]);
    } else {
      assert s !in Waiters(h, e);
    }
  }

  lemma ForwardTables(h: RelayState, past: seq<Event>, s: SocketId, text: string, reading: Reading)
    requires Inv(h, past) && s in h.sockets && !h.sockets[s].gone
    requires PastOf(past, s).role.Undecided? ==> reading.NotRelay? || reading.Undecodable? || reading.Refused?
    ensures var g := Step(h, Received(s, Text(text, reading))); g.envs == h.envs && g.waiting == h.waiting
  {
    assert SocketOk(h, past, s);
    if PastOf(past, s).role.Undecided? {
      assert h.sockets[s].onMessage[1..] == [];
      assert Dispatch(First(h, s, reading), s, text, reading, []) == First(h, s, reading);
    } else {
      DispatchForwards(h, s, text, reading, h.sockets[s].onMessage);
    }
  }

  lemma StepIsFirst(h: RelayState, past: seq<Event>, s: SocketId, text: string, reading: Reading)
    requires Inv(h, past) && s in h.sockets && !h.sockets[s].gone && PastOf(past, s).role.Undecided?
    ensures Step(h, Received(s, Text(text, reading))) == First(h, s, reading)
  {
    assert SocketOk(h, past, s);
    assert h.sockets[s].onMessage[1..] == [];
    assert Dispatch(First(h, s, reading), s, text, reading, []) == First(h, s, reading);
  }

  // ------------------------------------------------------------------ one event

  /** Registrations after an event, from those before it. */
  lemma RegistrationStep(h: RelayState, past: seq<Event>, event: Event, e: EnvId)
    requires Inv(h, past) && Tables(h, past)
    ensures Registration(Step(h, event), e) == RegistrationAfter(h, past, event, e)
  {
    match event
    case Connected(_) =>
    case Shutdown =>
    case Closed(s) =>
      if e in h.envs {
        assert RegisteredOk(h, e);
      }
      if s in h.sockets && !h.sockets[s].gone {
        DispatchCloseTables(MarkGone(h, s), s, h.sockets[s].onClose);
      }
    case Received(s, message) =>
      assert SocketOk(h, past, s);
      if s in h.sockets && !h.sockets[s].gone && message.Text? {
        var reading := message.reading;
        if PastOf(past, s).role.Undecided? && (reading.Hello? || reading.Attach?) {
          StepIsFirst(h, past, s, message.text, reading);
          if reading.Hello? {
            HelloTables(h, past, s, reading.env);
          } else {
            AttachTables(h, past, s, reading.env);
          }
        } else {
          ForwardTables(h, past, s, message.text, reading);
        }
      }
  }

  /** Waiting lists after an event, unless it is a close. */
  lemma WaitingStep(h: RelayState, past: seq<Event>, event: Event, f: EnvId)
    requires Inv(h, past) && !event.Closed?
    ensures Waiters(Step(h, event), f)
            == if event.Shutdown? && !h.closed then []
               else if Hails(past, event, f) then []
               else Waiters(h, f) + if Attaches(past, event, f) && f !in h.envs then [event.socket] else []
  {
    match event
    case Connected(_) =>
    case Shutdown =>
    case Received(s, message) =>
      assert SocketOk(h, past, s);
      if s in h.sockets && !h.sockets[s].gone && message.Text? {
        var reading := message.reading;
        if PastOf(past, s).role.Undecided? && (reading.Hello? || reading.Attach?) {
          StepIsFirst(h, past, s, message.text, reading);
          if reading.Hello? {
            HelloTables(h, past, s, reading.env);
          } else {
            AttachTables(h, past, s, reading.env);
          }
        } else {
          ForwardTables(h, past, s, message.text, reading);
        }
      }
  }

  predicate Attaches(past: seq<Event>, event: Event, e: EnvId) {
    && event.Received? && event.message.Text? && event.message.reading == Attach(e)
    && PastOf(past, event.socket).role.Undecided? && !PastOf(past, event.socket).gone
  }

  lemma RegisteredStep(h: RelayState, past: seq<Event>, event: Event, e: EnvId)
    requires Inv(h, past) && Tables(h, past) && e in Step(h, event).envs
    ensures RegisteredOk(Step(h, event), e)
  {
    var g := Step(h, event);
    RegistrationStep(h, past, event, e);
    StepKeepsInv(h, past, event);
    StepLater(h, event);
    var d := g.envs[e];
    if Hails(past, event, e) {
      assert SocketOk(h, past, d);
      StepIsFirst(h, past, d, event.message.text, event.message.reading);
      HelloTables(h, past, d, e);
      StillConnected(h, past, event, d);
    } else {
      assert RegisteredOk(h, e);
      assert LaterAt(h, g, d);
      StillConnected(h, past, event, d);
      if event.Closed? {
        ClosedWaiting(h, event.socket, e);
      } else {
        WaitingStep(h, past, event, e);
      }
    }
  }

  lemma ClosedWaiting(h: RelayState, s: SocketId, e: EnvId)
    ensures Waiters(h, e) == [] ==> Waiters(Step(h, Closed(s)), e) == []
    ensures forall w <- Waiters(h, e) :: w != s ==> w in Waiters(Step(h, Closed(s)), e)
  {
    if s in h.sockets && !h.sockets[s].gone {
      DispatchCloseWaiting(MarkGone(h, s), s, h.sockets[s].onClose, e);
    }
  }

  lemma StillConnected(h: RelayState, past: seq<Event>, event: Event, d: SocketId)
    requires Inv(h, past) && d in h.sockets && !h.sockets[d].gone && event != Closed(d)
    ensures d in Step(h, event).sockets && !Step(h, event).sockets[d].gone
  {
    StepKeepsInv(h, past, event);
    assert SocketOk(h, past, d);
    assert SocketOk(Step(h, event), past + [event], d);
    PastAppend(past, event, d);
  }

  lemma UnlinkedBefore(h: RelayState, g: RelayState, w: SocketId)
    requires Later(h, g) && w in h.sockets && !Down(g, w) && Unlinked(g, w)
    ensures Unlinked(h, w) && !Down(h, w)
  {
    LaterLinks(h, g, w, 0);
    forall d ensures !Linked(h, w, d) {
      LaterLinks(h, g, w, d);
    }
  }

  lemma WaitsStep(h: RelayState, past: seq<Event>, event: Event, w: SocketId)
    requires Inv(h, past) && Tables(h, past)
    ensures WaitsOk(Step(h, event), past + [event], w)
  {
    var g, post := Step(h, event), past + [event];
    PastAppend(past, event, w);
    assert SocketOk(h, past, w);
    if PastOf(post, w).role.Worker? && !Down(g, w) && Unlinked(g, w) {
      var e := PastOf(post, w).role.env;
      if PastOf(past, w).role.Worker? {
        StepLater(h, event);
        UnlinkedBefore(h, g, w);
        assert WaitsOk(h, past, w);
        WaiterStays(h, past, event, w, e);
      } else {
        JustHeld(h, past, event, w, e);
      }
    }
  }

  lemma JustHeld(h: RelayState, past: seq<Event>, event: Event, w: SocketId, e: EnvId)
    requires Inv(h, past) && w in h.sockets && !h.sockets[w].gone && PastOf(past, w).role.Undecided?
    requires event.Received? && event.socket == w && event.message.Text? && event.message.reading == Attach(e)
    ensures Unlinked(Step(h, event), w) ==> w in Waiters(Step(h, event), e)
  {
    StepIsFirst(h, past, w, event.message.text, event.message.reading);
    AttachTables(h, past, w, e);
  }

  lemma WaiterStays(h: RelayState, past: seq<Event>, event: Event, w: SocketId, e: EnvId)
    requires Inv(h, past) && w in Waiters(h, e) && w in h.sockets
    requires !Down(Step(h, event), w) && Unlinked(Step(h, event), w)
    ensures w in Waiters(Step(h, event), e)
  {
    var g := Step(h, event);
    match event
    case Closed(s) =>
      ClosedWaiting(h, s, e);
      if s == w {
        StepLater(h, event);
        ClosedIsGone(h, s);
      }
    case Shutdown =>
    case Connected(_) =>
    case Received(s, message) =>
      WaitingStep(h, past, event, e);
      if Hails(past, event, e) {
        assert SocketOk(h, past, s);
        StepIsFirst(h, past, s, message.text, message.reading);
        HelloTables(h, past, s, e);
      }
  }

  lemma ClosedIsGone(h: RelayState, s: SocketId)
    requires s in h.sockets
    ensures Down(Step(h, Closed(s)), s)
  {
    if !h.sockets[s].gone {
      var m := MarkGone(h, s);
      DispatchCloseLater(m, s, h.sockets[s].onClose);
      LaterLinks(m, Step(h, Closed(s)), s, 0);
    }
  }

  lemma {:induction false} RunKeepsTables(events: seq<Event>)
    ensures Tables(Run(START, events), events)
  {
    if events != [] {
      var front, last := events[..|events| - 1], events[|events| - 1];
      var h, g := Run(START, front), Run(START, events);
      assert events == front + [last];
      RunKeepsInv(front);
      RunKeepsTables(front);
      forall e | e in g.envs ensures RegisteredOk(g, e) {
        RegisteredStep(h, front, last, e);
      }
      forall w ensures WaitsOk(g, events, w) {
        WaitsStep(h, front, last, w);
      }
    }
  }

  // -------------------------------------------------------------- over all runs

  /** The env a socket's accepted hello registered, followed through a whole history:
      set by each accepted hello, ended by the close of the very socket registered and
      by the first shutdown. The close of a superseded socket is not among the ends. */
  function LastHello(events: seq<Event>, e: EnvId): Option<SocketId> {
    if events == [] then None
    else
      var front, last := events[..|events| - 1], events[|events| - 1];
      var earlier := LastHello(front, e);
      if Hails(front, last, e) then Some(last.socket)
      else if last.Shutdown? && Shutdown !in front then None
      else if earlier.Some? && last == Closed(earlier.value) then None
      else earlier
  }

  lemma {:induction false} ClosedIsShutdown(events: seq<Event>)
    ensures Run(START, events).closed <==> Shutdown in events
  {
    if events != [] {
      var front, last := events[..|events| - 1], events[|events| - 1];
      assert events == front + [last];
      ClosedIsShutdown(front);
      RunKeepsInv(front);
      StepClosed(Run(START, front), front, last);
    }
  }

  lemma {:induction false} DispatchCloseOpen(h: RelayState, s: SocketId, cs: seq<CloseListener>)
    ensures DispatchClose(h, s, cs).closed == h.closed
    decreases |cs|
  {
    if cs != [] {
      DispatchCloseOpen(HandleClose(h, s, cs[0]), s, cs[1..]);
    }
  }

  lemma {:induction false} DispatchOpen(h: RelayState, s: SocketId, text: string, reading: Reading, ls: seq<Listener>)
    ensures Dispatch(h, s, text, reading, ls).closed == h.closed
    decreases |ls|
  {
    if ls != [] {
      DeliverOpen(h, s, text, reading, ls[0]);
      DispatchOpen(Deliver(h, s, text, reading, ls[0]), s, text, reading, ls[1..]);
    }
  }

  lemma DeliverOpen(h: RelayState, s: SocketId, text: string, reading: Reading, l: Listener)
    ensures Deliver(h, s, text, reading, l).closed == h.closed
  {
  }

  lemma StepClosed(h: RelayState, past: seq<Event>, event: Event)
    ensures Step(h, event).closed <==> h.closed || event.Shutdown?
  {
    match event
    case Received(s, message) =>
      if s in h.sockets && message.Text? {
        DispatchOpen(h, s, message.text, message.reading, h.sockets[s].onMessage);
      }
    case Closed(s) =>
      if s in h.sockets {
        DispatchCloseOpen(MarkGone(h, s), s, h.sockets[s].onClose);
      }
    case _ =>
  }

  /** What the relay has registered is exactly what the history says: closing a
      superseded daemon socket never removes the newer registration. */
  lemma {:induction false} RegisteredExactly(events: seq<Event>, e: EnvId)
    ensures Registration(Run(START, events), e) == LastHello(events, e)
  {
    if events != [] {
      var front, last := events[..|events| - 1], events[|events| - 1];
      RegisteredExactly(front, e);
      RunKeepsInv(front);
      RunKeepsTables(front);
      ClosedIsShutdown(front);
      RegistrationStep(Run(START, front), front, last, e);
    }
  }
}
