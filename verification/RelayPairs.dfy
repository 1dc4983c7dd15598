/** Which events pipe a worker to a daemon, that no worker that could be served waits,
    and exactly when a close at either end of a pair closes both. */
module RelayPairs {
  import opened Relay
  import opened RelayInvariant
  import opened RelayLater
  import opened RelayRuns
  import opened RelayTables

  /** The event pipes `w` to `d`: the worker attaches while the daemon is registered, or
      the daemon is accepted while the worker is first on the waiting list. */
  predicate Pairs(h: RelayState, past: seq<Event>, event: Event, w: SocketId, d: SocketId) {
    && event.Received? && event.message.Text?
    && match event.message.reading
       case Attach(e) => Attaches(past, event, e) && event.socket == w && e in h.envs && h.envs[e] == d
       case Hello(e) => Hails(past, event, e) && event.socket == d && Waiters(h, e) != [] && Waiters(h, e)[0] == w
       case _ => false
  }

  // -------------------------------------------------------- what links remain

  lemma MutedLinks(h: RelayState, s: SocketId, l: Listener)
    requires !l.OnForward?
    ensures SameLinks(h, Off(h, s, l))
  {
    if s in h.sockets {
      forall k ensures k in Without(h.sockets[s].onMessage, l) <==> k in h.sockets[s].onMessage && k != l {
        WithoutMembers(h.sockets[s].onMessage, l, k);
      }
    }
  }

  lemma HandleCloseLinks(h: RelayState, s: SocketId, c: CloseListener)
    ensures SameLinks(h, HandleClose(h, s, c))
  {
    if c.WaiterClosed? {
      MutedLinks(h, s, OnBuffer);
    }
  }

  lemma {:induction false} DispatchCloseLinks(h: RelayState, s: SocketId, cs: seq<CloseListener>,
                                              x: SocketId, y: SocketId)
    ensures Linked(DispatchClose(h, s, cs), x, y) <==> Linked(h, x, y)
    decreases |cs|
  {
    if cs != [] {
      var k := HandleClose(h, s, cs[0]);
      HandleCloseLinks(h, s, cs[0]);
      DispatchCloseLinks(k, s, cs[1..], x, y);
      assert Linked(k, x, y) <==> Linked(h, x, y);
    }
  }

  lemma {:induction false} RefuseOthers(h: RelayState, pending: seq<SocketId>, x: SocketId)
    ensures x in Refuse(h, pending).sockets <==> x in h.sockets
    ensures x in h.sockets ==> Refuse(h, pending).sockets[x].onMessage == h.sockets[x].onMessage
    ensures x in h.sockets && x !in pending ==> Refuse(h, pending).sockets[x] == h.sockets[x]
    decreases |pending|
  {
    if pending != [] {
      RefuseOthers(Fail(h, pending[0]), pending[1..], x);
    }
  }

  // ------------------------------------------------------------- the hello

  /** `x` and `y` are the daemon and the first worker waiting for it. */
  predicate Joins(pending: seq<SocketId>, daemon: SocketId, x: SocketId, y: SocketId) {
    pending != [] && ((x == pending[0] && y == daemon) || (x == daemon && y == pending[0]))
  }

  /** What an accepted hello does to links and to the daemon itself. */
  lemma HelloPairs(h: RelayState, past: seq<Event>, s: SocketId, e: EnvId, x: SocketId, y: SocketId)
    requires Inv(h, past) && s in h.sockets && !h.sockets[s].gone && PastOf(past, s).role.Undecided?
    ensures var g, pending := First(h, s, Hello(e)), Waiters(h, e);
            && (Linked(g, x, y) <==> Linked(h, x, y) || Joins(pending, s, x, y))
            && (Down(g, s) <==> Down(h, s))
  {
    var o := Off(h, s, OnFirst);
    MutedLinks(h, s, OnFirst);
    assert Linked(o, x, y) <==> Linked(h, x, y);
    var t := TakeOver(o, e, s);
    TakeOverTables(h, past, s, e);
    TakeOverLinks(o, e, s, x, y);
    var p := PairWaiting(t, e, s);
    assert Waiters(t, e) == Waiters(h, e);
    PairWaitingLinks(t, e, s, x, y);
    assert First(h, s, Hello(e)) == OnceClosed(p, s, EnvClosed(e));
  }

  lemma TakeOverLinks(h: RelayState, e: EnvId, s: SocketId, x: SocketId, y: SocketId)
    ensures Linked(TakeOver(h, e, s), x, y) <==> Linked(h, x, y)
    ensures Down(TakeOver(h, e, s), s) <==> Down(h, s)
  {
  }

  lemma PairWaitingLinks(h: RelayState, e: EnvId, s: SocketId, x: SocketId, y: SocketId)
    requires s in h.sockets && (e in h.workers ==> h.workers[e] != s)
    requires forall w <- Waiters(h, e) :: w in h.sockets && w != s
    ensures var g, pending := PairWaiting(h, e, s), Waiters(h, e);
            && (Linked(g, x, y) <==> Linked(h, x, y) || Joins(pending, s, x, y))
            && s in g.sockets && (Down(g, s) <==> Down(h, s))
  {
    var pending := Waiters(h, e);
    if pending != [] {
      var w := pending[0];
      assert w in Waiters(h, e);
      var p := PipeBoth(h, e, w, s);
      PipeBothPairs(h, e, w, s);
      PairedLinks(h, p, e, w, s);
      RefuseOthers(p, pending[1..], x);
      RefuseOthers(p, pending[1..], s);
      forall k | k in pending[1..] ensures k != s {
        assert k in Waiters(h, e);
      }
      assert Linked(p, x, y) <==> Linked(h, x, y) || (x == w && y == s) || (x == s && y == w);
    }
  }

  // ------------------------------------------------------------- one event

  lemma FirstPairs(h: RelayState, past: seq<Event>, s: SocketId, text: string, reading: Reading,
                   w: SocketId, d: SocketId)
    requires Inv(h, past) && s in h.sockets && !h.sockets[s].gone && PastOf(past, s).role.Undecided?
    requires PastOf(past + [Received(s, Text(text, reading))], w).role.Worker?
    ensures Linked(First(h, s, reading), w, d)
       <==> Linked(h, w, d) || Pairs(h, past, Received(s, Text(text, reading)), w, d)
  {
    var o := Off(h, s, OnFirst);
    MutedLinks(h, s, OnFirst);
    PastAppend(past, Received(s, Text(text, reading)), w);
    assert SocketOk(h, past, s);
    assert Linked(o, w, d) <==> Linked(h, w, d);
    match reading
    case Hello(e) => HelloPairs(h, past, s, e, w, d);
    case Attach(e) =>
      if e in h.envs {
        assert SocketOk(h, past, h.envs[e]);
        PipeBothPairs(o, e, s, h.envs[e]);
        PairedLinks(o, PipeBoth(o, e, s, h.envs[e]), e, s, h.envs[e]);
      }
    case _ =>
  }

  /** A worker is piped to a daemon exactly by such an event, and stays piped: the first
      waiter of the env wins, and a worker that attaches takes the registered daemon. */
  lemma PairedExactly(past: seq<Event>, event: Event, w: SocketId, d: SocketId)
    requires PastOf(past + [event], w).role.Worker?
    ensures var h := Run(START, past);
            Linked(Step(h, event), w, d) <==> Linked(h, w, d) || Pairs(h, past, event, w, d)
  {
    var h := Run(START, past);
    RunKeepsInv(past);
    match event
    case Connected(s) => assert SocketOk(h, past, s);
    case Shutdown =>
    case Closed(s) =>
      if s in h.sockets && !h.sockets[s].gone {
        DispatchCloseLinks(MarkGone(h, s), s, h.sockets[s].onClose, w, d);
      }
    case Received(s, message) =>
      assert SocketOk(h, past, s);
      if s in h.sockets && !h.sockets[s].gone && message.Text? {
        if PastOf(past, s).role.Undecided? {
          StepIsFirst(h, past, s, message.text, message.reading);
          FirstPairs(h, past, s, message.text, message.reading, w, d);
        } else {
          DispatchForwards(h, s, message.text, message.reading, h.sockets[s].onMessage);
        }
      }
  }

  /** No worker that could be served is left waiting: while its env has a registered
      daemon, a worker that is up is piped to a daemon of that env. */
  lemma NoWorkerLeftWaiting(events: seq<Event>, w: SocketId, e: EnvId)
    requires PastOf(events, w).role == Worker(e) && !Down(Run(START, events), w)
    requires e in Run(START, events).envs
    ensures exists d :: Linked(Run(START, events), w, d) && PastOf(events, d).role == Daemon(e)
  {
    var h := Run(START, events);
    RunKeepsTables(events);
    RunKeepsInv(events);
    assert RegisteredOk(h, e);
    assert WaitsOk(h, events, w);
    if d :| Linked(h, w, d) {
      PipesAreMutual(events, w, d);
    } else {
      assert Unlinked(h, w);
    }
  }

  // ---------------------------------------------------------- ends together

  /** When either of the two has closed, the other is down. */
  ghost predicate EndTogether(h: RelayState, w: SocketId, d: SocketId) {
    (Gone(h, w) ==> Down(h, d)) && (Gone(h, d) ==> Down(h, w))
  }

  /** A pair as the event that makes it leaves it. */
  lemma PairBegins(past: seq<Event>, event: Event, w: SocketId, d: SocketId)
    requires Pairs(Run(START, past), past, event, w, d)
    ensures var h, g := Run(START, past), Step(Run(START, past), event);
            && PastOf(past + [event], w).role.Worker? && Linked(g, w, d)
            && (Gone(g, w) <==> Gone(h, w)) && !Gone(g, d)
            && (Gone(h, w) ==> (Down(g, d) <==> Down(h, d)))
  {
    var h, g := Run(START, past), Step(Run(START, past), event);
    RunKeepsInv(past);
    RunKeepsTables(past);
    var s, e := event.socket, event.message.reading.env;
    assert SocketOk(h, past, s);
    if event.message.reading.Hello? {
      assert w in Waiters(h, e);
      StepIsFirst(h, past, s, event.message.text, event.message.reading);
      HelloPairs(h, past, s, e, w, d);
    } else {
      assert RegisteredOk(h, e);
    }
    PastAppend(past, event, w);
    PairedExactly(past, event, w, d);
    assert SocketOk(h, past, w);
    StepLater(h, event);
    LaterLinks(h, g, w, d);
    if d in h.sockets && !Gone(h, d) && Gone(g, d) {
      ClosedTakes(h, past, event, d);
    }
    if !Gone(h, w) && Gone(g, w) {
      ClosedTakes(h, past, event, w);
    }
  }

  /** A close at either end of a pair closes both, on every continuation, if and only if
      the pair was made while the worker was still connected or with a daemon already
      being closed. A worker that attaches is connected, so it fails for exactly the
      pairs an open daemon makes with a first waiter that has closed. */
  lemma CloseTakesBothExactly(past: seq<Event>, event: Event, w: SocketId, d: SocketId)
    requires Pairs(Run(START, past), past, event, w, d)
    ensures (forall after :: EndTogether(Run(START, past + [event] + after), w, d))
       <==> !Gone(Run(START, past), w) || Down(Run(START, past), d)
  {
    var now := past + [event];
    RunAppend(past, event);
    PairBegins(past, event, w, d);
    if !Gone(Run(START, past), w) || Down(Run(START, past), d) {
      StepLater(Run(START, past), event);
      forall after ensures EndTogether(Run(START, past + [event] + after), w, d) {
        CloseTakesBoth(now, after, w, d);
      }
    } else {
      assert now + [] == now;
      assert !EndTogether(Run(START, past + [event] + []), w, d);
    }
  }
}
