/** What holds over whole runs of the relay: frames are delivered exactly once and in
    order in both directions, a pair lives and dies together, a registration ends only
    for the reasons it should, and no worker that could be served is left waiting. */
module RelayRuns {
  import opened Relay
  import opened RelayInvariant
  import opened RelayLater

  // --------------------------------------------------- one pair, both directions

  /** Frames a worker says after relay_attach: while the worker and the daemon it is
      piped to are up, exactly what the daemon was sent from it, in order; while the
      worker waits, exactly what is held for it. No frame is lost, repeated or
      reordered at the switch from holding to piping. */
  lemma RelayDelivers(events: seq<Event>, w: SocketId)
    requires PastOf(events, w).role.Worker? && !PastOf(events, w).gone
    ensures var h := Run(START, events);
            && (forall d :: Linked(h, w, d) && !Down(h, d) ==> From(h.sockets[d].sent, w) == PastOf(events, w).said)
            && (Unlinked(h, w) ==> w in h.buffers && h.buffers[w] == PastOf(events, w).said)
  {
    RunKeepsInv(events);
    var h := Run(START, events);
    assert SocketOk(h, events, w);
    forall d | Linked(h, w, d) && !Down(h, d) ensures From(h.sockets[d].sent, w) == PastOf(events, w).said {
      assert PairOk(h, events, w, d, PastOf(events, w).role.env);
    }
  }

  /** A worker is piped to one daemon at most, and that daemon pipes back to it. */
  lemma PipesAreMutual(events: seq<Event>, w: SocketId, d: SocketId)
    requires PastOf(events, w).role.Worker? && Linked(Run(START, events), w, d)
    ensures Linked(Run(START, events), d, w) && PastOf(events, d).role == Daemon(PastOf(events, w).role.env)
    ensures forall f :: Linked(Run(START, events), w, f) ==> f == d
  {
    RunKeepsInv(events);
    assert SocketOk(Run(START, events), events, w);
    assert PairOk(Run(START, events), events, w, d, PastOf(events, w).role.env);
  }

  /** At most one worker and one daemon of an env are up and piped: the ones the relay
      has noted. */
  lemma OnePairPerEnv(events: seq<Event>, e: EnvId, w: SocketId, d: SocketId)
    requires PastOf(events, w).role == Worker(e) && Linked(Run(START, events), w, d)
    ensures var h := Run(START, events);
            && (!Down(h, w) ==> e in h.workers && h.workers[e] == w)
            && (!Down(h, d) ==> e in h.envs && h.envs[e] == d)
  {
    RunKeepsInv(events);
    var h := Run(START, events);
    assert SocketOk(h, events, w);
    assert PairOk(h, events, w, d, e);
    assert SocketOk(h, events, d);
  }

  /** What a daemon said while it was piped to a worker. */
  function SaidWhilePiped(events: seq<Event>, d: SocketId, w: SocketId): seq<string> {
    if events == [] then []
    else
      var front, last := events[..|events| - 1], events[|events| - 1];
      var earlier := SaidWhilePiped(front, d, w);
      if last.Received? && last.socket == d && last.message.Text? && !PastOf(front, d).gone
         && Linked(Run(START, front), d, w)
      then earlier + [last.message.text] else earlier
  }

  ghost predicate SameSent(h: RelayState, g: RelayState, x: SocketId) {
    x in h.sockets && x in g.sockets && g.sockets[x].sent == h.sockets[x].sent
  }

  lemma {:induction false} RefuseSent(h: RelayState, pending: seq<SocketId>, x: SocketId)
    requires x in h.sockets
    ensures x in Refuse(h, pending).sockets
    ensures !Down(Refuse(h, pending), x) ==> SameSent(h, Refuse(h, pending), x)
    decreases |pending|
  {
    if pending != [] {
      var k := Fail(h, pending[0]);
      FailLater(h, pending[0]);
      assert LaterAt(h, k, x);
      RefuseLater(k, pending[1..]);
      RefuseSent(k, pending[1..], x);
      LaterLinks(k, Refuse(h, pending), x, 0);
    }
  }

  /** Reading a first frame sends nothing to a worker that stays up. */
  lemma FirstSent(h: RelayState, past: seq<Event>, s: SocketId, reading: Reading, x: SocketId)
    requires Inv(h, past) && s in h.sockets && PastOf(past, s).role.Undecided?
    requires x in h.sockets && x != s && PastOf(past, x).role.Worker?
    ensures x in First(h, s, reading).sockets
    ensures !Down(First(h, s, reading), x) ==> SameSent(h, First(h, s, reading), x)
  {
    FirstLater(h, s, reading);
    assert LaterAt(h, First(h, s, reading), x);
    if reading.Hello? {
      var e := reading.env;
      forall y | y in Waiters(h, e) ensures y in h.sockets && y != s {
        assert SocketOk(h, past, y);
      }
      HelloSent(Off(h, s, OnFirst), e, s, x);
    } else if reading.Attach? && reading.env in h.envs {
      AttachSent(h, past, s, reading.env, x);
    }
  }

  lemma AttachSent(h: RelayState, past: seq<Event>, s: SocketId, e: EnvId, x: SocketId)
    requires Inv(h, past) && s in h.sockets && PastOf(past, s).role.Undecided?
    requires x in h.sockets && x != s && PastOf(past, x).role.Worker? && e in h.envs
    ensures SameSent(h, AttachWorker(Off(h, s, OnFirst), e, s), x)
  {
    assert SocketOk(h, past, h.envs[e]);
    var o := Off(h, s, OnFirst);
    PipeBothPairs(o, e, s, h.envs[e]);
  }

  lemma HelloSent(h: RelayState, e: EnvId, s: SocketId, x: SocketId)
    requires s in h.sockets && x in h.sockets && x != s
    requires e in h.workers ==> h.workers[e] != s
    requires forall y <- Waiters(h, e) :: y in h.sockets && y != s
    ensures x in Register(h, e, s).sockets
    ensures !Down(Register(h, e, s), x) ==> SameSent(h, Register(h, e, s), x)
  {
    var t := TakeOver(h, e, s);
    var pending := Waiters(h, e);
    if pending != [] {
      assert pending[0] in Waiters(h, e);
      PipeBothPairs(t, e, pending[0], s);
      RefuseSent(PipeBoth(t, e, pending[0], s), pending[1..], x);
    }
  }

  lemma StepSent(h: RelayState, past: seq<Event>, event: Event, d: SocketId, w: SocketId)
    requires Inv(h, past) && w in h.sockets && PastOf(past, w).role.Worker?
    requires !Down(Step(h, event), w)
    ensures w in Step(h, event).sockets
    ensures From(Step(h, event).sockets[w].sent, d) == From(h.sockets[w].sent, d)
              + if event.Received? && event.socket == d && event.message.Text? && !PastOf(past, d).gone
                   && Linked(h, d, w)
                then [event.message.text] else []
  {
    StepLater(h, event);
    assert LaterAt(h, Step(h, event), w);
    match event
    case Connected(s) =>
      assert SocketOk(h, past, d);
    case Closed(s) =>
      if s in h.sockets && !h.sockets[s].gone {
        DispatchCloseLater(MarkGone(h, s), s, h.sockets[s].onClose);
      }
    case Shutdown =>
    case Received(s, message) =>
      assert SocketOk(h, past, s);
      assert SocketOk(h, past, d);
      if s in h.sockets && !h.sockets[s].gone && message.Text? {
        if PastOf(past, s).role.Undecided? {
          FirstSent(h, past, s, message.reading, w);
          var g := First(h, s, message.reading);
          assert Dispatch(g, s, message.text, message.reading, []) == g;
          assert h.sockets[s].onMessage[1..] == [];
        } else {
          DispatchForwards(h, s, message.text, message.reading, h.sockets[s].onMessage);
          ForwardedSent(h, Step(h, event), s, message.text, w, d);
        }
      }
  }

  lemma {:induction false} NothingBeforePiping(events: seq<Event>, d: SocketId, w: SocketId)
    requires !Linked(Run(START, events), d, w)
    ensures SaidWhilePiped(events, d, w) == []
  {
    if events != [] {
      var front, last := events[..|events| - 1], events[|events| - 1];
      StepLater(Run(START, front), last);
      LaterLinks(Run(START, front), Run(START, events), d, w);
      NothingBeforePiping(front, d, w);
    }
  }

  /** The way back: a worker that is up was sent, from any daemon, exactly the frames
      that daemon said since it was piped to the worker, once each and in order. */
  lemma {:induction false} RelayAnswers(events: seq<Event>, d: SocketId, w: SocketId)
    requires PastOf(events, w).role.Worker? && !Down(Run(START, events), w)
    ensures From(Run(START, events).sockets[w].sent, d) == SaidWhilePiped(events, d, w)
  {
    if events != [] {
      var front, last := events[..|events| - 1], events[|events| - 1];
      var h := Run(START, front);
      RunKeepsInv(front);
      RunKeepsInv(events);
      assert SocketOk(h, front, w);
      if PastOf(front, w).role.Worker? {
        StepLater(h, last);
        assert LaterAt(h, Step(h, last), w);
        RelayAnswers(front, d, w);
        StepSent(h, front, last, d, w);
      } else {
        JustAttached(events, d, w);
      }
    }
  }

  /** A worker that has only just attached was sent nothing. */
  lemma JustAttached(events: seq<Event>, d: SocketId, w: SocketId)
    requires events != []
    requires PastOf(events, w).role.Worker? && !PastOf(events[..|events| - 1], w).role.Worker?
    requires !Down(Run(START, events), w)
    ensures From(Run(START, events).sockets[w].sent, d) == [] && SaidWhilePiped(events, d, w) == []
  {
    var front, last := events[..|events| - 1], events[|events| - 1];
    var h := Run(START, front);
    RunKeepsInv(front);
    assert SocketOk(h, front, w);
    var o := Off(h, w, OnFirst);
    var e := last.message.reading.env;
    DecidedBlankFrom(h, front, w, d);
    NothingBeforePiping(front, d, w);
    assert Dispatch(First(h, w, Attach(e)), w, last.message.text, Attach(e), []) == First(h, w, Attach(e));
    assert h.sockets[w].onMessage[1..] == [];
    if e in h.envs {
      assert SocketOk(h, front, h.envs[e]);
      PipeBothPairs(o, e, w, h.envs[e]);
    }
  }

  lemma DecidedBlankFrom(h: RelayState, past: seq<Event>, w: SocketId, d: SocketId)
    requires Inv(h, past) && w in h.sockets && PastOf(past, w).role.Undecided?
    ensures From(h.sockets[w].sent, d) == [] && !Linked(h, d, w)
  {
    assert SocketOk(h, past, w);
    assert SocketOk(h, past, d);
    assert !Linked(h, w, d);
    assert SentOk(h, w);
  }

  // ------------------------------------------------------------ ends together

  /** Once one of the two has closed, the other is down. */
  ghost predicate Together(h: RelayState, w: SocketId, d: SocketId) {
    && Linked(h, w, d)
    && (Gone(h, w) ==> Down(h, d)) && (Gone(h, d) ==> Down(h, w))
  }

  lemma StepKeepsTogether(h: RelayState, past: seq<Event>, event: Event, w: SocketId, d: SocketId)
    requires Inv(h, past) && PastOf(past, w).role.Worker? && Together(h, w, d) && d in h.sockets
    ensures Together(Step(h, event), w, d)
  {
    var g := Step(h, event);
    StepLater(h, event);
    LaterLinks(h, g, w, d);
    LaterLinks(h, g, d, w);
    assert SocketOk(h, past, w);
    assert PairOk(h, past, w, d, PastOf(past, w).role.env);
    assert SocketOk(h, past, d);
    assert Linked(h, w, d) && Linked(h, d, w);
    if !Gone(h, w) && Gone(g, w) {
      ClosedTakes(h, past, event, w);
    }
    if !Gone(h, d) && Gone(g, d) {
      ClosedTakes(h, past, event, d);
    }
  }

  /** A socket closes by its close event alone, which takes down its counterparts. */
  lemma ClosedTakes(h: RelayState, past: seq<Event>, event: Event, x: SocketId)
    requires Inv(h, past) && x in h.sockets && !Gone(h, x) && Gone(Step(h, event), x)
    ensures event == Closed(x)
    ensures forall c <- h.sockets[x].onClose ::
              && (c.WorkerClosed? ==> Down(Step(h, event), c.daemon))
              && (c.DaemonClosed? ==> Down(Step(h, event), c.worker))
  {
    StepKeepsInv(h, past, event);
    assert SocketOk(h, past, x);
    assert SocketOk(Step(h, event), past + [event], x);
    PastAppend(past, event, x);
    DispatchCloseLater(MarkGone(h, x), x, h.sockets[x].onClose);
  }

  /** A close at either end closes both: once a worker and a daemon are piped and
      neither has closed alone, whatever happens next, when either has closed the other
      has been closed too. */
  lemma {:induction false} CloseTakesBoth(a: seq<Event>, b: seq<Event>, w: SocketId, d: SocketId)
    requires PastOf(a, w).role.Worker? && Together(Run(START, a), w, d)
    ensures Together(Run(START, a + b), w, d)
    decreases |b|
  {
    RunKeepsInv(a);
    assert SocketOk(Run(START, a), a, w);
    if b == [] {
      assert a + b == a;
    } else {
      var front, last := b[..|b| - 1], b[|b| - 1];
      assert a + b == (a + front) + [last];
      CloseTakesBoth(a, front, w, d);
      RunAppend(a + front, last);
      RunKeepsInv(a + front);
      WorkerForever(a, front, w);
      PipesAreMutual(a + front, w, d);
      StepKeepsTogether(Run(START, a + front), a + front, last, w, d);
    }
  }

  lemma {:induction false} WorkerForever(a: seq<Event>, b: seq<Event>, w: SocketId)
    requires PastOf(a, w).role.Worker?
    ensures PastOf(a + b, w).role == PastOf(a, w).role
    decreases |b|
  {
    if b == [] {
      assert a + b == a;
    } else {
      var front, last := b[..|b| - 1], b[|b| - 1];
      assert a + b == (a + front) + [last];
      WorkerForever(a, front, w);
      PastAppend(a + front, last, w);
    }
  }

  function DeadWaiter(e: EnvId): seq<Event> {
    [Connected(0), Received(0, Text("", Attach(e))), Closed(0), Connected(1), Received(1, Text("", Hello(e)))]
  }

  /** The first worker, before and after its attach, and closed. */
  function Alone(onMessage: seq<Listener>, onClose: seq<CloseListener>, gone: bool): Sockets {
    map[0 := Socket(onMessage, onClose, false, gone, [])]
  }

  lemma WorkerWaits(e: EnvId)
    ensures Step(RelayState(map[], map[], map[], map[], false, Alone([OnFirst], [], false)),
                 Received(0, Text("", Attach(e))))
         == RelayState(map[], map[e := [0]], map[], map[0 := []], false, Alone([OnBuffer], [WaiterClosed], false))
  {
    var h := RelayState(map[], map[], map[], map[], false, Alone([OnFirst], [], false));
    OffFirst(h, 0);
    var o := RelayState(map[], map[], map[], map[], false, Alone([], [], false));
    assert Off(h, 0, OnFirst) == o;
    HoldEffect(o, e, 0);
    var none: seq<SocketId> := Waiters(o, e);
    assert none + [0] == [0];
    assert Hold(o, e, 0).buffers == map[0 := []] && Hold(o, e, 0).waiting == map[e := [0]];
    assert Hold(o, e, 0).sockets == Alone([OnBuffer], [WaiterClosed], false);
    assert Dispatch(First(h, 0, Attach(e)), 0, "", Attach(e), []) == First(h, 0, Attach(e));
  }

  lemma WaiterDies(e: EnvId)
    ensures Step(RelayState(map[], map[e := [0]], map[], map[0 := []], false,
                            Alone([OnBuffer], [WaiterClosed], false)), Closed(0))
         == RelayState(map[], map[e := [0]], map[], map[], false, Alone([], [], true))
  {
    var m := RelayState(map[], map[e := [0]], map[], map[0 := []], false, Alone([OnBuffer], [], true));
    assert Without([OnBuffer], OnBuffer) == [];
    assert HandleClose(m, 0, WaiterClosed).buffers == map[];
    assert HandleClose(m, 0, WaiterClosed).sockets == Alone([], [], true);
    assert DispatchClose(m, 0, [WaiterClosed]) == HandleClose(m, 0, WaiterClosed);
  }

  lemma DaemonTakesDeadWaiter(e: EnvId)
    ensures var h := RelayState(map[], map[e := [0]], map[], map[], false,
                                Alone([], [], true)[1 := Socket([OnFirst], [], false, false, [])]);
            var g := Step(h, Received(1, Text("", Hello(e))));
            Linked(g, 0, 1) && Gone(g, 0) && !Down(g, 1) && e in g.workers && g.workers[e] == 0
  {
    var h := RelayState(map[], map[e := [0]], map[], map[], false,
                        Alone([], [], true)[1 := Socket([OnFirst], [], false, false, [])]);
    OffFirst(h, 1);
    var t := TakeOver(Off(h, 1, OnFirst), e, 1);
    PipeBothPairs(t, e, 0, 1);
    assert Dispatch(First(h, 1, Hello(e)), 1, "", Hello(e), []) == First(h, 1, Hello(e));
  }

  /** The pair must be made while both are connected: a worker that closed while it
      waited is still paired with the next daemon, which stays open. */
  lemma DeadWaiterIsPaired(e: EnvId)
    ensures var h := Run(START, DeadWaiter(e));
            Linked(h, 0, 1) && Gone(h, 0) && !Down(h, 1) && e in h.workers && h.workers[e] == 0
  {
    var es := DeadWaiter(e);
    WorkerWaits(e);
    WaiterDies(e);
    DaemonTakesDeadWaiter(e);
    RunAppend([], es[0]);
    RunAppend(es[..1], es[1]);
    RunAppend(es[..2], es[2]);
    RunAppend(es[..3], es[3]);
    RunAppend(es[..4], es[4]);
    assert [] + [es[0]] == es[..1] && es[..1] + [es[1]] == es[..2] && es[..2] + [es[2]] == es[..3];
    assert es[..3] + [es[3]] == es[..4] && es[..4] + [es[4]] == es;
    assert START.sockets[0 := Socket([OnFirst], [], false, false, [])] == Alone([OnFirst], [], false);
  }
}
