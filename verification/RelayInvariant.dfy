/** What every run of the relay keeps: who is linked to whom, who may be sent to, and
    what each daemon was sent. The invariant relates each socket to its own history, the
    role its first frame gave it and the frames it sent after that, so a step on one
    socket has to be shown harmless for all others; most lemmas say that of one function
    of the relay, and `RunKeepsInv` puts them together. */
module RelayInvariant {
  import opened Relay

  /** The texts a socket was sent from one other socket. */
  function From(sent: seq<Delivery>, s: SocketId): seq<string> {
    if sent == [] then []
    else
      var last := sent[|sent| - 1];
      From(sent[..|sent| - 1], s) + if last.Piped? && last.from == s then [last.text] else []
  }

  /** Frames of `x` are forwarded to `y`. */
  predicate Linked(h: RelayState, x: SocketId, y: SocketId) {
    x in h.sockets && OnForward(y) in h.sockets[x].onMessage
  }

  predicate Gone(h: RelayState, s: SocketId) {
    s in h.sockets && h.sockets[s].gone
  }

  predicate Distinct<T(==)>(xs: seq<T>) {
    forall i, j :: 0 <= i < j < |xs| ==> xs[i] != xs[j]
  }

  ghost predicate DaemonOk(h: RelayState, past: seq<Event>, s: SocketId, e: EnvId)
    requires s in h.sockets
  {
    && OnFirst !in h.sockets[s].onMessage && OnBuffer !in h.sockets[s].onMessage
    && (forall w {:trigger Linked(h, s, w)} :: Linked(h, s, w) ==>
          && Linked(h, w, s) && PastOf(past, w).role == Worker(e)
          && (!Gone(h, s) ==> DaemonClosed(e, w) in h.sockets[s].onClose))
    && (!Down(h, s) ==> e in h.envs && h.envs[e] == s)
  }

  ghost predicate Unlinked(h: RelayState, s: SocketId) {
    forall d {:trigger Linked(h, s, d)} :: !Linked(h, s, d)
  }

  ghost predicate PairOk(h: RelayState, past: seq<Event>, w: SocketId, d: SocketId, e: EnvId)
    requires w in h.sockets
  {
    && Linked(h, d, w) && PastOf(past, d).role == Daemon(e) && w !in h.buffers
    && (!Gone(h, w) ==> WorkerClosed(e, d) in h.sockets[w].onClose)
    && (!Down(h, w) ==> e in h.workers && h.workers[e] == w)
    && (!Gone(h, w) && !Down(h, d) ==> From(h.sockets[d].sent, w) == PastOf(past, w).said)
  }

  ghost predicate WorkerOk(h: RelayState, past: seq<Event>, s: SocketId, e: EnvId)
    requires s in h.sockets
  {
    && OnFirst !in h.sockets[s].onMessage
    && (forall d {:trigger Linked(h, s, d)} :: Linked(h, s, d) ==> PairOk(h, past, s, d, e))
    && (forall d, f {:trigger Linked(h, s, d), Linked(h, s, f)} :: Linked(h, s, d) && Linked(h, s, f) ==> d == f)
    && (Unlinked(h, s) && !Gone(h, s) ==>
          s in h.buffers && h.buffers[s] == PastOf(past, s).said && OnBuffer in h.sockets[s].onMessage)
  }

  ghost predicate SentOk(h: RelayState, s: SocketId)
    requires s in h.sockets
  {
    forall x {:trigger From(h.sockets[s].sent, x)} :: From(h.sockets[s].sent, x) != [] ==> Linked(h, x, s)
  }

  ghost predicate RoleOk(h: RelayState, past: seq<Event>, s: SocketId)
    requires s in h.sockets
  {
    match PastOf(past, s).role
    case Unknown => false
    case Undecided =>
      && h.sockets[s].onMessage == [OnFirst] && h.sockets[s].onClose == []
      && s !in h.buffers && PastOf(past, s).said == []
    case Rejected => h.sockets[s].onMessage == []
    case Daemon(e) => DaemonOk(h, past, s, e)
    case Worker(e) => WorkerOk(h, past, s, e)
  }

  ghost predicate SocketOk(h: RelayState, past: seq<Event>, s: SocketId) {
    && (s !in h.sockets ==> PastOf(past, s) == Past(Unknown, [], false) && s !in h.buffers)
    && (s in h.sockets ==>
          && h.sockets[s].gone == PastOf(past, s).gone
          && Distinct(h.sockets[s].onMessage) && SentOk(h, s) && RoleOk(h, past, s))
  }

  /** The tables name daemons and workers of their env. */
  ghost predicate TablesOk(h: RelayState, past: seq<Event>) {
    forall e {:trigger e in h.envs} {:trigger e in h.workers} ::
      && (e in h.envs ==> PastOf(past, h.envs[e]).role == Daemon(e))
      && (e in h.workers ==> PastOf(past, h.workers[e]).role == Worker(e))
  }

  ghost predicate SocketsOk(h: RelayState, past: seq<Event>) {
    forall s {:trigger SocketOk(h, past, s)} :: SocketOk(h, past, s)
  }

  ghost predicate WaitersOk(h: RelayState, past: seq<Event>) {
    forall e, s {:trigger s in Waiters(h, e)} ::
      s in Waiters(h, e) ==> PastOf(past, s).role == Worker(e) && Unlinked(h, s)
  }

  ghost predicate Core(h: RelayState, past: seq<Event>) {
    TablesOk(h, past) && SocketsOk(h, past)
  }

  /** The same of every socket but one that is about to be settled. */
  ghost predicate CoreBut(h: RelayState, past: seq<Event>, but: SocketId) {
    && TablesOk(h, past)
    && (forall s {:trigger SocketOk(h, past, s)} :: s != but ==> SocketOk(h, past, s))
  }

  ghost predicate Inv(h: RelayState, past: seq<Event>) {
    TablesOk(h, past) && SocketsOk(h, past) && WaitersOk(h, past)
  }

  lemma PastAppend(past: seq<Event>, event: Event, s: SocketId)
    ensures PastOf(past + [event], s) == Noted(PastOf(past, s), s, event)
  {
    assert (past + [event])[..|past|] == past;
  }

  lemma {:induction false} WithoutMembers<T>(xs: seq<T>, x: T, y: T)
    ensures y in Without(xs, x) <==> y in xs && y != x
  {
    if xs != [] {
      WithoutMembers(xs[1..], x, y);
      assert xs == [xs[0]] + xs[1..];
    }
  }

  lemma {:induction false} WithoutAbsent<T>(xs: seq<T>, x: T)
    requires x !in xs
    ensures Without(xs, x) == xs
  {
    if xs != [] {
      WithoutAbsent(xs[1..], x);
      assert xs == [xs[0]] + xs[1..];
    }
  }

  lemma {:induction false} WithoutDistinct<T>(xs: seq<T>, x: T)
    requires Distinct(xs)
    ensures Distinct(Without(xs, x))
  {
    if xs != [] {
      assert forall i, j :: 0 <= i < j < |xs[1..]| ==> xs[1..][i] == xs[i + 1] && xs[1..][j] == xs[j + 1];
      WithoutDistinct(xs[1..], x);
      WithoutMembers(xs[1..], x, xs[0]);
    }
  }

  // ---------------------------------------------------------- small changes

  ghost predicate SameLinks(h: RelayState, g: RelayState) {
    forall x, y {:trigger Linked(g, x, y)} {:trigger Linked(h, x, y)} :: Linked(g, x, y) <==> Linked(h, x, y)
  }

  /** A socket that changed in nothing the invariant looks at, but may be closing or
      gone. */
  ghost predicate Alike(h: RelayState, g: RelayState, x: SocketId) {
    && x in h.sockets && x in g.sockets
    && (h.sockets[x].closing ==> g.sockets[x].closing) && (h.sockets[x].gone ==> g.sockets[x].gone)
    && (g.sockets[x].gone || h.sockets[x].onClose <= g.sockets[x].onClose)
    && (forall y {:trigger From(g.sockets[x].sent, y)} :: From(g.sockets[x].sent, y) == From(h.sockets[x].sent, y))
  }

  ghost predicate AllAlike(h: RelayState, g: RelayState) {
    SameLinks(h, g) && forall x {:trigger Alike(h, g, x)} :: x in h.sockets ==> Alike(h, g, x)
  }

  ghost predicate KeptIn(h: RelayState, g: RelayState, x: SocketId) {
    && x in h.sockets && x in g.sockets && g.sockets[x].onMessage == h.sockets[x].onMessage
    && (x in h.buffers <==> x in g.buffers) && (x in h.buffers ==> g.buffers[x] == h.buffers[x])
    && (!Down(g, x) ==> forall e <- h.envs :: h.envs[e] == x ==> e in g.envs && g.envs[e] == x)
    && (!Down(g, x) ==> forall e <- h.workers :: h.workers[e] == x ==> e in g.workers && g.workers[e] == x)
  }

  ghost predicate SamePast(past: seq<Event>, post: seq<Event>, x: SocketId) {
    PastOf(post, x).role == PastOf(past, x).role && PastOf(post, x).said == PastOf(past, x).said
  }

  lemma AlikeOk(h: RelayState, g: RelayState, past: seq<Event>, post: seq<Event>, x: SocketId)
    requires SocketOk(h, past, x) && AllAlike(h, g) && KeptIn(h, g, x)
    requires SamePast(past, post, x) && g.sockets[x].gone == PastOf(post, x).gone
    requires forall y {:trigger Linked(h, x, y)} :: Linked(h, x, y) ==> SamePast(past, post, y)
    requires PastOf(past, x).role.Undecided? ==> g.sockets[x].onClose == h.sockets[x].onClose
    ensures SocketOk(g, post, x)
  {
    assert Alike(h, g, x);
    assert SentOk(g, x);
    match PastOf(past, x).role
    case Daemon(e) => assert DaemonOk(g, post, x, e);
    case Worker(e) =>
      forall d | Linked(g, x, d) ensures PairOk(g, post, x, d, e) {
        assert PairOk(h, past, x, d, e);
        assert Alike(h, g, d);
      }
      assert Unlinked(g, x) ==> Unlinked(h, x);
      assert WorkerOk(g, post, x, e);
    case _ =>
  }

  /** Links join sockets that both know of them. */
  lemma LinkedBack(h: RelayState, past: seq<Event>, x: SocketId, y: SocketId)
    requires SocketOk(h, past, x) && Linked(h, x, y)
    ensures Linked(h, y, x)
  {
  }

  // ----------------------------------------------------------------- closing

  ghost predicate ClosingAt(h: RelayState, g: RelayState, x: SocketId) {
    && x in h.sockets && x in g.sockets && (h.sockets[x].closing ==> g.sockets[x].closing)
    && g.sockets[x] == h.sockets[x].(closing := g.sockets[x].closing)
  }

  ghost predicate SocketsClose(h: RelayState, g: RelayState) {
    && g.sockets.Keys == h.sockets.Keys
    && (forall x {:trigger ClosingAt(h, g, x)} :: x in h.sockets ==> ClosingAt(h, g, x))
  }

  /** A table that lost only entries of sockets that are down. */
  ghost predicate LosesDown(before: map<EnvId, SocketId>, after: map<EnvId, SocketId>, g: RelayState) {
    forall e {:trigger e in after} {:trigger e in before} ::
      && (e in after ==> e in before && after[e] == before[e])
      && (e in before && e !in after ==> Down(g, before[e]))
  }

  /** The same relay, but that more sockets are closing and the tables may have lost
      entries of sockets that are down. */
  ghost predicate Closes(h: RelayState, g: RelayState) {
    && SocketsClose(h, g) && g.buffers == h.buffers
    && LosesDown(h.envs, g.envs, g) && LosesDown(h.workers, g.workers, g)
  }

  lemma ClosesKeepsCore(h: RelayState, g: RelayState, past: seq<Event>)
    requires Core(h, past) && Closes(h, g)
    ensures Core(g, past)
  {
    ClosesLinks(h, g);
    forall x | x in h.sockets ensures Alike(h, g, x) {
      assert ClosingAt(h, g, x);
    }
    forall s ensures SocketOk(g, past, s) {
      assert SocketOk(h, past, s);
      if s in h.sockets {
        assert ClosingAt(h, g, s);
        AlikeOk(h, g, past, past, s);
      }
    }
  }

  lemma ClosesLinks(h: RelayState, g: RelayState)
    requires SocketsClose(h, g)
    ensures SameLinks(h, g)
  {
    forall x, y ensures Linked(g, x, y) <==> Linked(h, x, y) {
      if x in h.sockets {
        assert ClosingAt(h, g, x);
      }
    }
  }

  lemma MarkGoneKeepsCore(h: RelayState, past: seq<Event>, s: SocketId)
    requires Core(h, past) && s in h.sockets && !h.sockets[s].gone
    ensures Core(MarkGone(h, s), past + [Closed(s)])
  {
    var post := past + [Closed(s)];
    var g := MarkGone(h, s);
    assert SameLinks(h, g);
    forall x ensures PastOf(post, x).role == PastOf(past, x).role && PastOf(post, x).said == PastOf(past, x).said {
      PastAppend(past, Closed(s), x);
    }
    forall x ensures SocketOk(g, post, x) {
      PastAppend(past, Closed(s), x);
      assert SocketOk(h, past, x);
      if x in h.sockets {
        AlikeOk(h, g, past, post, x);
      }
    }
  }

  lemma WaiterClosedKeepsCore(h: RelayState, past: seq<Event>, s: SocketId)
    requires Core(h, past) && Gone(h, s)
    ensures Core(HandleClose(h, s, WaiterClosed), past)
  {
    var g := HandleClose(h, s, WaiterClosed);
    forall l ensures l in g.sockets[s].onMessage <==> l in h.sockets[s].onMessage && l != OnBuffer {
      WithoutMembers(h.sockets[s].onMessage, OnBuffer, l);
    }
    assert SocketOk(h, past, s);
    WithoutDistinct(h.sockets[s].onMessage, OnBuffer);
    if OnBuffer !in h.sockets[s].onMessage {
      WithoutAbsent(h.sockets[s].onMessage, OnBuffer);
    }
    assert SameLinks(h, g);
    forall x ensures SocketOk(g, past, x) {
      assert SocketOk(h, past, x);
      if x in h.sockets {
        assert SentOk(g, x);
        match PastOf(past, x).role
        case Daemon(e) => assert DaemonOk(g, past, x, e);
        case Worker(e) =>
          forall d | Linked(g, x, d) ensures PairOk(g, past, x, d, e) {
            assert PairOk(h, past, x, d, e);
          }
          assert WorkerOk(g, past, x, e);
        case _ =>
      }
    }
  }

  lemma WaitersShrink(h: RelayState, g: RelayState, past: seq<Event>)
    requires WaitersOk(h, past)
    requires forall x, y {:trigger Linked(g, x, y)} :: Linked(g, x, y) ==> Linked(h, x, y)
    requires forall e, s {:trigger s in Waiters(g, e)} :: s in Waiters(g, e) ==> s in Waiters(h, e)
    ensures WaitersOk(g, past)
  {
    forall e, s | s in Waiters(g, e) ensures Unlinked(g, s) && PastOf(past, s).role == Worker(e) {
      assert s in Waiters(h, e);
      assert forall d :: Linked(g, s, d) ==> Linked(h, s, d);
    }
  }

  lemma WaiterClosedLinks(h: RelayState, s: SocketId)
    requires Gone(h, s)
    ensures Gone(HandleClose(h, s, WaiterClosed), s)
    ensures SameLinks(h, HandleClose(h, s, WaiterClosed))
  {
    forall l ensures l in Without(h.sockets[s].onMessage, OnBuffer) <==> l in h.sockets[s].onMessage && l != OnBuffer {
      WithoutMembers(h.sockets[s].onMessage, OnBuffer, l);
    }
  }

  lemma HandleCloseKeepsInv(h: RelayState, past: seq<Event>, s: SocketId, c: CloseListener)
    requires Inv(h, past) && Gone(h, s)
    ensures Inv(HandleClose(h, s, c), past) && Gone(HandleClose(h, s, c), s)
  {
    var g := HandleClose(h, s, c);
    HandleCloseWaiters(h, s, c);
    if c.WaiterClosed? {
      WaiterClosedKeepsCore(h, past, s);
      WaiterClosedLinks(h, s);
      WaitersShrink(h, g, past);
    } else {
      ClosesKeepsCore(h, g, past);
      ClosesLinks(h, g);
      WaitersShrink(h, g, past);
    }
  }

  lemma HandleCloseWaiters(h: RelayState, s: SocketId, c: CloseListener)
    ensures forall e, w {:trigger w in Waiters(HandleClose(h, s, c), e)} ::
              w in Waiters(HandleClose(h, s, c), e) ==> w in Waiters(h, e)
  {
    forall e, w | w in Waiters(HandleClose(h, s, c), e) ensures w in Waiters(h, e) {
      if c.WorkerClosed? && e == c.env && e in h.waiting {
        WithoutMembers(h.waiting[e], s, w);
      }
    }
  }

  lemma {:induction false} DispatchCloseKeepsInv(h: RelayState, past: seq<Event>, s: SocketId, cs: seq<CloseListener>)
    requires Inv(h, past) && Gone(h, s)
    ensures Inv(DispatchClose(h, s, cs), past)
    decreases |cs|
  {
    if cs != [] {
      HandleCloseKeepsInv(h, past, s, cs[0]);
      DispatchCloseKeepsInv(HandleClose(h, s, cs[0]), past, s, cs[1..]);
    }
  }

  lemma ClosedKeepsInv(h: RelayState, past: seq<Event>, s: SocketId)
    requires Inv(h, past)
    ensures Inv(Step(h, Closed(s)), past + [Closed(s)])
  {
    var post := past + [Closed(s)];
    forall x ensures PastOf(post, x).role == PastOf(past, x).role {
      PastAppend(past, Closed(s), x);
    }
    assert SocketOk(h, past, s);
    if s in h.sockets && !h.sockets[s].gone {
      MarkGoneKeepsCore(h, past, s);
      var g := MarkGone(h, s);
      assert SameLinks(h, g);
      assert WaitersOk(h, post);
      WaitersShrink(h, g, post);
      DispatchCloseKeepsInv(g, post, s, h.sockets[s].onClose);
    } else {
      IdleKeepsInv(h, past, Closed(s));
    }
  }

  /** An event that is no news to any socket's history changes nothing. */
  lemma IdleKeepsInv(h: RelayState, past: seq<Event>, event: Event)
    requires Inv(h, past)
    requires forall x :: Noted(PastOf(past, x), x, event) == PastOf(past, x)
    ensures Inv(h, past + [event])
  {
    var post := past + [event];
    forall x ensures PastOf(post, x) == PastOf(past, x) {
      PastAppend(past, event, x);
    }
    forall x ensures SocketOk(h, post, x) {
      assert SocketOk(h, past, x);
      if x in h.sockets {
        AlikeOk(h, h, past, post, x);
      }
    }
    assert WaitersOk(h, post);
  }

  lemma ShutdownKeepsInv(h: RelayState, past: seq<Event>)
    requires Inv(h, past)
    ensures Inv(Step(h, Shutdown), past + [Shutdown])
  {
    IdleKeepsInv(h, past, Shutdown);
    if !h.closed {
      var g := Step(h, Shutdown);
      ClosesKeepsCore(h, g, past + [Shutdown]);
      assert WaitersOk(g, past + [Shutdown]);
    }
  }

  lemma ConnectedKeepsInv(h: RelayState, past: seq<Event>, s: SocketId)
    requires Inv(h, past)
    ensures Inv(Step(h, Connected(s)), past + [Connected(s)])
  {
    assert SocketOk(h, past, s);
    if s in h.sockets {
      IdleKeepsInv(h, past, Connected(s));
    } else {
      var post := past + [Connected(s)];
      var g := Step(h, Connected(s));
      assert SameLinks(h, g);
      forall x ensures x != s ==> PastOf(post, x) == PastOf(past, x) {
        PastAppend(past, Connected(s), x);
      }
      PastAppend(past, Connected(s), s);
      forall x ensures SocketOk(g, post, x) {
        assert SocketOk(h, past, x);
        if x in h.sockets {
          forall y | Linked(h, x, y) ensures SamePast(past, post, y) {
            LinkedBack(h, past, x, y);
          }
          AlikeOk(h, g, past, post, x);
        }
      }
      forall e, w | w in Waiters(g, e) ensures Unlinked(g, w) && PastOf(post, w).role == Worker(e) {
        assert w in Waiters(h, e);
      }
    }
  }

  // --------------------------------------------------------------- messages

  function Heard(k: Socket, x: SocketId, s: SocketId, text: string, listeners: seq<Listener>): Socket {
    if OnForward(x) in listeners && !k.closing && !k.gone then k.(sent := k.sent + [Piped(s, text)]) else k
  }

  /** One message, delivered to listeners that only buffer or forward. */
  ghost predicate Forwarded(h: RelayState, g: RelayState, s: SocketId, text: string, listeners: seq<Listener>) {
    && g.sockets.Keys == h.sockets.Keys
    && g.envs == h.envs && g.waiting == h.waiting && g.workers == h.workers && g.closed == h.closed
    && g.buffers == (if OnBuffer in listeners && s in h.buffers then h.buffers[s := h.buffers[s] + [text]]
                     else h.buffers)
    && forall x <- h.sockets :: g.sockets[x] == Heard(h.sockets[x], x, s, text, listeners)
  }

  lemma ForwardedThen(h: RelayState, k: RelayState, g: RelayState, s: SocketId, text: string, l: Listener,
                      rest: seq<Listener>)
    requires Forwarded(h, k, s, text, [l]) && Forwarded(k, g, s, text, rest) && l !in rest
    ensures Forwarded(h, g, s, text, [l] + rest)
  {
    forall x | x in h.sockets ensures g.sockets[x] == Heard(h.sockets[x], x, s, text, [l] + rest) {
      assert g.sockets[x] == Heard(Heard(h.sockets[x], x, s, text, [l]), x, s, text, rest);
    }
  }

  lemma DeliverForwards(h: RelayState, s: SocketId, text: string, reading: Reading, l: Listener)
    requires !l.OnFirst?
    ensures Forwarded(h, Deliver(h, s, text, reading, l), s, text, [l])
  {
  }

  lemma {:induction false} DispatchForwards(h: RelayState, s: SocketId, text: string, reading: Reading,
                                            listeners: seq<Listener>)
    requires Distinct(listeners) && OnFirst !in listeners
    ensures Forwarded(h, Dispatch(h, s, text, reading, listeners), s, text, listeners)
    decreases |listeners|
  {
    if listeners != [] {
      var l, rest := listeners[0], listeners[1..];
      assert listeners == [l] + rest;
      assert forall i :: 0 <= i < |rest| ==> rest[i] == listeners[i + 1];
      assert Distinct(rest) && l !in rest;
      var k := Deliver(h, s, text, reading, l);
      DeliverForwards(h, s, text, reading, l);
      DispatchForwards(k, s, text, reading, rest);
      ForwardedThen(h, k, Dispatch(k, s, text, reading, rest), s, text, l, rest);
    }
  }

  lemma ForwardedSent(h: RelayState, g: RelayState, s: SocketId, text: string, x: SocketId, y: SocketId)
    requires x in h.sockets && s in h.sockets && Forwarded(h, g, s, text, h.sockets[s].onMessage)
    ensures From(g.sockets[x].sent, y)
            == From(h.sockets[x].sent, y) + if y == s && Linked(h, s, x) && !Down(h, x) then [text] else []
  {
  }

  lemma ForwardedLinks(h: RelayState, g: RelayState, s: SocketId, text: string, listeners: seq<Listener>)
    requires Forwarded(h, g, s, text, listeners)
    ensures SameLinks(h, g)
    ensures forall x :: Down(g, x) == Down(h, x) && Gone(g, x) == Gone(h, x)
  {
    forall x, y ensures Linked(g, x, y) <==> Linked(h, x, y) {
      if x in h.sockets {
        assert g.sockets[x].onMessage == h.sockets[x].onMessage;
      }
    }
  }

  ghost predicate Spoke(past: seq<Event>, post: seq<Event>, s: SocketId, text: string) {
    forall x {:trigger PastOf(post, x)} {:trigger PastOf(past, x)} ::
      PastOf(post, x) == if x == s then PastOf(past, x).(said := PastOf(past, x).said + [text]) else PastOf(past, x)
  }

  lemma ForwardedSocketOk(h: RelayState, g: RelayState, past: seq<Event>, post: seq<Event>, s: SocketId, text: string,
                          x: SocketId)
    requires s in h.sockets && x in h.sockets && Core(h, past) && Spoke(past, post, s, text)
    requires !PastOf(past, s).role.Undecided?
    requires Forwarded(h, g, s, text, h.sockets[s].onMessage)
    ensures SocketOk(g, post, x)
  {
    ForwardedLinks(h, g, s, text, h.sockets[s].onMessage);
    assert SocketOk(h, past, x);
    forall y ensures From(g.sockets[x].sent, y) != [] ==> Linked(g, y, x) {
      ForwardedSent(h, g, s, text, x, y);
    }
    assert SentOk(g, x);
    match PastOf(past, x).role
    case Daemon(e) => assert DaemonOk(g, post, x, e);
    case Worker(e) => ForwardedWorkerOk(h, g, past, post, s, text, x, e);
    case _ =>
  }

  lemma ForwardedWorkerOk(h: RelayState, g: RelayState, past: seq<Event>, post: seq<Event>, s: SocketId, text: string,
                          x: SocketId, e: EnvId)
    requires s in h.sockets && x in h.sockets && x in g.sockets && WorkerOk(h, past, x, e) && Spoke(past, post, s, text)
    requires Forwarded(h, g, s, text, h.sockets[s].onMessage)
    ensures WorkerOk(g, post, x, e)
  {
    ForwardedLinks(h, g, s, text, h.sockets[s].onMessage);
    forall d | Linked(g, x, d) ensures PairOk(g, post, x, d, e) {
      assert PairOk(h, past, x, d, e);
      ForwardedSent(h, g, s, text, d, x);
    }
    assert Unlinked(g, x) ==> Unlinked(h, x);
  }

  lemma ForwardKeepsInv(h: RelayState, past: seq<Event>, s: SocketId, text: string, reading: Reading)
    requires Inv(h, past) && s in h.sockets && !h.sockets[s].gone && !PastOf(past, s).role.Undecided?
    ensures Inv(Step(h, Received(s, Text(text, reading))), past + [Received(s, Text(text, reading))])
  {
    var event := Received(s, Text(text, reading));
    var post := past + [event];
    var g := Step(h, event);
    assert SocketOk(h, past, s);
    DispatchForwards(h, s, text, reading, h.sockets[s].onMessage);
    ForwardedLinks(h, g, s, text, h.sockets[s].onMessage);
    forall x ensures PastOf(post, x)
                     == if x == s then PastOf(past, x).(said := PastOf(past, x).said + [text]) else PastOf(past, x) {
      PastAppend(past, event, x);
    }
    forall x ensures SocketOk(g, post, x) {
      assert SocketOk(h, past, x);
      if x in h.sockets {
        ForwardedSocketOk(h, g, past, post, s, text, x);
      }
    }
    assert WaitersOk(h, post);
    WaitersShrink(h, g, post);
  }

  // ----------------------------------------------------------------- pairing

  /** A worker that may be paired: linked to nobody, with what it said held for it. */
  ghost predicate Ready(h: RelayState, past: seq<Event>, e: EnvId, w: SocketId) {
    && w in h.sockets && h.sockets[w].gone == PastOf(past, w).gone && PastOf(past, w).role == Worker(e)
    && Distinct(h.sockets[w].onMessage) && OnFirst !in h.sockets[w].onMessage && SentOk(h, w)
    && Unlinked(h, w)
    && (forall x {:trigger Linked(h, x, w)} :: !Linked(h, x, w))
    && (forall x <- h.sockets :: From(h.sockets[x].sent, w) == [])
    && (!Gone(h, w) ==> PastOf(past, w).said == if w in h.buffers then h.buffers[w] else [])
  }

  lemma WaiterReady(h: RelayState, past: seq<Event>, e: EnvId, w: SocketId)
    requires Core(h, past) && PastOf(past, w).role == Worker(e) && Unlinked(h, w)
    ensures Ready(h, past, e, w)
  {
    assert SocketOk(h, past, w);
    forall x ensures !Linked(h, x, w) {
      assert SocketOk(h, past, x);
      assert !Linked(h, w, x);
    }
    forall x | x in h.sockets ensures From(h.sockets[x].sent, w) == [] {
      assert SocketOk(h, past, x);
      assert SentOk(h, x);
      assert !Linked(h, w, x);
    }
  }

  function Outgoing(w: SocketId, frames: seq<string>): seq<Delivery> {
    if frames == [] then [] else [Piped(w, frames[0])] + Outgoing(w, frames[1..])
  }

  lemma {:induction false} FromOutgoing(sent: seq<Delivery>, w: SocketId, frames: seq<string>, y: SocketId)
    ensures From(sent + Outgoing(w, frames), y) == From(sent, y) + if y == w then frames else []
    decreases |frames|
  {
    if frames == [] {
      assert sent + Outgoing(w, frames) == sent;
    } else {
      assert sent + Outgoing(w, frames) == (sent + [Piped(w, frames[0])]) + Outgoing(w, frames[1..]);
      FromOutgoing(sent + [Piped(w, frames[0])], w, frames[1..], y);
      assert frames == [frames[0]] + frames[1..];
    }
  }

  lemma {:induction false} FlushLost(all: Sockets, w: SocketId, d: SocketId, frames: seq<string>)
    requires d !in all || all[d].closing || all[d].gone
    ensures FlushedTo(all, w, d, frames) == all
    decreases |frames|
  {
    if frames != [] {
      FlushLost(all, w, d, frames[1..]);
    }
  }

  lemma {:induction false} FlushEffect(all: Sockets, w: SocketId, d: SocketId, frames: seq<string>)
    requires d in all && !all[d].closing && !all[d].gone
    ensures FlushedTo(all, w, d, frames) == all[d := all[d].(sent := all[d].sent + Outgoing(w, frames))]
    decreases |frames|
  {
    OutgoingStep(all[d].sent, w, frames);
    if frames != [] {
      var k := all[d].(sent := all[d].sent + [Piped(w, frames[0])]);
      FlushEffect(all[d := k], w, d, frames[1..]);
      SetTwice(all, d, k, k.(sent := k.sent + Outgoing(w, frames[1..])));
    }
  }

  lemma OutgoingStep(sent: seq<Delivery>, w: SocketId, frames: seq<string>)
    ensures frames == [] ==> sent + Outgoing(w, frames) == sent
    ensures frames != [] ==>
      (sent + [Piped(w, frames[0])]) + Outgoing(w, frames[1..]) == sent + Outgoing(w, frames)
  {
  }

  lemma SetTwice(all: Sockets, d: SocketId, k: Socket, l: Socket)
    ensures all[d := k][d := l] == all[d := l]
  {
  }

  /** What pairing does to the sockets, given the frames held for the worker. */
  ghost predicate PairedSockets(all: Sockets, after: Sockets, e: EnvId, w: SocketId, d: SocketId, held: seq<string>)
    requires w in all && d in all
  {
    && after.Keys == all.Keys
    && after[w] == all[w].(onMessage := all[w].onMessage + [OnForward(d)],
                           onClose := all[w].onClose + [WorkerClosed(e, d)])
    && after[d] == all[d].(onMessage := all[d].onMessage + [OnForward(w)],
                           onClose := all[d].onClose + [DaemonClosed(e, w)],
                           sent := after[d].sent)
    && (forall y :: From(after[d].sent, y)
                    == From(all[d].sent, y) + if y == w && !all[d].closing && !all[d].gone then held else [])
    && (forall x <- all :: x != w && x != d ==>
          after[x] == all[x].(closing := after[x].closing) && (all[x].closing ==> after[x].closing))
  }

  function HeldFor(h: RelayState, w: SocketId): seq<string> {
    if w in h.buffers then h.buffers[w] else []
  }

  ghost predicate Paired(h: RelayState, g: RelayState, e: EnvId, w: SocketId, d: SocketId)
    requires w in h.sockets && d in h.sockets
  {
    && PairedSockets(h.sockets, g.sockets, e, w, d, HeldFor(h, w))
    && g.envs == h.envs && g.waiting == h.waiting && g.closed == h.closed
    && g.workers == h.workers[e := w] && g.buffers == h.buffers - {w}
    && (e in h.workers && h.workers[e] != w ==> Down(g, h.workers[e]))
  }

  lemma FlushedFrom(all: Sockets, w: SocketId, d: SocketId, frames: seq<string>)
    requires d in all
    ensures var after := FlushedTo(all, w, d, frames);
            && d in after && after == all[d := all[d].(sent := after[d].sent)]
            && forall y :: From(after[d].sent, y)
                           == From(all[d].sent, y) + if y == w && !all[d].closing && !all[d].gone then frames else []
  {
    if all[d].closing || all[d].gone {
      FlushLost(all, w, d, frames);
    } else {
      FlushEffect(all, w, d, frames);
    }
    forall y
      ensures From(all[d].sent + Outgoing(w, frames), y) == From(all[d].sent, y) + if y == w then frames else []
    {
      FromOutgoing(all[d].sent, w, frames, y);
    }
  }

  lemma SocketsPaired(all: Sockets, table: map<EnvId, SocketId>, e: EnvId, w: SocketId, d: SocketId, held: seq<string>)
    requires w in all && d in all && w != d
    requires e in table ==> table[e] != d
    ensures var flushed := FlushedTo(all, w, d, held);
            var after := Joined(Joined(Displaced(flushed, table, e, w), w, OnForward(d), WorkerClosed(e, d)),
                                d, OnForward(w), DaemonClosed(e, w));
            && PairedSockets(all, after, e, w, d, held)
            && (e in table && table[e] != w && table[e] in all ==> after[table[e]].closing)
  {
    FlushedFrom(all, w, d, held);
    var flushed := FlushedTo(all, w, d, held);
    var displaced := Displaced(flushed, table, e, w);
  }

  lemma PipeBothFields(h: RelayState, e: EnvId, w: SocketId, d: SocketId)
    ensures PipeBoth(h, e, w, d)
            == h.(workers := h.workers[e := w], buffers := h.buffers - {w},
                  sockets := Joined(Joined(Displaced(FlushedTo(h.sockets, w, d, HeldFor(h, w)), h.workers, e, w),
                                           w, OnForward(d), WorkerClosed(e, d)),
                                    d, OnForward(w), DaemonClosed(e, w)))
  {
    assert Flushed(h, w, d) == h.(buffers := h.buffers - {w}, sockets := FlushedTo(h.sockets, w, d, HeldFor(h, w)));
  }

  lemma PipeBothPairs(h: RelayState, e: EnvId, w: SocketId, d: SocketId)
    requires w in h.sockets && d in h.sockets && w != d
    requires e in h.workers ==> h.workers[e] != d
    ensures Paired(h, PipeBoth(h, e, w, d), e, w, d)
  {
    SocketsPaired(h.sockets, h.workers, e, w, d, HeldFor(h, w));
    PipeBothFields(h, e, w, d);
  }

  lemma PairedLinks(h: RelayState, g: RelayState, e: EnvId, w: SocketId, d: SocketId)
    requires w in h.sockets && d in h.sockets && w != d && Paired(h, g, e, w, d)
    ensures forall x, y {:trigger Linked(g, x, y)} {:trigger Linked(h, x, y)} ::
              Linked(g, x, y) <==> Linked(h, x, y) || (x == w && y == d) || (x == d && y == w)
  {
  }

  lemma PairKeepsCore(h: RelayState, past: seq<Event>, e: EnvId, w: SocketId, d: SocketId)
    requires CoreBut(h, past, w) && Ready(h, past, e, w)
    requires d in h.sockets && PastOf(past, d).role == Daemon(e)
    ensures Paired(h, PipeBoth(h, e, w, d), e, w, d)
    ensures Core(PipeBoth(h, e, w, d), past)
  {
    PipeBothPairs(h, e, w, d);
    PairedKeepsCore(h, PipeBoth(h, e, w, d), past, e, w, d);
  }

  lemma PairedKeepsCore(h: RelayState, g: RelayState, past: seq<Event>, e: EnvId, w: SocketId, d: SocketId)
    requires CoreBut(h, past, w) && Ready(h, past, e, w)
    requires d in h.sockets && w != d && PastOf(past, d).role == Daemon(e) && Paired(h, g, e, w, d)
    ensures Core(g, past)
  {
    assert SocketOk(h, past, d);
    PairedWorkerOk(h, g, past, e, w, d);
    PairedDaemonOk(h, g, past, e, w, d);
    forall x | x != w && x != d ensures SocketOk(g, past, x) {
      assert SocketOk(h, past, x);
      PairedOthersOk(h, g, past, e, w, d, x);
    }
  }

  lemma DistinctAppend<T>(xs: seq<T>, x: T)
    requires Distinct(xs) && x !in xs
    ensures Distinct(xs + [x])
  {
  }

  lemma PairedWorkerOk(h: RelayState, g: RelayState, past: seq<Event>, e: EnvId, w: SocketId, d: SocketId)
    requires Ready(h, past, e, w) && d in h.sockets && w != d && PastOf(past, d).role == Daemon(e)
    requires Paired(h, g, e, w, d)
    ensures SocketOk(g, past, w)
  {
    PairedLinks(h, g, e, w, d);
    assert !Linked(h, w, d);
    assert SentOk(g, w);
    DistinctAppend(h.sockets[w].onMessage, OnForward(d));
    assert PairOk(g, past, w, d, e);
    assert Linked(g, w, d);
    forall x | Linked(g, w, x) ensures x == d {
      assert !Linked(h, w, x);
    }
    assert WorkerOk(g, past, w, e);
  }

  lemma PairedDaemonOk(h: RelayState, g: RelayState, past: seq<Event>, e: EnvId, w: SocketId, d: SocketId)
    requires Ready(h, past, e, w) && d in h.sockets && w != d
    requires PastOf(past, d).role == Daemon(e) && SocketOk(h, past, d)
    requires Paired(h, g, e, w, d)
    ensures SocketOk(g, past, d)
  {
    assert !Linked(h, d, w);
    DistinctAppend(h.sockets[d].onMessage, OnForward(w));
    PairedDaemonLinks(h, g, past, e, w, d);
  }

  lemma PairedDaemonLinks(h: RelayState, g: RelayState, past: seq<Event>, e: EnvId, w: SocketId, d: SocketId)
    requires w in h.sockets && d in h.sockets && w != d && PastOf(past, w).role == Worker(e) && DaemonOk(h, past, d, e)
    requires Paired(h, g, e, w, d)
    ensures d in g.sockets && DaemonOk(g, past, d, e)
  {
    PairedLinks(h, g, e, w, d);
  }

  lemma PairedOthersOk(h: RelayState, g: RelayState, past: seq<Event>, e: EnvId, w: SocketId, d: SocketId, x: SocketId)
    requires Ready(h, past, e, w) && d in h.sockets && w != d && PastOf(past, d).role == Daemon(e)
    requires x != w && x != d && SocketOk(h, past, x)
    requires Paired(h, g, e, w, d)
    ensures SocketOk(g, past, x)
  {
    PairedLinks(h, g, e, w, d);
    if x in h.sockets {
      assert SentOk(g, x);
      match PastOf(past, x).role
      case Daemon(f) => assert DaemonOk(g, past, x, f);
      case Worker(f) => PairedOtherWorker(h, g, past, e, w, d, x, f);
      case _ =>
    }
  }

  lemma PairedOtherWorker(h: RelayState, g: RelayState, past: seq<Event>, e: EnvId, w: SocketId, d: SocketId,
                          x: SocketId, f: EnvId)
    requires Ready(h, past, e, w) && d in h.sockets && w != d && Paired(h, g, e, w, d)
    requires x != w && x != d && x in h.sockets && WorkerOk(h, past, x, f)
    ensures x in g.sockets && WorkerOk(g, past, x, f)
  {
    PairedLinks(h, g, e, w, d);
    forall y | Linked(g, x, y) ensures PairOk(g, past, x, y, f) {
      assert PairOk(h, past, x, y, f);
      assert !Linked(h, y, w);
    }
    assert Unlinked(g, x) ==> Unlinked(h, x);
  }

  // ------------------------------------------------------------ first frames

  lemma OffFirst(h: RelayState, s: SocketId)
    requires s in h.sockets && h.sockets[s].onMessage == [OnFirst]
    ensures Off(h, s, OnFirst) == h.(sockets := h.sockets[s := h.sockets[s].(onMessage := [])])
  {
    assert [OnFirst][1..] == [];
  }

  /** A socket whose first relay frame was just read: nothing listens to it yet. */
  ghost predicate Blank(h: RelayState, past: seq<Event>, s: SocketId, role: Role) {
    && s in h.sockets && !h.sockets[s].gone && PastOf(past, s) == Past(role, [], false)
    && h.sockets[s].onMessage == [] && h.sockets[s].onClose == [] && s !in h.buffers && SentOk(h, s)
    && (forall x {:trigger Linked(h, x, s)} :: !Linked(h, x, s))
    && (forall x <- h.sockets :: From(h.sockets[x].sent, s) == [])
  }

  ghost predicate Decided(past: seq<Event>, post: seq<Event>, s: SocketId, role: Role) {
    forall x {:trigger PastOf(post, x)} {:trigger PastOf(past, x)} ::
      PastOf(post, x) == if x == s then PastOf(past, x).(role := role) else PastOf(past, x)
  }

  lemma DecidedBlank(h: RelayState, past: seq<Event>, post: seq<Event>, s: SocketId, role: Role)
    requires Inv(h, past) && s in h.sockets && !h.sockets[s].gone && PastOf(past, s).role.Undecided?
    requires Decided(past, post, s, role)
    ensures Blank(Off(h, s, OnFirst), post, s, role)
    ensures CoreBut(Off(h, s, OnFirst), post, s)
    ensures WaitersOk(Off(h, s, OnFirst), post)
  {
    var g := Off(h, s, OnFirst);
    assert SocketOk(h, past, s);
    OffFirst(h, s);
    assert SameLinks(h, g);
    forall x ensures !Linked(g, x, s) {
      assert SocketOk(h, past, x);
      assert !Linked(h, s, x);
    }
    forall x | x in g.sockets ensures From(g.sockets[x].sent, s) == [] {
      assert SocketOk(h, past, x);
      assert SentOk(h, x);
      assert !Linked(h, s, x);
    }
    assert SentOk(g, s);
    forall x | x != s ensures SocketOk(g, post, x) {
      assert SocketOk(h, past, x);
      assert !Linked(h, x, s);
      if x in h.sockets {
        AlikeOk(h, g, past, post, x);
      }
    }
    WaitersShrink(h, g, past);
    assert WaitersOk(g, post);
  }

  lemma FailKeepsInv(h: RelayState, past: seq<Event>, s: SocketId)
    requires Inv(h, past)
    ensures Inv(Fail(h, s), past)
  {
    FailKeepsCore(h, past, s);
    WaitersShrink(h, Fail(h, s), past);
  }

  lemma FailEffect(h: RelayState, s: SocketId)
    requires s in h.sockets
    ensures var k := h.sockets[s];
            Fail(h, s) == h.(sockets := h.sockets[s := k.(closing := true,
                                                         sent := if Down(h, s) then k.sent else k.sent + [Failure])])
  {
  }

  lemma FailKeepsCore(h: RelayState, past: seq<Event>, s: SocketId)
    requires Core(h, past)
    ensures Core(Fail(h, s), past)
  {
    if s in h.sockets {
      FailEffect(h, s);
      forall x ensures SocketOk(Fail(h, s), past, x) {
        assert SocketOk(h, past, x);
        if x in h.sockets {
          assert KeptIn(h, Fail(h, s), x);
          AlikeOk(h, Fail(h, s), past, past, x);
        }
      }
    }
  }

  lemma {:induction false} RefuseKeepsCore(h: RelayState, past: seq<Event>, pending: seq<SocketId>)
    requires Core(h, past)
    ensures Core(Refuse(h, pending), past) && SameLinks(h, Refuse(h, pending))
    decreases |pending|
  {
    if pending != [] {
      FailKeepsCore(h, past, pending[0]);
      RefuseKeepsCore(Fail(h, pending[0]), past, pending[1..]);
    }
  }

  ghost predicate HeldBy(h: RelayState, g: RelayState, e: EnvId, s: SocketId)
    requires s in h.sockets
  {
    && g == h.(buffers := h.buffers[s := []], waiting := g.waiting,
               sockets := h.sockets[s := h.sockets[s].(onMessage := [OnBuffer], onClose := [WaiterClosed])])
    && forall f :: Waiters(g, f) == if f == e && s !in Waiters(h, e) then Waiters(h, e) + [s] else Waiters(h, f)
  }

  lemma HeldKeepsInv(h: RelayState, g: RelayState, past: seq<Event>, s: SocketId, e: EnvId)
    requires CoreBut(h, past, s) && WaitersOk(h, past) && Blank(h, past, s, Worker(e)) && HeldBy(h, g, e, s)
    ensures Inv(g, past)
  {
    assert SameLinks(h, g);
    forall x | x in h.sockets ensures Alike(h, g, x) {
    }
    HeldWorkerOk(h, g, past, s, e);
    forall x | x != s ensures SocketOk(g, past, x) {
      assert SocketOk(h, past, x);
      if x in h.sockets {
        AlikeOk(h, g, past, past, x);
      }
    }
    forall f, w | w in Waiters(g, f) ensures PastOf(past, w).role == Worker(f) && Unlinked(g, w) {
      assert w in Waiters(h, f) || (w == s && f == e);
    }
  }

  lemma HeldWorkerOk(h: RelayState, g: RelayState, past: seq<Event>, s: SocketId, e: EnvId)
    requires Blank(h, past, s, Worker(e)) && SameLinks(h, g) && Alike(h, g, s)
    requires s in g.buffers && g.buffers[s] == [] && g.sockets[s].onMessage == [OnBuffer] && !g.sockets[s].gone
    ensures SocketOk(g, past, s)
  {
    assert SentOk(g, s);
    assert !exists y :: Linked(h, s, y);
    assert WorkerOk(g, past, s, e);
  }

  lemma HoldEffect(h: RelayState, e: EnvId, s: SocketId)
    requires s in h.sockets && h.sockets[s].onMessage == [] && h.sockets[s].onClose == []
    ensures HeldBy(h, Hold(h, e, s), e, s)
  {
    assert [] + [OnBuffer] == [OnBuffer] && [] + [WaiterClosed] == [WaiterClosed];
  }

  lemma AttachKeepsInv(h: RelayState, past: seq<Event>, s: SocketId, e: EnvId)
    requires CoreBut(h, past, s) && WaitersOk(h, past) && Blank(h, past, s, Worker(e))
    requires forall f :: s !in Waiters(h, f)
    ensures Inv(AttachWorker(h, e, s), past)
  {
    if e in h.envs {
      var d := h.envs[e];
      assert SocketOk(h, past, d);
      PairKeepsCore(h, past, e, s, d);
      var g := PipeBoth(h, e, s, d);
      PairedLinks(h, g, e, s, d);
      forall f, w | w in Waiters(g, f) ensures PastOf(past, w).role == Worker(f) && Unlinked(g, w) {
        assert w in Waiters(h, f);
        assert w != s && w != d;
      }
    } else {
      HoldEffect(h, e, s);
      HeldKeepsInv(h, Hold(h, e, s), past, s, e);
    }
  }

  lemma TakeOverKeepsCore(h: RelayState, past: seq<Event>, s: SocketId, e: EnvId)
    requires CoreBut(h, past, s) && Blank(h, past, s, Daemon(e))
    ensures Core(TakeOver(h, e, s), past) && SameLinks(h, TakeOver(h, e, s))
  {
    var g := TakeOver(h, e, s);
    assert SameLinks(h, g);
    assert !exists y :: Linked(h, s, y);
    forall x ensures SocketOk(g, past, x) {
      if x != s {
        assert SocketOk(h, past, x);
        if x in h.sockets {
          AlikeOk(h, g, past, past, x);
        }
      } else {
        assert SentOk(g, s);
        assert DaemonOk(g, past, s, e);
      }
    }
  }

  lemma PairWaitingKeepsInv(h: RelayState, past: seq<Event>, s: SocketId, e: EnvId)
    requires Inv(h, past) && s in h.sockets && PastOf(past, s).role == Daemon(e)
    ensures Inv(PairWaiting(h, e, s), past) && s in PairWaiting(h, e, s).sockets
  {
    var pending := Waiters(h, e);
    if e in h.waiting && pending != [] {
      var w := pending[0];
      assert w in Waiters(h, e);
      WaiterReady(h, past, e, w);
      PairKeepsCore(h, past, e, w, s);
      var k := PipeBoth(h, e, w, s);
      PairedLinks(h, k, e, w, s);
      var r := Refuse(k, pending[1..]);
      RefuseKeepsCore(k, past, pending[1..]);
      WaitersCleared(h, k, r, past, w, s, e);
      assert SocketOk(PairWaiting(h, e, s), past, s);
    } else if e in h.waiting {
      ClosesKeepsCore(h, PairWaiting(h, e, s), past);
      assert WaitersOk(PairWaiting(h, e, s), past) by {
        WaitersShrink(h, PairWaiting(h, e, s), past);
      }
    }
  }

  lemma WaitersCleared(h: RelayState, k: RelayState, r: RelayState, past: seq<Event>, w: SocketId, s: SocketId,
                       e: EnvId)
    requires WaitersOk(h, past) && Core(r, past) && SameLinks(k, r) && r.waiting == h.waiting
    requires PastOf(past, w).role == Worker(e) && PastOf(past, s).role == Daemon(e)
    requires forall x, y {:trigger Linked(k, x, y)} :: Linked(k, x, y) ==> Linked(h, x, y) || x == w || x == s
    ensures Inv(r.(waiting := r.waiting[e := []]), past)
  {
    var g := r.(waiting := r.waiting[e := []]);
    ClosesKeepsCore(r, g, past);
    forall f, x | x in Waiters(g, f) ensures PastOf(past, x).role == Worker(f) && Unlinked(g, x) {
      assert x in Waiters(h, f);
      forall y ensures !Linked(g, x, y) {
        assert Linked(g, x, y) <==> Linked(r, x, y);
        assert !Linked(h, x, y);
      }
    }
  }

  lemma EnvClosedKeepsInv(h: RelayState, past: seq<Event>, s: SocketId, e: EnvId)
    requires Inv(h, past) && PastOf(past, s).role == Daemon(e)
    ensures Inv(OnceClosed(h, s, EnvClosed(e)), past)
  {
    var g := OnceClosed(h, s, EnvClosed(e));
    forall x ensures SocketOk(g, past, x) {
      assert SocketOk(h, past, x);
      if x in h.sockets {
        AlikeOk(h, g, past, past, x);
      }
    }
    WaitersShrink(h, g, past);
  }

  lemma HelloKeepsInv(h: RelayState, past: seq<Event>, s: SocketId, e: EnvId)
    requires CoreBut(h, past, s) && WaitersOk(h, past) && Blank(h, past, s, Daemon(e))
    ensures Inv(OnceClosed(Register(h, e, s), s, EnvClosed(e)), past)
  {
    TakeOverKeepsCore(h, past, s, e);
    WaitersShrink(h, TakeOver(h, e, s), past);
    PairWaitingKeepsInv(TakeOver(h, e, s), past, s, e);
    EnvClosedKeepsInv(Register(h, e, s), past, s, e);
  }

  lemma FirstKeepsInv(h: RelayState, past: seq<Event>, s: SocketId, text: string, reading: Reading)
    requires Inv(h, past) && s in h.sockets && !h.sockets[s].gone && PastOf(past, s).role.Undecided?
    ensures Inv(First(h, s, reading), past + [Received(s, Text(text, reading))])
  {
    var event := Received(s, Text(text, reading));
    var post := past + [event];
    assert SocketOk(h, past, s);
    forall x ensures PastOf(post, x) == if x == s then PastOf(past, x).(role := RoleOf(reading)) else PastOf(past, x) {
      PastAppend(past, event, x);
    }
    forall f ensures s !in Waiters(h, f) && s !in Waiters(Off(h, s, OnFirst), f) {
    }
    match reading
    case NotRelay => IdleKeepsInv(h, past, event);
    case Undecodable =>
      IdleKeepsInv(h, past, event);
      FailKeepsInv(h, post, s);
    case Refused =>
      DecidedBlank(h, past, post, s, Rejected);
      assert SocketOk(Off(h, s, OnFirst), post, s);
      FailKeepsInv(Off(h, s, OnFirst), post, s);
    case Hello(e) =>
      DecidedBlank(h, past, post, s, Daemon(e));
      HelloKeepsInv(Off(h, s, OnFirst), post, s, e);
    case Attach(e) =>
      DecidedBlank(h, past, post, s, Worker(e));
      AttachKeepsInv(Off(h, s, OnFirst), post, s, e);
  }

  lemma ReceivedKeepsInv(h: RelayState, past: seq<Event>, s: SocketId, message: Message)
    requires Inv(h, past)
    ensures Inv(Step(h, Received(s, message)), past + [Received(s, message)])
  {
    assert SocketOk(h, past, s);
    if s !in h.sockets || h.sockets[s].gone || message.Unreadable? {
      IdleKeepsInv(h, past, Received(s, message));
    } else if PastOf(past, s).role.Undecided? {
      FirstKeepsInv(h, past, s, message.text, message.reading);
      var g := First(h, s, message.reading);
      assert Dispatch(g, s, message.text, message.reading, []) == g;
      assert h.sockets[s].onMessage[1..] == [];
    } else {
      ForwardKeepsInv(h, past, s, message.text, message.reading);
    }
  }

  lemma StepKeepsInv(h: RelayState, past: seq<Event>, event: Event)
    requires Inv(h, past)
    ensures Inv(Step(h, event), past + [event])
  {
    match event
    case Connected(s) => ConnectedKeepsInv(h, past, s);
    case Received(s, message) => ReceivedKeepsInv(h, past, s, message);
    case Closed(s) => ClosedKeepsInv(h, past, s);
    case Shutdown => ShutdownKeepsInv(h, past);
  }

  /** Every run from the start keeps the invariant. */
  lemma {:induction false} RunKeepsInv(events: seq<Event>)
    ensures Inv(Run(START, events), events)
  {
    if events == [] {
      assert forall s :: SocketOk(START, [], s);
    } else {
      var front := events[..|events| - 1];
      RunKeepsInv(front);
      StepKeepsInv(Run(START, front), front, events[|events| - 1]);
      assert events == front + [events[|events| - 1]];
    }
  }
}
