/** The relay that pairs a worker's socket with its env daemon's socket, as a state
    machine over socket events. A frame reaches the listeners a socket has when it
    arrives; a close call takes effect at once for sends and is followed, some time
    later, by the socket's close event. */
module Relay {

  type SocketId = nat
  type EnvId = string

  /** What a first frame means: neither relay frame, a relay frame that does not decode,
      one refused for its version or token, or an accepted one. */
  datatype Reading = NotRelay | Undecodable | Refused | Hello(env: EnvId) | Attach(env: EnvId)

  datatype Listener = OnFirst | OnBuffer | OnForward(to: SocketId)

  datatype CloseListener =
    | WaiterClosed
    | WorkerClosed(env: EnvId, daemon: SocketId)
    | DaemonClosed(env: EnvId, worker: SocketId)
    | EnvClosed(env: EnvId)

  datatype Delivery = Piped(from: SocketId, text: string) | Failure

  /** A socket: its listeners, whether a close was asked for or has happened, and what
      it was sent while it was open. */
  datatype Socket = Socket(
    onMessage: seq<Listener>, onClose: seq<CloseListener>, closing: bool, gone: bool, sent: seq<Delivery>)

  datatype RelayState = RelayState(
    envs: map<EnvId, SocketId>,
    waiting: map<EnvId, seq<SocketId>>,
    workers: map<EnvId, SocketId>,
    buffers: map<SocketId, seq<string>>,
    closed: bool,
    sockets: map<SocketId, Socket>)

  /** A message is unreadable (not a socket message, or its bytes do not decode) or text. */
  datatype Message = Unreadable | Text(text: string, reading: Reading)

  datatype Event =
    | Connected(socket: SocketId)
    | Received(socket: SocketId, message: Message)
    | Closed(socket: SocketId)
    | Shutdown

  const START := RelayState(map[], map[], map[], map[], false, map[])

  predicate Down(h: RelayState, s: SocketId) {
    s !in h.sockets || h.sockets[s].closing || h.sockets[s].gone
  }

  // ------------------------------------------------------- socket operations

  type Sockets = map<SocketId, Socket>

  /** A send to a socket that is not open is lost. */
  function Sent(all: Sockets, s: SocketId, d: Delivery): Sockets {
    if s !in all || all[s].closing || all[s].gone then all else all[s := all[s].(sent := all[s].sent + [d])]
  }

  function Closing(all: Sockets, s: SocketId): Sockets {
    if s in all then all[s := all[s].(closing := true)] else all
  }

  function Listening(all: Sockets, s: SocketId, listener: Listener): Sockets {
    if s in all then all[s := all[s].(onMessage := all[s].onMessage + [listener])] else all
  }

  function Awaiting(all: Sockets, s: SocketId, listener: CloseListener): Sockets {
    if s in all then all[s := all[s].(onClose := all[s].onClose + [listener])] else all
  }

  function Without<T(==)>(xs: seq<T>, x: T): seq<T> {
    if xs == [] then [] else if xs[0] == x then Without(xs[1..], x) else [xs[0]] + Without(xs[1..], x)
  }

  function Muted(all: Sockets, s: SocketId, listener: Listener): Sockets {
    if s in all then all[s := all[s].(onMessage := Without(all[s].onMessage, listener))] else all
  }

  function Departed(all: Sockets, s: SocketId): Sockets {
    if s in all then all[s := all[s].(gone := true, onClose := [])] else all
  }

  function Send(h: RelayState, s: SocketId, d: Delivery): RelayState {
    h.(sockets := Sent(h.sockets, s, d))
  }

  function CloseSocket(h: RelayState, s: SocketId): RelayState {
    h.(sockets := Closing(h.sockets, s))
  }

  function Fail(h: RelayState, s: SocketId): RelayState {
    h.(sockets := Closing(Sent(h.sockets, s, Failure), s))
  }

  function On(h: RelayState, s: SocketId, listener: Listener): RelayState {
    h.(sockets := Listening(h.sockets, s, listener))
  }

  function OnceClosed(h: RelayState, s: SocketId, listener: CloseListener): RelayState {
    h.(sockets := Awaiting(h.sockets, s, listener))
  }

  function Off(h: RelayState, s: SocketId, listener: Listener): RelayState {
    h.(sockets := Muted(h.sockets, s, listener))
  }

  // ------------------------------------------------------------------ pairing

  /** A table without its entry for `e`, if that is `s`. */
  function Forgotten(table: map<EnvId, SocketId>, e: EnvId, s: SocketId): map<EnvId, SocketId> {
    if e in table && table[e] == s then table - {e} else table
  }

  /** The socket another one displaces in a table is closed. */
  function Displaced(all: Sockets, table: map<EnvId, SocketId>, e: EnvId, s: SocketId): Sockets {
    if e in table && table[e] != s then Closing(all, table[e]) else all
  }

  function Detached(waiting: map<EnvId, seq<SocketId>>, e: EnvId, s: SocketId): map<EnvId, seq<SocketId>> {
    if e in waiting && s in waiting[e] then waiting[e := Without(waiting[e], s)] else waiting
  }

  function FlushedTo(all: Sockets, worker: SocketId, daemon: SocketId, frames: seq<string>): Sockets
    decreases |frames|
  {
    if frames == [] then all
    else FlushedTo(Sent(all, daemon, Piped(worker, frames[0])), worker, daemon, frames[1..])
  }

  function Flushed(h: RelayState, worker: SocketId, daemon: SocketId): RelayState {
    if worker in h.buffers
    then h.(buffers := h.buffers - {worker}, sockets := FlushedTo(h.sockets, worker, daemon, h.buffers[worker])) else h
  }

  /** Close a worker still piped for this env, and note the new one. */
  function Assigned(h: RelayState, e: EnvId, worker: SocketId): RelayState {
    h.(workers := h.workers[e := worker], sockets := Displaced(h.sockets, h.workers, e, worker))
  }

  function Joined(all: Sockets, s: SocketId, listener: Listener, onClose: CloseListener): Sockets {
    Awaiting(Listening(all, s, listener), s, onClose)
  }

  function Wired(h: RelayState, e: EnvId, worker: SocketId, daemon: SocketId): RelayState {
    h.(sockets := Joined(Joined(h.sockets, worker, OnForward(daemon), WorkerClosed(e, daemon)),
                         daemon, OnForward(worker), DaemonClosed(e, worker)))
  }

  function PipeBoth(h: RelayState, e: EnvId, worker: SocketId, daemon: SocketId): RelayState {
    Wired(Assigned(Flushed(h, worker, daemon), e, worker), e, worker, daemon)
  }

  function Waiters(h: RelayState, e: EnvId): seq<SocketId> {
    if e in h.waiting then h.waiting[e] else []
  }

  function Hold(h: RelayState, e: EnvId, s: SocketId): RelayState {
    var pending := Waiters(h, e);
    h.(buffers := h.buffers[s := []],
       waiting := h.waiting[e := if s in pending then pending else pending + [s]],
       sockets := Joined(h.sockets, s, OnBuffer, WaiterClosed))
  }

  function AttachWorker(h: RelayState, e: EnvId, s: SocketId): RelayState {
    if e in h.envs then PipeBoth(h, e, s, h.envs[e]) else Hold(h, e, s)
  }

  function RefusedAll(all: Sockets, pending: seq<SocketId>): Sockets
    decreases |pending|
  {
    if pending == [] then all else RefusedAll(Closing(Sent(all, pending[0], Failure), pending[0]), pending[1..])
  }

  function Refuse(h: RelayState, pending: seq<SocketId>): RelayState {
    h.(sockets := RefusedAll(h.sockets, pending))
  }

  /** Close a daemon still registered for this env, and register the new one. */
  function TakeOver(h: RelayState, e: EnvId, s: SocketId): RelayState {
    h.(envs := h.envs[e := s], sockets := Displaced(h.sockets, h.envs, e, s))
  }

  /** Pair the first waiting worker, refuse the rest. */
  function PairWaiting(h: RelayState, e: EnvId, s: SocketId): RelayState {
    if e !in h.waiting then h
    else
      var pending := h.waiting[e];
      if pending == [] then h
      else Refuse(PipeBoth(h, e, pending[0], s), pending[1..]).(waiting := h.waiting[e := []])
  }

  function Register(h: RelayState, e: EnvId, s: SocketId): RelayState {
    PairWaiting(TakeOver(h, e, s), e, s)
  }

  // ------------------------------------------------------------------- events

  function First(h: RelayState, s: SocketId, reading: Reading): RelayState {
    match reading
    case NotRelay => h
    case Undecodable => Fail(h, s)
    case Refused => Fail(Off(h, s, OnFirst), s)
    case Hello(e) => OnceClosed(Register(Off(h, s, OnFirst), e, s), s, EnvClosed(e))
    case Attach(e) => AttachWorker(Off(h, s, OnFirst), e, s)
  }

  function Deliver(h: RelayState, s: SocketId, text: string, reading: Reading, listener: Listener): RelayState {
    match listener
    case OnFirst => First(h, s, reading)
    case OnBuffer => if s in h.buffers then h.(buffers := h.buffers[s := h.buffers[s] + [text]]) else h
    case OnForward(to) => Send(h, to, Piped(s, text))
  }

  function Dispatch(h: RelayState, s: SocketId, text: string, reading: Reading, listeners: seq<Listener>): RelayState
    decreases |listeners|
  {
    if listeners == [] then h
    else Dispatch(Deliver(h, s, text, reading, listeners[0]), s, text, reading, listeners[1..])
  }

  function HandleClose(h: RelayState, s: SocketId, listener: CloseListener): RelayState {
    match listener
    case WaiterClosed => h.(buffers := h.buffers - {s}, sockets := Muted(h.sockets, s, OnBuffer))
    case WorkerClosed(e, daemon) =>
      h.(sockets := Closing(h.sockets, daemon),
         waiting := Detached(h.waiting, e, s),
         workers := Forgotten(h.workers, e, s))
    case DaemonClosed(e, worker) =>
      h.(sockets := Closing(h.sockets, worker), envs := Forgotten(h.envs, e, s))
    case EnvClosed(e) => h.(envs := Forgotten(h.envs, e, s))
  }

  function MarkGone(h: RelayState, s: SocketId): RelayState {
    h.(sockets := Departed(h.sockets, s))
  }

  function DispatchClose(h: RelayState, s: SocketId, listeners: seq<CloseListener>): RelayState
    decreases |listeners|
  {
    if listeners == [] then h else DispatchClose(HandleClose(h, s, listeners[0]), s, listeners[1..])
  }

  function CloseAll(h: RelayState, all: set<SocketId>): RelayState {
    h.(sockets := map s | s in h.sockets :: if s in all then h.sockets[s].(closing := true) else h.sockets[s])
  }

  /** Every socket registered, waiting or piped. */
  function Held(h: RelayState): set<SocketId> {
    h.envs.Values + (set e, s | e in h.waiting && s in h.waiting[e] :: s) + h.workers.Values
  }

  function Step(h: RelayState, event: Event): RelayState {
    match event
    case Connected(s) =>
      if s in h.sockets then h else h.(sockets := h.sockets[s := Socket([OnFirst], [], false, false, [])])
    case Received(s, message) =>
      if s !in h.sockets || h.sockets[s].gone || message.Unreadable? then h
      else Dispatch(h, s, message.text, message.reading, h.sockets[s].onMessage)
    case Closed(s) =>
      if s !in h.sockets || h.sockets[s].gone then h
      else
        DispatchClose(MarkGone(h, s), s, h.sockets[s].onClose)
    case Shutdown =>
      if h.closed then h else CloseAll(h, Held(h)).(closed := true, envs := map[], waiting := map[], workers := map[])
  }

  function Run(h: RelayState, events: seq<Event>): RelayState {
    if events == [] then h else Step(Run(h, events[..|events| - 1]), events[|events| - 1])
  }

  // ------------------------------------------- what one socket did, by itself

  datatype Role = Unknown | Undecided | Rejected | Daemon(env: EnvId) | Worker(env: EnvId)

  /** A socket's own history: the role its first relay frame gave it, the frames it sent
      after that one, and whether it has closed. */
  datatype Past = Past(role: Role, said: seq<string>, gone: bool)

  function RoleOf(reading: Reading): Role {
    match reading
    case NotRelay => Undecided
    case Undecodable => Undecided
    case Refused => Rejected
    case Hello(e) => Daemon(e)
    case Attach(e) => Worker(e)
  }

  function Noted(p: Past, s: SocketId, event: Event): Past {
    match event
    case Connected(x) => if x == s && p.role.Unknown? then p.(role := Undecided) else p
    case Received(x, Text(text, reading)) =>
      if x != s || p.gone || p.role.Unknown? then p
      else if p.role.Undecided? then p.(role := RoleOf(reading))
      else p.(said := p.said + [text])
    case Closed(x) => if x == s && !p.role.Unknown? then p.(gone := true) else p
    case _ => p
  }

  function PastOf(events: seq<Event>, s: SocketId): Past {
    if events == [] then Past(Unknown, [], false)
    else Noted(PastOf(events[..|events| - 1], s), s, events[|events| - 1])
  }
}
