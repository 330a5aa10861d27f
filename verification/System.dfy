/** The whole server: its connections, the shared state, and the runs it can make. */
module System {
  import opened Bytes
  import opened Calls
  import opened Kernel
  import opened Handlers

  /** A freed record, and how long the history was when it was freed. */
  datatype Ended = Ended(c: Conn, at: nat)

  /** One event on a connection: its number, the state the event found it in, and the calls it made. */
  datatype Episode = Episode(id: nat, from: State, calls: seq<Call>)

  /** `clients` is the connection map; `gone` remembers the records that were freed, `episodes` the events,
      both in order. */
  datatype Sys = Sys(clients: map<int, Conn>, gone: seq<Ended>, sh: Shared, accepted: nat, episodes: seq<Episode>)

  function InitShared(listenFd: int): Shared {
    Shared([], map[], [], map[listenFd := Socket], map[listenFd := Read], 0, 0, [])
  }

  function Init(listenFd: int): Sys {
    Sys(map[], [], InitShared(listenFd), 0, [])
  }

  /** What one call of `accept` returns: a new descriptor for a peer that will send `stream`, EINTR, or
      any error that ends the loop. */
  datatype Arrival = Connect(fd: nat, stream: bytes) | Interrupted | NoneLeft

  /** One report of the event loop, with the answers of the system to the calls it leads to. */
  datatype Input =
    | Incoming(arrivals: seq<Arrival>)
    | Report(fd: int, mask: Mask, sched: seq<Answer>)

  /** Registers a new connection and enters it in the map. */
  function Admit(s: Sys, fd: int, stream: bytes): Sys {
    s.(clients := s.clients[fd := NewConn(s.accepted, fd, stream)],
       sh := s.sh.(fds := s.sh.fds[fd := Socket], polls := s.sh.polls[fd := Read]),
       accepted := s.accepted + 1)
  }

  /** `accept_connections`. The system never hands out a descriptor that is in use. */
  function AcceptAll(s: Sys, arrivals: seq<Arrival>): Sys
    decreases |arrivals|
  {
    if arrivals == [] then s
    else
      match arrivals[0]
      case Connect(fd, stream) =>
        if fd in s.sh.fds then s else AcceptAll(Admit(s, fd, stream), arrivals[1..])
      case Interrupted => AcceptAll(s, arrivals[1..])
      case NoneLeft => s
  }

  /** One event on a connection. */
  ghost function Handle(s: Sys, fd: int, mask: Mask, sched: seq<Answer>): Sys
    requires fd in s.clients
  {
    var w := Dispatch(Begin(s.clients[fd], s.sh, sched), mask);
    var episodes := s.episodes + [Episode(w.c.id, s.clients[fd].state, w.calls)];
    if w.alive then s.(clients := s.clients[fd := w.c], sh := w.sh, episodes := episodes)
    else
      s.(clients := s.clients - {w.c.fd}, gone := s.gone + [Ended(w.c, |w.sh.trace|)], sh := w.sh,
         episodes := episodes)
  }

  ghost function Step(s: Sys, i: Input): Sys {
    match i
    case Incoming(arrivals) => AcceptAll(s, arrivals)
    case Report(fd, mask, sched) => if fd in s.clients then Handle(s, fd, mask, sched) else s
  }

  /** The event loop reports only registered descriptors, and of reading and writing only what they are
      registered for; it may report an error for any of them. */
  predicate Deliverable(s: Sys, i: Input) {
    i.Report? ==>
      && i.fd in s.sh.polls
      && (i.mask.read ==> s.sh.polls[i.fd] == Read)
      && (i.mask.write ==> s.sh.polls[i.fd] == Write)
  }

  /** The state after a run of reports from the initial state. */
  ghost function Run(listenFd: int, inputs: seq<Input>): Sys {
    if inputs == [] then Init(listenFd)
    else Step(Run(listenFd, inputs[..|inputs| - 1]), inputs[|inputs| - 1])
  }

  /** Every report of the run could be made in the state it was made in. */
  ghost predicate Feasible(listenFd: int, inputs: seq<Input>) {
    inputs == [] ||
    var before := inputs[..|inputs| - 1];
    Feasible(listenFd, before) && Deliverable(Run(listenFd, before), inputs[|inputs| - 1])
  }

  lemma RunNext(listenFd: int, inputs: seq<Input>, i: Input)
    requires Feasible(listenFd, inputs) && Deliverable(Run(listenFd, inputs), i)
    ensures Feasible(listenFd, inputs + [i]) && Run(listenFd, inputs + [i]) == Step(Run(listenFd, inputs), i)
  {
    assert (inputs + [i])[..|inputs|] == inputs;
  }
}
