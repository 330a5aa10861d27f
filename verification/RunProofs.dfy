/** The invariant of the whole server, kept by every report of the event loop in every run. */
module RunProofs {
  import opened Bytes
  import opened Calls
  import opened History
  import opened Kernel
  import opened Handlers
  import opened System
  import opened SharedInvariant
  import opened ConnInvariant
  import opened RequestProofs

  /** An entry of the connection map: filed under its own descriptor, and in order. */
  ghost predicate EntryOk(s: Sys, k: int) {
    k in s.clients ==>
      s.clients[k].fd == k && Live(s.clients[k], s.sh) && RequestOk(s.clients[k])
  }

  /** No two connections share a descriptor. */
  ghost predicate ApartFrom(s: Sys, j: int, k: int) {
    j in s.clients && k in s.clients && j != k ==> Mine(s.clients[j]) !! Mine(s.clients[k])
  }

  /** An open descriptor is the listening socket or belongs to a connection. */
  ghost predicate Accounted(s: Sys, listenFd: int, f: int) {
    f in s.sh.fds ==> f == listenFd || exists k :: k in s.clients && f in Mine(s.clients[k])
  }

  ghost predicate EndedOk(s: Sys, i: int) {
    0 <= i < |s.gone| ==> Freed(s.gone[i].c, s.gone[i].at, s.sh.trace) && RequestOk(s.gone[i].c)
  }

  ghost predicate SysInv(s: Sys, listenFd: int) {
    && SharedInv(s.sh)
    && (forall k :: EntryOk(s, k))
    && (forall j, k :: ApartFrom(s, j, k))
    && (forall f :: Accounted(s, listenFd, f))
    && (forall i :: EndedOk(s, i))
    && listenFd in s.sh.fds && s.sh.fds[listenFd].Socket? && listenFd !in s.clients
    && s.sh.polls.Keys == s.clients.Keys + {listenFd}
  }

  // -------- one event --------

  /** The connections other than `fd` are as they were. */
  lemma OthersLive(s: Sys, fd: int, w: World, w': World, j: int)
    requires SharedInv(s.sh) && EntryOk(s, j) && ApartFrom(s, j, fd)
    requires fd in s.clients && j in s.clients && j != fd
    requires w.c == s.clients[fd] && w.c.fd == fd && w.sh == s.sh && w.alive && Reaches(w, w')
    requires s.sh.polls.Keys >= s.clients.Keys
    ensures Live(s.clients[j], w'.sh)
    ensures Mine(s.clients[j]) !! Owned(w')
  {
    var c := s.clients[j];
    assert Owned(w) == Mine(s.clients[fd]);
    assert j in w.sh.polls - {fd};
    assert w'.sh.polls[j] == (w'.sh.polls - {fd})[j] == (w.sh.polls - {fd})[j];
    LiveSteady(c, w.sh, w'.sh, Owned(w), Owned(w'));
    forall f | f in Mine(c) ensures f !in Owned(w') {
      assert f in w.sh.fds - Owned(w);
      assert f in w'.sh.fds - Owned(w');
    }
  }

  lemma EndedLater(s: Sys, trace: seq<Event>, i: int)
    requires EndedOk(s, i) && 0 <= i < |s.gone| && s.sh.trace <= trace
    ensures Freed(s.gone[i].c, s.gone[i].at, trace)
  {
    FreedLater(s.gone[i].c, s.gone[i].at, s.sh.trace, trace);
  }

  /** A connection other than `fd` after an event on `fd`. */
  lemma HandledOther(s: Sys, listenFd: int, fd: int, mask: Mask, sched: seq<Answer>, j: int)
    requires SysInv(s, listenFd) && fd in s.clients && j in s.clients && j != fd
    requires Understood(Begin(s.clients[fd], s.sh, sched),
                        Dispatch(Begin(s.clients[fd], s.sh, sched), mask))
    ensures
      var w' := Dispatch(Begin(s.clients[fd], s.sh, sched), mask);
      && Live(s.clients[j], w'.sh) && Mine(s.clients[j]) !! Owned(w')
      && s.clients[j].fd == j && RequestOk(s.clients[j]) && w'.c.fd == fd
  {
    var w := Begin(s.clients[fd], s.sh, sched);
    assert EntryOk(s, fd) && EntryOk(s, j) && ApartFrom(s, j, fd);
    OthersLive(s, fd, w, Dispatch(w, mask), j);
  }

  lemma HandledEntries(s: Sys, listenFd: int, fd: int, mask: Mask, sched: seq<Answer>)
    requires SysInv(s, listenFd) && fd in s.clients
    requires Understood(Begin(s.clients[fd], s.sh, sched),
                        Dispatch(Begin(s.clients[fd], s.sh, sched), mask))
    ensures forall k :: EntryOk(Handle(s, fd, mask, sched), k)
  {
    assert EntryOk(s, fd);
    forall k ensures EntryOk(Handle(s, fd, mask, sched), k) {
      if k in s.clients && k != fd {
        HandledOther(s, listenFd, fd, mask, sched, k);
      }
    }
  }

  lemma Reidentified(s: Sys, fd: int, mask: Mask, sched: seq<Answer>)
    requires fd in s.clients && s.clients[fd].fd == fd
    requires Reaches(Begin(s.clients[fd], s.sh, sched), Dispatch(Begin(s.clients[fd], s.sh, sched), mask))
    ensures
      Handle(s, fd, mask, sched).clients == After(s, fd, Dispatch(Begin(s.clients[fd], s.sh, sched), mask))
  {
  }

  lemma HandledApart(s: Sys, listenFd: int, fd: int, mask: Mask, sched: seq<Answer>)
    requires SysInv(s, listenFd) && fd in s.clients
    requires Understood(Begin(s.clients[fd], s.sh, sched),
                        Dispatch(Begin(s.clients[fd], s.sh, sched), mask))
    ensures forall j, k :: ApartFrom(Handle(s, fd, mask, sched), j, k)
  {
    assert EntryOk(s, fd);
    Reidentified(s, fd, mask, sched);
    forall j | j in s.clients && j != fd
      ensures Mine(s.clients[j]) !! Owned(Dispatch(Begin(s.clients[fd], s.sh, sched), mask))
    {
      HandledOther(s, listenFd, fd, mask, sched, j);
    }
    ApartAfter(s, fd, Dispatch(Begin(s.clients[fd], s.sh, sched), mask), Handle(s, fd, mask, sched));
  }

  lemma ApartAfter(s: Sys, fd: int, w': World, s': Sys)
    requires fd in s.clients && s'.clients == After(s, fd, w') && forall j, k :: ApartFrom(s, j, k)
    requires forall j :: j in s.clients && j != fd ==> Mine(s.clients[j]) !! Owned(w')
    ensures forall j, k :: ApartFrom(s', j, k)
  {
    forall j, k ensures ApartFrom(s', j, k) {
      assert ApartFrom(s, j, k);
    }
  }

  /** The map after an event on `fd` that led from `w` to `w'`. */
  function After(s: Sys, fd: int, w': World): map<int, Conn> {
    if w'.alive then s.clients[fd := w'.c] else s.clients - {fd}
  }

  lemma FdStillOwned(s: Sys, listenFd: int, fd: int, w: World, w': World, f: int)
    requires SysInv(s, listenFd) && fd in s.clients && w.c == s.clients[fd] && w.c.fd == fd
    requires w.sh == s.sh && w.alive && Reaches(w, w') && f in w'.sh.fds && f != listenFd
    ensures exists k :: k in After(s, fd, w') && f in Mine(After(s, fd, w')[k])
  {
    var clients := After(s, fd, w');
    if f in Owned(w') {
      assert fd in clients && f in Mine(clients[fd]);
    } else {
      assert f in w'.sh.fds - Owned(w');
      assert f in w.sh.fds - Owned(w);
      assert Accounted(s, listenFd, f);
      var k :| k in s.clients && f in Mine(s.clients[k]);
      assert k in clients && clients[k] == s.clients[k];
    }
  }

  lemma ListenerKept(s: Sys, listenFd: int, fd: int, w: World, w': World)
    requires SysInv(s, listenFd) && fd in s.clients && w.c == s.clients[fd] && w.c.fd == fd
    requires w.sh == s.sh && w.alive && Reaches(w, w')
    ensures listenFd in w'.sh.fds && w'.sh.fds[listenFd].Socket?
    ensures w'.sh.polls.Keys == After(s, fd, w').Keys + {listenFd}
  {
    assert EntryOk(s, fd);
    assert listenFd in w.sh.fds - Owned(w);
    assert w'.sh.fds[listenFd] == (w'.sh.fds - Owned(w'))[listenFd];
    forall k ensures k in w'.sh.polls <==> k in After(s, fd, w').Keys + {listenFd} {
      if k != fd {
        assert k in w'.sh.polls <==> k in w'.sh.polls - {fd};
        assert k in w.sh.polls <==> k in w.sh.polls - {fd};
        assert k in w.sh.polls <==> k in s.clients.Keys + {listenFd};
      }
    }
  }

  lemma HandledAccounts(s: Sys, listenFd: int, fd: int, mask: Mask, sched: seq<Answer>)
    requires SysInv(s, listenFd) && fd in s.clients
    requires Understood(Begin(s.clients[fd], s.sh, sched),
                        Dispatch(Begin(s.clients[fd], s.sh, sched), mask))
    ensures
      var s' := Handle(s, fd, mask, sched);
      && (forall f :: Accounted(s', listenFd, f))
      && listenFd in s'.sh.fds && s'.sh.fds[listenFd].Socket? && listenFd !in s'.clients
      && s'.sh.polls.Keys == s'.clients.Keys + {listenFd}
  {
    var w := Begin(s.clients[fd], s.sh, sched);
    var w' := Dispatch(w, mask);
    var s' := Handle(s, fd, mask, sched);
    assert EntryOk(s, fd);
    ListenerKept(s, listenFd, fd, w, w');
    forall f ensures Accounted(s', listenFd, f) {
      if f in s'.sh.fds && f != listenFd {
        FdStillOwned(s, listenFd, fd, w, w', f);
      }
    }
  }

  lemma HandledEnded(s: Sys, listenFd: int, fd: int, mask: Mask, sched: seq<Answer>)
    requires SysInv(s, listenFd) && fd in s.clients
    requires Understood(Begin(s.clients[fd], s.sh, sched),
                        Dispatch(Begin(s.clients[fd], s.sh, sched), mask))
    ensures forall i :: EndedOk(Handle(s, fd, mask, sched), i)
  {
    var s' := Handle(s, fd, mask, sched);
    forall i ensures EndedOk(s', i) {
      if 0 <= i < |s.gone| {
        assert EndedOk(s, i);
        EndedLater(s, s'.sh.trace, i);
        assert s'.gone[i] == s.gone[i];
      }
    }
  }

  lemma HandleKeeps(s: Sys, listenFd: int, fd: int, mask: Mask, sched: seq<Answer>)
    requires SysInv(s, listenFd) && fd in s.clients && Deliverable(s, Report(fd, mask, sched))
    ensures SysInv(Handle(s, fd, mask, sched), listenFd)
  {
    assert EntryOk(s, fd);
    Dispatching(Begin(s.clients[fd], s.sh, sched), mask);
    HandledEntries(s, listenFd, fd, mask, sched);
    HandledApart(s, listenFd, fd, mask, sched);
    HandledAccounts(s, listenFd, fd, mask, sched);
    HandledEnded(s, listenFd, fd, mask, sched);
  }

  // -------- accepting --------

  lemma NewConnLive(id: nat, fd: nat, stream: bytes, sh: Shared)
    requires fd in sh.fds && sh.fds[fd].Socket? && fd in sh.polls && sh.polls[fd] == Read
    ensures Live(NewConn(id, fd, stream), sh) && RequestOk(NewConn(id, fd, stream))
  {
  }

  lemma AdmittedEntries(s: Sys, listenFd: int, fd: nat, stream: bytes)
    requires SysInv(s, listenFd) && fd !in s.sh.fds
    ensures forall k :: EntryOk(Admit(s, fd, stream), k)
    ensures forall j, k :: ApartFrom(Admit(s, fd, stream), j, k)
    ensures SharedInv(Admit(s, fd, stream).sh)
  {
    var s' := Admit(s, fd, stream);
    OpeningSocket(s.sh, fd);
    NewConnLive(s.accepted, fd, stream, s'.sh);
    forall k | k in s.clients
      ensures k != fd && fd !in Mine(s.clients[k]) && Live(s.clients[k], s'.sh) && EntryOk(s, k)
    {
      assert EntryOk(s, k);
      LiveSteady(s.clients[k], s.sh, s'.sh, {}, {fd});
    }
    forall j, k ensures ApartFrom(s', j, k) {
      assert ApartFrom(s, j, k);
    }
  }

  lemma AdmitKeeps(s: Sys, listenFd: int, fd: nat, stream: bytes)
    requires SysInv(s, listenFd) && fd !in s.sh.fds
    ensures SysInv(Admit(s, fd, stream), listenFd)
  {
    var s' := Admit(s, fd, stream);
    AdmittedEntries(s, listenFd, fd, stream);
    forall f ensures Accounted(s', listenFd, f) {
      assert Accounted(s, listenFd, f);
      if f == fd {
        assert f in Mine(s'.clients[fd]);
      } else if f in s.sh.fds && f != listenFd {
        var k :| k in s.clients && f in Mine(s.clients[k]);
        assert EntryOk(s, k);
        assert k in s'.clients && s'.clients[k] == s.clients[k];
      }
    }
    forall i ensures EndedOk(s', i) {
      assert EndedOk(s, i);
    }
  }

  lemma {:induction false} AcceptKeeps(s: Sys, listenFd: int, arrivals: seq<Arrival>)
    requires SysInv(s, listenFd)
    ensures SysInv(AcceptAll(s, arrivals), listenFd)
    decreases |arrivals|
  {
    if arrivals != [] {
      match arrivals[0]
      case Connect(fd, stream) =>
        if fd !in s.sh.fds {
          AdmitKeeps(s, listenFd, fd, stream);
          AcceptKeeps(Admit(s, fd, stream), listenFd, arrivals[1..]);
        }
      case Interrupted =>
        AcceptKeeps(s, listenFd, arrivals[1..]);
      case NoneLeft =>
    }
  }

  // -------- runs --------

  lemma InitOk(listenFd: nat)
    ensures SysInv(Init(listenFd), listenFd)
  {
    var sh := InitShared(listenFd);
    assert FileFds(sh.fds) == {};
    assert Replay(sh.trace) == BLANK;
    forall n ensures CleanName(sh, BLANK, n) {
    }
  }

  lemma StepKeeps(s: Sys, listenFd: int, i: Input)
    requires SysInv(s, listenFd) && Deliverable(s, i)
    ensures SysInv(Step(s, i), listenFd)
  {
    match i
    case Incoming(arrivals) =>
      AcceptKeeps(s, listenFd, arrivals);
    case Report(fd, mask, sched) =>
      if fd in s.clients {
        HandleKeeps(s, listenFd, fd, mask, sched);
      }
  }

  /** The invariant holds after every run. */
  lemma {:induction false} RunKeeps(listenFd: nat, inputs: seq<Input>)
    requires Feasible(listenFd, inputs)
    ensures SysInv(Run(listenFd, inputs), listenFd)
  {
    if inputs == [] {
      InitOk(listenFd);
    } else {
      var before := inputs[..|inputs| - 1];
      RunKeeps(listenFd, before);
      StepKeeps(Run(listenFd, before), listenFd, inputs[|inputs| - 1]);
    }
  }

  /** A connection of the run, still open or closed. */
  ghost predicate Known(s: Sys, c: Conn) {
    (exists k :: k in s.clients && s.clients[k] == c) || (exists i :: 0 <= i < |s.gone| && s.gone[i].c == c)
  }

  lemma KnownOk(listenFd: nat, inputs: seq<Input>, c: Conn)
    requires Feasible(listenFd, inputs) && Known(Run(listenFd, inputs), c)
    ensures RequestOk(c) && ConnOk(c, Run(listenFd, inputs).sh.trace)
  {
    RunKeeps(listenFd, inputs);
    var s := Run(listenFd, inputs);
    if k :| k in s.clients && s.clients[k] == c {
      assert EntryOk(s, k);
    } else {
      var i :| 0 <= i < |s.gone| && s.gone[i].c == c;
      assert EndedOk(s, i);
    }
  }
}
