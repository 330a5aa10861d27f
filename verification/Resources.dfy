/** Descriptors, buffers and the connection map after every run. */
module Resources {
  import opened Bytes
  import opened Calls
  import opened Kernel
  import opened Handlers
  import opened System
  import opened SharedInvariant
  import opened ConnInvariant
  import opened RequestProofs
  import opened RunProofs

  /** A connection has a file open exactly while it receives a body or serves a GET, and a list buffer exactly
      while it sends one; the open file is its own. */
  ghost predicate HoldsItsOwn(s: Sys, k: int)
    requires k in s.clients
  {
    var c := s.clients[k];
    && (c.fileFd != -1 <==> HoldsFile(c))
    && (c.listBuf.Some? <==> c.state == SendListData)
    && (c.fileFd != -1 ==> c.fileFd in FileFds(s.sh.fds))
    && (forall j :: j in s.clients && s.clients[j].fileFd == c.fileFd && c.fileFd != -1 ==> j == k)
  }

  /** Resource conservation: the open files are, one for one, those of the connections that receive a body or
      serve a GET; and every file descriptor ever opened is still open or was closed exactly once. */
  lemma ResourceConservation(listenFd: nat, inputs: seq<Input>)
    requires Feasible(listenFd, inputs)
    ensures
      var s := Run(listenFd, inputs);
      && (forall k :: k in s.clients ==> HoldsItsOwn(s, k))
      && (forall f :: f in FileFds(s.sh.fds) ==> exists k :: k in s.clients && s.clients[k].fileFd == f)
      && s.sh.opens == s.sh.closes + |FileFds(s.sh.fds)|
  {
    RunKeeps(listenFd, inputs);
    var s := Run(listenFd, inputs);
    forall k | k in s.clients ensures HoldsItsOwn(s, k) {
      assert EntryOk(s, k);
      forall j | j in s.clients && s.clients[j].fileFd == s.clients[k].fileFd && s.clients[k].fileFd != -1
        ensures j == k
      {
        assert ApartFrom(s, j, k);
        assert s.clients[k].fileFd in Mine(s.clients[j]) && s.clients[k].fileFd in Mine(s.clients[k]);
      }
    }
    forall f | f in FileFds(s.sh.fds) ensures exists k :: k in s.clients && s.clients[k].fileFd == f {
      assert Accounted(s, listenFd, f);
      var k :| k in s.clients && f in Mine(s.clients[k]);
      assert EntryOk(s, k);
    }
  }

  /** The connection map: its keys are exactly the descriptors registered with the event loop besides the
      listening socket, all of them open sockets; every entry is filed under its own descriptor and none is
      in STATE_DONE. */
  lemma ConnectionMap(listenFd: nat, inputs: seq<Input>)
    requires Feasible(listenFd, inputs)
    ensures
      var s := Run(listenFd, inputs);
      && s.clients.Keys == s.sh.polls.Keys - {listenFd}
      && s.clients.Keys == (set f | f in s.sh.fds && s.sh.fds[f].Socket?) - {listenFd}
      && (forall k :: k in s.clients ==> s.clients[k].fd == k && s.clients[k].state != Done)
  {
    RunKeeps(listenFd, inputs);
    var s := Run(listenFd, inputs);
    forall k | k in s.clients
      ensures s.clients[k].fd == k && s.clients[k].state != Done
      ensures k in s.sh.fds && s.sh.fds[k].Socket? && k != listenFd
    {
      assert EntryOk(s, k);
    }
    forall f | f in s.sh.fds && s.sh.fds[f].Socket? && f != listenFd ensures f in s.clients {
      assert Accounted(s, listenFd, f);
      var k :| k in s.clients && f in Mine(s.clients[k]);
      assert EntryOk(s, k);
    }
  }

  /** Accepting connections never overwrites an entry of the map, even when it reuses a closed descriptor. */
  lemma {:induction false} AcceptOverwritesNothing(s: Sys, listenFd: int, arrivals: seq<Arrival>)
    requires SysInv(s, listenFd)
    ensures forall k :: k in s.clients ==>
      k in AcceptAll(s, arrivals).clients && AcceptAll(s, arrivals).clients[k] == s.clients[k]
    decreases |arrivals|
  {
    if arrivals != [] {
      match arrivals[0]
      case Connect(fd, stream) =>
        if fd !in s.sh.fds {
          forall k | k in s.clients ensures k != fd {
            assert EntryOk(s, k);
          }
          AdmitKeeps(s, listenFd, fd, stream);
          AcceptOverwritesNothing(Admit(s, fd, stream), listenFd, arrivals[1..]);
        }
      case Interrupted =>
        AcceptOverwritesNothing(s, listenFd, arrivals[1..]);
      case NoneLeft =>
    }
  }

  // -------- accepting --------

  /** How many of the first `n` arrivals are connections. */
  function Connects(arrivals: seq<Arrival>, n: nat): nat
    requires n <= |arrivals|
  {
    if n == 0 then 0 else (if arrivals[0].Connect? then 1 else 0) + Connects(arrivals[1..], n - 1)
  }

  /** The accept loop gets as far as position `n`: there, and nowhere before, it is told that there are no more. */
  predicate Until(arrivals: seq<Arrival>, n: nat) {
    n <= |arrivals| && NoneLeft !in arrivals[..n] && (n < |arrivals| ==> arrivals[n] == NoneLeft)
  }

  /** One of the first `n` arrivals comes on the descriptor `k`. */
  ghost predicate ComesOn(arrivals: seq<Arrival>, n: nat, k: int)
    requires n <= |arrivals|
  {
    exists i :: 0 <= i < n && arrivals[i].Connect? && arrivals[i].fd == k
  }

  /** The system hands out descriptors that are not in use. */
  predicate NewFds(s: Sys, arrivals: seq<Arrival>, n: nat)
    requires n <= |arrivals|
  {
    && (forall i :: 0 <= i < n && arrivals[i].Connect? ==> arrivals[i].fd !in s.sh.fds)
    && (forall i, j :: 0 <= i < j < n && arrivals[i].Connect? && arrivals[j].Connect? ==>
          arrivals[i].fd != arrivals[j].fd)
  }

  /** The connection `a` has been accepted as number `id`: it is filed under its descriptor, waits for its request line,
      of which nothing has been read yet, and is registered for reading. */
  predicate Taken(s: Sys, a: Arrival, id: nat)
    requires a.Connect?
  {
    && a.fd in s.clients && a.fd in s.sh.fds && s.sh.fds[a.fd] == Socket && a.fd in s.sh.polls
    && s.sh.polls[a.fd] == Read
    && var c := s.clients[a.fd];
       && c.fd == a.fd && c.id == id && c.state == RecvHeader && c.wire == Wire(a.stream, 0, []) && c.header == []
       && c.fileFd == -1 && c.listBuf == None
  }

  predicate SameAt(s: Sys, s': Sys, k: int) {
    && (k in s'.clients <==> k in s.clients) && (k in s.clients ==> s'.clients[k] == s.clients[k])
    && (k in s'.sh.fds <==> k in s.sh.fds) && (k in s.sh.fds ==> s'.sh.fds[k] == s.sh.fds[k])
    && (k in s'.sh.polls <==> k in s.sh.polls) && (k in s.sh.polls ==> s'.sh.polls[k] == s.sh.polls[k])
  }

  /** Accepting takes every connection that has arrived before there are none left, interrupted calls in between
      included: each is taken, in their order, with the next number; nothing else changes. */
  lemma {:induction false} AcceptTakesAll(s: Sys, arrivals: seq<Arrival>, n: nat)
    requires Until(arrivals, n) && NewFds(s, arrivals, n)
    ensures
      var s' := AcceptAll(s, arrivals);
      && s'.accepted == s.accepted + Connects(arrivals, n)
      && (forall i :: 0 <= i < n && arrivals[i].Connect? ==>
            Taken(s', arrivals[i], s.accepted + Connects(arrivals, i)))
      && (forall k :: !ComesOn(arrivals, n, k) ==> SameAt(s, s', k))
      && s'.gone == s.gone && s'.episodes == s.episodes && s'.sh == s.sh.(fds := s'.sh.fds, polls := s'.sh.polls)
    decreases |arrivals|
  {
    if n > 0 {
      var a, rest := arrivals[0], arrivals[1..];
      assert arrivals[..n][1..] == rest[..n - 1];
      assert arrivals[0] == arrivals[..n][0] != NoneLeft;
      var s1 := if a.Connect? then Admit(s, a.fd, a.stream) else s;
      assert NewFds(s1, rest, n - 1) by {
        forall i | 0 <= i < n - 1 && rest[i].Connect? ensures rest[i].fd !in s1.sh.fds {
          assert rest[i] == arrivals[i + 1];
        }
      }
      AcceptTakesAll(s1, rest, n - 1);
      var s' := AcceptAll(s1, rest);
      forall i | 0 <= i < n && arrivals[i].Connect?
        ensures Taken(s', arrivals[i], s.accepted + Connects(arrivals, i))
      {
        assert i > 0 ==> rest[i - 1] == arrivals[i];
        TakesOn(s, arrivals, n, s1, s', i);
      }
      forall k | !ComesOn(arrivals, n, k) ensures SameAt(s, s', k) {
        SameOn(s, arrivals, n, s1, s', k);
      }
    }
  }

  lemma RestElsewhere(arrivals: seq<Arrival>, n: nat, k: int)
    requires 0 < n <= |arrivals| && forall i :: 0 < i < n && arrivals[i].Connect? ==> arrivals[i].fd != k
    ensures !ComesOn(arrivals[1..], n - 1, k)
  {
    forall j | 0 <= j < n - 1 && arrivals[1..][j].Connect? ensures arrivals[1..][j].fd != k {
      assert arrivals[1..][j] == arrivals[j + 1];
    }
  }

  lemma TakenAs(s: Sys, s': Sys, a: Arrival, id: nat)
    requires a.Connect? && Taken(s, a, id) && SameAt(s, s', a.fd)
    ensures Taken(s', a, id)
  {
  }

  lemma AdmitTakes(s: Sys, fd: nat, stream: bytes, k: int)
    ensures Taken(Admit(s, fd, stream), Connect(fd, stream), s.accepted)
    ensures k != fd ==> SameAt(s, Admit(s, fd, stream), k)
  {
  }

  /** What the first arrival does, and what the loop does from the second on, taken together. */
  lemma TakesOn(s: Sys, arrivals: seq<Arrival>, n: nat, s1: Sys, s': Sys, i: nat)
    requires i < n <= |arrivals| && NewFds(s, arrivals, n) && arrivals[i].Connect?
    requires s1 == if arrivals[0].Connect? then Admit(s, arrivals[0].fd, arrivals[0].stream) else s
    requires i > 0 ==> Taken(s', arrivals[i], s1.accepted + Connects(arrivals[1..], i - 1))
    requires i == 0 && !ComesOn(arrivals[1..], n - 1, arrivals[0].fd) ==> SameAt(s1, s', arrivals[0].fd)
    ensures Taken(s', arrivals[i], s.accepted + Connects(arrivals, i))
  {
    if i == 0 {
      AdmitTakes(s, arrivals[0].fd, arrivals[0].stream, arrivals[0].fd);
      RestElsewhere(arrivals, n, arrivals[0].fd);
      TakenAs(s1, s', arrivals[0], s.accepted);
    }
  }

  lemma SameOn(s: Sys, arrivals: seq<Arrival>, n: nat, s1: Sys, s': Sys, k: int)
    requires 0 < n <= |arrivals| && !ComesOn(arrivals, n, k)
    requires s1 == if arrivals[0].Connect? then Admit(s, arrivals[0].fd, arrivals[0].stream) else s
    requires !ComesOn(arrivals[1..], n - 1, k) ==> SameAt(s1, s', k)
    ensures SameAt(s, s', k)
  {
    assert arrivals[0].Connect? ==> arrivals[0].fd != k;
    RestElsewhere(arrivals, n, k);
    if arrivals[0].Connect? {
      AdmitTakes(s, arrivals[0].fd, arrivals[0].stream, k);
    }
    SameTrans(s, s1, s', k);
  }

  lemma SameTrans(s: Sys, s1: Sys, s': Sys, k: int)
    requires SameAt(s, s1, k) && SameAt(s1, s', k)
    ensures SameAt(s, s', k)
  {
  }

  // -------- connection numbers --------

  /** Every record, live or freed, has a connection number of its own. */
  ghost predicate OwnNumbers(s: Sys) {
    && (forall k :: k in s.clients ==> s.clients[k].id < s.accepted)
    && (forall i :: 0 <= i < |s.gone| ==> s.gone[i].c.id < s.accepted)
    && (forall j, k :: j in s.clients && k in s.clients && j != k ==> s.clients[j].id != s.clients[k].id)
    && (forall i, j :: 0 <= i < j < |s.gone| ==> s.gone[i].c.id != s.gone[j].c.id)
    && (forall i, k :: 0 <= i < |s.gone| && k in s.clients ==> s.gone[i].c.id != s.clients[k].id)
  }

  lemma {:induction false} AcceptNumbers(s: Sys, listenFd: int, arrivals: seq<Arrival>)
    requires SysInv(s, listenFd) && OwnNumbers(s)
    ensures OwnNumbers(AcceptAll(s, arrivals))
    decreases |arrivals|
  {
    if arrivals != [] {
      match arrivals[0]
      case Connect(fd, stream) =>
        if fd !in s.sh.fds {
          AdmitKeeps(s, listenFd, fd, stream);
          AcceptNumbers(Admit(s, fd, stream), listenFd, arrivals[1..]);
        }
      case Interrupted =>
        AcceptNumbers(s, listenFd, arrivals[1..]);
      case NoneLeft =>
    }
  }

  lemma SameNumber(s: Sys, listenFd: int, fd: int, mask: Mask, sched: seq<Answer>)
    requires SysInv(s, listenFd) && fd in s.clients && Deliverable(s, Report(fd, mask, sched))
    ensures
      var w' := Dispatch(Begin(s.clients[fd], s.sh, sched), mask);
      w'.c.id == s.clients[fd].id && w'.c.fd == fd
  {
    assert EntryOk(s, fd);
    Dispatching(Begin(s.clients[fd], s.sh, sched), mask);
  }

  lemma HandleNumbers(s: Sys, fd: int, mask: Mask, sched: seq<Answer>, w': World)
    requires OwnNumbers(s) && fd in s.clients
    requires w' == Dispatch(Begin(s.clients[fd], s.sh, sched), mask)
    requires w'.c.id == s.clients[fd].id && w'.c.fd == fd
    ensures OwnNumbers(Handle(s, fd, mask, sched))
  {
  }

  /** No two connections of a run, live or ended, share a number, so an event of the history belongs to one
      connection. */
  lemma {:induction false} NumbersAreOwn(listenFd: nat, inputs: seq<Input>)
    requires Feasible(listenFd, inputs)
    ensures OwnNumbers(Run(listenFd, inputs))
  {
    if inputs != [] {
      var before, i := inputs[..|inputs| - 1], inputs[|inputs| - 1];
      var s := Run(listenFd, before);
      NumbersAreOwn(listenFd, before);
      RunKeeps(listenFd, before);
      match i
      case Incoming(arrivals) => AcceptNumbers(s, listenFd, arrivals);
      case Report(fd, mask, sched) =>
        if fd in s.clients {
          SameNumber(s, listenFd, fd, mask, sched);
          HandleNumbers(s, fd, mask, sched, Dispatch(Begin(s.clients[fd], s.sh, sched), mask));
        }
    }
  }

  /** Some record, live or freed, has the number. */
  ghost predicate Numbered(s: Sys, n: int) {
    (exists k :: k in s.clients && s.clients[k].id == n) || (exists i :: 0 <= i < |s.gone| && s.gone[i].c.id == n)
  }

  ghost predicate AllNumbered(s: Sys) {
    forall n :: 0 <= n < s.accepted ==> Numbered(s, n)
  }

  lemma AdmitNumbers(s: Sys, listenFd: int, fd: nat, stream: bytes)
    requires SysInv(s, listenFd) && fd !in s.sh.fds && AllNumbered(s)
    ensures AllNumbered(Admit(s, fd, stream))
  {
    var s' := Admit(s, fd, stream);
    forall n | 0 <= n < s'.accepted ensures Numbered(s', n) {
      if n == s.accepted {
        assert s'.clients[fd].id == n;
      } else {
        assert Numbered(s, n);
        if k :| k in s.clients && s.clients[k].id == n {
          assert EntryOk(s, k);
          assert k in s'.clients && s'.clients[k].id == n;
        }
      }
    }
  }

  lemma {:induction false} AcceptNumbersAll(s: Sys, listenFd: int, arrivals: seq<Arrival>)
    requires SysInv(s, listenFd) && AllNumbered(s)
    ensures AllNumbered(AcceptAll(s, arrivals))
    decreases |arrivals|
  {
    if arrivals != [] {
      match arrivals[0]
      case Connect(fd, stream) =>
        if fd !in s.sh.fds {
          AdmitKeeps(s, listenFd, fd, stream);
          AdmitNumbers(s, listenFd, fd, stream);
          AcceptNumbersAll(Admit(s, fd, stream), listenFd, arrivals[1..]);
        }
      case Interrupted =>
        AcceptNumbersAll(s, listenFd, arrivals[1..]);
      case NoneLeft =>
    }
  }

  lemma HandleNumbersAll(s: Sys, fd: int, w': World, s': Sys)
    requires AllNumbered(s) && fd in s.clients && w'.c.id == s.clients[fd].id && s'.accepted == s.accepted
    requires s'.clients == After(s, fd, w') && s'.gone == s.gone + if w'.alive then [] else [Ended(w'.c, |w'.sh.trace|)]
    ensures AllNumbered(s')
  {
    forall n | 0 <= n < s'.accepted ensures Numbered(s', n) {
      assert Numbered(s, n);
      if k :| k in s.clients && s.clients[k].id == n {
        if k == fd && !w'.alive {
          assert s'.gone[|s.gone|].c.id == n;
        } else {
          assert k in s'.clients && s'.clients[k].id == n;
        }
      } else {
        var i :| 0 <= i < |s.gone| && s.gone[i].c.id == n;
        assert s'.gone[i] == s.gone[i];
      }
    }
  }

  /** Every number given out belongs to a record of the run, live or freed. */
  lemma {:induction false} NumbersAreUsed(listenFd: nat, inputs: seq<Input>)
    requires Feasible(listenFd, inputs)
    ensures AllNumbered(Run(listenFd, inputs))
  {
    if inputs != [] {
      var before, i := inputs[..|inputs| - 1], inputs[|inputs| - 1];
      var s := Run(listenFd, before);
      NumbersAreUsed(listenFd, before);
      RunKeeps(listenFd, before);
      match i
      case Incoming(arrivals) => AcceptNumbersAll(s, listenFd, arrivals);
      case Report(fd, mask, sched) =>
        if fd in s.clients {
          SameNumber(s, listenFd, fd, mask, sched);
          HandleNumbersAll(s, fd, Dispatch(Begin(s.clients[fd], s.sh, sched), mask), Step(s, i));
        }
    }
  }
}
