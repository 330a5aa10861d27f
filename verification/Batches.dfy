/** The main loop handles a batch of reports one after the other, all of them made before the first is
    handled. No report in a batch goes stale. */
module Batches {
  import opened Protocol
  import opened Calls
  import opened History
  import opened Kernel
  import opened Handlers
  import opened System
  import opened RequestProofs
  import opened RunProofs

  /** The reports of one wait: each possible in the state `s`, at most one for a descriptor. */
  ghost predicate OneBatch(s: Sys, batch: seq<Input>) {
    && (forall i :: 0 <= i < |batch| ==> Deliverable(s, batch[i]))
    && (forall i, j :: 0 <= i < j < |batch| && batch[i].Report? && batch[j].Report? ==> batch[i].fd != batch[j].fd)
  }

  /** Descriptor `fd` has the same registration and the same connection in both states. */
  predicate SameEntry(s: Sys, s': Sys, fd: int) {
    && (fd in s.sh.polls <==> fd in s'.sh.polls)
    && (fd in s.sh.polls ==> s'.sh.polls[fd] == s.sh.polls[fd])
    && (fd in s.clients <==> fd in s'.clients)
    && (fd in s.clients ==> s'.clients[fd] == s.clients[fd])
  }

  lemma {:induction false} AcceptKeepsEntry(s: Sys, listenFd: int, arrivals: seq<Arrival>, fd: int)
    requires SysInv(s, listenFd) && fd in s.sh.polls
    ensures SameEntry(s, AcceptAll(s, arrivals), fd)
    decreases |arrivals|
  {
    assert EntryOk(s, fd);
    if arrivals != [] {
      match arrivals[0]
      case Connect(k, stream) =>
        if k !in s.sh.fds {
          assert fd == listenFd || fd in s.clients;
          AdmitKeeps(s, listenFd, k, stream);
          AcceptKeepsEntry(Admit(s, k, stream), listenFd, arrivals[1..], fd);
        }
      case Interrupted =>
        AcceptKeepsEntry(s, listenFd, arrivals[1..], fd);
      case NoneLeft =>
    }
  }

  /** Handling one report leaves every other descriptor's registration and connection as they were. */
  lemma StepKeepsEntry(s: Sys, listenFd: int, i: Input, fd: int)
    requires SysInv(s, listenFd) && Deliverable(s, i) && fd in s.sh.polls
    requires i.Report? ==> i.fd != fd
    ensures SameEntry(s, Step(s, i), fd)
  {
    match i
    case Incoming(arrivals) =>
      AcceptKeepsEntry(s, listenFd, arrivals, fd);
    case Report(k, mask, sched) =>
      if k in s.clients {
        assert EntryOk(s, k);
        var w := Begin(s.clients[k], s.sh, sched);
        Dispatching(w, mask);
        var w' := Dispatch(w, mask);
        assert fd in w.sh.polls - {k};
        assert fd in w'.sh.polls - {k};
        assert w'.sh.polls[fd] == (w'.sh.polls - {k})[fd];
      }
  }

  /** The state after the first `k` reports of a batch. */
  ghost function StateAfter(before: Sys, batch: seq<Input>, k: nat): Sys
    requires k <= |batch|
  {
    if k == 0 then before else Step(StateAfter(before, batch, k - 1), batch[k - 1])
  }

  lemma EntryStays(s: Sys, s': Sys, listenFd: int, i: Input, later: Input)
    requires SysInv(s', listenFd) && Deliverable(s', i) && later.Report? && (i.Report? ==> i.fd != later.fd)
    requires Deliverable(s', later) && SameEntry(s, s', later.fd)
    ensures Deliverable(Step(s', i), later) && SameEntry(s, Step(s', i), later.fd)
  {
    StepKeepsEntry(s', listenFd, i, later.fd);
  }

  /** The reports still to be handled can be made in `s'`, for the connections they could be made for in `s`. */
  ghost predicate NoneStale(s: Sys, s': Sys, batch: seq<Input>, k: nat) {
    forall j :: k <= j < |batch| && batch[j].Report? ==> Deliverable(s', batch[j]) && SameEntry(s, s', batch[j].fd)
  }

  lemma {:induction false} StatesStay(s: Sys, listenFd: int, batch: seq<Input>, k: nat)
    requires SysInv(s, listenFd) && OneBatch(s, batch) && k <= |batch|
    ensures SysInv(StateAfter(s, batch, k), listenFd) && NoneStale(s, StateAfter(s, batch, k), batch, k)
  {
    if k > 0 {
      var s', i := StateAfter(s, batch, k - 1), batch[k - 1];
      StatesStay(s, listenFd, batch, k - 1);
      StepKeeps(s', listenFd, i);
      forall j | k <= j < |batch| && batch[j].Report?
        ensures Deliverable(Step(s', i), batch[j]) && SameEntry(s, Step(s', i), batch[j].fd)
      {
        EntryStays(s, s', listenFd, i, batch[j]);
      }
    }
  }

  lemma BatchStays(listenFd: nat, inputs: seq<Input>, batch: seq<Input>, k: nat)
    requires Feasible(listenFd, inputs) && OneBatch(Run(listenFd, inputs), batch) && k < |batch|
    ensures Deliverable(StateAfter(Run(listenFd, inputs), batch, k), batch[k])
  {
    RunKeeps(listenFd, inputs);
    StatesStay(Run(listenFd, inputs), listenFd, batch, k);
  }

  /** Handling a batch report by report prolongs the run. */
  lemma {:induction false} BatchIsRun(listenFd: nat, inputs: seq<Input>, batch: seq<Input>, k: nat)
    requires Feasible(listenFd, inputs) && OneBatch(Run(listenFd, inputs), batch) && k <= |batch|
    ensures Feasible(listenFd, inputs + batch[..k])
    ensures Run(listenFd, inputs + batch[..k]) == StateAfter(Run(listenFd, inputs), batch, k)
  {
    if k == 0 {
      assert inputs + batch[..0] == inputs;
    } else {
      BatchIsRun(listenFd, inputs, batch, k - 1);
      BatchStays(listenFd, inputs, batch, k - 1);
      assert inputs + batch[..k] == inputs + batch[..k - 1] + [batch[k - 1]];
      RunNext(listenFd, inputs + batch[..k - 1], batch[k - 1]);
    }
  }

  /** Every report of a batch can still be made when its turn comes, and it reaches the very connection it was
      made for: no earlier report of the batch closed that connection, changed its registration, or let its
      descriptor be reused. */
  lemma BatchNeverStale(listenFd: nat, inputs: seq<Input>, batch: seq<Input>, k: nat)
    requires Feasible(listenFd, inputs) && OneBatch(Run(listenFd, inputs), batch) && k <= |batch|
    ensures Feasible(listenFd, inputs + batch[..k])
    ensures NoneStale(Run(listenFd, inputs), Run(listenFd, inputs + batch[..k]), batch, k)
  {
    BatchIsRun(listenFd, inputs, batch, k);
    RunKeeps(listenFd, inputs);
    StatesStay(Run(listenFd, inputs), listenFd, batch, k);
  }

  /** A connection is registered for exactly one of reading and writing, so no report makes the loop run both
      handlers: it never looks at a record that the first of them freed. */
  lemma NeverBothHandlers(listenFd: nat, inputs: seq<Input>, fd: int, mask: Mask, sched: seq<Answer>)
    requires Feasible(listenFd, inputs + [Report(fd, mask, sched)])
    requires fd in Run(listenFd, inputs).clients && !mask.error
    ensures
      var s := Run(listenFd, inputs);
      var w := Begin(s.clients[fd], s.sh, sched);
      && !(mask.read && mask.write)
      && (mask.write ==> !Receiving(s.clients[fd].state) && Dispatch(w, mask) == HandleWrite(w))
      && (mask.read ==> Dispatch(w, mask) == HandleRead(w))
      && (!mask.write && !(mask.read && Receiving(s.clients[fd].state)) ==> Dispatch(w, mask) == w)
      && (Receiving(s.clients[fd].state) ==> s.sh.polls[fd] == Read)
      && (s.clients[fd].state in {SendGetSize, SendGetData, SendListData} ==> s.sh.polls[fd] == Write)
  {
    assert (inputs + [Report(fd, mask, sched)])[..|inputs|] == inputs;
    RunKeeps(listenFd, inputs);
    assert EntryOk(Run(listenFd, inputs), fd);
  }

  /** An error that is reported for a connection ends it, whatever else is reported with it: nothing is read, sent or
      listed any more, its descriptor is closed, and its record is freed as it stands; all that can come of it is that
      the name of an unfinished upload is unlinked. */
  lemma ErrorEnds(listenFd: nat, inputs: seq<Input>, fd: int, mask: Mask, sched: seq<Answer>)
    requires Feasible(listenFd, inputs) && fd in Run(listenFd, inputs).clients && mask.error
    ensures
      var s := Run(listenFd, inputs);
      var s', c := Step(s, Report(fd, mask, sched)), s.clients[fd];
      && s'.clients == s.clients - {fd} && fd !in s'.sh.fds && fd !in s'.sh.polls
      && |s'.gone| == |s.gone| + 1 && s'.gone[|s.gone|].c == c
      && s'.sh.list == s.sh.list && s'.sh.data == s.sh.data
      && (s'.sh.trace == s.sh.trace || (c.verb == PUT && s'.sh.trace == s.sh.trace + [TornDown(c.id, c.filename)]))
  {
    RunKeeps(listenFd, inputs);
    assert EntryOk(Run(listenFd, inputs), fd);
  }
}
