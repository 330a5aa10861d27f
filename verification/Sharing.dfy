/** What the history says of uploads that overlap: a file that a PUT found being written, or that a DELETE found being
    uploaded, was that of an upload the history has under way. */
module Sharing {
  import opened Protocol
  import opened Calls
  import opened History
  import opened Kernel
  import opened Handlers
  import opened System
  import opened SharedInvariant
  import opened ConnInvariant
  import opened RunProofs
  import opened Resources
  import opened Causes
  import opened Outcomes

  /** The upload of another connection that opened its file at `o` is under way at `k`: the history has nothing more of
      that connection yet. */
  ghost predicate UnderWay(t: seq<Event>, o: nat, k: nat)
    requires k < |t|
  {
    o < k && t[o].PutOpened? && t[o].id != t[k].id && forall m :: 0 <= m < k && t[m].id == t[o].id ==> m == o
  }

  /** If the event at `k` says that its file was being written, or its name uploaded, so it was. */
  ghost predicate Overlaps(t: seq<Event>, k: nat)
    requires k < |t|
  {
    match t[k]
    case PutOpened(_, _, ino, written, _) => written ==> exists o: nat :: UnderWay(t, o, k) && t[o].ino == ino
    case Deleted(_, name, uploading) => uploading ==> exists o: nat :: UnderWay(t, o, k) && t[o].name == name
    case _ => true
  }

  ghost predicate AllSeen(t: seq<Event>) {
    forall k :: 0 <= k < |t| ==> Overlaps(t, k)
  }

  lemma UnderWayLater(t: seq<Event>, t': seq<Event>, o: nat, k: nat)
    requires k < |t| && UnderWay(t, o, k) && t <= t'
    ensures UnderWay(t', o, k)
  {
  }

  lemma OverlapsLater(t: seq<Event>, t': seq<Event>, k: nat)
    requires k < |t| && Overlaps(t, k) && t <= t'
    ensures Overlaps(t', k)
  {
    match t[k]
    case PutOpened(_, _, ino, written, _) =>
      if written {
        var o: nat :| UnderWay(t, o, k) && t[o].ino == ino;
        UnderWayLater(t, t', o, k);
      }
    case Deleted(_, name, uploading) =>
      if uploading {
        var o: nat :| UnderWay(t, o, k) && t[o].name == name;
        UnderWayLater(t, t', o, k);
      }
    case _ =>
  }

  /** The history has the open of an upload that is being received, and nothing else of it. */
  lemma ReceivingOpened(s: Sys, listenFd: int, j: int) returns (i: nat)
    requires SysInv(s, listenFd) && Told(s) && j in s.clients && s.clients[j].state == RecvPutData
    ensures i < |s.sh.trace| && s.sh.trace[i].PutOpened? && s.sh.trace[i].id == s.clients[j].id
    ensures s.sh.trace[i].ino == Ino(s.sh, s.clients[j].fileFd) && s.sh.trace[i].name == s.clients[j].filename
    ensures forall m :: 0 <= m < |s.sh.trace| && s.sh.trace[m].id == s.clients[j].id ==> m == i
  {
    var c, t := s.clients[j], s.sh.trace;
    assert EntryOk(s, j);
    i :| 0 <= i < |t| && t[i].PutOpened? && t[i].id == c.id && t[i].ino == Ino(s.sh, c.fileFd);
    assert LiveTold(c, CallsOf(s.episodes, c.id), t);
    assert DoneFor(t, i, c);
    forall m | 0 <= m < |t| && t[m].id == c.id ensures m == i {
      assert DoneFor(t, m, c) && EventOk(s, t[m]);
    }
  }

  /** A descriptor open for writing belongs to an upload that is being received. */
  lemma WriterReceives(s: Sys, listenFd: int, f: int) returns (j: int)
    requires SysInv(s, listenFd) && f in FileFds(s.sh.fds) && s.sh.fds[f].writing
    ensures j in s.clients && s.clients[j].state == RecvPutData && s.clients[j].fileFd == f
    ensures s.clients[j].filename == s.sh.fds[f].name
  {
    assert Accounted(s, listenFd, f);
    j :| j in s.clients && f in Mine(s.clients[j]);
    assert EntryOk(s, j);
  }

  /** What a new event says of other uploads is so. */
  lemma NewOverlaps(s: Sys, listenFd: int, fd: int, w': World, k: nat)
    requires SysInv(s, listenFd) && Told(s) && OwnNumbers(s) && fd in s.clients && s.sh.trace <= w'.sh.trace
    requires w'.c.id == s.clients[fd].id && Founded(Since(s, s.clients[fd]), w') && GoesOn(s.clients[fd], w')
    requires |s.sh.trace| <= k < |w'.sh.trace|
    requires forall m :: |s.sh.trace| <= m < |w'.sh.trace| ==> w'.sh.trace[m].id == w'.c.id
    ensures Overlaps(w'.sh.trace, k)
  {
    var t, e := w'.sh.trace, w'.sh.trace[k];
    assert News(Since(s, s.clients[fd]), w', k);
    if e.PutOpened? && e.written {
      var f :| f in s.sh.fds && s.sh.fds[f].File? && s.sh.fds[f].writing && s.sh.fds[f].ino == e.ino;
      var j := WriterReceives(s, listenFd, f);
      var o := ReceivingOpened(s, listenFd, j);
      OtherUnderWay(s, fd, w', j, o, k);
    } else if e.Deleted? && e.uploading {
      var f :| f in s.sh.fds && s.sh.fds[f].File? && s.sh.fds[f].writing && s.sh.fds[f].name == e.name;
      var j := WriterReceives(s, listenFd, f);
      var o := ReceivingOpened(s, listenFd, j);
      OtherUnderWay(s, fd, w', j, o, k);
    }
  }

  lemma OtherUnderWay(s: Sys, fd: int, w': World, j: int, o: nat, k: nat)
    requires OwnNumbers(s) && fd in s.clients && j in s.clients && s.clients[j].state == RecvPutData
    requires s.sh.trace <= w'.sh.trace && |s.sh.trace| <= k < |w'.sh.trace| && o < |s.sh.trace|
    requires w'.c.id == s.clients[fd].id && GoesOn(s.clients[fd], w') && DoneFor(w'.sh.trace, k, w'.c)
    requires w'.sh.trace[k].PutOpened? || (w'.sh.trace[k].Deleted? && s.clients[j].verb == PUT)
    requires forall m :: |s.sh.trace| <= m < |w'.sh.trace| ==> w'.sh.trace[m].id == w'.c.id
    requires s.sh.trace[o].PutOpened? && s.sh.trace[o].id == s.clients[j].id
    requires forall m :: 0 <= m < |s.sh.trace| && s.sh.trace[m].id == s.clients[j].id ==> m == o
    ensures UnderWay(w'.sh.trace, o, k)
  {
    var t := w'.sh.trace;
    assert t[o] == s.sh.trace[o];
    assert j != fd;
    forall m | 0 <= m < k && t[m].id == t[o].id ensures m == o {
      if m < |s.sh.trace| {
        assert t[m] == s.sh.trace[m];
      }
    }
  }

  lemma StepOverlaps(s: Sys, listenFd: int, fd: int, mask: Mask, sched: seq<Answer>)
    requires SysInv(s, listenFd) && Told(s) && OwnNumbers(s)
    requires fd in s.clients && Deliverable(s, Report(fd, mask, sched))
    requires AllSeen(s.sh.trace)
    ensures AllSeen(Handle(s, fd, mask, sched).sh.trace)
  {
    var w' := Dispatch(Begin(s.clients[fd], s.sh, sched), mask);
    HandleFounded(s, listenFd, fd, mask, sched);
    forall m | |s.sh.trace| <= m < |w'.sh.trace| ensures w'.sh.trace[m].id == w'.c.id {
      assert News(Since(s, s.clients[fd]), w', m);
    }
    forall k | 0 <= k < |w'.sh.trace| ensures Overlaps(w'.sh.trace, k) {
      if k < |s.sh.trace| {
        OverlapsLater(s.sh.trace, w'.sh.trace, k);
      } else {
        NewOverlaps(s, listenFd, fd, w', k);
      }
    }
  }

  /** Over every run: a PUT found its file being written only if another upload that had opened that file was under way,
      and a DELETE found its name being uploaded only if an upload of that name was. So the conditions that speak of
      uploads that overlap can be read off the order of the events alone. */
  lemma {:induction false} RunOverlaps(listenFd: nat, inputs: seq<Input>)
    requires Feasible(listenFd, inputs)
    ensures AllSeen(Run(listenFd, inputs).sh.trace)
  {
    if inputs != [] {
      var before, i := inputs[..|inputs| - 1], inputs[|inputs| - 1];
      var s := Run(listenFd, before);
      RunOverlaps(listenFd, before);
      RunKeeps(listenFd, before);
      RunTold(listenFd, before);
      NumbersAreOwn(listenFd, before);
      match i
      case Incoming(arrivals) => AcceptGrows(s, arrivals);
      case Report(fd, mask, sched) =>
        if fd in s.clients {
          StepOverlaps(s, listenFd, fd, mask, sched);
        }
    }
  }
}
