/** Why things end as they do: over every run, each outcome of a connection is tied, both ways, to what the system
    answered to the calls made for it. */
module Outcomes {
  import opened Bytes
  import opened Protocol
  import opened Calls
  import opened History
  import opened Kernel
  import opened Handlers
  import opened System
  import opened SharedInvariant
  import opened ConnInvariant
  import opened RequestProofs
  import opened RunProofs
  import opened Resources
  import opened Causes

  // -------- the calls of a connection --------

  /** All calls made for the connection with the number `id`, in order. */
  function CallsOf(episodes: seq<Episode>, id: nat): seq<Call> {
    if episodes == [] then []
    else
      var before, last := CallsOf(episodes[..|episodes| - 1], id), episodes[|episodes| - 1];
      if last.id == id then before + last.calls else before
  }

  lemma CallsNext(episodes: seq<Episode>, e: Episode, id: nat)
    ensures
      var before := CallsOf(episodes, id);
      CallsOf(episodes + [e], id) == if e.id == id then before + e.calls else before
  {
    assert (episodes + [e])[..|episodes|] == episodes;
  }

  lemma {:induction false} NoCalls(episodes: seq<Episode>, id: nat)
    requires forall i :: 0 <= i < |episodes| ==> episodes[i].id != id
    ensures CallsOf(episodes, id) == []
  {
    if episodes != [] {
      NoCalls(episodes[..|episodes| - 1], id);
    }
  }

  lemma ToldConcat(e: Event, calls: seq<Call>, more: seq<Call>)
    requires EventTold(e, calls)
    ensures EventTold(e, calls + more)
  {
    if e.Rejected? {
      FailedStays(calls, calls + more);
    }
  }

  // -------- the invariant --------

  /** The events that carry the connection's number were done for its request. */
  ghost predicate OwnEvents(t: seq<Event>, c: Conn) {
    forall j :: 0 <= j < |t| && t[j].id == c.id ==> DoneFor(t, j, c)
  }

  /** A connection in the map. */
  ghost predicate LiveTold(c: Conn, calls: seq<Call>, trace: seq<Event>) {
    && (c.oom <==> Allocate(false) in calls) && (c.oom ==> c.op == -1)
    && (c.verb != DELETE ==> NoUnlink(calls)) && !Broke(calls) && Verdict(calls, c, true)
    && OwnEvents(trace, c) && (c.op == -1 || Placed(c, trace)) && (Early(c) ==> Silent(trace, c.id))
  }

  /** No event from position `at` on has that number. */
  ghost predicate SilentFrom(t: seq<Event>, at: nat, id: nat) {
    forall j :: at <= j < |t| ==> t[j].id != id
  }

  /** A freed record: done, and nothing broke it; or broken off, and then the name of an upload was dealt with. */
  ghost predicate GoneTold(e: Ended, calls: seq<Call>, trace: seq<Event>) {
    && e.at <= |trace| && e.c.op < e.at && SilentFrom(trace, e.at, e.c.id)
    && OwnEvents(trace, e.c) && (e.c.op == -1 || Placed(e.c, trace))
    && (e.c.oom <==> Allocate(false) in calls) && (e.c.oom ==> e.c.op == -1) && Verdict(calls, e.c, false)
    && (if e.c.state == Done then (e.c.verb != DELETE ==> NoUnlink(calls)) && !Broke(calls)
        else
          && (Broke(calls) || HeaderBroke(e.c, calls)) && CutOff(e.c)
          && (e.c.verb == PUT ==> TakenAway(e.c, calls, trace[..e.at], Replay(trace[..e.at]).dir)))
  }

  /** An event belongs to an accepted connection, and was brought about by its calls. */
  ghost predicate EventOk(s: Sys, e: Event) {
    && e.id < s.accepted && EventTold(e, CallsOf(s.episodes, e.id)) && (e.PutOpened? ==> e.name != [])
  }

  ghost predicate Told(s: Sys) {
    && (forall i :: 0 <= i < |s.episodes| ==> s.episodes[i].id < s.accepted)
    && (forall j :: 0 <= j < |s.sh.trace| ==> EventOk(s, s.sh.trace[j]))
    && (forall k :: k in s.clients ==> LiveTold(s.clients[k], CallsOf(s.episodes, s.clients[k].id), s.sh.trace))
    && (forall i :: 0 <= i < |s.gone| ==> GoneTold(s.gone[i], CallsOf(s.episodes, s.gone[i].c.id), s.sh.trace))
  }

  lemma {:induction false} NoEmptyName(t: seq<Event>)
    requires forall j :: 0 <= j < |t| && t[j].PutOpened? ==> t[j].name != []
    ensures [] !in Replay(t).dir
  {
    if t != [] {
      NoEmptyName(t[..|t| - 1]);
    }
  }

  /** The calls made for a connection so far, where the history stands, and its place in it. */
  function Since(s: Sys, c: Conn): Origin {
    Origin(CallsOf(s.episodes, c.id), |s.sh.trace|, c.op, s.sh.fds)
  }

  lemma EventBegins(s: Sys, listenFd: int, fd: int, sched: seq<Answer>)
    requires SysInv(s, listenFd) && Told(s) && fd in s.clients
    ensures
      var o, w := Since(s, s.clients[fd]), Begin(s.clients[fd], s.sh, sched);
      Steadfast(w) && Sound(o, w) && Verdict(o.past, w.c, true) && Fresh(o, w)
  {
    var o, w := Since(s, s.clients[fd]), Begin(s.clients[fd], s.sh, sched);
    assert EntryOk(s, fd);
    assert All(o, w) == o.past;
    forall j | 0 <= j < |s.sh.trace| && s.sh.trace[j].PutOpened? ensures s.sh.trace[j].name != [] {
      assert EventOk(s, s.sh.trace[j]);
    }
    NoEmptyName(s.sh.trace);
    assert LiveTold(s.clients[fd], o.past, s.sh.trace);
  }

  /** What an event on `fd` adds is founded on its calls. */
  lemma HandleFounded(s: Sys, listenFd: int, fd: int, mask: Mask, sched: seq<Answer>)
    requires SysInv(s, listenFd) && Told(s) && fd in s.clients && Deliverable(s, Report(fd, mask, sched))
    ensures
      var c, w' := s.clients[fd], Dispatch(Begin(s.clients[fd], s.sh, sched), mask);
      && Founded(Since(s, c), w') && GoesOn(c, w')
      && s.sh.trace <= w'.sh.trace && SharedInv(w'.sh) && w'.c.id == c.id && w'.c.fd == fd
  {
    var w := Begin(s.clients[fd], s.sh, sched);
    EventBegins(s, listenFd, fd, sched);
    assert EntryOk(s, fd);
    Dispatching(w, mask);
    DispatchFounded(Since(s, s.clients[fd]), w, mask);
  }

  lemma OwnEventsLater(t: seq<Event>, t': seq<Event>, c: Conn)
    requires OwnEvents(t, c) && t <= t' && SilentFrom(t', |t|, c.id)
    ensures OwnEvents(t', c)
  {
    forall j | 0 <= j < |t'| && t'[j].id == c.id ensures DoneFor(t', j, c) {
      DoneForLater(t, t', j, c);
    }
  }

  /** The events of earlier reports stay done for a request, and those of this one are. */
  lemma OwnEventsGrow(s: Sys, c: Conn, w: World)
    requires OwnEvents(s.sh.trace, c) && s.sh.trace <= w.sh.trace && Noted(Since(s, c), w) && w.c.id == c.id
    requires SameRequest(c, w.c) || Silent(s.sh.trace, c.id)
    ensures OwnEvents(w.sh.trace, w.c)
  {
    var t, t' := s.sh.trace, w.sh.trace;
    forall j | 0 <= j < |t'| && t'[j].id == w.c.id ensures DoneFor(t', j, w.c) {
      if j < |t| {
        assert t[j].id == c.id;
        DoneForLater(t, t', j, c);
        if c.op == -1 {
          DoneForDecided(t', j, c, w.c);
        } else {
          DoneForSame(t', j, c, w.c);
        }
      } else {
        assert News(Since(s, c), w, j);
      }
    }
  }

  lemma HandledLive(s: Sys, c: Conn, w: World)
    requires LiveTold(c, CallsOf(s.episodes, c.id), s.sh.trace) && Founded(Since(s, c), w) && GoesOn(c, w)
    requires s.sh.trace <= w.sh.trace && SharedInv(w.sh) && w.c.id == c.id
    ensures w.alive ==> LiveTold(w.c, All(Since(s, c), w), w.sh.trace)
    ensures !w.alive ==> GoneTold(Ended(w.c, |w.sh.trace|), All(Since(s, c), w), w.sh.trace)
  {
    OwnEventsGrow(s, c, w);
    if |s.sh.trace| <= w.c.op < |w.sh.trace| {
      assert News(Since(s, c), w, w.c.op);
    }
    assert w.sh.trace[..|w.sh.trace|] == w.sh.trace;
    if w.alive && Early(w.c) {
      assert w.sh.trace == s.sh.trace;
    }
  }

  lemma GoneLater(e: Ended, calls: seq<Call>, t: seq<Event>, t': seq<Event>)
    requires GoneTold(e, calls, t) && t <= t' && SilentFrom(t', |t|, e.c.id)
    ensures GoneTold(e, calls, t')
  {
    assert t'[..e.at] == t[..e.at];
    OwnEventsLater(t, t', e.c);
  }

  lemma EventsTold(s: Sys, s': Sys, o: Origin, w': World, e: Episode, j: nat)
    requires Told(s) && s.sh.trace <= w'.sh.trace && j < |w'.sh.trace| && e.id == w'.c.id && e.calls == w'.calls
    requires e.id < s.accepted == s'.accepted && s'.episodes == s.episodes + [e]
    requires Noted(o, w') && o.past == CallsOf(s.episodes, e.id) && o.start == |s.sh.trace|
    ensures EventOk(s', w'.sh.trace[j])
  {
    var id := w'.sh.trace[j].id;
    CallsNext(s.episodes, e, id);
    if j < |s.sh.trace| {
      assert EventOk(s, s.sh.trace[j]);
      if id == e.id {
        ToldConcat(s.sh.trace[j], CallsOf(s.episodes, id), e.calls);
      }
    } else {
      assert News(o, w', j);
    }
  }

  /** The new events are those of the connection that was handled. */
  lemma NewsAreItsOwn(o: Origin, w: World, t: seq<Event>, id: nat)
    requires Noted(o, w) && o.start == |t| && t <= w.sh.trace && id != w.c.id
    ensures SilentFrom(w.sh.trace, |t|, id)
  {
    forall j | |t| <= j < |w.sh.trace| ensures w.sh.trace[j].id != id {
      assert News(o, w, j);
    }
  }

  lemma OthersTold(s: Sys, o: Origin, w': World, e: Episode, c: Conn)
    requires LiveTold(c, CallsOf(s.episodes, c.id), s.sh.trace) && c.id != e.id == w'.c.id
    requires Noted(o, w') && o.start == |s.sh.trace| && s.sh.trace <= w'.sh.trace
    ensures LiveTold(c, CallsOf(s.episodes + [e], c.id), w'.sh.trace)
  {
    CallsNext(s.episodes, e, c.id);
    NewsAreItsOwn(o, w', s.sh.trace, c.id);
    OwnEventsLater(s.sh.trace, w'.sh.trace, c);
    if Early(c) {
      forall j | 0 <= j < |w'.sh.trace| ensures w'.sh.trace[j].id != c.id {
        if j < |s.sh.trace| {
          assert s.sh.trace[j].id != c.id;
        }
      }
    }
  }

  lemma GoneStaysTold(s: Sys, o: Origin, w': World, e: Episode, i: nat)
    requires Told(s) && i < |s.gone| && s.gone[i].c.id != e.id == w'.c.id
    requires Noted(o, w') && o.start == |s.sh.trace| && s.sh.trace <= w'.sh.trace
    ensures GoneTold(s.gone[i], CallsOf(s.episodes + [e], s.gone[i].c.id), w'.sh.trace)
  {
    CallsNext(s.episodes, e, s.gone[i].c.id);
    NewsAreItsOwn(o, w', s.sh.trace, s.gone[i].c.id);
    GoneLater(s.gone[i], CallsOf(s.episodes, s.gone[i].c.id), s.sh.trace, w'.sh.trace);
  }

  /** The state after an event that led to `w'`. */
  lemma HandledTold(s: Sys, fd: int, w': World, e: Episode, s': Sys)
    requires Told(s) && OwnNumbers(s) && fd in s.clients && s.sh.trace <= w'.sh.trace && SharedInv(w'.sh)
    requires e.id == w'.c.id == s.clients[fd].id && e.calls == w'.calls
    requires Founded(Since(s, s.clients[fd]), w') && GoesOn(s.clients[fd], w')
    requires s'.clients == After(s, fd, w') && s'.sh == w'.sh && s'.accepted == s.accepted
    requires s'.episodes == s.episodes + [e]
    requires s'.gone == s.gone + if w'.alive then [] else [Ended(w'.c, |w'.sh.trace|)]
    ensures Told(s')
  {
    var o := Since(s, s.clients[fd]);
    HandledLive(s, s.clients[fd], w');
    CallsNext(s.episodes, e, e.id);
    forall j | 0 <= j < |s'.sh.trace| ensures EventOk(s', s'.sh.trace[j]) {
      EventsTold(s, s', o, w', e, j);
    }
    forall k | k in s'.clients
      ensures LiveTold(s'.clients[k], CallsOf(s'.episodes, s'.clients[k].id), s'.sh.trace)
    {
      if k != fd {
        OthersTold(s, o, w', e, s.clients[k]);
      }
    }
    forall i | 0 <= i < |s'.gone|
      ensures GoneTold(s'.gone[i], CallsOf(s'.episodes, s'.gone[i].c.id), s'.sh.trace)
    {
      if i < |s.gone| {
        GoneStaysTold(s, o, w', e, i);
      }
    }
  }

  lemma HandleTold(s: Sys, listenFd: int, fd: int, mask: Mask, sched: seq<Answer>)
    requires SysInv(s, listenFd) && OwnNumbers(s) && Told(s)
    requires fd in s.clients && Deliverable(s, Report(fd, mask, sched))
    ensures Told(Handle(s, fd, mask, sched))
  {
    var w' := Dispatch(Begin(s.clients[fd], s.sh, sched), mask);
    HandleFounded(s, listenFd, fd, mask, sched);
    HandledTold(s, fd, w', Episode(w'.c.id, s.clients[fd].state, w'.calls), Handle(s, fd, mask, sched));
  }

  lemma AdmitTold(s: Sys, fd: nat, stream: bytes)
    requires Told(s)
    ensures Told(Admit(s, fd, stream))
  {
    NoCalls(s.episodes, s.accepted);
    forall j | 0 <= j < |s.sh.trace|
      ensures EventOk(Admit(s, fd, stream), s.sh.trace[j]) && s.sh.trace[j].id != s.accepted
    {
      assert EventOk(s, s.sh.trace[j]);
    }
  }

  lemma {:induction false} AcceptTold(s: Sys, arrivals: seq<Arrival>)
    requires Told(s)
    ensures Told(AcceptAll(s, arrivals))
    decreases |arrivals|
  {
    if arrivals != [] {
      match arrivals[0]
      case Connect(fd, stream) =>
        if fd !in s.sh.fds {
          AdmitTold(s, fd, stream);
          AcceptTold(Admit(s, fd, stream), arrivals[1..]);
        }
      case Interrupted => AcceptTold(s, arrivals[1..]);
      case NoneLeft =>
    }
  }

  /** Over every run the calls made for a connection tell its story, and the events that carry its number were done
      for its request. */
  lemma {:induction false} RunTold(listenFd: nat, inputs: seq<Input>)
    requires Feasible(listenFd, inputs)
    ensures Told(Run(listenFd, inputs))
  {
    if inputs != [] {
      var before, i := inputs[..|inputs| - 1], inputs[|inputs| - 1];
      var s := Run(listenFd, before);
      RunTold(listenFd, before);
      RunKeeps(listenFd, before);
      NumbersAreOwn(listenFd, before);
      match i
      case Incoming(arrivals) => AcceptTold(s, arrivals);
      case Report(fd, mask, sched) =>
        if fd in s.clients {
          HandleTold(s, listenFd, fd, mask, sched);
        }
    }
  }

  /** All calls made for the connection. */
  function Story(s: Sys, c: Conn): seq<Call> {
    CallsOf(s.episodes, c.id)
  }

  lemma KnownTold(listenFd: nat, inputs: seq<Input>, c: Conn)
    requires Feasible(listenFd, inputs) && Known(Run(listenFd, inputs), c)
    ensures
      var s := Run(listenFd, inputs);
      && RequestOk(c) && ConnOk(c, s.sh.trace)
      && Verdict(Story(s, c), c, false) && (c.oom <==> Allocate(false) in Story(s, c))
  {
    RunTold(listenFd, inputs);
    KnownOk(listenFd, inputs, c);
  }

  // -------- events and requests --------

  /** The event carries the number of a connection of the run. */
  ghost predicate Requested(s: Sys, e: Event) {
    exists c :: Known(s, c) && c.id == e.id
  }

  /** Every event of the history was done for the request of a connection of the run: it is of the kind and for the
      name that connection asked for. A connection has at most one event that decides its request, and that is the
      one recorded as its place; besides it only a PUT has events: one open, before anything else, and a teardown. */
  lemma EventsAreAsked(listenFd: nat, inputs: seq<Input>)
    requires Feasible(listenFd, inputs)
    ensures
      var s := Run(listenFd, inputs);
      var t := s.sh.trace;
      (forall j :: 0 <= j < |t| ==> Requested(s, t[j])) && (forall c :: Known(s, c) ==> OwnEvents(t, c))
  {
    var s := Run(listenFd, inputs);
    var t := s.sh.trace;
    RunTold(listenFd, inputs);
    NumbersAreUsed(listenFd, inputs);
    forall j | 0 <= j < |t| ensures Requested(s, t[j]) {
      assert EventOk(s, t[j]);
      assert Numbered(s, t[j].id);
      if k :| k in s.clients && s.clients[k].id == t[j].id {
        assert Known(s, s.clients[k]);
      } else {
        var i :| 0 <= i < |s.gone| && s.gone[i].c.id == t[j].id;
        assert Known(s, s.gone[i].c);
      }
    }
    forall c | Known(s, c) ensures OwnEvents(t, c) {
      KnownOwns(listenFd, inputs, c);
    }
  }

  /** The place of a connection in the history, if it has one, is an event of its own; so are all that carry its
      number. */
  lemma KnownOwns(listenFd: nat, inputs: seq<Input>, c: Conn)
    requires Feasible(listenFd, inputs) && Known(Run(listenFd, inputs), c)
    ensures
      var t := Run(listenFd, inputs).sh.trace;
      OwnEvents(t, c) && (c.op == -1 || Placed(c, t))
  {
    RunTold(listenFd, inputs);
    var s := Run(listenFd, inputs);
    if k :| k in s.clients && s.clients[k] == c {
      assert LiveTold(s.clients[k], Story(s, c), s.sh.trace);
    } else {
      var i :| 0 <= i < |s.gone| && s.gone[i].c == c;
      assert GoneTold(s.gone[i], Story(s, c), s.sh.trace);
    }
  }

  /** A finished request is one operation: the event recorded as its place in the history and, for a PUT, the open
      before it; a request answered "Bad request" has no effect at all. */
  ghost predicate OneOperation(c: Conn, t: seq<Event>) {
    if c.status == Failure(BadRequest) then Silent(t, c.id)
    else
      && 0 <= c.op < |t| && t[c.op].id == c.id
      && forall j :: 0 <= j < |t| && t[j].id == c.id ==> j == c.op || (j < c.op && t[j].PutOpened? && Asks(c, PUT))
  }

  lemma FinishedOnce(listenFd: nat, inputs: seq<Input>, i: nat)
    requires Feasible(listenFd, inputs) && i < |Run(listenFd, inputs).gone|
    requires Run(listenFd, inputs).gone[i].c.state == Done
    ensures OneOperation(Run(listenFd, inputs).gone[i].c, Run(listenFd, inputs).sh.trace)
  {
    var s := Run(listenFd, inputs);
    var c, t := s.gone[i].c, s.sh.trace;
    GoneFacts(listenFd, inputs, i);
    DoneOnce(c, t, Story(s, c));
  }

  lemma GoneFacts(listenFd: nat, inputs: seq<Input>, i: nat)
    requires Feasible(listenFd, inputs) && i < |Run(listenFd, inputs).gone|
    ensures
      var s := Run(listenFd, inputs);
      var c, t := s.gone[i].c, s.sh.trace;
      && GoneTold(s.gone[i], Story(s, c), t) && ConnOk(c, t) && RequestOk(c)
      && (forall j :: 0 <= j < |t| && t[j].id == c.id ==> EventTold(t[j], Story(s, c)))
  {
    var s := Run(listenFd, inputs);
    var c, t := s.gone[i].c, s.sh.trace;
    RunTold(listenFd, inputs);
    KnownOk(listenFd, inputs, c);
    forall j | 0 <= j < |t| && t[j].id == c.id ensures EventTold(t[j], Story(s, c)) {
      assert EventOk(s, t[j]);
    }
  }

  lemma DoneOnce(c: Conn, t: seq<Event>, calls: seq<Call>)
    requires ConnOk(c, t) && c.state == Done && OwnEvents(t, c) && (c.oom ==> c.op == -1)
    requires c.verb != DELETE ==> NoUnlink(calls)
    requires forall j :: 0 <= j < |t| && t[j].id == c.id ==> EventTold(t[j], calls)
    ensures OneOperation(c, t)
  {
    forall j | 0 <= j < |t| && t[j].id == c.id
      ensures !t[j].TornDown? && (c.status == Failure(BadRequest) ==> false)
      ensures j == c.op || (t[j].PutOpened? && Asks(c, PUT) && j < c.op)
    {
      assert DoneFor(t, j, c);
    }
  }

  // -------- the order of requests --------

  lemma StepGrows(s: Sys, listenFd: int, i: Input)
    requires SysInv(s, listenFd) && Deliverable(s, i)
    ensures s.sh.trace <= Step(s, i).sh.trace && s.gone <= Step(s, i).gone && s.accepted <= Step(s, i).accepted
  {
    match i
    case Incoming(arrivals) => AcceptGrows(s, arrivals);
    case Report(fd, mask, sched) =>
      if fd in s.clients {
        assert EntryOk(s, fd);
        Dispatching(Begin(s.clients[fd], s.sh, sched), mask);
      }
  }

  lemma {:induction false} AcceptGrows(s: Sys, arrivals: seq<Arrival>)
    ensures AcceptAll(s, arrivals).sh.trace == s.sh.trace && AcceptAll(s, arrivals).gone == s.gone
    ensures s.accepted <= AcceptAll(s, arrivals).accepted
    decreases |arrivals|
  {
    if arrivals != [] {
      match arrivals[0]
      case Connect(fd, stream) =>
        if fd !in s.sh.fds {
          AcceptGrows(Admit(s, fd, stream), arrivals[1..]);
        }
      case Interrupted => AcceptGrows(s, arrivals[1..]);
      case NoneLeft =>
    }
  }

  /** As a run goes on, the history and the list of freed records only grow. */
  lemma {:induction false} RunGrows(listenFd: nat, before: seq<Input>, after: seq<Input>)
    requires Feasible(listenFd, before + after)
    ensures
      var s, s' := Run(listenFd, before), Run(listenFd, before + after);
      Feasible(listenFd, before) && s.sh.trace <= s'.sh.trace && s.gone <= s'.gone && s.accepted <= s'.accepted
    decreases |after|
  {
    if after == [] {
      assert before + after == before;
    } else {
      var all, i := before + after[..|after| - 1], after[|after| - 1];
      assert (before + after)[..|before + after| - 1] == all;
      RunGrows(listenFd, before, after[..|after| - 1]);
      RunKeeps(listenFd, all);
      StepGrows(Run(listenFd, all), listenFd, i);
    }
  }

  /** A request takes effect between the moment its connection was accepted and the moment it ended: if one connection
      had ended before another was accepted, all events of the first precede all events of the second. */
  lemma RealTimeOrder(listenFd: nat, before: seq<Input>, after: seq<Input>, first: Ended, second: Conn)
    requires Feasible(listenFd, before + after)
    requires first in Run(listenFd, before).gone
    requires Known(Run(listenFd, before + after), second) && second.id >= Run(listenFd, before).accepted
    ensures
      var m, t := |Run(listenFd, before).sh.trace|, Run(listenFd, before + after).sh.trace;
      && m <= |t| && SilentFrom(t, m, first.c.id) && first.c.op < first.at <= m
      && (forall j :: 0 <= j < m ==> t[j].id != second.id) && (second.op == -1 || m <= second.op < |t|)
  {
    var s, s' := Run(listenFd, before), Run(listenFd, before + after);
    RunGrows(listenFd, before, after);
    RunTold(listenFd, before);
    var i :| 0 <= i < |s.gone| && s.gone[i] == first;
    assert GoneTold(s.gone[i], Story(s, first.c), s.sh.trace);
    EndedIsOver(listenFd, before + after, first);
    NotYetAccepted(listenFd, before, after, second);
  }

  /** After a connection ended the history has no more events of it. */
  lemma EndedIsOver(listenFd: nat, inputs: seq<Input>, e: Ended)
    requires Feasible(listenFd, inputs) && e in Run(listenFd, inputs).gone
    ensures var t := Run(listenFd, inputs).sh.trace; e.c.op < e.at <= |t| && SilentFrom(t, e.at, e.c.id)
  {
    RunTold(listenFd, inputs);
    var s := Run(listenFd, inputs);
    var i :| 0 <= i < |s.gone| && s.gone[i] == e;
    assert GoneTold(s.gone[i], Story(s, e.c), s.sh.trace);
  }

  /** Before a connection was accepted the history has none. */
  lemma NotYetAccepted(listenFd: nat, before: seq<Input>, after: seq<Input>, c: Conn)
    requires Feasible(listenFd, before + after)
    requires Known(Run(listenFd, before + after), c) && c.id >= Run(listenFd, before).accepted
    ensures
      var m, t := |Run(listenFd, before).sh.trace|, Run(listenFd, before + after).sh.trace;
      m <= |t| && (forall j :: 0 <= j < m ==> t[j].id != c.id) && (c.op == -1 || m <= c.op < |t|)
  {
    var s, s' := Run(listenFd, before), Run(listenFd, before + after);
    RunGrows(listenFd, before, after);
    RunTold(listenFd, before);
    forall j | 0 <= j < |s.sh.trace| ensures s'.sh.trace[j].id != c.id {
      assert EventOk(s, s.sh.trace[j]);
    }
    KnownOwns(listenFd, before + after, c);
  }

  // -------- uploads --------

  /** A PUT is answered "Bad file size" exactly if a call for it failed: a read failed or found the end of the
      stream before the announced bytes were there, the file could not be opened, a chunk was not written in full,
      or the probe found a byte more. An end of the stream is then due to a peer that sends less than it announced,
      an extra byte to one that sends more; an upload that is too short is never accepted. Otherwise it is answered
      OK. */
  lemma BadFileSizeExactly(listenFd: nat, inputs: seq<Input>, c: Conn)
    requires Feasible(listenFd, inputs) && Known(Run(listenFd, inputs), c) && Asks(c, PUT) && !Receiving(c.state)
    ensures
      var calls := Story(Run(listenFd, inputs), c);
      && (c.status == Failure(BadFileSize) <==> exists i :: 0 <= i < |calls| && Spoils(calls, i))
      && (c.status != Failure(BadFileSize) ==> c.status == Success)
      && (CourseOf(calls) == Failed(EndOfInput) ==> TooShort(c))
      && (CourseOf(calls) == Failed(ExtraByte) ==> TooLong(c))
      && (TooShort(c) ==> c.status == Failure(BadFileSize))
  {
    KnownTold(listenFd, inputs, c);
    FailedExactly(Story(Run(listenFd, inputs), c));
    DecidedStatus(c, Run(listenFd, inputs).sh.trace);
    if c.status == Success {
      AcceptedFits(c, Run(listenFd, inputs).sh.trace);
    }
  }

  lemma AcceptedFits(c: Conn, t: seq<Event>)
    requires Asks(c, PUT) && Decided(c, t, Success)
    ensures !TooShort(c)
  {
  }

  /** While it is being received, nothing has gone wrong with it. */
  lemma ReceivingIsRunning(listenFd: nat, inputs: seq<Input>, c: Conn)
    requires Feasible(listenFd, inputs) && Known(Run(listenFd, inputs), c) && Asks(c, PUT) && Receiving(c.state)
    ensures
      var calls := Story(Run(listenFd, inputs), c);
      !exists i :: 0 <= i < |calls| && Spoils(calls, i)
  {
    KnownTold(listenFd, inputs, c);
    FailedExactly(Story(Run(listenFd, inputs), c));
  }

  /** Once there is an answer, the outcome is one that the request and the history call for. */
  lemma DecidedStatus(c: Conn, t: seq<Event>)
    requires ConnOk(c, t) && !Receiving(c.state)
    ensures Decided(c, t, c.status)
  {
  }

  /** The history has a teardown for the connection. */
  ghost predicate TornFor(t: seq<Event>, id: nat) {
    exists j :: 0 <= j < |t| && t[j].TornDown? && t[j].id == id
  }

  lemma TornTold(e: Ended, calls: seq<Call>, t: seq<Event>)
    requires GoneTold(e, calls, t) && e.c.verb == PUT
    requires forall j :: 0 <= j < |t| && t[j].id == e.c.id ==> EventTold(t[j], calls)
    ensures TornFor(t, e.c.id) <==> FileUnlink(true, true) in calls
    ensures TornFor(t, e.c.id) ==> e.c.state != Done && e.at > 0 && t[e.at - 1] == TornDown(e.c.id, e.c.filename)
  {
    if FileUnlink(true, true) in calls {
      assert t[..e.at][e.at - 1] == t[e.at - 1];
    }
  }

  /** What becomes of the file of an upload, failed or not, whenever and wherever it fails: its name is unlinked
      exactly if the connection broke off before STATE_DONE and the system, finding the name in the directory,
      carried the unlink out. A failed upload whose error reply got through keeps its partial file. */
  lemma FailedUploadFate(listenFd: nat, inputs: seq<Input>, i: nat)
    requires Feasible(listenFd, inputs) && i < |Run(listenFd, inputs).gone|
    requires Run(listenFd, inputs).gone[i].c.verb == PUT
    ensures
      var s := Run(listenFd, inputs);
      var c, at, t, calls := s.gone[i].c, s.gone[i].at, s.sh.trace, Story(s, s.gone[i].c);
      && (TornFor(t, c.id) <==> c.state != Done && FileUnlink(true, true) in calls)
      && (c.state != Done <==> Broke(calls))
      && (c.state == Done ==> NoUnlink(calls))
      && at <= |t|
      && (TornFor(t, c.id) ==> at > 0 && t[at - 1] == TornDown(c.id, c.filename))
      && (c.state != Done && !TornFor(t, c.id) ==>
            c.filename !in Replay(t[..at]).dir || FileUnlink(true, false) in calls)
  {
    var s := Run(listenFd, inputs);
    var c, at, t, calls := s.gone[i].c, s.gone[i].at, s.sh.trace, Story(s, s.gone[i].c);
    GoneFacts(listenFd, inputs, i);
    TornTold(s.gone[i], calls, t);
  }

  // -------- what an upload leaves behind --------

  /** The event ends an upload of `file`, listed or refused, that left `body` in it. */
  predicate Ends(e: Event, file: nat, body: bytes) {
    (e.Committed? && e.file == file && e.body == body) || (e.Rejected? && e.file == file && e.kept == body)
  }

  lemma {:induction false} SettledSince(t: seq<Event>, j: nat, file: nat, body: bytes)
    requires Legal(t) && j < |t| && Ends(t[j], file, body) && file !in Replay(t[..j]).tainted && !Cut(t, j, file)
    ensures file in Replay(t).settled && Replay(t).settled[file] == body
  {
    var before, e := t[..|t| - 1], t[|t| - 1];
    if j < |t| - 1 {
      assert before[..j] == t[..j];
      forall k | j <= k < |before| ensures !Truncates(before[k], file) {
        assert before[k] == t[k] && !Truncates(t[k], file);
      }
      SettledSince(before, j, file, body);
      assert !Truncates(e, file);
    }
  }

  /** What an upload, listed or refused, leaves in a file that it shared with no other PUT: the announced body, or of a
      refused one the first bytes of it, all that was sent if the peer stopped early and all that was announced if it
      sent too much. The file holds just that until a PUT opens it again, and so a GET that fetches it meanwhile
      gets. */
  lemma UploadLeaves(listenFd: nat, inputs: seq<Input>, j: nat, file: nat, body: bytes)
    requires Feasible(listenFd, inputs) && j < |Run(listenFd, inputs).sh.trace|
    requires
      var t := Run(listenFd, inputs).sh.trace;
      Ends(t[j], file, body) && file !in Replay(t[..j]).tainted
    ensures
      var s := Run(listenFd, inputs);
      var t := s.sh.trace;
      && (!Cut(t, j, file) ==> Content(s.sh, file) == body)
      && (forall q :: j < q < |t| && t[q].Fetched? && t[q].ino == file && !Cut(t[..q], j, file) ==> t[q].body == body)
      && (forall c :: Known(s, c) && c.id == t[j].id ==>
            && OpenedBy(t[..j], c.id, file) && c.op == j
            && (if t[j].Committed? then Announced(c, body) else LeftBehind(c, body, t[j].course)))
  {
    var s := Run(listenFd, inputs);
    var t := s.sh.trace;
    RunKeeps(listenFd, inputs);
    if !Cut(t, j, file) {
      SettledSince(t, j, file, body);
    }
    forall q | j < q < |t| && t[q].Fetched? && t[q].ino == file && !Cut(t[..q], j, file) ensures t[q].body == body {
      SettledFetched(t, j, file, body, q);
    }
    forall c | Known(s, c) && c.id == t[j].id
      ensures OpenedBy(t[..j], c.id, file) && c.op == j
      ensures if t[j].Committed? then Announced(c, body) else LeftBehind(c, body, t[j].course)
    {
      KnownOwns(listenFd, inputs, c);
      assert DoneFor(t, j, c);
    }
  }

  lemma SettledFetched(t: seq<Event>, j: nat, file: nat, body: bytes, q: nat)
    requires Legal(t) && j < q < |t| && Ends(t[j], file, body) && file !in Replay(t[..j]).tainted
    requires t[q].Fetched? && t[q].ino == file && !Cut(t[..q], j, file)
    ensures t[q].body == body
  {
    LegalAt(t, q);
    assert t[..q][..j] == t[..j];
    SettledSince(t[..q], j, file, body);
  }

  // -------- files --------

  /** A GET or DELETE that has its answer: the event that decided it, legal where it stands, and its calls. */
  ghost predicate Looked(c: Conn, t: seq<Event>, calls: seq<Call>) {
    && (c.verb == GET || c.verb == DELETE) && Placed(c, t) && LegalNext(Replay(t[..c.op]), t[c.op])
    && About(t[c.op], c.filename) && EventTold(t[c.op], calls)
    && (match c.status
        case Success => if c.verb == GET then t[c.op].Fetched? else t[c.op].Deleted?
        case Failure(m) => m == NoSuchFile && t[c.op].Refused? && t[c.op].verb == c.verb)
    && (Denied(calls).Some? ==> c.status == Failure(NoSuchFile))
  }

  lemma KnownLooked(listenFd: nat, inputs: seq<Input>, c: Conn)
    requires Feasible(listenFd, inputs) && Known(Run(listenFd, inputs), c)
    requires (Asks(c, GET) || Asks(c, DELETE)) && !Receiving(c.state)
    ensures Looked(c, Run(listenFd, inputs).sh.trace, Story(Run(listenFd, inputs), c))
  {
    var s := Run(listenFd, inputs);
    KnownTold(listenFd, inputs, c);
    DecidedStatus(c, s.sh.trace);
    RunKeeps(listenFd, inputs);
    RunTold(listenFd, inputs);
    LegalAt(s.sh.trace, c.op);
    assert EventTold(s.sh.trace[c.op], Story(s, c));
  }

  lemma LookedFor(c: Conn, t: seq<Event>, calls: seq<Call>)
    requires Looked(c, t, calls)
    ensures
      var h := Replay(t[..c.op]);
      c.status == Failure(NoSuchFile) <==>
        c.filename !in h.dir || (c.verb == DELETE && c.filename !in h.store.names) || Denied(calls).Some?
  {
    if c.status == Failure(NoSuchFile) && t[c.op].denied.Some? {
      assert Denies(t[c.op].denied.value);
    }
  }

  /** A GET or DELETE has one event. */
  ghost predicate OnlyEvent(c: Conn, t: seq<Event>) {
    Placed(c, t) && forall j :: 0 <= j < |t| && t[j].id == c.id ==> j == c.op
  }

  lemma FileRequestOnce(c: Conn, t: seq<Event>)
    requires OwnEvents(t, c) && Placed(c, t) && (Asks(c, GET) || Asks(c, DELETE))
    ensures OnlyEvent(c, t)
  {
    forall j | 0 <= j < |t| && t[j].id == c.id ensures j == c.op {
      assert DoneFor(t, j, c);
    }
  }

  /** A GET or DELETE has exactly one event in the history. It is answered "No such file" exactly if at that place
      there is no such file, it is a DELETE of a name that is not listed, or the system would not open, stat or unlink
      the file; otherwise it is answered OK. */
  lemma NoSuchFileExactly(listenFd: nat, inputs: seq<Input>, c: Conn)
    requires Feasible(listenFd, inputs) && Known(Run(listenFd, inputs), c)
    requires (Asks(c, GET) || Asks(c, DELETE)) && !Receiving(c.state)
    ensures
      var s := Run(listenFd, inputs);
      var calls, t := Story(s, c), s.sh.trace;
      && OnlyEvent(c, t)
      && (c.status == Failure(NoSuchFile) <==>
            var h := Replay(t[..c.op]);
            || c.filename !in h.dir || (c.verb == DELETE && c.filename !in h.store.names)
            || exists call :: call in calls && Denies(call))
      && (c.status != Failure(NoSuchFile) ==> c.status == Success)
  {
    var s := Run(listenFd, inputs);
    KnownLooked(listenFd, inputs, c);
    KnownOwns(listenFd, inputs, c);
    FileRequestOnce(c, s.sh.trace);
    LookedFor(c, s.sh.trace, Story(s, c));
    assert Denied(Story(s, c)).Some? <==> exists call :: call in Story(s, c) && Denies(call);
  }

  lemma LookedForListed(c: Conn, t: seq<Event>, calls: seq<Call>)
    requires Looked(c, t, calls) && Denied(calls).None?
    requires var h := Replay(t[..c.op]); c.filename in h.store.names && c.filename !in h.dirty
    ensures c.status == Success
  {
  }

  /** In particular the store's files are served: a GET or DELETE of a name that is listed and clean when its one event
      takes place succeeds unless the system refuses. */
  lemma ListedIsServed(listenFd: nat, inputs: seq<Input>, c: Conn)
    requires Feasible(listenFd, inputs) && Known(Run(listenFd, inputs), c)
    requires (Asks(c, GET) || Asks(c, DELETE)) && !Receiving(c.state)
    requires
      var s := Run(listenFd, inputs);
      && (forall call :: call in Story(s, c) ==> !Denies(call))
      && (0 <= c.op < |s.sh.trace| ==>
            c.filename in Replay(s.sh.trace[..c.op]).store.names && c.filename !in Replay(s.sh.trace[..c.op]).dirty)
    ensures c.status == Success && OnlyEvent(c, Run(listenFd, inputs).sh.trace)
  {
    var s := Run(listenFd, inputs);
    KnownLooked(listenFd, inputs, c);
    KnownOwns(listenFd, inputs, c);
    FileRequestOnce(c, s.sh.trace);
    LookedForListed(c, s.sh.trace, Story(s, c));
  }

  // -------- malformed requests and lists --------

  /** "Bad request" is answered exactly to a malformed request and to a LIST whose buffer could not be allocated. */
  lemma BadRequestExactly(listenFd: nat, inputs: seq<Input>, c: Conn)
    requires Feasible(listenFd, inputs) && Known(Run(listenFd, inputs), c) && !Receiving(c.state)
    ensures
      c.status == Failure(BadRequest) <==> Malformed(c) || Allocate(false) in Story(Run(listenFd, inputs), c)
    ensures Allocate(false) in Story(Run(listenFd, inputs), c) ==> Asks(c, LIST)
  {
    KnownTold(listenFd, inputs, c);
    DecidedStatus(c, Run(listenFd, inputs).sh.trace);
  }

  // -------- the end of a connection --------

  /** A record is freed before STATE_DONE exactly if its connection broke: an error event, a failed write, a file
      that came to an end too early, or a request line that could not be read to its end. */
  lemma FreedEarlyExactly(listenFd: nat, inputs: seq<Input>, i: nat)
    requires Feasible(listenFd, inputs) && i < |Run(listenFd, inputs).gone|
    ensures
      var s := Run(listenFd, inputs);
      var c, calls := s.gone[i].c, Story(s, s.gone[i].c);
      c.state != Done <==> Broke(calls) || HeaderBroke(c, calls)
  {
    RunTold(listenFd, inputs);
  }

  // -------- when all goes well --------

  /** The call did what it was made for. A socket that is not ready is no failure; neither is, for a GET, that there
      is no such file. */
  predicate Succeeds(call: Call, verb: Verb) {
    match call
    case SocketRead(_, r) => r != Error(EIO)
    case SocketWrite(_, r) => r.Error? ==> r.errno == EAGAIN
    case FileOpen(present, ok) => ok || (verb == GET && !present)
    case FileStat(ok) => ok
    case FileRead(_, n) => n > 0
    case FileWrite(count, r) => r == Count(count)
    case FileClose => true
    case FileUnlink(present, ok) => ok || !present
    case Allocate(ok) => ok
    case HangUp => false
  }

  ghost predicate Smooth(calls: seq<Call>, verb: Verb) {
    forall call :: call in calls ==> Succeeds(call, verb)
  }

  /** If all its calls succeed a connection is freed only in STATE_DONE, or because the peer stopped sending in the
      middle of its request line. */
  lemma SmoothEnds(listenFd: nat, inputs: seq<Input>, i: nat, verb: Verb)
    requires Feasible(listenFd, inputs) && i < |Run(listenFd, inputs).gone|
    requires Smooth(Story(Run(listenFd, inputs), Run(listenFd, inputs).gone[i].c), verb)
    ensures
      var c := Run(listenFd, inputs).gone[i].c;
      c.state == Done || (c.state == RecvHeader && c.wire.got >= |c.wire.stream|)
  {
    var s := Run(listenFd, inputs);
    FreedEarlyExactly(listenFd, inputs, i);
    assert forall call :: Breaking(call) ==> !Succeeds(call, verb);
    assert !Succeeds(SocketRead(1, Error(EIO)), verb);
  }

  /** An upload whose calls all succeed fails only if the stream is too short or too long. */
  lemma {:induction false} SmoothCourse(calls: seq<Call>)
    requires Smooth(calls, PUT)
    ensures CourseOf(calls).Failed? ==> CourseOf(calls).fault == EndOfInput || CourseOf(calls).fault == ExtraByte
  {
    if calls != [] {
      var before, last := calls[..|calls| - 1], calls[|calls| - 1];
      assert last in calls && Succeeds(last, PUT);
      assert forall call :: call in before ==> call in calls;
      SmoothCourse(before);
    }
  }

  /** A PUT whose calls all succeed and whose peer sends what it announced is answered OK. */
  lemma SmoothUpload(listenFd: nat, inputs: seq<Input>, c: Conn)
    requires Feasible(listenFd, inputs) && Known(Run(listenFd, inputs), c) && Asks(c, PUT) && !Receiving(c.state)
    requires Smooth(Story(Run(listenFd, inputs), c), PUT) && !TooShort(c) && !TooLong(c)
    ensures c.status == Success
  {
    KnownTold(listenFd, inputs, c);
    DecidedStatus(c, Run(listenFd, inputs).sh.trace);
    SmoothCourse(Story(Run(listenFd, inputs), c));
  }

  /** A GET whose calls all succeed is refused only if there is no such file. */
  lemma SmoothDownload(listenFd: nat, inputs: seq<Input>, c: Conn)
    requires Feasible(listenFd, inputs) && Known(Run(listenFd, inputs), c) && Asks(c, GET) && !Receiving(c.state)
    requires Smooth(Story(Run(listenFd, inputs), c), GET)
    ensures
      var t := Run(listenFd, inputs).sh.trace;
      Placed(c, t) && (c.status != Success ==> t[c.op].Refused? && t[c.op].denied == None)
  {
    var s := Run(listenFd, inputs);
    KnownLooked(listenFd, inputs, c);
    assert forall call :: call in Story(s, c) && Denies(call) ==> !Succeeds(call, GET);
  }
}
