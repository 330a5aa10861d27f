/** The main loop of the server over its real state, proved to make exactly the runs of module System. */
module MainLoop {
  import opened Bytes
  import opened Calls
  import opened Kernel
  import opened Handlers
  import opened System
  import opened FileServer
  import opened RunProofs
  import opened Batches

  /** The records of a map and their buffers. */
  ghost function Records(m: map<int, Client?>): set<object> {
    (set k | k in m && m[k] != null :: m[k]) + (set k | k in m && m[k] != null :: m[k].headerBuf)
  }

  /** Each record is filed under its own descriptor, and no two share a header buffer. */
  ghost predicate Filed(m: map<int, Client?>) {
    && (forall k :: k in m ==> m[k] != null && m[k].fd == k)
    && (forall j, k :: j in m && k in m && j != k ==> m[j].headerBuf != m[k].headerBuf)
  }

  /** The record can take an event. */
  ghost predicate RecordOk(c: Client)
    reads c, c.headerBuf
  {
    c.Valid() && c.Buffered() && c.alive
  }

  ghost predicate Valid(s: Server)
    reads Records(s.clients.contents), s.files, s.files.data, s.clients, s.clients.entries
  {
    && s.files.Valid() && s.clients.Valid() && Filed(s.clients.contents)
    && (forall k :: k in s.clients.contents ==> RecordOk(s.clients.contents[k]))
  }

  /** The connections by descriptor. */
  ghost function Connections(s: Server): map<int, Conn>
    requires Filed(s.clients.contents)
    reads Records(s.clients.contents), s.clients
  {
    map k | k in s.clients.contents :: s.clients.contents[k].View()
  }

  /** The server is in the state `sys`. */
  ghost predicate Shows(s: Server, sys: Sys)
    reads Records(s.clients.contents), s.os, s.files, s.files.data, s.clients, s.clients.entries
  {
    Valid(s) && Connections(s) == sys.clients && s.SharedView() == sys.sh
  }

  /** The records of the map and their buffers are among `known`. */
  ghost predicate Within(m: map<int, Client?>, known: set<object>) {
    forall k :: k in m ==> m[k] != null && m[k] in known && m[k].headerBuf in known
  }

  lemma UpdatedMap(before: map<int, Conn>, after: map<int, Conn>, fd: int, kept: bool, c: Conn)
    requires after.Keys == if kept then before.Keys + {fd} else before.Keys - {fd}
    requires forall j :: j in after && j != fd ==> after[j] == before[j]
    requires kept ==> after[fd] == c
    ensures after == if kept then before[fd := c] else before - {fd}
  {
    var updated := if kept then before[fd := c] else before - {fd};
    assert after.Keys == updated.Keys;
    forall j | j in after ensures after[j] == updated[j] {
    }
  }

  lemma FiledWithout(m: map<int, Client?>, c: Client)
    requires Filed(m) && c.fd in m && m[c.fd] == c
    ensures Filed(m - {c.fd}) && Beside(c, m - {c.fd})
  {
  }

  /** The handlers called for an event on `c`, with the answers the system will give them. */
  method RunHandlers(s: Server, c: Client, mask: Mask, sched: seq<Answer>)
    requires s.files.Valid() && s.clients.Valid() && RecordOk(c)
    requires !(mask.read && mask.write) && (c.state == SendListData ==> c.listBuf.Some?)
    modifies s.os, s.files, s.files.data, s.clients, s.clients.entries, c, c.headerBuf
    ensures s.files.Valid() && s.clients.Valid() && (c.alive ==> RecordOk(c))
    ensures s.clients.entries == old(s.clients.entries)
    ensures s.files.data == old(s.files.data) || fresh(s.files.data)
    ensures s.clients.contents == if c.alive then old(s.clients.contents) else old(s.clients.contents) - {c.fd}
    ensures s.Now(c) == Dispatch(Begin(old(c.View()), old(s.SharedView()), sched), mask)
  {
    s.os.sched := sched;
    s.os.sig := NO_SIGNALS;
    s.os.calls := [];
    assert s.Now(c) == Begin(old(c.View()), old(s.SharedView()), sched);
    s.DispatchEvent(c, mask);
  }

  /** Records that share nothing with `c`. */
  ghost predicate Beside(c: Client, rest: map<int, Client?>) {
    forall j :: j in rest ==> rest[j] != null && rest[j] != c && rest[j].headerBuf != c.headerBuf
  }

  /** The records in `rest`, other than `c`, are in order and look like `views`. */
  ghost predicate Rest(c: Client, rest: map<int, Client?>, views: map<int, Conn>)
    reads Records(rest)
  {
    forall j :: j in rest && j != c.fd ==>
      rest[j] != null && rest[j] != c && rest[j].headerBuf != c.headerBuf
      && RecordOk(rest[j]) && j in views && rest[j].View() == views[j]
  }

  /** The records beside `c` stay as they are. */
  method RunBeside(s: Server, c: Client, mask: Mask, sched: seq<Answer>,
      ghost rest: map<int, Client?>, ghost views: map<int, Conn>, ghost w: World)
    requires w == Begin(c.View(), s.SharedView(), sched)
    requires s.files.Valid() && s.clients.Valid() && RecordOk(c)
    requires !(mask.read && mask.write) && (c.state == SendListData ==> c.listBuf.Some?)
    requires Rest(c, rest, views)
    modifies s.os, s.files, s.files.data, s.clients, s.clients.entries, c, c.headerBuf
    ensures s.files.Valid() && s.clients.Valid() && (c.alive ==> RecordOk(c))
    ensures s.clients.entries == old(s.clients.entries)
    ensures s.files.data == old(s.files.data) || fresh(s.files.data)
    ensures s.clients.contents == if c.alive then old(s.clients.contents) else old(s.clients.contents) - {c.fd}
    ensures s.Now(c) == Dispatch(w, mask)
    ensures Rest(c, rest, views)
  {
    RunHandlers(s, c, mask, sched);
    forall j | j in rest && j != c.fd ensures RecordOk(rest[j]) && rest[j].View() == views[j] {
      assert old(RecordOk(rest[j]));
    }
  }

  lemma RestOf(s: Server, c: Client)
    requires Valid(s) && c.fd in s.clients.contents && s.clients.contents[c.fd] == c
    ensures Rest(c, s.clients.contents, Connections(s))
    ensures Connections(s).Keys == s.clients.contents.Keys
  {
  }

  /** The server after an event on `c`, from what is known of each record. */
  lemma Reassembled(s: Server, c: Client, was: map<int, Client?>, before: map<int, Conn>)
    requires s.files.Valid() && s.clients.Valid() && (c.alive ==> RecordOk(c))
    requires Filed(was) && c.fd in was && was[c.fd] == c && before.Keys == was.Keys
    requires s.clients.contents == if c.alive then was else was - {c.fd}
    requires Rest(c, was, before)
    ensures Valid(s)
    ensures Connections(s) == if c.alive then before[c.fd := c.View()] else before - {c.fd}
  {
    FiledWithout(was, c);
    UpdatedMap(before, Connections(s), c.fd, c.alive, c.View());
  }

  /** An event on a connection. */
  method HandleRecord(s: Server, c: Client, mask: Mask, sched: seq<Answer>,
      ghost was: map<int, Client?>, ghost before: map<int, Conn>, ghost w: World)
    requires s.files.Valid() && s.clients.Valid() && RecordOk(c)
    requires was == s.clients.contents && c.fd in was && was[c.fd] == c && Filed(was)
    requires before.Keys == was.Keys && Rest(c, was, before)
    requires w == Begin(c.View(), s.SharedView(), sched)
    requires !(mask.read && mask.write) && (c.state == SendListData ==> c.listBuf.Some?)
    modifies s.os, s.files, s.files.data, s.clients, s.clients.entries, c, c.headerBuf
    ensures Valid(s) && s.clients.entries == old(s.clients.entries)
    ensures s.files.data == old(s.files.data) || fresh(s.files.data)
    ensures s.Now(c) == Dispatch(w, mask)
    ensures s.clients.contents == if c.alive then was else was - {c.fd}
    ensures Connections(s) == if c.alive then before[c.fd := c.View()] else before - {c.fd}
  {
    RunBeside(s, c, mask, sched, was, before, w);
    Reassembled(s, c, was, before);
  }

  /** An event finds its record able to take it: it does not call both handlers, and a list to be sent is
      there. */
  predicate Receptive(before: Sys, fd: int, mask: Mask) {
    fd in before.clients ==>
      !(mask.read && mask.write) && (before.clients[fd].state == SendListData ==> before.clients[fd].listBuf.Some?)
  }

  /** Every event of a run does. */
  lemma EventFacts(listenFd: nat, inputs: seq<Input>, i: Input)
    requires Feasible(listenFd, inputs) && Deliverable(Run(listenFd, inputs), i)
    ensures i.Report? ==> Receptive(Run(listenFd, inputs), i.fd, i.mask)
  {
    RunKeeps(listenFd, inputs);
    if i.Report? {
      assert EntryOk(Run(listenFd, inputs), i.fd);
    }
  }

  /** An event on a known connection. */
  method HandleKnown(s: Server, c: Client, mask: Mask, sched: seq<Answer>, ghost before: Sys, ghost known: set<object>)
    requires Shows(s, before) && c.fd in s.clients.contents && s.clients.contents[c.fd] == c
    requires !(mask.read && mask.write) && (c.state == SendListData ==> c.listBuf.Some?)
    requires Within(s.clients.contents, known)
    modifies s.os, s.files, s.files.data, s.clients, s.clients.entries, c, c.headerBuf
    ensures Within(s.clients.contents, known)
    ensures Shows(s, Handle(before, c.fd, mask, sched)) && s.clients.entries == old(s.clients.entries)
    ensures s.files.data == old(s.files.data) || fresh(s.files.data)
  {
    ghost var w := Begin(before.clients[c.fd], before.sh, sched);
    RestOf(s, c);
    HandleRecord(s, c, mask, sched, s.clients.contents, before.clients, w);
    assert s.Now(c) == Dispatch(w, mask);
  }

  lemma RecordShown(s: Server, fd: int, before: Sys)
    requires Shows(s, before)
    ensures fd in s.clients.contents <==> fd in before.clients
    ensures fd in s.clients.contents ==>
      var c := s.clients.contents[fd]; c != null && c.fd == fd && c.View() == before.clients[fd]
  {
  }

  /** An event that the loop reports for a descriptor. */
  method HandleReport(s: Server, fd: int, mask: Mask, sched: seq<Answer>, ghost before: Sys, ghost known: set<object>)
    requires Shows(s, before) && Receptive(before, fd, mask) && Within(s.clients.contents, known)
    modifies known, s.os, s.files, s.files.data, s.clients, s.clients.entries
    ensures Shows(s, Step(before, Report(fd, mask, sched))) && Within(s.clients.contents, known)
    ensures s.clients.entries == old(s.clients.entries)
    ensures s.files.data == old(s.files.data) || fresh(s.files.data)
  {
    var found := s.clients.Get(fd);
    RecordShown(s, fd, before);
    if found.Some? {
      HandleKnown(s, found.value, mask, sched, before, known);
    }
  }

  // -------- accepting --------

  lemma FiledWith(m: map<int, Client?>, c: Client)
    requires Filed(m) && Beside(c, m)
    ensures Filed(m[c.fd := c])
  {
  }

  /** Every record is in order and looks like its entry in `views`. */
  ghost predicate AllOk(m: map<int, Client?>, views: map<int, Conn>)
    reads Records(m)
  {
    views.Keys == m.Keys && forall j :: j in m ==> m[j] != null && RecordOk(m[j]) && m[j].View() == views[j]
  }

  lemma AllAreOk(s: Server)
    requires Valid(s)
    ensures AllOk(s.clients.contents, Connections(s))
  {
  }

  /** A new record. */
  method Create(fd: int, stream: bytes, ghost id: nat, ghost was: map<int, Client?>, ghost views: map<int, Conn>)
    returns (c: Client)
    requires AllOk(was, views)
    ensures fresh(c) && fresh(c.headerBuf) && c.fd == fd && c.alive && RecordOk(c)
    ensures c.View() == NewConn(id, fd, stream)
    ensures Beside(c, was) && AllOk(was, views)
  {
    c := new Client(fd, id, stream);
  }

  /** A record's entry in the map. */
  method Enter(s: Server, c: Client, ghost was: map<int, Client?>, ghost views: map<int, Conn>)
    requires s.clients.Valid() && was == s.clients.contents && AllOk(was, views)
    requires Beside(c, was) && RecordOk(c)
    modifies s.clients, s.clients.entries
    ensures s.clients.Valid() && (s.clients.entries == old(s.clients.entries) || fresh(s.clients.entries))
    ensures s.clients.contents == was[c.fd := c] && RecordOk(c) && c.View() == old(c.View())
    ensures Rest(c, was, views)
  {
    s.clients.Set(c.fd, c, true);
    assert old(RecordOk(c));
    forall j | j in was && j != c.fd ensures RecordOk(was[j]) && was[j].View() == views[j] {
      assert old(RecordOk(was[j]));
    }
  }

  /** The server with a new record. */
  lemma Joined(s: Server, c: Client, was: map<int, Client?>, views: map<int, Conn>)
    requires s.files.Valid() && s.clients.Valid() && RecordOk(c)
    requires Filed(was[c.fd := c]) && s.clients.contents == was[c.fd := c]
    requires views.Keys == was.Keys && Rest(c, was, views)
    ensures Valid(s) && Connections(s) == views[c.fd := c.View()]
  {
    assert Connections(s).Keys == views.Keys + {c.fd};
    forall j | j in Connections(s) && j != c.fd ensures Connections(s)[j] == views[j] {
    }
    UpdatedMap(views, Connections(s), c.fd, true, c.View());
  }

  /** The record of an accepted connection joins the others. */
  method Join(s: Server, fd: int, stream: bytes, ghost id: nat,
      ghost was: map<int, Client?>, ghost views: map<int, Conn>)
    returns (c: Client)
    requires s.files.Valid() && s.clients.Valid() && was == s.clients.contents && Filed(was) && AllOk(was, views)
    modifies s.clients, s.clients.entries
    ensures Valid(s) && Connections(s) == views[fd := NewConn(id, fd, stream)]
    ensures s.clients.entries == old(s.clients.entries) || fresh(s.clients.entries)
    ensures fresh(c) && fresh(c.headerBuf) && s.clients.contents == was[fd := c]
  {
    c := Create(fd, stream, id, was, views);
    FiledWith(was, c);
    Enter(s, c, was, views);
    Joined(s, c, was, views);
  }

  /** The descriptor of an accepted connection joins the event loop. */
  method Register(s: Server, fd: int, ghost was: map<int, Client?>, ghost views: map<int, Conn>)
    requires AllOk(was, views)
    modifies s.os`fds, s.os`polls
    ensures AllOk(was, views)
    ensures s.SharedView() ==
      old(s.SharedView()).(fds := old(s.os.fds)[fd := Socket], polls := old(s.os.polls)[fd := Read])
  {
    s.os.fds := s.os.fds[fd := Socket];
    s.os.polls := s.os.polls[fd := Read];
    forall j | j in was ensures RecordOk(was[j]) && was[j].View() == views[j] {
      assert old(RecordOk(was[j]));
    }
  }

  lemma WithinWith(m: map<int, Client?>, known: set<object>, c: Client)
    requires Within(m, known)
    ensures Within(m[c.fd := c], known + {c, c.headerBuf})
  {
  }

  /** One accepted connection. */
  method Accept(s: Server, fd: int, stream: bytes, ghost before: Sys, ghost known: set<object>)
    returns (ghost known': set<object>)
    requires Shows(s, before) && Within(s.clients.contents, known)
    modifies s.os`fds, s.os`polls, s.clients, s.clients.entries
    ensures Shows(s, Admit(before, fd, stream))
    ensures s.clients.entries == old(s.clients.entries) || fresh(s.clients.entries)
    ensures known <= known' && fresh(known' - known) && Within(s.clients.contents, known')
  {
    ghost var was := s.clients.contents;
    AllAreOk(s);
    Register(s, fd, was, before.clients);
    assert s.SharedView() == Admit(before, fd, stream).sh;
    var c := Join(s, fd, stream, before.accepted, was, before.clients);
    known' := known + {c, c.headerBuf};
    WithinWith(was, known, c);
  }

  /** `accept_connections`. The system never hands out a descriptor that is in use. */
  method AcceptConnections(s: Server, arrivals: seq<Arrival>, ghost before: Sys, ghost known: set<object>)
    returns (ghost known': set<object>)
    requires Shows(s, before) && Within(s.clients.contents, known)
    modifies s.os`fds, s.os`polls, s.clients, s.clients.entries
    ensures Shows(s, AcceptAll(before, arrivals))
    ensures s.clients.entries == old(s.clients.entries) || fresh(s.clients.entries)
    ensures known <= known' && fresh(known' - known) && Within(s.clients.contents, known')
  {
    ghost var now := before;
    known' := known;
    var i := 0;
    while i < |arrivals|
      invariant i <= |arrivals| && Shows(s, now)
      invariant AcceptAll(now, arrivals[i..]) == AcceptAll(before, arrivals)
      invariant s.clients.entries == old(s.clients.entries) || fresh(s.clients.entries)
      invariant known <= known' && fresh(known' - known) && Within(s.clients.contents, known')
    {
      assert arrivals[i..][1..] == arrivals[i + 1..];
      match arrivals[i] {
        case Connect(fd, stream) =>
          if fd in s.os.fds {
            return;
          }
          known' := Accept(s, fd, stream, now, known');
          now := Admit(now, fd, stream);
        case Interrupted =>
        case NoneLeft =>
          return;
      }
      i := i + 1;
    }
  }

  // -------- the loop --------

  /** One report. */
  method HandleInput(s: Server, i: Input, ghost before: Sys, ghost known: set<object>)
    returns (ghost known': set<object>)
    requires Shows(s, before) && (i.Report? ==> Receptive(before, i.fd, i.mask)) && Within(s.clients.contents, known)
    modifies known, s.os, s.files, s.files.data, s.clients, s.clients.entries
    ensures Shows(s, Step(before, i))
    ensures s.files.data == old(s.files.data) || fresh(s.files.data)
    ensures s.clients.entries == old(s.clients.entries) || fresh(s.clients.entries)
    ensures known <= known' && fresh(known' - known) && Within(s.clients.contents, known')
  {
    known' := known;
    match i {
      case Incoming(arrivals) =>
        known' := AcceptConnections(s, arrivals, before, known);
      case Report(fd, mask, sched) =>
        HandleReport(s, fd, mask, sched, before, known);
    }
  }

  /** Each report of the batch finds its record able to take it. */
  ghost predicate Handleable(before: Sys, batch: seq<Input>) {
    forall k :: 0 <= k < |batch| && batch[k].Report? ==>
      Receptive(StateAfter(before, batch, k), batch[k].fd, batch[k].mask)
  }

  /** The reports of one wait, handled one after the other. */
  method HandleBatch(s: Server, batch: seq<Input>, ghost before: Sys, ghost known: set<object>)
    returns (ghost known': set<object>)
    requires Shows(s, before) && Handleable(before, batch) && Within(s.clients.contents, known)
    modifies known, s.os, s.files, s.files.data, s.clients, s.clients.entries
    ensures Shows(s, StateAfter(before, batch, |batch|))
    ensures s.files.data == old(s.files.data) || fresh(s.files.data)
    ensures s.clients.entries == old(s.clients.entries) || fresh(s.clients.entries)
    ensures known <= known' && fresh(known' - known) && Within(s.clients.contents, known')
  {
    known' := known;
    var i := 0;
    while i < |batch|
      invariant i <= |batch| && Shows(s, StateAfter(before, batch, i))
      invariant s.files.data == old(s.files.data) || fresh(s.files.data)
      invariant s.clients.entries == old(s.clients.entries) || fresh(s.clients.entries)
      invariant known <= known' && fresh(known' - known) && Within(s.clients.contents, known')
    {
      known' := HandleInput(s, batch[i], StateAfter(before, batch, i), known');
      i := i + 1;
    }
  }

  lemma BatchTaken(listenFd: nat, past: seq<Input>, batch: seq<Input>)
    requires Feasible(listenFd, past) && OneBatch(Run(listenFd, past), batch)
    ensures Handleable(Run(listenFd, past), batch) && Feasible(listenFd, past + batch)
    ensures StateAfter(Run(listenFd, past), batch, |batch|) == Run(listenFd, past + batch)
  {
    forall k | 0 <= k < |batch| && batch[k].Report?
      ensures Receptive(StateAfter(Run(listenFd, past), batch, k), batch[k].fd, batch[k].mask)
    {
      BatchNeverStale(listenFd, past, batch, k);
      BatchIsRun(listenFd, past, batch, k);
      EventFacts(listenFd, past + batch[..k], batch[k]);
    }
    BatchIsRun(listenFd, past, batch, |batch|);
    assert batch[..|batch|] == batch;
  }

  // -------- main --------

  /** The batches that the waits of a run may report: each possible in the state the ones before it led to. */
  ghost predicate Reported(listenFd: int, past: seq<Input>, batches: seq<seq<Input>>)
    decreases |batches|
  {
    batches == [] ||
    (OneBatch(Run(listenFd, past), batches[0]) && Reported(listenFd, past + batches[0], batches[1..]))
  }

  function Flatten(batches: seq<seq<Input>>): seq<Input> {
    if batches == [] then [] else batches[0] + Flatten(batches[1..])
  }

  /** The reports in the order in which the waits made them. */
  lemma {:induction false} FlattenInOrder(batches: seq<seq<Input>>, last: seq<Input>)
    ensures Flatten(batches + [last]) == Flatten(batches) + last
  {
    if batches == [] {
      assert [last][1..] == [];
    } else {
      assert (batches + [last])[1..] == batches[1..] + [last];
      FlattenInOrder(batches[1..], last);
    }
  }

  lemma NextBatch(listenFd: nat, past: seq<Input>, rest: seq<seq<Input>>)
    requires rest != [] && Feasible(listenFd, past) && Reported(listenFd, past, rest)
    ensures Handleable(Run(listenFd, past), rest[0]) && Feasible(listenFd, past + rest[0])
    ensures StateAfter(Run(listenFd, past), rest[0], |rest[0]|) == Run(listenFd, past + rest[0])
    ensures Reported(listenFd, past + rest[0], rest[1..])
  {
    BatchTaken(listenFd, past, rest[0]);
  }

  lemma FlattenNext(past: seq<Input>, rest: seq<seq<Input>>)
    requires rest != []
    ensures past + Flatten(rest) == (past + rest[0]) + Flatten(rest[1..])
  {
  }

  /** After the batches `past` is made of, with `rest` to come, a server in the state `sys` is making a run. */
  ghost predicate OnTrack(listenFd: int, all: seq<Input>, past: seq<Input>, rest: seq<seq<Input>>, sys: Sys) {
    && Feasible(listenFd, past) && sys == Run(listenFd, past)
    && Reported(listenFd, past, rest) && all == past + Flatten(rest)
  }

  lemma NextOnTrack(listenFd: nat, all: seq<Input>, past: seq<Input>, rest: seq<seq<Input>>, sys: Sys)
    requires OnTrack(listenFd, all, past, rest, sys) && rest != []
    ensures Handleable(sys, rest[0])
    ensures OnTrack(listenFd, all, past + rest[0], rest[1..], StateAfter(sys, rest[0], |rest[0]|))
  {
    NextBatch(listenFd, past, rest);
    FlattenNext(past, rest);
  }

  /** The server from its start on: whatever its waits report, it makes a run of module System. */
  method Serve(listenFd: nat, batches: seq<seq<Input>>) returns (s: Server)
    requires Reported(listenFd, [], batches)
    ensures s.listenFd == listenFd
    ensures Feasible(listenFd, Flatten(batches)) && Shows(s, Run(listenFd, Flatten(batches)))
  {
    s := new Server(listenFd);
    ghost var past: seq<Input>, known: set<object>, sys, rest := [], {}, Init(listenFd), batches;
    var i := 0;
    while i < |batches|
      invariant i <= |batches| && fresh(s.os) && fresh(s.files) && fresh(s.clients)
      invariant fresh(s.files.data) && fresh(s.clients.entries) && fresh(known)
      invariant Within(s.clients.contents, known) && Shows(s, sys)
      invariant rest == batches[i..] && OnTrack(listenFd, Flatten(batches), past, rest, sys)
    {
      NextOnTrack(listenFd, Flatten(batches), past, rest, sys);
      known := HandleBatch(s, batches[i], sys, known);
      past, sys, rest := past + batches[i], StateAfter(sys, batches[i], |batches[i]|), rest[1..];
      i := i + 1;
    }
    assert past == Flatten(batches);
  }
}
