/** Where docs/design.md promises more than the server does: what is true instead, and runs that show the
    difference. */
module Promises {
  import opened Bytes
  import opened Protocol
  import opened Calls
  import opened History
  import opened Kernel
  import opened Handlers
  import opened System
  import opened ConnInvariant
  import opened HandlerProofs
  import opened RequestProofs
  import opened RunProofs
  import opened Causes
  import opened Liveness

  // -------- extra bytes --------

  /** An upload with too much data is refused exactly when a byte too many has already arrived when the last
      byte is in and the probe for it is answered; otherwise the file is listed. */
  lemma ExtraByteNoticed(w: World)
    requires w.c.verb == PUT
    ensures
      var noticed := First(w.sched).Ready? && w.c.wire.got < |w.c.wire.stream|;
      var t, t' := w.sh.trace, FinishUpload(w).sh.trace;
      t < t' && (if noticed then t'[|t|].Rejected? else t'[|t|].Committed?)
  {
    var (w1, r) := SockRead(CloseOwn(w), 1);
    if r.Count? && r.n > 0 {
      ErrorEffect(LogOp(w1, Rejection(w1, Ino(w.sh, w.c.fileFd))), BadFileSize);
    } else {
      OkEffect(Listing(w, w1));
    }
  }

  /** Closing a connection adds at most to the history. */
  lemma ClosingEffect(w: World)
    ensures w.sh.trace <= CloseAndCleanup(w).sh.trace
  {
  }

  lemma ErrorEffect(w: World, m: Message)
    ensures w.sh.trace <= Respond(w, Failure(m)).sh.trace
  {
    WriteEffect(Prepared(w, Failure(m)));
  }

  lemma OkEffect(w: World)
    requires w.c.verb != LIST
    ensures w.sh.trace <= Respond(w, Success).sh.trace
  {
    WriteEffect(Prepared(w, Success));
  }

  lemma WriteEffect(w: World)
    requires w.c.state == SendError || (w.c.state == SendOk && w.c.verb != LIST)
    ensures w.sh.trace <= WriteReply(w).sh.trace
  {
    var (w1, r) := SockWrite(w, Drop(w.c.resp, w.c.respSent));
    if r.Count? {
      MovedEffect(w1.(c := w1.c.(respSent := w.c.respSent + r.n)));
    } else {
      ClosingEffect(w1);
    }
  }

  lemma MovedEffect(w: World)
    requires w.c.state == SendError || (w.c.state == SendOk && w.c.verb != LIST)
    ensures w.sh.trace <= ReplyMoved(w).sh.trace
  {
    if w.c.respSent == |w.c.resp| {
      ClosingEffect(w.(c := w.c.(state := Done)));
    }
  }

  // -------- what a GET looks at --------

  /** A GET is served exactly when the directory has the name and the system opens and stats the file, and what it
      announces is what that file holds at this moment, an upload in progress or not; the file list is not looked
      at. */
  lemma GetLooksAtDisk(w: World, list: seq<bytes>)
    requires w.c.verb == GET
    ensures
      var opens := First(w.sched).Ready? && First(w.sched).k !in w.sh.fds && First(Rest(w.sched)).Ready?;
      var t, t' := w.sh.trace, StartGet(w.(sh := w.sh.(list := list))).sh.trace;
      && t < t' && (t'[|t|].Fetched? || t'[|t|].Refused?)
      && (t'[|t|].Fetched? <==> opens && w.c.filename in w.sh.dir)
      && (t'[|t|].Fetched? ==>
            t'[|t|].ino == w.sh.dir[w.c.filename] && t'[|t|].body == Content(w.sh, t'[|t|].ino))
  {
    var w0 := w.(sh := w.sh.(list := list));
    var (w1, fd) := OpenForGet(w0);
    var w2 := w1.(c := w1.c.(fileFd := fd));
    if fd == -1 {
      RefusalEffect(w2);
    } else if !First(w2.sched).Ready? {
      RefusalEffect(CloseOwn(Stat(w2).0));
    } else {
      OkEffect(Announce(Stat(w2).0));
    }
  }

  lemma RefusalEffect(w: World)
    ensures
      var t, t' := w.sh.trace, Refuse(w, GET).sh.trace;
      t < t' && t'[|t|].Refused?
  {
    ErrorEffect(LogOp(w, Refused(w.c.id, GET, w.c.filename, Denied(w.calls))), NoSuchFile);
  }

  // -------- building runs --------

  const SOCKET: nat := 5
  const FILE: nat := 6
  const READABLE := Mask(true, false, false)
  const HUNG_UP := Mask(false, false, true)

  function Ones(n: nat): (r: seq<Answer>)
    ensures |r| == n
  {
    seq(n, _ => Ready(1))
  }

  /** The connection after reading `n` bytes of its line, one by one. */
  function Having(w: World, n: nat): World
    requires w.c.wire.got + n <= |w.c.wire.stream| && n <= |w.sched|
  {
    var got := w.c.wire.got;
    w.(c := w.c.(header := w.c.header + w.c.wire.stream[got..got + n], wire := w.c.wire.(got := got + n)),
       sched := w.sched[n..], sig := w.sig.(readBlocked := false),
       calls := w.calls + seq(n, _ => SocketRead(1, Count(1))))
  }

  lemma ReadsByte(w: World)
    requires |w.c.header| < HEADER_MAX - 1 && w.c.wire.got < |w.c.wire.stream|
    requires w.sched != [] && w.sched[0] == Ready(1)
    ensures HeaderStep(w) == (Having(w, 1), if w.c.wire.stream[w.c.wire.got] == '\n' then Complete else More)
  {
    var got := w.c.wire.got;
    assert w.c.wire.stream[got..got + 1] == [w.c.wire.stream[got]];
    assert seq(1, _ => SocketRead(1, Count(1))) == [SocketRead(1, Count(1))];
  }

  lemma HavingMore(w: World, n: nat)
    requires 0 < n && w.c.wire.got + n <= |w.c.wire.stream| && n <= |w.sched|
    ensures Having(Having(w, 1), n - 1) == Having(w, n)
  {
    var got, stream := w.c.wire.got, w.c.wire.stream;
    assert w.c.header + stream[got..got + 1] + stream[got + 1..got + n] == w.c.header + stream[got..got + n];
    assert w.sched[1..][n - 1..] == w.sched[n..];
    assert Having(Having(w, 1), n - 1).calls == Having(w, n).calls;
  }

  /** A line that arrives whole is read in one event, a byte a time. */
  lemma {:induction false} ReadsLine(w: World, n: nat)
    requires 0 < n <= |w.sched| && (forall i :: 0 <= i < n ==> w.sched[i] == Ready(1))
    requires w.c.wire.got + n <= |w.c.wire.stream| && |w.c.header| + n < HEADER_MAX
    requires forall i :: w.c.wire.got <= i < w.c.wire.got + n ==>
      (w.c.wire.stream[i] == '\n' <==> i == w.c.wire.got + n - 1)
    ensures FillHeader(w) == (Having(w, n), Complete)
    decreases n
  {
    ReadsByte(w);
    if n > 1 {
      HavingMore(w, n);
      ReadsLine(Having(w, 1), n - 1);
    }
  }

  lemma LineEnds(v: Verb, name: bytes, i: nat)
    requires v != UNKNOWN && Printable(name) && i < |RequestLine(v, name)|
    ensures RequestLine(v, name)[i] == '\n' <==> i == |RequestLine(v, name)| - 1
  {
    WordFacts(v);
  }

  /** A new connection whose line arrives whole reads it in one event. */
  lemma HearsLine(w: World, fd: nat, line: bytes, rest: bytes, more: seq<Answer>)
    requires 0 < |line| < HEADER_MAX && (forall i :: 0 <= i < |line| ==> (line[i] == '\n' <==> i == |line| - 1))
    requires w.c == NewConn(w.c.id, fd, line + rest) && w.sched == Ones(|line|) + more
    ensures FillHeader(w) == (Having(w, |line|), Complete)
    ensures var w1 := Having(w, |line|); w1.c.header == line && w1.sched == more
  {
    assert w.c.wire.stream[..|line|] == line;
    forall i | 0 <= i < |line| ensures w.c.wire.stream[i] == '\n' <==> i == |line| - 1 {
      assert w.c.wire.stream[i] == line[i];
    }
    ReadsLine(w, |line|);
    assert w.sched[|line|..] == more;
  }

  /** What a line read means. */
  lemma Means(v: Verb, name: bytes)
    requires v != UNKNOWN && Printable(name)
    ensures
      var line := RequestLine(v, name);
      StrChr(line, '\n') == |line| - 1 && ParseLine(line[..|line| - 1]) == Meant(v, name)
  {
    ParsePrint(v, name, []);
    assert RequestLine(v, name) + [] == RequestLine(v, name);
  }

  /** A new connection whose line arrives whole: it is read and acted on in the same event. */
  lemma Hears(w: World, fd: nat, v: Verb, name: bytes, rest: bytes, more: seq<Answer>)
    requires v != UNKNOWN && Printable(name) && |RequestLine(v, name)| < HEADER_MAX
    requires w.c == NewConn(w.c.id, fd, RequestLine(v, name) + rest) && w.sched == Ones(|RequestLine(v, name)|) + more
    ensures
      var w1 := Having(w, |RequestLine(v, name)|);
      w1.c.header == RequestLine(v, name) && w1.sched == more && Dispatch(w, READABLE) == ParseHeader(w1)
  {
    var line := RequestLine(v, name);
    forall i | 0 <= i < |line| ensures line[i] == '\n' <==> i == |line| - 1 {
      LineEnds(v, name, i);
    }
    HearsLine(w, fd, line, rest, more);
    HeardDispatches(w, Having(w, |line|));
  }

  lemma HeardDispatches(w: World, w1: World)
    requires FillHeader(w) == (w1, Complete) && w.c.state == RecvHeader
    ensures Dispatch(w, READABLE) == ParseHeader(w1)
  {
  }

  /** The line that was read is acted on. */
  lemma ActsOn(w: World, v: Verb, name: bytes) returns (w1: World)
    requires v != UNKNOWN && Printable(name) && w.c.header == RequestLine(v, name) && w.c.filename == []
    ensures w1 == Split(w, Meant(v, name), |w.c.header| - 1)
    ensures v == LIST ==> ParseHeader(w) == Respond(w1, Success)
    ensures v == GET ==> ParseHeader(w) == StartGet(w1)
    ensures v == PUT ==> ParseHeader(w) == Arm(w1.(c := w1.c.(transferred := 0, state := RecvPutSize)), Read)
  {
    Means(v, name);
    w1 := Split(w, Meant(v, name), |w.c.header| - 1);
    ParsedTo(w, |w.c.header| - 1, Meant(v, name));
  }

  lemma Arrives(s: Sys, fd: nat, stream: bytes)
    requires fd !in s.sh.fds
    ensures Step(s, Incoming([Connect(fd, stream)])) == Admit(s, fd, stream)
  {
    var admitted := Admit(s, fd, stream);
    assert [Connect(fd, stream)][1..] == [];
    assert AcceptAll(admitted, []) == admitted;
  }

  /** Nobody is connected: only the listening socket is open. */
  lemma NothingOpen(listenFd: nat, inputs: seq<Input>)
    requires Feasible(listenFd, inputs) && Run(listenFd, inputs).clients == map[]
    ensures Run(listenFd, inputs).sh.fds.Keys == {listenFd}
  {
    RunKeeps(listenFd, inputs);
    var s := Run(listenFd, inputs);
    forall f | f in s.sh.fds ensures f == listenFd {
      assert Accounted(s, listenFd, f);
    }
  }

  /** A connection arrives at a server to which nobody is connected. */
  lemma Connects(listenFd: nat, inputs: seq<Input>, stream: bytes) returns (more: seq<Input>)
    requires Feasible(listenFd, inputs) && Run(listenFd, inputs).clients == map[] && listenFd != SOCKET
    ensures Feasible(listenFd, more) && SOCKET !in Run(listenFd, inputs).sh.fds
    ensures Run(listenFd, more) == Admit(Run(listenFd, inputs), SOCKET, stream)
  {
    NothingOpen(listenFd, inputs);
    var s := Run(listenFd, inputs);
    Arrives(s, SOCKET, stream);
    RunNext(listenFd, inputs, Incoming([Connect(SOCKET, stream)]));
    more := inputs + [Incoming([Connect(SOCKET, stream)])];
  }

  /** The whole status line is taken at once, and that is all there is to say. */
  lemma Delivered(w: World, status: Status) returns (w': World)
    requires w.alive && w.sched == [Ready(99)] && (status.Success? ==> w.c.verb == PUT)
    ensures w' == Respond(w, status) && !w'.alive
    ensures w'.sh == w.sh.(fds := w'.sh.fds, polls := w'.sh.polls, closes := w'.sh.closes)
    ensures w'.c == w.c.(state := Done, status := status, resp := w'.c.resp, respSent := w'.c.respSent,
                         wire := w'.c.wire)
    ensures w'.c.wire == w.c.wire.(sent := w.c.wire.sent + ReplyText(status))
  {
    var w1 := Prepared(w, status);
    var (w2, r) := SockWrite(w1, Drop(w1.c.resp, 0));
    assert w1.c.resp[..|w1.c.resp|] == w1.c.resp;
    var w3 := w2.(c := w2.c.(respSent := r.n));
    assert Respond(w, status) == WriteReply(w1) == ReplyMoved(w3) == Finish(w3);
    w' := Finish(w3);
  }

  // -------- a reply that never begins --------

  /** The answers have run out when the reply is to begin. */
  lemma BlockedAtOnce(w: World) returns (w': World)
    requires w.sched == [] && w.alive
    ensures w' == Respond(w, Success) && w'.alive && w'.c.fd == w.c.fd && w'.sh == w.sh
    ensures w'.c.state == SendOk && w'.c.respSent == 0
  {
    var w1 := Prepared(w, Success);
    w' := SockWrite(w1, Drop(w1.c.resp, 0)).0;
  }

  lemma ListUnanswered(w: World) returns (w': World)
    requires w == Begin(NewConn(w.c.id, SOCKET, "LIST\n"), w.sh, Ones(5))
    ensures w' == Dispatch(w, READABLE) && w'.alive && w'.c.fd == SOCKET && w'.sh == w.sh
    ensures w'.c.state == SendOk && w'.c.respSent == 0
  {
    var line := RequestLine(LIST, []);
    assert line == "LIST\n";
    assert line + [] == line && Ones(|line|) + [] == Ones(5);
    Hears(w, SOCKET, LIST, [], [], []);
    var w1 := ActsOn(Having(w, 5), LIST, []);
    w' := BlockedAtOnce(w1);
  }

  lemma ListHeldUp(s: Sys)
    requires SOCKET in s.clients && s.clients[SOCKET] == NewConn(s.clients[SOCKET].id, SOCKET, "LIST\n")
    requires SOCKET in s.sh.polls && s.sh.polls[SOCKET] == Read
    ensures Stuck(Step(s, Report(SOCKET, READABLE, Ones(5))), SOCKET)
  {
    var w' := ListUnanswered(Begin(s.clients[SOCKET], s.sh, Ones(5)));
  }

  /** There is a run in which a reply is stuck: a LIST whose first write meets EAGAIN. */
  lemma ReplyStuck(listenFd: nat)
    requires listenFd != SOCKET
    ensures exists inputs :: Feasible(listenFd, inputs) && Stuck(Run(listenFd, inputs), SOCKET)
  {
    var inputs := Connects(listenFd, [], "LIST\n");
    ListHeldUp(Run(listenFd, inputs));
    RunNext(listenFd, inputs, Report(SOCKET, READABLE, Ones(5)));
  }

  // -------- uploads --------

  const ASKS := Report(SOCKET, READABLE, Ones(6))

  /** The connection has read the line "PUT a" and nothing more. */
  predicate AskedToStore(c: Conn, rest: bytes) {
    && c.fd == SOCKET && c.state == RecvPutSize && c.verb == PUT && c.filename == "a" && |c.header| == 6
    && c.transferred == 0 && c.fileFd == -1 && |c.expected| == SIZE_BYTES
    && c.wire == Wire("PUT a\n" + rest, 6, [])
  }

  lemma StoreAsked(w: World, rest: bytes) returns (w': World)
    requires w == Begin(NewConn(w.c.id, SOCKET, "PUT a\n" + rest), w.sh, Ones(6)) && SOCKET in w.sh.polls
    ensures w' == Dispatch(w, READABLE) && w'.alive && AskedToStore(w'.c, rest)
    ensures w'.sh == w.sh.(polls := w.sh.polls[SOCKET := Read])
  {
    var line := RequestLine(PUT, "a");
    assert line == "PUT a\n";
    assert Ones(|line|) + [] == Ones(6);
    Hears(w, SOCKET, PUT, "a", rest, []);
    var w1 := ActsOn(Having(w, 6), PUT, "a");
    w' := Arm(w1.(c := w1.c.(transferred := 0, state := RecvPutSize)), Read);
  }

  /** The server at which only one connection has been added, which has asked to store "a". */
  predicate Joined(s: Sys, s': Sys, rest: bytes) {
    && s'.clients.Keys == {SOCKET} && AskedToStore(s'.clients[SOCKET], rest) && s'.gone == s.gone
    && s'.sh.list == s.sh.list && s'.sh.dir == s.sh.dir && s'.sh.data == s.sh.data
    && SOCKET in s'.sh.polls && s'.sh.polls[SOCKET] == Read
    && s'.sh.fds == s.sh.fds[SOCKET := Socket]
  }

  lemma Joins(s: Sys, rest: bytes)
    requires s.clients == map[]
    ensures Joined(s, Step(Admit(s, SOCKET, "PUT a\n" + rest), ASKS), rest)
  {
    var s1 := Admit(s, SOCKET, "PUT a\n" + rest);
    var w' := StoreAsked(Begin(s1.clients[SOCKET], s1.sh, Ones(6)), rest);
  }

  /** Somebody connects and asks to store "a". */
  lemma ConnectsToStore(listenFd: nat, inputs: seq<Input>, rest: bytes) returns (more: seq<Input>)
    requires Feasible(listenFd, inputs) && Run(listenFd, inputs).clients == map[] && listenFd != SOCKET
    ensures Feasible(listenFd, more) && Joined(Run(listenFd, inputs), Run(listenFd, more), rest)
    ensures Run(listenFd, inputs).sh.fds.Keys == {listenFd}
  {
    NothingOpen(listenFd, inputs);
    Joins(Run(listenFd, inputs), rest);
    more := Connects(listenFd, inputs, "PUT a\n" + rest);
    RunNext(listenFd, more, ASKS);
    more := more + [ASKS];
  }

  lemma SizeArrived(w: World, size: nat) returns (w1: World)
    requires w.c.transferred == 0 && |w.c.expected| == SIZE_BYTES && w.c.wire.got + SIZE_BYTES <= |w.c.wire.stream|
    requires w.c.wire.stream[w.c.wire.got..w.c.wire.got + SIZE_BYTES] == SizeBytes(size)
    requires w.sched != [] && w.sched[0] == Ready(SIZE_BYTES)
    ensures FillSize(w) == (w1, Complete)
    ensures w1 == w.(c := w.c.(expected := SizeBytes(size), transferred := SIZE_BYTES,
                               wire := w.c.wire.(got := w.c.wire.got + SIZE_BYTES)),
                     sched := w.sched[1..], sig := w.sig.(readBlocked := false), calls := w1.calls)
  {
    var (w0, r) := SockRead(w, SIZE_BYTES);
    assert r == Count(SIZE_BYTES) && JustRead(w0.c, SIZE_BYTES) == SizeBytes(size);
    assert Overlay(w.c.expected, 0, SizeBytes(size)) == SizeBytes(size);
    w1 := SizeStep(w).0;
    assert FillSize(w1) == (w1, Complete);
  }

  /** The size is there and the file is opened. */
  lemma FileOpened(w: World, size: nat) returns (w1: World)
    requires w.c.filename != [] && w.c.transferred == 0 && |w.c.expected| == SIZE_BYTES
    requires w.c.wire.got + SIZE_BYTES <= |w.c.wire.stream|
    requires w.c.wire.stream[w.c.wire.got..w.c.wire.got + SIZE_BYTES] == SizeBytes(size)
    requires |w.sched| >= 2 && w.sched[0] == Ready(SIZE_BYTES) && w.sched[1] == Ready(FILE) && FILE !in w.sh.fds
    ensures RecvSize(w) == RecvData(w1) && w1.alive == w.alive && w1.sched == w.sched[2..]
    ensures w1.c == w.c.(expected := SizeBytes(size), fileFd := FILE, state := RecvPutData,
                         wire := w.c.wire.(got := w.c.wire.got + SIZE_BYTES))
    ensures w1.sh == PutOpen(w.sh, w.c.id, w.c.filename, FILE)
  {
    var w0 := SizeArrived(w, size);
    var (w2, fd) := OpenForPut(w0.(c := w0.c.(transferred := 0)));
    w1 := w2.(c := w2.c.(fileFd := FILE, state := RecvPutData));
    assert RecvSize(w) == OpenUpload(w0) == RecvData(w1);
  }

  lemma OneStored(w: World) returns (w1: World)
    requires |w.sched| >= 2 && w.sched[0] == Ready(1) && w.sched[1] == Ready(1) && w.c.transferred == 0
    requires w.c.wire.got + 1 == |w.c.wire.stream| && w.c.wire.stream[w.c.wire.got] == 'x'
    requires var ino := Ino(w.sh, w.c.fileFd); 0 <= ino < |w.sh.data| && w.sh.data[ino] == []
    ensures ReadChunk(w, 2) == (w1, More) && w1.alive == w.alive && w1.sched == w.sched[2..]
    ensures w1.sh == w.sh.(data := w.sh.data[Ino(w.sh, w.c.fileFd) := "x"])
    ensures w1.c == w.c.(transferred := 1, wire := w.c.wire.(got := w.c.wire.got + 1))
  {
    var (w2, r) := SockRead(w, 2);
    assert JustRead(w2.c, 1) == "x";
    assert "x"[..1] == "x";
    OverlayAppends([], "x");
    assert Overlay([], 0, "x") == "x";
    w1 := StoreChunk(w2, 1).0;
  }

  /** One byte of two comes and is stored; then the stream ends. */
  lemma OneOfTwo(w: World) returns (w1: World)
    requires w.c.transferred == 0 && w.c.expected == SizeBytes(2)
    requires w.sched == [Ready(1), Ready(1), Ready(1), Ready(99)]
    requires w.c.wire.got + 1 == |w.c.wire.stream| && w.c.wire.stream[w.c.wire.got] == 'x'
    requires var ino := Ino(w.sh, w.c.fileFd); 0 <= ino < |w.sh.data| && w.sh.data[ino] == []
    ensures FillFile(w) == (w1, Broken) && w1.alive == w.alive && w1.sched == [Ready(99)]
    ensures w1.sh == w.sh.(data := w.sh.data[Ino(w.sh, w.c.fileFd) := "x"])
    ensures w1.c == w.c.(transferred := 1, wire := w.c.wire.(got := w.c.wire.got + 1))
  {
    SizeRoundTrip(2);
    var w2 := OneStored(w);
    assert FileStep(w) == ReadChunk(w, 2);
    w1 := OneMissing(w2);
    assert FillFile(w) == FillFile(w2);
  }

  lemma OneMissing(w: World) returns (w1: World)
    requires w.c.transferred == 1 && w.c.expected == SizeBytes(2) && w.sched == [Ready(1), Ready(99)]
    requires w.c.wire.got == |w.c.wire.stream|
    ensures FillFile(w) == (w1, Broken) && w1.alive == w.alive && w1.sched == [Ready(99)]
    ensures w1.sh == w.sh && w1.c == w.c
  {
    SizeRoundTrip(2);
    w1 := SockRead(w, 1).0;
    assert FileStep(w) == ReadChunk(w, 1) == (w1, Broken);
  }

  lemma OneCame(w: World) returns (w': World)
    requires w.alive && w.c.transferred == 0 && w.c.expected == SizeBytes(2)
    requires w.sched == [Ready(1), Ready(1), Ready(1), Ready(99)]
    requires w.c.wire.got + 1 == |w.c.wire.stream| && w.c.wire.stream[w.c.wire.got] == 'x'
    requires var ino := Ino(w.sh, w.c.fileFd); 0 <= ino < |w.sh.data| && w.sh.data[ino] == []
    ensures w' == RecvData(w) && !w'.alive && w'.c.fd == w.c.fd && w'.c.filename == w.c.filename
    ensures w'.c.wire.sent == w.c.wire.sent + ErrorReply(BadFileSize)
    ensures w'.sh.dir == w.sh.dir && w'.sh.list == w.sh.list
    ensures w'.sh.data == w.sh.data[Ino(w.sh, w.c.fileFd) := "x"]
  {
    var w1 := OneOfTwo(w);
    var w2 := CloseOwn(w1);
    w' := Delivered(LogOp(w2, Rejection(w2, Ino(w1.sh, w1.c.fileFd))), Failure(BadFileSize));
  }

  // -------- a failed upload that stays --------

  /** The directory has the file "a", and the file holds "x". */
  predicate HoldsX(sh: Shared) {
    "a" in sh.dir && sh.dir["a"] < |sh.data| && sh.data[sh.dir["a"]] == "x"
  }

  /** What came of a failed upload stays in the directory, though its error reply was delivered and nobody is connected
      any more. */
  ghost predicate KeepsFailed(s: Sys) {
    && s.clients == map[] && |s.gone| == 1 && s.gone[0].c.wire.sent == ErrorReply(BadFileSize)
    && s.gone[0].c.filename == "a" && HoldsX(s.sh) && s.sh.list == []
  }

  const BREAKS_OFF :=
    Report(SOCKET, READABLE, [Ready(SIZE_BYTES), Ready(FILE), Ready(1), Ready(1), Ready(1), Ready(99)])

  lemma SizeFollows(size: nat, rest: bytes)
    ensures ("PUT a\n" + (SizeBytes(size) + rest))[6..14] == SizeBytes(size)
  {
  }

  lemma BreaksOff(w: World) returns (w': World)
    requires w == Begin(w.c, w.sh, BREAKS_OFF.sched) && AskedToStore(w.c, SizeBytes(2) + "x") && FILE !in w.sh.fds
    requires w.sh.dir == map[]
    ensures w' == Dispatch(w, READABLE) && !w'.alive && w'.c.fd == SOCKET && w'.c.filename == "a"
    ensures w'.c.wire.sent == ErrorReply(BadFileSize) && HoldsX(w'.sh) && w'.sh.list == w.sh.list
  {
    SizeFollows(2, "x");
    var w1 := FileOpened(w, 2);
    assert w1.c.wire.stream[14] == 'x';
    w' := OneCame(w1);
  }

  /** An upload whose client announces two bytes, sends one and reads its error reply. */
  lemma BrokenOff(s: Sys)
    requires s.clients.Keys == {SOCKET} && AskedToStore(s.clients[SOCKET], SizeBytes(2) + "x") && s.gone == []
    requires s.sh.list == [] && s.sh.dir == map[] && FILE !in s.sh.fds
    ensures KeepsFailed(Step(s, BREAKS_OFF))
  {
    var w' := BreaksOff(Begin(s.clients[SOCKET], s.sh, BREAKS_OFF.sched));
    assert s.clients - {SOCKET} == map[];
  }

  /** There is a run that keeps what came of a failed upload. */
  lemma FailedUploadKept(listenFd: nat)
    requires listenFd != SOCKET && listenFd != FILE
    ensures exists inputs :: Feasible(listenFd, inputs) && KeepsFailed(Run(listenFd, inputs))
  {
    var inputs := ConnectsToStore(listenFd, [], SizeBytes(2) + "x");
    BrokenOff(Run(listenFd, inputs));
    RunNext(listenFd, inputs, BREAKS_OFF);
  }

  // -------- a download of a file that is not listed --------

  const WRITABLE := Mask(false, true, false)
  const FETCHES := Report(SOCKET, READABLE, Ones(6) + [Ready(FILE), Ready(1), Ready(99)])
  const SENDS_SIZE := Report(SOCKET, WRITABLE, [Ready(99)])
  const SENDS_BODY := Report(SOCKET, WRITABLE, [Ready(1), Ready(1)])

  /** A connection that serves a GET of "a" has the file open, which holds "x". */
  predicate Serving(c: Conn, sh: Shared) {
    && c.fd == SOCKET && c.filename == "a" && Asks(c, GET) && c.fileFd == FILE && c.fileSize == 1 && c.transferred == 0
    && 0 <= Ino(sh, FILE) && Content(sh, Ino(sh, FILE)) == "x" && SOCKET in sh.polls && sh.polls[SOCKET] == Write
  }

  /** Its OK was sent; the size is next. */
  predicate SaidOk(c: Conn, sh: Shared) {
    Serving(c, sh) && c.state == SendGetSize && c.resp == [] && c.wire.sent == OK_LINE
  }

  /** Its size was sent, too; the file is next. */
  predicate SaidSize(c: Conn, sh: Shared) {
    Serving(c, sh) && c.state == SendGetData && c.wire.sent == OK_LINE + SizeBytes(1)
  }

  /** The whole OK of a GET is taken at once: the size is next. */
  lemma FetchDelivered(w: World) returns (w': World)
    requires w.alive && w.sched == [Ready(99)] && w.c.verb == GET && w.c.wire.sent == []
    requires w.c.fd in w.sh.polls
    ensures w' == Respond(w, Success) && w'.alive && w'.c.state == SendGetSize
    ensures w'.sh == w.sh.(polls := w.sh.polls[w.c.fd := Write])
    ensures w'.c == w.c.(state := SendGetSize, status := Success, resp := [], respSent := 0,
                         wire := w.c.wire.(sent := OK_LINE))
  {
    var w1 := Prepared(w, Success);
    var (w2, r) := SockWrite(w1, Drop(w1.c.resp, 0));
    assert w1.c.resp[..|w1.c.resp|] == w1.c.resp;
    var w3 := w2.(c := w2.c.(respSent := r.n));
    assert Respond(w, Success) == WriteReply(w1) == ReplyMoved(w3);
    w' := ReplyMoved(w3);
  }

  lemma Fetches(w: World) returns (w': World)
    requires w.alive && w.sched == [Ready(FILE), Ready(1), Ready(99)] && Asks(w.c, GET) && w.c.wire.sent == []
    requires HoldsX(w.sh) && w.c.filename == "a" && FILE !in w.sh.fds && w.c.fd == SOCKET && SOCKET in w.sh.polls
    ensures w' == StartGet(w) && w'.alive && w'.sh.list == w.sh.list && SaidOk(w'.c, w'.sh)
  {
    var w1 := Opens(w);
    assert Content(w1.sh, Ino(w1.sh, FILE)) == "x";
    w' := FetchDelivered(Announce(w1));
  }

  lemma Opens(w: World) returns (w1: World)
    requires w.sched == [Ready(FILE), Ready(1), Ready(99)] && w.c.filename in w.sh.dir && FILE !in w.sh.fds
    ensures StartGet(w) == Respond(Announce(w1), Success) && w1.alive == w.alive && w1.sched == [Ready(99)]
    ensures w1.c == w.c.(fileFd := FILE) && w1.sh == GetOpen(w.sh, w.c.filename, FILE)
  {
    var (w0, fd) := OpenForGet(w);
    w1 := Stat(w0.(c := w0.c.(fileFd := fd))).0;
  }

  lemma FetchAsked(w: World) returns (w': World)
    requires w == Begin(NewConn(w.c.id, SOCKET, "GET a\n"), w.sh, FETCHES.sched)
    requires HoldsX(w.sh) && FILE !in w.sh.fds && SOCKET in w.sh.polls
    ensures w' == Dispatch(w, READABLE) && w'.alive && w'.sh.list == w.sh.list && SaidOk(w'.c, w'.sh)
  {
    var line := RequestLine(GET, "a");
    assert line == "GET a\n";
    assert line + [] == line;
    Hears(w, SOCKET, GET, "a", [], [Ready(FILE), Ready(1), Ready(99)]);
    var w1 := ActsOn(Having(w, 6), GET, "a");
    w' := Fetches(w1);
  }

  lemma SizeTaken(w: World) returns (w': World)
    requires w == Begin(w.c, w.sh, SENDS_SIZE.sched) && SaidOk(w.c, w.sh)
    ensures w' == Dispatch(w, WRITABLE) && w'.alive && w'.sh.list == w.sh.list && SaidSize(w'.c, w'.sh)
  {
    var w1 := SizeReady(w);
    var (w2, r) := SockWrite(w1, Drop(w1.c.resp, 0));
    assert w1.c.resp[..SIZE_BYTES] == w1.c.resp;
    w' := SizeMoved(w2, r.n);
    assert SendSize(w) == WriteSize(w1) == w';
  }

  lemma BodyTaken(w: World) returns (w': World)
    requires w == Begin(w.c, w.sh, SENDS_BODY.sched) && SaidSize(w.c, w.sh)
    ensures w' == Dispatch(w, WRITABLE) && !w'.alive && w'.c.fd == SOCKET && w'.sh.list == w.sh.list
    ensures w'.c.state == Done && w'.c.filename == "a" && Asks(w'.c, GET) && w'.c.wire.sent == PayloadReply("x")
  {
    var (w1, chunk) := Pread(w, 1, 0);
    assert chunk == "x";
    var w2 := BodyStep(w).0;
    assert chunk[..1] == chunk;
    assert BodyStep(w).1 == More && w2.c.transferred == 1;
    assert DrainFile(w2) == (w2, Complete);
    w' := Finish(w2);
    assert SendData(w) == w';
  }

  /** A file that is not in the file list was downloaded. */
  ghost predicate ServedUnlisted(s: Sys) {
    s.gone != [] &&
    var c := s.gone[|s.gone| - 1].c;
    c.state == Done && Asks(c, GET) && c.filename !in s.sh.list && c.wire.sent == PayloadReply("x")
  }

  /** The connection on SOCKET is serving a file that is not listed. */
  predicate AtWork(s: Sys) {
    SOCKET in s.clients && s.sh.list == [] && SOCKET in s.sh.polls
  }

  lemma FetchStep(s: Sys)
    requires AtWork(s) && s.clients[SOCKET] == NewConn(s.clients[SOCKET].id, SOCKET, "GET a\n")
    requires HoldsX(s.sh) && FILE !in s.sh.fds
    ensures var s' := Step(s, FETCHES); AtWork(s') && SaidOk(s'.clients[SOCKET], s'.sh)
  {
    var w := FetchAsked(Begin(s.clients[SOCKET], s.sh, FETCHES.sched));
  }

  lemma SizeStepTaken(s: Sys)
    requires AtWork(s) && SaidOk(s.clients[SOCKET], s.sh)
    ensures var s' := Step(s, SENDS_SIZE); AtWork(s') && SaidSize(s'.clients[SOCKET], s'.sh)
  {
    var w := SizeTaken(Begin(s.clients[SOCKET], s.sh, SENDS_SIZE.sched));
  }

  lemma BodyStepTaken(s: Sys)
    requires AtWork(s) && SaidSize(s.clients[SOCKET], s.sh)
    ensures ServedUnlisted(Step(s, SENDS_BODY))
  {
    var w := BodyTaken(Begin(s.clients[SOCKET], s.sh, SENDS_BODY.sched));
  }

  lemma BodySent(listenFd: nat, inputs: seq<Input>)
    requires Feasible(listenFd, inputs)
    requires var s := Run(listenFd, inputs); AtWork(s) && SaidSize(s.clients[SOCKET], s.sh)
    ensures exists inputs :: Feasible(listenFd, inputs) && ServedUnlisted(Run(listenFd, inputs))
  {
    BodyStepTaken(Run(listenFd, inputs));
    RunNext(listenFd, inputs, SENDS_BODY);
  }

  lemma SizeSent(listenFd: nat, inputs: seq<Input>)
    requires Feasible(listenFd, inputs)
    requires var s := Run(listenFd, inputs); AtWork(s) && SaidOk(s.clients[SOCKET], s.sh)
    ensures exists inputs :: Feasible(listenFd, inputs) && ServedUnlisted(Run(listenFd, inputs))
  {
    SizeStepTaken(Run(listenFd, inputs));
    RunNext(listenFd, inputs, SENDS_SIZE);
    BodySent(listenFd, inputs + [SENDS_SIZE]);
  }

  /** A GET of what a failed upload left is served. */
  lemma UnlistedServed(listenFd: nat, inputs: seq<Input>)
    requires Feasible(listenFd, inputs) && listenFd != SOCKET
    requires
      var s := Run(listenFd, inputs);
      && AtWork(s) && s.clients[SOCKET] == NewConn(s.clients[SOCKET].id, SOCKET, "GET a\n")
      && HoldsX(s.sh) && FILE !in s.sh.fds && s.sh.polls[SOCKET] == Read
    ensures exists inputs :: Feasible(listenFd, inputs) && ServedUnlisted(Run(listenFd, inputs))
  {
    FetchStep(Run(listenFd, inputs));
    RunNext(listenFd, inputs, FETCHES);
    SizeSent(listenFd, inputs + [FETCHES]);
  }

  /** There is a run in which a file that is not listed is downloaded, all of it: what a failed upload left behind. */
  lemma UnlistedDownloaded(listenFd: nat)
    requires listenFd != SOCKET && listenFd != FILE
    ensures exists inputs :: Feasible(listenFd, inputs) && ServedUnlisted(Run(listenFd, inputs))
  {
    FailedUploadKept(listenFd);
    var inputs :| Feasible(listenFd, inputs) && KeepsFailed(Run(listenFd, inputs));
    NothingOpen(listenFd, inputs);
    var more := Connects(listenFd, inputs, "GET a\n");
    UnlistedServed(listenFd, more);
  }

  // -------- an upload with an extra byte that is accepted --------

  const SLIPS_BY := Report(SOCKET, READABLE, [Ready(SIZE_BYTES), Ready(FILE), Again, Ready(99)])

  /** A peer that sends more than it announced was answered OK, and its file is listed. */
  ghost predicate AcceptsTooMuch(s: Sys) {
    && s.clients == map[] && |s.gone| == 1 && TooLong(s.gone[0].c) && s.gone[0].c.wire.sent == OK_LINE
    && s.gone[0].c.filename == "a" && "a" in s.sh.list && "a" in s.sh.dir
  }

  lemma NothingNoticed(w: World) returns (w': World)
    requires w.alive && w.c.verb == PUT && w.c.transferred == 0 && w.c.expected == SizeBytes(0)
    requires w.sched == [Again, Ready(99)]
    ensures w' == RecvData(w) && !w'.alive && w'.c.fd == w.c.fd && SameRequest(w.c, w'.c)
    ensures w'.c.wire.sent == w.c.wire.sent + OK_LINE
    ensures w'.sh.dir == w.sh.dir && w'.sh.list == With(w.sh.list, w.c.filename)
  {
    SizeRoundTrip(0);
    assert FillFile(w) == (w, Complete);
    var (w1, r) := SockRead(CloseOwn(w), 1);
    assert r == Error(EAGAIN);
    w' := Delivered(Listing(w, w1), Success);
    assert RecvData(w) == FinishUpload(w);
  }

  lemma StoredTooMuch(c: Conn)
    requires |c.header| == 6 && c.wire.stream == "PUT a\n" + (SizeBytes(0) + "x")
    ensures TooLong(c)
  {
    SizeFollows(0, "x");
    SizeRoundTrip(0);
  }

  lemma SlipsBy(w: World) returns (w': World)
    requires w == Begin(w.c, w.sh, SLIPS_BY.sched) && AskedToStore(w.c, SizeBytes(0) + "x") && FILE !in w.sh.fds
    ensures w' == Dispatch(w, READABLE) && !w'.alive && w'.c.fd == SOCKET && SameRequest(w.c, w'.c)
    ensures w'.c.wire.sent == OK_LINE && "a" in w'.sh.dir && w'.sh.list == With(w.sh.list, "a")
  {
    SizeFollows(0, "x");
    var w1 := FileOpened(w, 0);
    w' := NothingNoticed(w1);
  }

  lemma SlippedBy(s: Sys)
    requires s.clients.Keys == {SOCKET} && AskedToStore(s.clients[SOCKET], SizeBytes(0) + "x") && s.gone == []
    requires s.sh.list == [] && FILE !in s.sh.fds
    ensures AcceptsTooMuch(Step(s, SLIPS_BY))
  {
    var w' := SlipsBy(Begin(s.clients[SOCKET], s.sh, SLIPS_BY.sched));
    StoredTooMuch(w'.c);
    assert s.clients - {SOCKET} == map[];
  }

  /** There is a run that accepts an upload with a byte too many: it had not arrived when the server looked. */
  lemma ExtraByteAccepted(listenFd: nat)
    requires listenFd != SOCKET && listenFd != FILE
    ensures exists inputs :: Feasible(listenFd, inputs) && AcceptsTooMuch(Run(listenFd, inputs))
  {
    var inputs := ConnectsToStore(listenFd, [], SizeBytes(0) + "x");
    SlippedBy(Run(listenFd, inputs));
    RunNext(listenFd, inputs, SLIPS_BY);
  }

  // -------- a listed name without a file --------

  const HANGS_UP := Report(SOCKET, HUNG_UP, [Ready(1)])

  lemma TornAway(s: Sys)
    requires SOCKET in s.clients && AskedToStore(s.clients[SOCKET], []) && "a" in s.sh.dir
    ensures Step(s, HANGS_UP).sh.list == s.sh.list && "a" !in Step(s, HANGS_UP).sh.dir
  {
    var w := Begin(s.clients[SOCKET], s.sh, HANGS_UP.sched);
    assert Dispatch(w, HUNG_UP) == CloseAndCleanup(w.(calls := w.calls + [HangUp]));
  }

  /** There is a run that leaves a name listed without a file: it was uploaded, and a second upload of it broke off
      before a byte of its size had come. */
  lemma ListedFileLost(listenFd: nat)
    requires listenFd != SOCKET && listenFd != FILE
    ensures exists inputs, name ::
      && Feasible(listenFd, inputs)
      && name in Run(listenFd, inputs).sh.list && name !in Run(listenFd, inputs).sh.dir
  {
    ExtraByteAccepted(listenFd);
    var inputs :| Feasible(listenFd, inputs) && AcceptsTooMuch(Run(listenFd, inputs));
    var more := ConnectsToStore(listenFd, inputs, []);
    TornAway(Run(listenFd, more));
    RunNext(listenFd, more, HANGS_UP);
    assert "a" in Run(listenFd, more + [HANGS_UP]).sh.list;
  }
}
