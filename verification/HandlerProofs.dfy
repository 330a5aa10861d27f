/** Every handler keeps the invariants, whatever the system answers. */
module HandlerProofs {
  import opened Bytes
  import opened Protocol
  import opened Calls
  import opened History
  import opened Kernel
  import opened Handlers
  import opened SharedInvariant
  import opened ConnInvariant
  import opened CallProofs

  // -------- small steps --------

  /** A step that leaves the shared state alone. */
  lemma Quiet(w: World, w': World)
    requires SharedInv(w.sh) && (w.alive <==> w.c.fd in w.sh.polls)
    requires w'.sh == w.sh && w'.alive == w.alive
    requires w'.c.fd == w.c.fd && w'.c.id == w.c.id && w'.c.wire.stream == w.c.wire.stream
    requires w'.c.fileFd == w.c.fileFd
    ensures Reaches(w, w')
  {
  }

  lemma Arming(w: World, interest: Interest)
    requires SharedInv(w.sh) && w.alive && w.c.fd in w.sh.polls
    ensures Reaches(w, Arm(w, interest))
  {
    Polling(w.sh, w.sh.polls[w.c.fd := interest]);
    SteadyWiden(w.sh, Arm(w, interest).sh, {}, {}, Mine(w.c));
  }

  // -------- teardown --------

  ghost predicate Closable(w: World) {
    && w.alive && SharedInv(w.sh) && Linked(w.c, w.sh) && ConnOk(w.c, w.sh.trace)
    && (w.c.fileFd != -1 ==> w.c.fileFd in FileFds(w.sh.fds) && w.c.fileFd != w.c.fd)
    && BodyAccounted(w.c, w.sh.trace)
  }

  function FileOf(c: Conn): set<int> {
    if c.fileFd == -1 then {} else {c.fileFd}
  }

  lemma AbortingUpload(w: World)
    requires SharedInv(w.sh)
    ensures
      var w' := AbortUpload(w);
      SharedInv(w'.sh) && Steady(w.sh, w'.sh, {}, {}) && w'.c == w.c
      && w'.sh.polls == w.sh.polls && w'.sh.fds == w.sh.fds && (w.c.verb != PUT ==> w'.sh.trace == w.sh.trace)
  {
    if w.c.verb == PUT && w.c.state != Done && Unlink(w).1 {
      Tearing(w.sh, w.c.id, w.c.filename);
    }
  }

  /** The socket is closed and the name of an unfinished PUT unlinked; the file is still open. */
  lemma Disconnecting(w: World)
    requires Closable(w)
    ensures
      var w' := AbortUpload(w.(sh := CloseSocket(w.sh, w.c.fd)));
      SharedInv(w'.sh) && Steady(w.sh, w'.sh, Mine(w.c), FileOf(w.c)) && w'.c == w.c
      && w'.sh.polls == w.sh.polls - {w.c.fd} && w'.sh.fds == w.sh.fds - {w.c.fd}
      && (w.c.verb != PUT ==> w'.sh.trace == w.sh.trace)
  {
    var w1 := w.(sh := CloseSocket(w.sh, w.c.fd));
    var w2 := AbortUpload(w1);
    ClosingSocket(w.sh, w.c.fd);
    SteadyWiden(w.sh, w1.sh, {w.c.fd}, {}, FileOf(w.c));
    AbortingUpload(w1);
    SteadyWiden(w1.sh, w2.sh, {}, {}, FileOf(w.c));
    assert {} + FileOf(w.c) == FileOf(w.c);
    SteadyTrans(w.sh, w1.sh, w2.sh, Mine(w.c), FileOf(w.c), FileOf(w.c));
  }

  lemma ClosingReaches(w: World)
    requires Closable(w)
    ensures Reaches(w, CloseAndCleanup(w))
  {
    var w2 := AbortUpload(w.(sh := CloseSocket(w.sh, w.c.fd)));
    Disconnecting(w);
    if w.c.fileFd != -1 {
      assert w.c.fileFd in FileFds(w2.sh.fds);
      ClosingFd(w2.sh, w.c.fileFd);
      SteadyTrans(w.sh, w2.sh, Destroy(w2).sh, Mine(w.c), FileOf(w.c), {});
    }
  }

  /** Whatever the state, closing a connection frees it and leaves the rest in order. */
  lemma Closing(w: World)
    requires Closable(w)
    ensures Handled(w, CloseAndCleanup(w)) && !CloseAndCleanup(w).alive
    ensures CloseAndCleanup(w).c == w.c
  {
    var w2 := AbortUpload(w.(sh := CloseSocket(w.sh, w.c.fd)));
    Disconnecting(w);
    ClosingReaches(w);
    ConnOkLater(w.c, w.sh.trace, w2.sh.trace);
    assert w2.sh.trace[..|w2.sh.trace|] == w2.sh.trace;
  }

  /** A connection with its files in order can be closed. */
  lemma InOrderClosable(w: World)
    requires w.alive && SharedInv(w.sh) && Linked(w.c, w.sh) && ConnOk(w.c, w.sh.trace) && FileOk(w.c, w.sh)
    requires w.c.state != Done
    ensures Closable(w)
  {
  }

  lemma Finishing(w: World)
    requires Closable(w.(c := w.c.(state := Done)))
    ensures Handled(w, Finish(w)) && !Finish(w).alive
    ensures SameRequest(w.c, Finish(w).c)
  {
    Closing(w.(c := w.c.(state := Done)));
  }

  // -------- replies --------

  /** Handled, and the request is still the same. */
  ghost predicate Served(w: World, w': World) {
    Handled(w, w') && SameRequest(w.c, w'.c)
  }

  lemma ServedAfter(w0: World, w1: World, w2: World)
    requires Reaches(w0, w1) && SameRequest(w0.c, w1.c) && Served(w1, w2)
    ensures Served(w0, w2)
  {
    Chain(w0, w1, w2);
  }

  /** The call changed neither the connection nor what is shared. */
  predicate Idle(w: World, w1: World) {
    w1.c == w.c && w1.sh == w.sh && w1.alive == w.alive
  }

  lemma ReadsNothing(w: World, count: nat)
    requires SockRead(w, count).1.Error? || SockRead(w, count).1.n == 0
    ensures Idle(w, SockRead(w, count).0)
  {
  }

  /** A socket error: the connection is torn down as it stands. */
  lemma Breaks(w: World, w1: World)
    requires w.alive && SharedInv(w.sh) && Linked(w.c, w.sh) && ConnOk(w.c, w.sh.trace) && FileOk(w.c, w.sh)
    requires w.c.state != Done && Idle(w, w1)
    ensures Served(w, CloseAndCleanup(w1))
  {
    Quiet(w, w1);
    InOrderClosable(w1);
    Closing(w1);
    ServedAfter(w, w1, CloseAndCleanup(w1));
  }

  /** The connection is about to send the reply `status`. */
  ghost predicate Answerable(w: World, status: Status) {
    var c := w.c;
    && w.alive && SharedInv(w.sh) && Linked(c, w.sh)
    && |c.header| <= c.wire.got <= |c.wire.stream| && |c.header| <= HEADER_MAX - 1
    && |c.filename| <= NAME_MAX && Printable(c.filename)
    && Decided(c, w.sh.trace, status) && c.listBuf.None? && c.wire.sent == Before(c)
    && (c.oom ==> Asks(c, LIST) && status == Failure(BadRequest))
    && (status.Success? && c.verb == LIST ==> c.op == -1)
    && (if status.Success? && c.verb == GET then ReadsFile(c, w.sh) && c.fileFd != -1 && c.transferred == 0
        else c.fileFd == -1)
  }

  lemma PreparedIsLive(w: World, status: Status)
    requires Answerable(w, status)
    ensures Live(Prepared(w, status).c, w.sh)
  {
  }

  lemma Responding(w: World, status: Status)
    requires Answerable(w, status)
    ensures Served(w, Respond(w, status))
    decreases if status.Success? then 4 else 1
  {
    var w1 := Prepared(w, status);
    Quiet(w, w1);
    PreparedIsLive(w, status);
    WritingReply(w1);
    ServedAfter(w, w1, Respond(w, status));
  }

  /** A status line is being sent. */
  ghost predicate Replying(w: World) {
    && w.alive && SharedInv(w.sh) && Linked(w.c, w.sh) && ConnOk(w.c, w.sh.trace) && FileOk(w.c, w.sh)
    && (w.c.state == SendOk || w.c.state == SendError) && w.c.listBuf.None?
  }

  /** The connection after a write of the rest of its status line that returned a count. */
  function Wrote(w: World): World
    requires SockWrite(w, Drop(w.c.resp, w.c.respSent)).1.Count?
  {
    var (w1, r) := SockWrite(w, Drop(w.c.resp, w.c.respSent));
    ReplyGrown(w1, r.n)
  }

  lemma ReplyGrows(w: World)
    requires Replying(w) && SockWrite(w, Drop(w.c.resp, w.c.respSent)).1.Count?
    ensures Replying(Wrote(w)) && Reaches(w, Wrote(w)) && SameRequest(w.c, Wrote(w).c)
    ensures Wrote(w).sh == w.sh && w.c.respSent <= Wrote(w).c.respSent <= |Wrote(w).c.resp|
  {
    Quiet(w, Wrote(w));
    MoreSent(w.c, SockWrite(w, Drop(w.c.resp, w.c.respSent)).1.n, w.sh.trace);
  }

  lemma MoreSent(c: Conn, n: nat, trace: seq<Event>)
    requires ConnOk(c, trace) && (c.state == SendOk || c.state == SendError) && c.respSent + n <= |c.resp|
    ensures
      var sent := c.wire.sent + Drop(c.resp, c.respSent)[..n];
      ConnOk(c.(respSent := c.respSent + n, wire := c.wire.(sent := sent)), trace)
  {
    PrefixGrows([], c.resp, c.respSent, n);
    PrefixGrows(Before(c), c.resp, c.respSent, n);
  }

  lemma PrefixGrows(before: bytes, s: bytes, k: nat, n: nat)
    requires k + n <= |s|
    ensures before + s[..k] + Drop(s, k)[..n] == before + s[..k + n]
  {
  }

  /** The socket would not take the status line. */
  lemma ReplyRefused(w: World)
    requires Replying(w) && Live(w.c, w.sh) && SockWrite(w, Drop(w.c.resp, w.c.respSent)).1.Error?
    ensures Served(w, WriteReply(w))
  {
    var (w1, r) := SockWrite(w, Drop(w.c.resp, w.c.respSent));
    assert Idle(w, w1);
    if r.errno == EAGAIN {
      Quiet(w, w1);
    } else {
      Breaks(w, w1);
    }
  }

  lemma ReplyCutShort(w: World)
    requires Replying(w) && w.c.respSent < |w.c.resp|
    ensures Served(w, Arm(w, Write))
  {
    Arming(w, Write);
  }

  lemma SizeIsNext(c: Conn, trace: seq<Event>)
    requires ConnOk(c, trace) && c.state == SendOk && c.respSent == |c.resp| && c.verb == GET
    ensures ConnOk(c.(resp := [], respSent := 0, state := SendGetSize), trace)
  {
  }

  lemma ReplyThenSize(w: World)
    requires Replying(w) && w.c.respSent == |w.c.resp| && w.c.state == SendOk && w.c.verb == GET
    ensures Served(w, Arm(w.(c := w.c.(resp := [], respSent := 0, state := SendGetSize)), Write))
  {
    var w1 := w.(c := w.c.(resp := [], respSent := 0, state := SendGetSize));
    SizeIsNext(w.c, w.sh.trace);
    Quiet(w, w1);
    Arming(w1, Write);
    Chain(w, w1, Arm(w1, Write));
  }

  /** A status line that says it all, sent in full, is the whole reply. */
  lemma SaidIsComplete(c: Conn, trace: seq<Event>)
    requires ConnOk(c, trace) && (c.state == SendOk || c.state == SendError) && c.respSent == |c.resp|
    requires c.state == SendOk ==> c.verb != LIST && c.verb != GET
    ensures ConnOk(c.(state := Done), trace)
  {
    assert c.resp[..|c.resp|] == c.resp;
  }

  lemma ReplyThenDone(w: World)
    requires Replying(w) && w.c.respSent == |w.c.resp|
    requires w.c.state == SendOk ==> w.c.verb != LIST && w.c.verb != GET
    ensures Served(w, Finish(w))
  {
    SaidIsComplete(w.c, w.sh.trace);
    Finishing(w);
  }

  /** What a write of a status line that moved something leads to. */
  lemma MovingReply(w: World)
    requires Replying(w) && w.c.respSent <= |w.c.resp|
    ensures Served(w, ReplyMoved(w))
    decreases if w.c.state == SendOk then 3 else 0, 0
  {
    if w.c.respSent != |w.c.resp| {
      ReplyCutShort(w);
    } else if w.c.state == SendOk && w.c.verb == LIST {
      StartingList(w);
    } else if w.c.state == SendOk && w.c.verb == GET {
      ReplyThenSize(w);
    } else {
      ReplyThenDone(w);
    }
  }

  /** One write of a status line, whatever part of it goes out. */
  lemma WritingReply(w: World)
    requires Replying(w) && Live(w.c, w.sh)
    ensures Served(w, WriteReply(w))
    decreases if w.c.state == SendOk then 3 else 0, 1
  {
    if SockWrite(w, Drop(w.c.resp, w.c.respSent)).1.Error? {
      ReplyRefused(w);
    } else {
      var w1 := Wrote(w);
      ReplyGrows(w);
      MovingReply(w1);
      assert WriteReply(w) == ReplyMoved(w1);
      ServedAfter(w, w1, ReplyMoved(w1));
    }
  }

  lemma ListFailed(w: World, w1: World)
    requires Replying(w) && w.c.respSent == |w.c.resp| && w.c.state == SendOk && w.c.verb == LIST && Idle(w, w1)
    ensures Answerable(w1.(c := w1.c.(oom := true)), Failure(BadRequest))
    ensures Reaches(w, w1.(c := w1.c.(oom := true)))
  {
    Quiet(w, w1.(c := w1.c.(oom := true)));
  }

  lemma ListBuilt(w: World, w1: World)
    requires Replying(w) && w.c.respSent == |w.c.resp| && w.c.state == SendOk && w.c.verb == LIST && Idle(w, w1)
    requires |ListBuffer(w.sh.list)| < SIZE_LIMIT
    ensures
      var w2 := LogOp(w1, Listed(w1.c.id, w1.sh.list));
      var w3 := w2.(c := w2.c.(listBuf := Some(ListBuffer(w2.sh.list)), listSent := 0, state := SendListData));
      Served(w, Arm(w3, Write))
  {
    var e := Listed(w.c.id, w.sh.list);
    var w2 := LogOp(w1, e);
    Noting(w.sh, e);
    SteadyWiden(w.sh, w2.sh, {}, {}, Mine(w.c));
    var w3 := w2.(c := w2.c.(listBuf := Some(ListBuffer(w2.sh.list)), listSent := 0, state := SendListData));
    Quiet(w2, w3);
    Chain(w, w2, w3);
    Arming(w3, Write);
    Chain(w, w3, Arm(w3, Write));
  }

  /** The LIST reply: the payload from the list as it stands, or an error reply after the OK. */
  lemma StartingList(w: World)
    requires Replying(w) && w.c.respSent == |w.c.resp| && w.c.state == SendOk && w.c.verb == LIST
    ensures Served(w, StartSendList(w))
    decreases 2, 1
  {
    var (w1, memory) := Alloc(w, |ListBuffer(w.sh.list)|);
    assert Idle(w, w1);
    if memory {
      ListBuilt(w, w1);
    } else {
      var w2 := w1.(c := w1.c.(oom := true));
      ListFailed(w, w1);
      Responding(w2, Failure(BadRequest));
      ServedAfter(w, w2, StartSendList(w));
    }
  }

  // -------- PUT --------

  /** The size of an upload is being received. */
  ghost predicate SizePhase(w: World) {
    && w.alive && SharedInv(w.sh) && Linked(w.c, w.sh) && ConnOk(w.c, w.sh.trace)
    && w.c.state == RecvPutSize && w.sh.polls[w.c.fd] == Read && w.c.fileFd == -1 && w.c.listBuf.None?
  }

  /** The body of an upload is being received. */
  ghost predicate DataPhase(w: World) {
    && w.alive && SharedInv(w.sh) && Linked(w.c, w.sh) && ConnOk(w.c, w.sh.trace)
    && w.c.state == RecvPutData && w.sh.polls[w.c.fd] == Read && WritesFile(w.c, w.sh) && w.c.fileFd != -1
    && w.c.listBuf.None?
  }

  /** The bytes of the size just read continue the part of it that is there. */
  lemma SizeExtends(c: Conn, c1: Conn, d: bytes, trace: seq<Event>)
    requires ConnOk(c, trace) && c.state == RecvPutSize && c.transferred + |d| <= SIZE_BYTES
    requires c.wire.got + |d| <= |c.wire.stream| && d == c.wire.stream[c.wire.got..c.wire.got + |d|]
    requires c1 == c.(wire := c.wire.(got := c.wire.got + |d|), expected := Overlay(c.expected, c.transferred, d),
                      transferred := c.transferred + |d|)
    ensures ConnOk(c1, trace)
  {
    OverlayPrefix(c.expected, c.transferred, d);
    assert c.wire.stream[|c.header|..c.wire.got] + d == c.wire.stream[|c.header|..c.wire.got + |d|];
  }

  lemma SizeGrows(w: World, w1: World, n: nat)
    requires SizePhase(w) && w.c.transferred + n <= SIZE_BYTES && w.c.wire.got + n <= |w.c.wire.stream|
    requires w1.c == w.c.(wire := w.c.wire.(got := w.c.wire.got + n)) && w1.sh == w.sh && w1.alive
    ensures SizePhase(StoreSize(w1, n)) && Reaches(w, StoreSize(w1, n)) && SameRequest(w.c, StoreSize(w1, n).c)
  {
    var d := JustRead(w1.c, n);
    assert d == w.c.wire.stream[w.c.wire.got..w.c.wire.got + n];
    SizeExtends(w.c, StoreSize(w1, n).c, d, w.sh.trace);
    Quiet(w, StoreSize(w1, n));
  }

  lemma SizeKnown(c: Conn, fd: int, trace: seq<Event>)
    requires ConnOk(c, trace) && c.state == RecvPutSize && c.transferred == SIZE_BYTES && c.filename != []
    ensures
      var c1 := c.(transferred := 0, fileFd := fd, state := RecvPutData);
      ConnOk(c1, trace) && Body(c1) == []
  {
    assert c.expected[..SIZE_BYTES] == c.expected;
  }

  /** The file just opened is empty, and the history says whose it is. */
  lemma OpenedWrites(c: Conn, sh: Shared, fd: nat)
    requires SharedInv(sh) && fd !in sh.fds && c.fileFd == fd && fd != c.fd && Body(c) == []
    ensures WritesFile(c, PutOpen(sh, c.id, c.filename, fd))
  {
    var sh' := PutOpen(sh, c.id, c.filename, fd);
    PutOpenFacts(sh, c.id, c.filename, fd);
    assert sh'.trace[|sh.trace|].PutOpened?;
  }

  lemma OpeningReaches(w: World, w1: World, fd: int)
    requires SizePhase(w) && OpenForPut(w.(c := w.c.(transferred := 0))) == (w1, fd) && fd != -1
    ensures
      var w2 := w1.(c := w1.c.(fileFd := fd, state := RecvPutData));
      Reaches(w, w2) && Linked(w2.c, w2.sh)
  {
    OpeningForPut(w.sh, w.c.id, w.c.filename, fd);
    SteadyWiden(w.sh, w1.sh, {}, {fd}, {w.c.fd});
    assert {fd} + {w.c.fd} == {w.c.fd} + {fd};
  }

  /** The size is complete: the file is opened, and nothing of the body is there yet. */
  lemma SizeComplete(w: World, w1: World, fd: int)
    requires SizePhase(w) && w.c.transferred == SIZE_BYTES
    requires OpenForPut(w.(c := w.c.(transferred := 0))) == (w1, fd) && fd != -1
    ensures
      var w2 := w1.(c := w1.c.(fileFd := fd, state := RecvPutData));
      DataPhase(w2) && Reaches(w, w2) && SameRequest(w.c, w2.c)
  {
    OpeningReaches(w, w1, fd);
    ConnOkLater(w.c, w.sh.trace, w1.sh.trace);
    SizeKnown(w.c, fd, w1.sh.trace);
    OpenedWrites(w.c.(transferred := 0, fileFd := fd, state := RecvPutData), w.sh, fd);
  }

  /** A request that has sent nothing. */
  predicate RequestBase(c: Conn) {
    && |c.header| <= c.wire.got <= |c.wire.stream| && |c.header| <= HEADER_MAX - 1
    && |c.filename| <= NAME_MAX && Printable(c.filename)
    && c.wire.sent == [] && c.listBuf.None? && !c.oom && c.op == -1
  }

  predicate UploadBase(c: Conn) {
    RequestBase(c) && Asks(c, PUT)
  }

  /** The upload of `file` is over, -1 if it opened none: it is not settled yet, and nobody writes it unless another
      PUT shares it. */
  ghost predicate Over(sh: Shared, file: int) {
    file !in Replay(sh.trace).settled && (file >= 0 && file !in Tainted(sh) ==> Closed(sh, file))
  }

  lemma NoneOpened(sh: Shared)
    requires SharedInv(sh)
    ensures Over(sh, -1)
  {
    assert -1 in Replay(sh.trace).settled ==> Closed(sh, -1);
  }

  /** A failed upload whose file is closed is answered "Bad file size". */
  lemma UploadFails(w: World, file: int)
    requires w.alive && SharedInv(w.sh) && Linked(w.c, w.sh) && UploadBase(w.c) && w.c.fileFd == -1
    requires CourseOf(w.calls).Failed? && Over(w.sh, file)
    ensures Served(w, Reject(w, file))
  {
    var e := Rejection(w, file);
    var w1 := LogOp(w, e);
    Noting(w.sh, e);
    SteadyWiden(w.sh, w1.sh, {}, {}, Mine(w.c));
    Responding(w1, Failure(BadFileSize));
    ServedAfter(w, w1, Reject(w, file));
  }

  lemma ClosingOwn(w: World)
    requires w.alive && SharedInv(w.sh) && Linked(w.c, w.sh)
    requires w.c.fileFd in FileFds(w.sh.fds) && w.c.fileFd != w.c.fd && w.c.fileFd != -1
    ensures Reaches(w, CloseOwn(w)) && Linked(CloseOwn(w).c, CloseOwn(w).sh)
  {
    ClosingFd(w.sh, w.c.fileFd);
    SteadyWiden(w.sh, CloseOwn(w).sh, {w.c.fileFd}, {}, {w.c.fd});
    assert {w.c.fileFd} + {w.c.fd} == Mine(w.c) && {} + {w.c.fd} == {w.c.fd};
  }

  /** An upload whose body cannot be received or stored; its file is still open. */
  ghost predicate UploadHalted(w: World) {
    && w.alive && SharedInv(w.sh) && Linked(w.c, w.sh) && UploadBase(w.c)
    && w.c.fileFd in FileFds(w.sh.fds) && w.c.fileFd != w.c.fd && w.c.fileFd != -1 && w.sh.fds[w.c.fileFd].writing
  }

  lemma UploadAborts(w: World)
    requires UploadHalted(w) && CourseOf(w.calls).Failed?
    ensures Served(w, Reject(CloseOwn(w), Ino(w.sh, w.c.fileFd)))
  {
    ClosingOwn(w);
    ClosingWriter(w.sh, w.c.fileFd);
    CloseKeepsFailed(w);
    UploadFails(CloseOwn(w), Ino(w.sh, w.c.fileFd));
    ServedAfter(w, CloseOwn(w), Reject(CloseOwn(w), Ino(w.sh, w.c.fileFd)));
  }

  /** The bytes just read are the continuation of the body. */
  lemma BodyGrows(c: Conn, c1: Conn, n: nat)
    requires |c.header| + SIZE_BYTES <= c.wire.got && c.wire.got + n <= |c.wire.stream|
    requires c1 == c.(wire := c.wire.(got := c.wire.got + n))
    ensures Body(c1) == Body(c) + JustRead(c1, n) && |JustRead(c1, n)| == n
    ensures |Body(c)| == c.wire.got - |c.header| - SIZE_BYTES
  {
  }

  /** From `w` to `w1` a chunk of `n` bytes of the body was read. */
  ghost predicate ChunkRead(w: World, w1: World, n: nat) {
    && DataPhase(w) && 0 < n <= SizeOf(w.c.expected) - w.c.transferred && w.c.wire.got + n <= |w.c.wire.stream|
    && w1.c == w.c.(wire := w.c.wire.(got := w.c.wire.got + n)) && w1.sh == w.sh && w1.alive
  }

  /** `pwrite` moved `m` bytes of the chunk. */
  lemma ChunkWritten(w: World, w1: World, n: nat, m: nat)
    requires ChunkRead(w, w1, n) && m <= n
    ensures
      var sh' := WriteFile(w.sh, w.c.fileFd, w.c.transferred, JustRead(w1.c, n)[..m]);
      && SharedInv(sh') && Steady(w.sh, sh', Mine(w.c), Mine(w.c))
      && sh'.fds == w.sh.fds && sh'.polls == w.sh.polls && sh'.trace == w.sh.trace
      && (m == n && sh'.fds[w.c.fileFd].ino !in Tainted(sh') ==>
            Content(sh', sh'.fds[w.c.fileFd].ino) == Body(w1.c))
  {
    var d := JustRead(w1.c, n);
    BodyGrows(w.c, w1.c, n);
    SizeOfBound(w.c.expected);
    Writing(w.sh, w.c.fileFd, w.c.transferred, d[..m]);
    SteadyWiden(w.sh, WriteFile(w.sh, w.c.fileFd, w.c.transferred, d[..m]), {w.c.fileFd}, {w.c.fileFd}, {w.c.fd});
    assert {w.c.fileFd} + {w.c.fd} == Mine(w.c);
    if m == n && w.sh.fds[w.c.fileFd].ino !in Tainted(w.sh) {
      assert d[..m] == d;
      OverlayAppends(Body(w.c), d);
    }
  }

  /** What an iteration of the body loop, or the whole loop, leaves behind. */
  ghost predicate Received(w: World, w1: World, outcome: Outcome) {
    && Reaches(w, w1) && SameRequest(w.c, w1.c)
    && match outcome
       case Broken => UploadHalted(w1)
       case Complete => DataPhase(w1) && w1.c.transferred == SizeOf(w1.c.expected)
       case Blocked => DataPhase(w1) && w1.c.transferred < SizeOf(w1.c.expected)
       case More => DataPhase(w1)
  }

  lemma ReceivedAfter(w0: World, w1: World, w2: World, outcome: Outcome)
    requires Reaches(w0, w1) && SameRequest(w0.c, w1.c) && Received(w1, w2, outcome)
    ensures Received(w0, w2, outcome)
  {
    Chain(w0, w1, w2);
  }

  /** A chunk of the body was written in full. */
  lemma DataGrows(w: World, w1: World, n: nat)
    requires ChunkRead(w, w1, n) && Pwrite(w1, JustRead(w1.c, n), w1.c.transferred).1 == Count(n)
    ensures Received(w, StoreChunk(w1, n).0, More)
  {
    ChunkWritten(w, w1, n, n);
    BodyGrows(w.c, w1.c, n);
  }

  /** A chunk of the body was not written in full. */
  lemma DataBreaks(w: World, w1: World, n: nat)
    requires ChunkRead(w, w1, n) && Pwrite(w1, JustRead(w1.c, n), w1.c.transferred).1 != Count(n)
    ensures Received(w, StoreChunk(w1, n).0, Broken)
  {
    var (w2, r) := Pwrite(w1, JustRead(w1.c, n), w1.c.transferred);
    BodyGrows(w.c, w1.c, n);
    if r.Count? {
      ChunkWritten(w, w1, n, r.n);
    } else {
      Quiet(w, w2);
    }
  }

  lemma DataStored(w: World, w1: World, n: nat)
    requires ChunkRead(w, w1, n)
    ensures Received(w, StoreChunk(w1, n).0, StoreChunk(w1, n).1)
  {
    if Pwrite(w1, JustRead(w1.c, n), w1.c.transferred).1 == Count(n) {
      DataGrows(w, w1, n);
    } else {
      DataBreaks(w, w1, n);
    }
  }

  /** A read of the body that brought nothing. */
  lemma DataMissing(w: World, w1: World, outcome: Outcome)
    requires DataPhase(w) && w.c.transferred < SizeOf(w.c.expected) && Idle(w, w1) && outcome != Complete
    ensures Received(w, w1, outcome)
  {
    Quiet(w, w1);
  }

  lemma ReadMissing(w: World, count: nat)
    requires DataPhase(w) && 0 < count <= SizeOf(w.c.expected) - w.c.transferred
    requires SockRead(w, count).1.Error? || SockRead(w, count).1.n == 0
    ensures Received(w, ReadChunk(w, count).0, ReadChunk(w, count).1)
  {
    ReadsNothing(w, count);
    var (w1, outcome) := ReadChunk(w, count);
    assert w1 == SockRead(w, count).0 && outcome != Complete;
    DataMissing(w, w1, outcome);
  }

  /** What a read of the body brought. */
  lemma DataCame(w: World, count: nat)
    requires DataPhase(w) && 0 < count <= SizeOf(w.c.expected) - w.c.transferred
    requires SockRead(w, count).1.Count? && SockRead(w, count).1.n > 0
    ensures ChunkRead(w, SockRead(w, count).0, SockRead(w, count).1.n)
  {
  }

  lemma ReadChunkOk(w: World, count: nat)
    requires DataPhase(w) && 0 < count <= SizeOf(w.c.expected) - w.c.transferred
    ensures Received(w, ReadChunk(w, count).0, ReadChunk(w, count).1)
  {
    var (w1, r) := SockRead(w, count);
    if r.Error? || r.n == 0 {
      ReadMissing(w, count);
    } else {
      DataCame(w, count);
      DataStored(w, w1, r.n);
    }
  }

  /** One iteration of the body loop. */
  lemma FileStepOk(w: World)
    requires DataPhase(w) && w.c.transferred < SizeOf(w.c.expected)
    ensures Received(w, FileStep(w).0, FileStep(w).1)
  {
    var count := Min(BUFFER_SIZE, SizeOf(w.c.expected) - w.c.transferred);
    assert FileStep(w) == ReadChunk(w, count);
    ReadChunkOk(w, count);
  }

  /** The body loop, whatever the sizes of the chunks. */
  lemma FillingFile(w: World)
    requires DataPhase(w)
    ensures Received(w, FillFile(w).0, FillFile(w).1)
    ensures FillFile(w).1 != More
    decreases SizeOf(w.c.expected) - w.c.transferred, |w.sched|
  {
    if w.c.transferred < SizeOf(w.c.expected) {
      FileStepOk(w);
      var (w1, outcome) := FileStep(w);
      if outcome == More {
        FillingFile(w1);
        ReceivedAfter(w, w1, FillFile(w).0, FillFile(w).1);
      }
    } else {
      Quiet(w, w);
    }
  }

  /** Closing a complete upload and listing it keeps the shared invariant. */
  lemma UploadListed(w: World)
    requires DataPhase(w)
    ensures
      var closed := CloseFd(w.sh, w.c.fileFd);
      var sh' := Commit(closed, w.c.id, w.c.filename, Ino(w.sh, w.c.fileFd), Body(w.c));
      SharedInv(sh') && Steady(w.sh, sh', Mine(w.c), {w.c.fd}) && sh'.polls == w.sh.polls
      && sh'.fds == w.sh.fds - {w.c.fileFd} && w.sh.trace <= sh'.trace
  {
    var closed := CloseFd(w.sh, w.c.fileFd);
    var file := w.sh.fds[w.c.fileFd].ino;
    assert Uploading(w.sh.fds, w.c.filename);
    ClosingFd(w.sh, w.c.fileFd);
    SteadyWiden(w.sh, closed, {w.c.fileFd}, {}, {w.c.fd});
    ClosingWriter(w.sh, w.c.fileFd);
    Committing(closed, w.c.id, w.c.filename, file, Body(w.c));
    var sh' := Commit(closed, w.c.id, w.c.filename, file, Body(w.c));
    SteadyWiden(closed, sh', {}, {}, {w.c.fd});
    assert {w.c.fileFd} + {w.c.fd} == Mine(w.c);
    assert {} + {w.c.fd} == {w.c.fd};
    SteadyTrans(w.sh, closed, sh', Mine(w.c), {w.c.fd}, {w.c.fd});
  }

  /** The state in which a complete upload is answered OK. */
  ghost function Listing(w: World, w1: World): World {
    w1.(c := w1.c.(op := |w1.sh.trace|),
        sh := Commit(w1.sh, w1.c.id, w1.c.filename, Ino(w.sh, w.c.fileFd), Body(w.c)))
  }

  lemma UploadAnswerable(w: World, w1: World)
    requires DataPhase(w) && w.c.transferred == SizeOf(w.c.expected)
    requires w1.c == w.c.(fileFd := -1) && w1.sh == CloseFd(w.sh, w.c.fileFd) && w1.alive
    ensures Answerable(Listing(w, w1), Success) && Reaches(w, Listing(w, w1))
    ensures SameRequest(w.c, Listing(w, w1).c)
  {
    UploadListed(w);
    WholeBody(w.c, w.sh.trace);
  }

  lemma WholeBody(c: Conn, trace: seq<Event>)
    requires ConnOk(c, trace) && c.state == RecvPutData && c.transferred == SizeOf(c.expected)
    ensures Announced(c, Body(c))
  {
    assert |Body(c)| == c.transferred;
  }

  /** A complete upload: an extra byte that has arrived spoils it, otherwise it is listed. */
  lemma FinishingUpload(w: World)
    requires DataPhase(w) && w.c.transferred == SizeOf(w.c.expected) && CourseOf(w.calls) == Running
    ensures Served(w, FinishUpload(w))
  {
    var (w1, r) := SockRead(CloseOwn(w), 1);
    ProbeTells(w);
    if r.Count? && r.n > 0 {
      UploadSpoilt(w, w1, r.n);
    } else {
      UploadAnswerable(w, w1);
      Responding(Listing(w, w1), Success);
      ServedAfter(w, Listing(w, w1), FinishUpload(w));
    }
  }

  lemma UploadSpoilt(w: World, w1: World, n: nat)
    requires DataPhase(w) && SockRead(CloseOwn(w), 1) == (w1, Count(n)) && n > 0 && CourseOf(w1.calls).Failed?
    ensures Served(w, Reject(w1, Ino(w.sh, w.c.fileFd)))
  {
    ClosingOwn(w);
    ClosingWriter(w.sh, w.c.fileFd);
    Quiet(CloseOwn(w), w1);
    Chain(w, CloseOwn(w), w1);
    UploadFails(w1, Ino(w.sh, w.c.fileFd));
    ServedAfter(w, w1, Reject(w1, Ino(w.sh, w.c.fileFd)));
  }

  /** `recv_put_data`. */
  lemma ReceivingData(w: World)
    requires DataPhase(w) && CourseOf(w.calls) == Running
    ensures Served(w, RecvData(w))
  {
    FillingFile(w);
    FillFileTells(w);
    var (w1, outcome) := FillFile(w);
    match outcome
    case Blocked =>
    case Broken =>
      UploadAborts(w1);
      ServedAfter(w, w1, RecvData(w));
    case Complete =>
      FinishingUpload(w1);
      ServedAfter(w, w1, RecvData(w));
  }

  /** What an iteration of the size loop, or the whole loop, leaves behind. */
  ghost predicate Sized(w: World, w1: World, outcome: Outcome) {
    && SizePhase(w1) && Reaches(w, w1) && SameRequest(w.c, w1.c)
    && (outcome == Complete ==> w1.c.transferred == SIZE_BYTES)
    && (outcome == Blocked ==> w1.c.transferred < SIZE_BYTES)
  }

  lemma SizedAfter(w0: World, w1: World, w2: World, outcome: Outcome)
    requires Reaches(w0, w1) && SameRequest(w0.c, w1.c) && Sized(w1, w2, outcome)
    ensures Sized(w0, w2, outcome)
  {
    Chain(w0, w1, w2);
  }

  lemma SizeMissing(w: World, w1: World, outcome: Outcome)
    requires SizePhase(w) && w.c.transferred < SIZE_BYTES && Idle(w, w1) && outcome != Complete
    ensures Sized(w, w1, outcome)
  {
    Quiet(w, w1);
  }

  lemma SizeStepOk(w: World)
    requires SizePhase(w) && w.c.transferred < SIZE_BYTES
    ensures Sized(w, SizeStep(w).0, SizeStep(w).1)
  {
    var (w1, r) := SockRead(w, SIZE_BYTES - w.c.transferred);
    if r.Error? || r.n == 0 {
      ReadsNothing(w, SIZE_BYTES - w.c.transferred);
      SizeMissing(w, w1, SizeStep(w).1);
    } else {
      SizeGrows(w, w1, r.n);
    }
  }

  /** The size loop, whatever the sizes of the reads. */
  lemma FillingSize(w: World)
    requires SizePhase(w)
    ensures Sized(w, FillSize(w).0, FillSize(w).1)
    ensures FillSize(w).1 != More
    decreases SIZE_BYTES - w.c.transferred, |w.sched|
  {
    if w.c.transferred < SIZE_BYTES {
      SizeStepOk(w);
      var (w1, outcome) := SizeStep(w);
      if outcome == More {
        FillingSize(w1);
        SizedAfter(w, w1, FillSize(w).0, FillSize(w).1);
      }
    } else {
      Quiet(w, w);
    }
  }

  /** Eight bytes are there: the file is opened and the body loop follows. */
  lemma OpeningUpload(w: World)
    requires SizePhase(w) && w.c.transferred == SIZE_BYTES && CourseOf(w.calls) == Running
    ensures Served(w, OpenUpload(w))
  {
    var (w1, fd) := OpenForPut(w.(c := w.c.(transferred := 0)));
    OpenTells(w.(c := w.c.(transferred := 0)));
    if fd == -1 {
      var w2 := w1.(c := w1.c.(fileFd := -1));
      Quiet(w, w2);
      NoneOpened(w2.sh);
      UploadFails(w2, -1);
      ServedAfter(w, w2, OpenUpload(w));
    } else {
      var w2 := w1.(c := w1.c.(fileFd := fd, state := RecvPutData));
      SizeComplete(w, w1, fd);
      ReceivingData(w2);
      ServedAfter(w, w2, OpenUpload(w));
    }
  }

  lemma SizeFails(w: World, w1: World)
    requires SizePhase(w1) && Reaches(w, w1) && SameRequest(w.c, w1.c) && CourseOf(w1.calls).Failed?
    ensures Served(w, Reject(w1, -1))
  {
    NoneOpened(w1.sh);
    UploadFails(w1, -1);
    ServedAfter(w, w1, Reject(w1, -1));
  }

  /** `recv_put_size`. */
  lemma ReceivingSize(w: World)
    requires SizePhase(w) && CourseOf(w.calls) == Running
    ensures Served(w, RecvSize(w))
  {
    FillingSize(w);
    FillSizeTells(w);
    var (w1, outcome) := FillSize(w);
    match outcome
    case Blocked =>
    case Broken =>
      SizeFails(w, w1);
    case Complete =>
      OpeningUpload(w1);
      ServedAfter(w, w1, OpenUpload(w1));
  }

  // -------- GET --------

  /** A request whose file has not been looked at. */
  ghost predicate Requesting(w: World, v: Verb) {
    && w.alive && SharedInv(w.sh) && Linked(w.c, w.sh) && RequestBase(w.c) && Asks(w.c, v) && w.c.fileFd == -1
  }

  lemma Refusing(w: World, v: Verb)
    requires Requesting(w, v) && (v == GET || v == DELETE)
    requires LegalNext(Replay(w.sh.trace), Refused(w.c.id, v, w.c.filename, Denied(w.calls)))
    ensures Served(w, Refuse(w, v))
  {
    var e := Refused(w.c.id, v, w.c.filename, Denied(w.calls));
    var w1 := LogOp(w, e);
    Noting(w.sh, e);
    SteadyWiden(w.sh, w1.sh, {}, {}, Mine(w.c));
    Responding(w1, Failure(NoSuchFile));
    ServedAfter(w, w1, Refuse(w, v));
  }

  /** A name that is not on disk, or not listed, may be refused; one that is on disk if the system denied it. */
  lemma MayRefuse(sh: Shared, id: nat, v: Verb, name: bytes, denied: Option<Call>)
    requires SharedInv(sh)
    requires
      match denied
      case Some(call) => Denies(call) && name in sh.dir
      case None => name !in sh.dir || (v == DELETE && name !in sh.list)
    ensures LegalNext(Replay(sh.trace), Refused(id, v, name, denied))
  {
    if name !in Replay(sh.trace).dirty {
      assert CleanName(sh, Replay(sh.trace), name);
    }
  }

  /** The file is open and nothing else has changed. */
  lemma GetOpened(w: World, w1: World, fd: int)
    requires Requesting(w, GET) && OpenForGet(w) == (w1, fd) && fd != -1
    ensures
      var w2 := w1.(c := w1.c.(fileFd := fd));
      && Reaches(w, w2) && OpenedFor(w.c, w2, fd)
  {
    OpeningForGet(w.sh, w.c.filename, fd);
    SteadyWiden(w.sh, w1.sh, {}, {fd}, {w.c.fd});
    assert {fd} + {w.c.fd} == {w.c.fd} + {fd};
    assert fd in FileFds(w1.sh.fds);
  }

  /** The connection `c` has just opened the file it asked for. */
  ghost predicate OpenedFor(c: Conn, w: World, fd: int) {
    && w.alive && SharedInv(w.sh) && Linked(w.c, w.sh) && w.c == c.(fileFd := fd)
    && fd in FileFds(w.sh.fds) && fd != c.fd && fd != -1 && c.filename in w.sh.dir
    && w.sh.fds[fd] == File(c.filename, w.sh.dir[c.filename], false)
  }

  /** The size is known: the reply is OK, and the history records what the file held. */
  lemma GetFetched(w: World, c: Conn, fd: int)
    requires OpenedFor(c, w, fd) && RequestBase(w.c) && Asks(w.c, GET)
    ensures Answerable(Announce(w), Success) && Reaches(w, Announce(w)) && SameRequest(w.c, Announce(w).c)
  {
    var ino := w.sh.dir[w.c.filename];
    var e := Fetched(w.c.id, w.c.filename, ino, Content(w.sh, ino), Solid(w.sh, ino));
    if w.c.filename !in Replay(w.sh.trace).dirty {
      assert CleanName(w.sh, Replay(w.sh.trace), w.c.filename);
    }
    Noting(w.sh, e);
    ReplayNext(w.sh.trace, e);
    SteadyWiden(w.sh, Log(w.sh, e), {}, {}, Mine(w.c));
    FetchedReads(w, ino, e);
  }

  lemma FetchedReads(w: World, ino: nat, e: Event)
    requires w.c.fileFd in FileFds(w.sh.fds) && w.c.fileFd != w.c.fd
    requires w.sh.fds[w.c.fileFd] == File(w.c.filename, ino, false)
    requires e == Fetched(w.c.id, w.c.filename, ino, Content(w.sh, ino), Solid(w.sh, ino))
    ensures ReadsFile(w.c.(snapshot := e.body, op := |w.sh.trace|), Log(w.sh, e))
  {
    ReplayNext(w.sh.trace, e);
  }

  lemma GetUnstattable(w: World, w2: World, w3: World, fd: int)
    requires Requesting(w, GET) && Reaches(w, w2) && Idle(w2, w3) && OpenedFor(w.c, w2, fd)
    requires Denied(CloseOwn(w3).calls) == Some(FileStat(false))
    ensures Served(w, Refuse(CloseOwn(w3), GET))
  {
    Quiet(w2, w3);
    Chain(w, w2, w3);
    ClosingOwn(w3);
    Chain(w, w3, CloseOwn(w3));
    MayRefuse(CloseOwn(w3).sh, w.c.id, GET, w.c.filename, Some(FileStat(false)));
    Refusing(CloseOwn(w3), GET);
    ServedAfter(w, CloseOwn(w3), Refuse(CloseOwn(w3), GET));
  }

  /** `start_send_get`. */
  lemma StartingGet(w: World)
    requires Requesting(w, GET) && Denied(w.calls) == None
    ensures Served(w, StartGet(w))
  {
    var (w1, fd) := OpenForGet(w);
    var w2 := w1.(c := w1.c.(fileFd := fd));
    OpenDenies(w);
    if fd == -1 {
      assert Idle(w, w2);
      Quiet(w, w2);
      MayRefuse(w.sh, w.c.id, GET, w.c.filename, Denied(w2.calls));
      Refusing(w2, GET);
      ServedAfter(w, w2, StartGet(w));
    } else {
      GetOpened(w, w1, fd);
      StartingGetOpened(w, w2, fd);
    }
  }

  lemma StartingGetOpened(w: World, w2: World, fd: int)
    requires Requesting(w, GET) && Reaches(w, w2) && OpenedFor(w.c, w2, fd) && Denied(w2.calls) == None
    requires OpenForGet(w).1 == fd && w2 == OpenForGet(w).0.(c := OpenForGet(w).0.c.(fileFd := fd))
    ensures Served(w, StartGet(w))
  {
    var (w3, ok) := Stat(w2);
    assert Idle(w2, w3);
    if !ok {
      StatDenies(w2);
      GetUnstattable(w, w2, w3, fd);
    } else {
      Quiet(w2, w3);
      GetFetched(w3, w.c, fd);
      Chain(w, w2, w3);
      Chain(w, w3, Announce(w3));
      Responding(Announce(w3), Success);
      ServedAfter(w, Announce(w3), StartGet(w));
    }
  }

  // -------- DELETE --------

  /** `delete_request`. */
  lemma DeletingRequest(w: World)
    requires Requesting(w, DELETE) && Denied(w.calls) == None
    ensures Served(w, Delete(w))
  {
    if w.c.filename !in w.sh.list {
      MayRefuse(w.sh, w.c.id, DELETE, w.c.filename, None);
      Refusing(w, DELETE);
    } else {
      var (w1, ok) := Unlink(w);
      assert Idle(w, w1);
      if !ok {
        Quiet(w, w1);
        UnlinkDenies(w);
        MayRefuse(w.sh, w.c.id, DELETE, w.c.filename, Denied(w1.calls));
        Refusing(w1, DELETE);
        ServedAfter(w, w1, Delete(w));
      } else {
        DeleteSucceeds(w, w1);
      }
    }
  }

  lemma DeleteSucceeds(w: World, w1: World)
    requires Requesting(w, DELETE) && Idle(w, w1) && w.c.filename in w.sh.list && w.c.filename in w.sh.dir
    ensures
      var w2 := w1.(c := w1.c.(op := |w1.sh.trace|), sh := DeleteName(w1.sh, w1.c.id, w1.c.filename));
      Served(w, Respond(w2, Success))
  {
    var w2 := w1.(c := w1.c.(op := |w1.sh.trace|), sh := DeleteName(w1.sh, w1.c.id, w1.c.filename));
    Deleting(w.sh, w.c.id, w.c.filename);
    SteadyWiden(w.sh, w2.sh, {}, {}, Mine(w.c));
    Responding(w2, Success);
    ServedAfter(w, w2, Respond(w2, Success));
  }
}
