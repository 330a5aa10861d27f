/** The payloads, the request line, and one dispatched event as a whole. */
module DispatchProofs {
  import opened Bytes
  import opened Protocol
  import opened Calls
  import opened History
  import opened Kernel
  import opened Handlers
  import opened SharedInvariant
  import opened ConnInvariant
  import opened HandlerProofs

  /** The socket would block: nothing has changed. */
  lemma Waits(w: World, w1: World)
    requires w.alive && SharedInv(w.sh) && Live(w.c, w.sh) && Idle(w, w1)
    ensures Served(w, w1)
  {
    Quiet(w, w1);
  }

  // -------- LIST payload --------

  /** `send_list_data`. */
  lemma SendingList(w: World)
    requires w.alive && SharedInv(w.sh) && Live(w.c, w.sh) && w.c.state == SendListData
    ensures Served(w, SendList(w))
  {
    var (w1, r) := SockWrite(w, Drop(w.c.listBuf.value, w.c.listSent));
    if r.Error? {
      WriteStops(w, w1, r);
    } else {
      ListGrows(w, w1, r.n);
    }
  }

  /** A write that moved nothing: the connection waits or is closed. */
  lemma WriteStops(w: World, w1: World, r: IoResult)
    requires w.alive && SharedInv(w.sh) && Live(w.c, w.sh) && r.Error? && Idle(w, w1)
    ensures if r.errno == EAGAIN then Served(w, w1) else Served(w, CloseAndCleanup(w1))
  {
    if r.errno == EAGAIN {
      Waits(w, w1);
    } else {
      Breaks(w, w1);
    }
  }

  lemma ListSent(c: Conn, c2: Conn, n: nat, trace: seq<Event>)
    requires ConnOk(c, trace) && c.state == SendListData && c.listSent + n <= |c.listBuf.value|
    requires c2 == c.(listSent := c.listSent + n,
                      wire := c.wire.(sent := c.wire.sent + Drop(c.listBuf.value, c.listSent)[..n]))
    ensures ConnOk(c2, trace) && (c2.listSent == |c.listBuf.value| ==> ConnOk(c2.(state := Done), trace))
  {
    assert c2.wire.sent == OK_LINE + c.listBuf.value[..c2.listSent];
    assert c.listBuf.value[..|c.listBuf.value|] == c.listBuf.value;
  }

  lemma ListGrows(w: World, w1: World, n: nat)
    requires w.alive && SharedInv(w.sh) && Live(w.c, w.sh) && w.c.state == SendListData
    requires SockWrite(w, Drop(w.c.listBuf.value, w.c.listSent)) == (w1, Count(n))
    ensures
      var w2 := w1.(c := w1.c.(listSent := w1.c.listSent + n));
      if w2.c.listSent == |w.c.listBuf.value| then Served(w, Finish(w2)) else Served(w, w2)
  {
    var w2 := w1.(c := w1.c.(listSent := w1.c.listSent + n));
    Quiet(w, w2);
    ListSent(w.c, w2.c, n, w.sh.trace);
    if w2.c.listSent == |w.c.listBuf.value| {
      Finishing(w2);
      ServedAfter(w, w2, Finish(w2));
    }
  }

  // -------- GET payload --------

  /** The connection is about to send the rest of its size field. */
  lemma SizePrepared(w: World)
    requires w.alive && SharedInv(w.sh) && Live(w.c, w.sh) && w.c.state == SendGetSize
    ensures
      var w0 := SizeReady(w);
      Live(w0.c, w0.sh) && Reaches(w, w0) && w0.c.resp == SizeBytes(w0.c.fileSize) && SameRequest(w.c, w0.c)
      && w0.alive && w0.c.state == SendGetSize
  {
    Quiet(w, SizeReady(w));
  }

  /** More of the size is out. */
  lemma SizeBytesSent(c: Conn, c2: Conn, n: nat, trace: seq<Event>)
    requires ConnOk(c, trace) && c.state == SendGetSize && c.resp == SizeBytes(c.fileSize) && c.respSent + n <= |c.resp|
    requires c2 == c.(respSent := c.respSent + n, wire := c.wire.(sent := c.wire.sent + Drop(c.resp, c.respSent)[..n]))
    ensures ConnOk(c2, trace) && (c2.respSent == |c2.resp| ==> c2.wire.sent == OK_LINE + c2.resp)
  {
    assert c2.wire.sent == OK_LINE + c.resp[..c2.respSent];
  }

  lemma SizeSent(w: World, w1: World, n: nat)
    requires w.alive && SharedInv(w.sh) && Live(w.c, w.sh) && w.c.state == SendGetSize
    requires w.c.resp == SizeBytes(w.c.fileSize)
    requires SockWrite(w, Drop(w.c.resp, w.c.respSent)) == (w1, Count(n))
    ensures Served(w, SizeMoved(w1, n))
  {
    var w2 := w1.(c := w1.c.(respSent := w1.c.respSent + n));
    Quiet(w, w2);
    SizeBytesSent(w.c, w2.c, n, w.sh.trace);
    if w2.c.respSent == |w2.c.resp| {
      var w3 := w2.(c := w2.c.(state := SendGetData, resp := [], respSent := 0));
      SizeFieldSent(w, w3);
      BodyNext(w, w2, w3);
    }
  }

  lemma BodyNext(w: World, w2: World, w3: World)
    requires Reaches(w, w2) && w2.alive && w2.c.fd in w2.sh.polls
    requires w3 == w2.(c := w2.c.(state := SendGetData, resp := [], respSent := 0))
    ensures Reaches(w, Arm(w3, Write))
  {
    Quiet(w2, w3);
    Chain(w, w2, w3);
    Arming(w3, Write);
    Chain(w, w3, Arm(w3, Write));
  }

  /** The size field is out: the body is next. */
  lemma SizeFieldSent(w: World, w3: World)
    requires w.alive && Live(w.c, w.sh) && w.c.state == SendGetSize && w.c.resp == SizeBytes(w.c.fileSize)
    requires w3.c == w.c.(state := SendGetData, resp := [], respSent := 0,
                          wire := w.c.wire.(sent := OK_LINE + w.c.resp)) && w3.sh == w.sh
    ensures Live(Arm(w3, Write).c, Arm(w3, Write).sh)
  {
  }

  lemma SizeStops(w: World)
    requires w.alive && SharedInv(w.sh) && Live(w.c, w.sh) && w.c.state == SendGetSize
    requires SockWrite(w, Drop(w.c.resp, w.c.respSent)).1.Error?
    ensures Served(w, WriteSize(w))
  {
    var (w1, r) := SockWrite(w, Drop(w.c.resp, w.c.respSent));
    WriteStops(w, w1, r);
  }

  lemma WritingSize(w: World)
    requires w.alive && SharedInv(w.sh) && Live(w.c, w.sh) && w.c.state == SendGetSize
    requires w.c.resp == SizeBytes(w.c.fileSize)
    ensures Served(w, WriteSize(w))
  {
    var (w1, r) := SockWrite(w, Drop(w.c.resp, w.c.respSent));
    if r.Error? {
      SizeStops(w);
    } else {
      SizeSent(w, w1, r.n);
    }
  }

  /** `send_get_size`. */
  lemma SendingSize(w: World)
    requires w.alive && SharedInv(w.sh) && Live(w.c, w.sh) && w.c.state == SendGetSize
    ensures Served(w, SendSize(w))
  {
    SizePrepared(w);
    WritingSize(SizeReady(w));
    ServedAfter(w, SizeReady(w), SendSize(w));
  }

  /** The body of a GET is being sent. */
  ghost predicate BodyPhase(w: World) {
    && w.alive && SharedInv(w.sh) && Linked(w.c, w.sh) && ConnOk(w.c, w.sh.trace) && FileOk(w.c, w.sh)
    && w.c.state == SendGetData && w.sh.polls[w.c.fd] == Write && w.c.listBuf.None?
  }

  /** The bytes `pread` returns: at most those asked for, from that offset of the file. */
  lemma PreadFacts(w: World, count: nat, off: nat)
    requires w.c.fileFd in FileFds(w.sh.fds)
    ensures
      var (w1, chunk) := Pread(w, count, off);
      Idle(w, w1) && w1.sig == w.sig && |chunk| <= count
      && chunk <= Drop(Content(w.sh, w.sh.fds[w.c.fileFd].ino), off)
  {
  }

  /** The connection after `piece` of its file went out. */
  function BodyMoved(c: Conn, piece: bytes): Conn {
    c.(wire := c.wire.(sent := c.wire.sent + piece), transferred := c.transferred + |piece|)
  }

  lemma BodyMovedOk(c: Conn, piece: bytes, trace: seq<Event>)
    requires ConnOk(c, trace) && c.state == SendGetData && c.transferred + |piece| <= c.fileSize
    ensures ConnOk(BodyMoved(c, piece), trace)
  {
    assert (c.wire.sent + piece)[..PREFIX] == c.wire.sent[..PREFIX];
  }

  lemma BodyMovedSnapshot(c: Conn, piece: bytes, sh: Shared)
    requires c.state == SendGetData && ReadsFile(c, sh) && SendsSnapshot(c, sh.trace)
    requires c.transferred + |piece| <= |c.snapshot| && |c.wire.sent| == PREFIX + c.transferred
    requires piece <= Drop(Content(sh, sh.fds[c.fileFd].ino), c.transferred)
    ensures SendsSnapshot(BodyMoved(c, piece), sh.trace)
  {
    var ino := sh.fds[c.fileFd].ino;
    if Untouched(sh.trace, c.op) {
      SnapshotContinues(c.snapshot, Content(sh, ino), c.transferred, piece, |piece|);
      assert SentBody(BodyMoved(c, piece)) == SentBody(c) + piece;
    }
  }

  /** A write that moved a piece of the file. */
  lemma BodySent(w: World, w3: World, piece: bytes)
    requires BodyPhase(w) && w.c.transferred + |piece| <= w.c.fileSize
    requires piece <= Drop(Content(w.sh, w.sh.fds[w.c.fileFd].ino), w.c.transferred)
    requires w3.c == BodyMoved(w.c, piece) && w3.sh == w.sh && w3.alive
    ensures BodyPhase(w3) && Reaches(w, w3) && SameRequest(w.c, w3.c)
  {
    BodyMovedOk(w.c, piece, w.sh.trace);
    BodyMovedSnapshot(w.c, piece, w.sh);
    Quiet(w, w3);
  }

  /** What is read behind the part already sent continues the snapshot. */
  lemma SnapshotContinues(snapshot: bytes, file: bytes, off: nat, chunk: bytes, n: nat)
    requires snapshot <= file && off + |chunk| <= |snapshot| && n <= |chunk|
    requires chunk <= file[off..]
    ensures Take(snapshot, off) + chunk[..n] == Take(snapshot, off + n)
  {
    assert chunk[..n] == file[off..][..n] == file[off..off + n] == snapshot[off..off + n];
  }

  /** What an iteration of the body loop, or the whole loop, leaves behind. */
  ghost predicate Drained(w: World, w1: World, outcome: Outcome) {
    && BodyPhase(w1) && Reaches(w, w1) && SameRequest(w.c, w1.c)
    && (outcome == Complete ==> w1.c.transferred == w1.c.fileSize)
    && (outcome == Blocked ==> w1.c.transferred < w1.c.fileSize)
  }

  lemma DrainedAfter(w0: World, w1: World, w2: World, outcome: Outcome)
    requires Reaches(w0, w1) && SameRequest(w0.c, w1.c) && Drained(w1, w2, outcome)
    ensures Drained(w0, w2, outcome)
  {
    Chain(w0, w1, w2);
  }

  lemma BodyStays(w: World, w1: World, outcome: Outcome)
    requires BodyPhase(w) && Idle(w, w1) && w.c.transferred < w.c.fileSize && outcome != Complete
    ensures Drained(w, w1, outcome)
  {
    Quiet(w, w1);
  }

  lemma BodyStepStays(w: World)
    requires BodyPhase(w) && w.c.transferred < w.c.fileSize
    requires
      var (w1, chunk) := Pread(w, Min(BUFFER_SIZE, w.c.fileSize - w.c.transferred), w.c.transferred);
      chunk == [] || SockWrite(w1, chunk).1.Error?
    ensures Drained(w, BodyStep(w).0, BodyStep(w).1)
  {
    var (w1, outcome) := BodyStep(w);
    assert Idle(w, w1) && (outcome == Broken || outcome == Blocked);
    BodyStays(w, w1, outcome);
  }

  lemma BodyStepSends(w: World, w1: World, chunk: bytes, n: nat)
    requires BodyPhase(w) && w.c.transferred < w.c.fileSize && chunk != []
    requires Pread(w, Min(BUFFER_SIZE, w.c.fileSize - w.c.transferred), w.c.transferred) == (w1, chunk)
    requires SockWrite(w1, chunk).1 == Count(n)
    ensures Drained(w, BodyStep(w).0, BodyStep(w).1)
  {
    PreadFacts(w, Min(BUFFER_SIZE, w.c.fileSize - w.c.transferred), w.c.transferred);
    assert n <= |chunk|;
    assert BodyStep(w).0.c == BodyMoved(w.c, chunk[..n]);
    BodySent(w, BodyStep(w).0, chunk[..n]);
  }

  /** One iteration of the body loop. */
  lemma BodyStepOk(w: World)
    requires BodyPhase(w) && w.c.transferred < w.c.fileSize
    ensures Drained(w, BodyStep(w).0, BodyStep(w).1)
  {
    var (w1, chunk) := Pread(w, Min(BUFFER_SIZE, w.c.fileSize - w.c.transferred), w.c.transferred);
    if chunk == [] || SockWrite(w1, chunk).1.Error? {
      BodyStepStays(w);
    } else {
      BodyStepSends(w, w1, chunk, SockWrite(w1, chunk).1.n);
    }
  }

  /** The body loop, whatever the sizes of the reads and writes. */
  lemma DrainingFile(w: World)
    requires BodyPhase(w)
    ensures Drained(w, DrainFile(w).0, DrainFile(w).1)
    ensures DrainFile(w).1 != More
    decreases w.c.fileSize - w.c.transferred
  {
    if w.c.transferred < w.c.fileSize {
      BodyStepOk(w);
      var (w1, outcome) := BodyStep(w);
      if outcome == More {
        DrainingFile(w1);
        DrainedAfter(w, w1, DrainFile(w).0, DrainFile(w).1);
      }
    } else {
      Quiet(w, w);
    }
  }

  lemma BodyWaits(w: World)
    requires BodyPhase(w) && w.c.transferred < w.c.fileSize
    ensures Live(w.c, w.sh)
  {
  }

  lemma BodyBreaks(w: World)
    requires BodyPhase(w)
    ensures Served(w, CloseAndCleanup(w))
  {
    Breaks(w, w);
  }

  lemma BodyDone(w: World)
    requires BodyPhase(w) && w.c.transferred == w.c.fileSize
    ensures Served(w, Finish(w))
  {
    Finishing(w);
  }

  /** `send_get_data`. */
  lemma SendingData(w: World)
    requires w.alive && SharedInv(w.sh) && Live(w.c, w.sh) && w.c.state == SendGetData
    ensures Served(w, SendData(w))
  {
    DrainingFile(w);
    var (w1, outcome) := DrainFile(w);
    match outcome
    case Blocked =>
      BodyWaits(w1);
    case Broken =>
      BodyBreaks(w1);
      ServedAfter(w, w1, SendData(w));
    case Complete =>
      BodyDone(w1);
      ServedAfter(w, w1, SendData(w));
  }
}
