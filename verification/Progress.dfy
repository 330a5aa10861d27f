/** The progress every event makes. */
module Progress {
  import opened Bytes
  import opened Protocol
  import opened Calls
  import opened History
  import opened Kernel
  import opened Handlers
  import opened System
  import opened ConnInvariant
  import opened HandlerProofs
  import opened DispatchProofs
  import opened RequestProofs
  import opened RunProofs
  import opened Liveness

  /** The phases of a connection, in the order it can pass through them. */
  function Rank(state: State): nat {
    match state
    case RecvHeader => 7
    case RecvPutSize => 6
    case RecvPutData => 5
    case SendOk => 4
    case SendGetSize => 3
    case SendGetData => 2
    case SendListData => 2
    case SendError => 1
    case Done => 0
  }

  /** The bytes left in the phase. */
  function Remaining(c: Conn): int {
    match c.state
    case RecvHeader => HEADER_MAX - 1 - |c.header|
    case RecvPutSize => SIZE_BYTES - c.transferred
    case RecvPutData => SizeOf(c.expected) - c.transferred
    case SendOk => |c.resp| - c.respSent
    case SendGetSize => SIZE_BYTES - c.respSent
    case SendGetData => c.fileSize - c.transferred
    case SendListData => |c.listBuf.GetOr([])| - c.listSent
    case SendError => |c.resp| - c.respSent
    case Done => 0
  }

  predicate Lower(c': Conn, c: Conn) {
    Rank(c'.state) < Rank(c.state) || (Rank(c'.state) == Rank(c.state) && Remaining(c') < Remaining(c))
  }

  /** A call that moved nothing: it would have blocked, was interrupted, or wrote no byte. Looking at the file that is
      being sent moves nothing either. */
  predicate Fruitless(call: Call) {
    match call
    case SocketRead(_, r) => r == Error(EAGAIN) || r == Error(EINTR)
    case SocketWrite(_, r) => r == Error(EAGAIN) || r == Count(0)
    case FileRead(_, n) => n > 0
    case _ => false
  }

  /** All calls made from `w` to `w'` moved nothing. */
  ghost predicate OnlyFruitless(w: World, w': World) {
    w.calls <= w'.calls && forall i :: |w.calls| <= i < |w'.calls| ==> Fruitless(w'.calls[i])
  }

  /** A loop was left as it was entered. */
  ghost predicate Waited(w: World, w': World) {
    Idle(w, w') && OnlyFruitless(w, w')
  }

  /** Nothing was read, written or changed but the registration, for all calls would have blocked, were interrupted or
      wrote no byte. */
  ghost predicate Stalled(w: World, w': World) {
    && w'.c.wire == w.c.wire && Rank(w'.c.state) == Rank(w.c.state) && Remaining(w'.c) == Remaining(w.c)
    && w'.sh == w.sh.(polls := w'.sh.polls) && OnlyFruitless(w, w')
  }

  /** The connection ended, moved down, or found nothing to do. */
  ghost predicate Progresses(w: World, w': World) {
    !w'.alive || Lower(w'.c, w.c) || Stalled(w, w')
  }

  lemma RespondRank(w: World, status: Status)
    ensures Respond(w, status).alive ==> Rank(Respond(w, status).c.state) <= if status.Success? then 4 else 1
    decreases if status.Success? then 4 else 1
  {
    WriteReplyRank(Prepared(w, status));
  }

  lemma WriteReplyRank(w: World)
    requires w.c.state == SendOk || w.c.state == SendError
    ensures WriteReply(w).alive ==>
      Rank(WriteReply(w).c.state) < Rank(w.c.state) ||
      (WriteReply(w).c.state == w.c.state && WriteReply(w).c.resp == w.c.resp &&
       (WriteReply(w).c.respSent > w.c.respSent || Stalled(w, WriteReply(w))))
    decreases if w.c.state == SendOk then 3 else 0, 1
  {
    var (w1, r) := SockWrite(w, Drop(w.c.resp, w.c.respSent));
    if r.Count? {
      var w2 := w1.(c := w1.c.(respSent := w.c.respSent + r.n));
      assert WriteReply(w) == ReplyMoved(w2);
      if r.n == 0 {
        assert w2.c.wire.sent == w.c.wire.sent;
      }
      ReplyMovedRank(w2);
    }
  }

  lemma ReplyMovedRank(w: World)
    requires w.c.state == SendOk || w.c.state == SendError
    ensures ReplyMoved(w).alive ==>
      Rank(ReplyMoved(w).c.state) < Rank(w.c.state) ||
      (w.c.respSent != |w.c.resp| && ReplyMoved(w) == Arm(w, Write))
    decreases if w.c.state == SendOk then 3 else 0, 0
  {
    var (w1, memory) := Alloc(w, |ListBuffer(w.sh.list)|);
    if w.c.respSent == |w.c.resp| && w.c.state == SendOk && w.c.verb == LIST && !memory {
      RespondRank(w1.(c := w1.c.(oom := true)), Failure(BadRequest));
    }
  }

  lemma {:induction false} FillSizeMoves(w: World)
    ensures FillSize(w).1 == Blocked ==>
      FillSize(w).0.c.transferred > w.c.transferred || Waited(w, FillSize(w).0)
    ensures FillSize(w).0.c.transferred >= w.c.transferred
    decreases SIZE_BYTES - w.c.transferred, |w.sched|
  {
    if w.c.transferred < SIZE_BYTES && SizeStep(w).1 == More {
      FillSizeMoves(SizeStep(w).0);
    }
  }

  lemma {:induction false} FillFileMoves(w: World)
    ensures FillFile(w).0.c.expected == w.c.expected && FillFile(w).0.c.transferred >= w.c.transferred
    ensures FillFile(w).1 == Blocked ==>
      FillFile(w).0.c.transferred > w.c.transferred || Waited(w, FillFile(w).0)
    decreases SizeOf(w.c.expected) - w.c.transferred, |w.sched|
  {
    if w.c.transferred < SizeOf(w.c.expected) {
      FileStepMoves(w);
      if FileStep(w).1 == More {
        FillFileMoves(FileStep(w).0);
      }
    }
  }

  lemma ReadChunkMoves(w: World, count: nat)
    ensures ReadChunk(w, count).0.c.transferred >= w.c.transferred
    ensures (ReadChunk(w, count).1 == Blocked || ReadChunk(w, count).1 == More) ==>
      ReadChunk(w, count).0.c.transferred > w.c.transferred || Waited(w, ReadChunk(w, count).0)
  {
    var (w1, r) := SockRead(w, count);
    if r.Error? {
      assert r.errno != EIO ==> Waited(w, w1);
    } else if r.n > 0 {
      PwriteKeeps(w1, JustRead(w1.c, r.n), w1.c.transferred);
      assert w1.c.transferred == w.c.transferred;
    }
  }

  lemma FileStepMoves(w: World)
    requires w.c.transferred < SizeOf(w.c.expected)
    ensures FileStep(w).0.c.transferred >= w.c.transferred
    ensures (FileStep(w).1 == Blocked || FileStep(w).1 == More) ==>
      FileStep(w).0.c.transferred > w.c.transferred || Waited(w, FileStep(w).0)
  {
    var count := Min(BUFFER_SIZE, SizeOf(w.c.expected) - w.c.transferred);
    assert FileStep(w) == ReadChunk(w, count);
    ReadChunkMoves(w, count);
  }

  lemma PwriteKeeps(w: World, d: bytes, off: nat)
    ensures Pwrite(w, d, off).0.c == w.c
  {
  }

  lemma {:induction false} DrainFileMoves(w: World)
    ensures DrainFile(w).0.c.fileSize == w.c.fileSize && DrainFile(w).0.c.transferred >= w.c.transferred
    ensures DrainFile(w).0.sh == w.sh
    ensures DrainFile(w).0.c.transferred == w.c.transferred && DrainFile(w).1 == Blocked ==>
      DrainFile(w).0.c.wire == w.c.wire && OnlyFruitless(w, DrainFile(w).0)
    decreases w.c.fileSize - w.c.transferred
  {
    if w.c.transferred < w.c.fileSize {
      BodyStepMoves(w);
      if BodyStep(w).1 == More {
        DrainFileMoves(BodyStep(w).0);
      }
    }
  }

  lemma ChunkMoves(w: World, w0: World, count: nat, chunk: bytes)
    requires w0.c == w.c && w0.sh == w.sh && chunk != []
    requires w0.calls == w.calls + [FileRead(count, |chunk|)]
    ensures
      var (w1, outcome) := ChunkSent(w0, chunk);
      && w1.sh == w.sh && w1.c.transferred >= w.c.transferred
      && (w1.c.transferred == w.c.transferred && outcome == Blocked ==> w1.c.wire == w.c.wire && OnlyFruitless(w, w1))
  {
    var (w1, r) := SockWrite(w0, chunk);
    if r.Count? && r.n == 0 {
      assert w0.c.wire.sent + chunk[..0] == w0.c.wire.sent;
    }
  }

  lemma BodyStepMoves(w: World)
    requires w.c.transferred < w.c.fileSize
    ensures BodyStep(w).0.sh == w.sh && BodyStep(w).0.c.transferred >= w.c.transferred
    ensures BodyStep(w).0.c.transferred == w.c.transferred && BodyStep(w).1 == Blocked ==>
      BodyStep(w).0.c.wire == w.c.wire && OnlyFruitless(w, BodyStep(w).0)
  {
    var count := Min(BUFFER_SIZE, w.c.fileSize - w.c.transferred);
    var (w1, chunk) := Pread(w, count, w.c.transferred);
    assert w1.calls == w.calls + [FileRead(count, |chunk|)];
    if chunk != [] {
      ChunkMoves(w, w1, count, chunk);
    }
  }

  lemma {:induction false} FillHeaderMoves(w: World)
    ensures |FillHeader(w).0.c.header| >= |w.c.header|
    ensures FillHeader(w).1 == Blocked ==>
      |FillHeader(w).0.c.header| > |w.c.header| || Waited(w, FillHeader(w).0)
    ensures FillHeader(w).1 == Complete ==> |FillHeader(w).0.c.header| > |w.c.header|
    decreases HEADER_MAX - |w.c.header|, |w.sched|
  {
    if |w.c.header| < HEADER_MAX - 1 {
      HeaderStepMoves(w);
      if HeaderStep(w).1 == More {
        FillHeaderMoves(HeaderStep(w).0);
      }
    }
  }

  lemma HeaderStepMoves(w: World)
    requires |w.c.header| < HEADER_MAX - 1
    ensures |HeaderStep(w).0.c.header| >= |w.c.header|
    ensures (HeaderStep(w).1 == Blocked || HeaderStep(w).1 == More) ==>
      |HeaderStep(w).0.c.header| > |w.c.header| || Waited(w, HeaderStep(w).0)
    ensures HeaderStep(w).1 == Complete ==> |HeaderStep(w).0.c.header| > |w.c.header|
  {
  }

  lemma RejectRank(w: World, file: int)
    ensures Reject(w, file).alive ==> Rank(Reject(w, file).c.state) <= 1
  {
    RespondRank(LogOp(w, Rejection(w, file)), Failure(BadFileSize));
  }

  lemma RecvDataProgresses(w: World)
    requires w.c.state == RecvPutData && FillFile(w).1 != More
    ensures Progresses(w, RecvData(w))
  {
    FillFileMoves(w);
    FillFilePendsState(w);
    var (w1, outcome) := FillFile(w);
    match outcome
    case Broken => RejectRank(CloseOwn(w1), Ino(w1.sh, w1.c.fileFd));
    case Complete => FinishRank(w1);
    case _ =>
  }

  lemma {:induction false} FillFilePendsState(w: World)
    ensures FillFile(w).0.c.state == w.c.state
    decreases SizeOf(w.c.expected) - w.c.transferred, |w.sched|
  {
    if w.c.transferred < SizeOf(w.c.expected) {
      FileStepPends(w);
      if FileStep(w).1 == More {
        FillFilePendsState(FileStep(w).0);
      }
    }
  }

  lemma FinishRank(w: World)
    ensures FinishUpload(w).alive ==> Rank(FinishUpload(w).c.state) <= 4
  {
    var (w1, r) := SockRead(CloseOwn(w), 1);
    if r.Count? && r.n > 0 {
      RejectRank(w1, Ino(w.sh, w.c.fileFd));
    } else {
      RespondRank(Listing(w, w1), Success);
    }
  }

  lemma RecvDataRank(w: World)
    requires w.c.state == RecvPutData && FillFile(w).1 != More
    ensures RecvData(w).alive ==> Rank(RecvData(w).c.state) <= 5
  {
    RecvDataProgresses(w);
  }

  lemma RecvSizeProgresses(w: World)
    requires SizePhase(w)
    ensures Progresses(w, RecvSize(w))
  {
    FillingSize(w);
    FillSizePends(w);
    FillSizeMoves(w);
    var (w1, outcome) := FillSize(w);
    match outcome
    case Broken => RejectRank(w1, -1);
    case Complete => OpenUploadRank(w1);
    case _ =>
  }

  lemma OpenUploadRank(w: World)
    requires SizePhase(w) && w.c.transferred == SIZE_BYTES
    ensures OpenUpload(w).alive ==> Rank(OpenUpload(w).c.state) <= 5
  {
    var (w1, fd) := OpenForPut(w.(c := w.c.(transferred := 0)));
    if fd == -1 {
      RejectRank(w1.(c := w1.c.(fileFd := -1)), -1);
    } else {
      var w2 := w1.(c := w1.c.(fileFd := fd, state := RecvPutData));
      SizeComplete(w, w1, fd);
      FillingFile(w2);
      RecvDataRank(w2);
    }
  }

  lemma RefuseRank(w: World, verb: Verb)
    ensures Refuse(w, verb).alive ==> Rank(Refuse(w, verb).c.state) <= 1
  {
    RespondRank(LogOp(w, Refused(w.c.id, verb, w.c.filename, Denied(w.calls))), Failure(NoSuchFile));
  }

  lemma StartGetRank(w: World)
    ensures StartGet(w).alive ==> Rank(StartGet(w).c.state) <= 4
  {
    var (w1, fd) := OpenForGet(w);
    var w2 := w1.(c := w1.c.(fileFd := fd));
    if fd == -1 {
      RefuseRank(w2, GET);
    } else {
      var (w3, ok) := Stat(w2);
      if !ok {
        RefuseRank(CloseOwn(w3), GET);
      } else {
        RespondRank(Announce(w3), Success);
      }
    }
  }

  lemma DeleteRank(w: World)
    ensures Delete(w).alive ==> Rank(Delete(w).c.state) <= 4
  {
    var (w1, ok) := Unlink(w);
    if w.c.filename !in w.sh.list {
      RefuseRank(w, DELETE);
    } else if !ok {
      RefuseRank(w1, DELETE);
    } else {
      RespondRank(w1.(c := w1.c.(op := |w1.sh.trace|), sh := DeleteName(w1.sh, w1.c.id, w1.c.filename)), Success);
    }
  }

  /** Parsing a line leaves the header phase, unless a NUL hides the newline. */
  lemma ParseRank(w: World)
    requires LinePhase(w)
    ensures var w' := ParseHeader(w); w' == w || !w'.alive || Rank(w'.c.state) <= 6
  {
    if StrChr(w.c.header, '\n') >= 0 {
      var newline := StrChr(w.c.header, '\n');
      var request := ParseLine(w.c.header[..newline]);
      var w1 := Split(w, request, newline);
      ParsedTo(w, newline, request);
      RespondRank(w1, Failure(BadRequest));
      RespondRank(w1, Success);
      StartGetRank(w1);
      DeleteRank(w1);
    }
  }

  lemma RecvHeaderProgresses(w: World)
    requires HeaderPhase(w)
    ensures Progresses(w, RecvHeaderBytes(w))
  {
    FillingHeader(w);
    FillHeaderPends(w);
    FillHeaderMoves(w);
    var (w1, outcome) := FillHeader(w);
    match outcome
    case Broken =>
    case Complete => ParseRank(w1);
    case _ => RespondRank(w1, Failure(BadRequest));
  }

  lemma SendDataProgresses(w: World)
    requires BodyPhase(w)
    ensures Progresses(w, SendData(w))
  {
    DrainFilePends(w);
    DrainFileMoves(w);
  }

  lemma SendSizeProgresses(w: World)
    requires Live(w.c, w.sh) && w.c.state == SendGetSize
    ensures Progresses(w, SendSize(w))
  {
    var w0 := SizeReady(w);
    var (w1, r) := SockWrite(w0, Drop(w0.c.resp, w0.c.respSent));
    if r.Count? && r.n == 0 {
      assert w1.c.wire.sent == w.c.wire.sent;
    }
  }

  lemma SendListProgresses(w: World)
    requires Live(w.c, w.sh) && w.c.state == SendListData
    ensures Progresses(w, SendList(w))
  {
    var (w1, r) := SockWrite(w, Drop(w.c.listBuf.value, w.c.listSent));
    if r.Count? && r.n == 0 {
      assert w1.c.wire.sent == w.c.wire.sent;
    }
  }

  lemma ReadProgresses(w: World)
    requires Steadfast(w)
    ensures Progresses(w, HandleRead(w))
  {
    match w.c.state
    case RecvHeader => RecvHeaderProgresses(w);
    case RecvPutSize => RecvSizeProgresses(w);
    case RecvPutData =>
      FillingFile(w);
      RecvDataProgresses(w);
    case _ =>
  }

  lemma WriteProgresses(w: World)
    requires Steadfast(w)
    ensures Progresses(w, HandleWrite(w))
  {
    match w.c.state
    case SendOk => WriteReplyRank(w);
    case SendError => WriteReplyRank(w);
    case SendListData => SendListProgresses(w);
    case SendGetSize => SendSizeProgresses(w);
    case SendGetData => SendDataProgresses(w);
    case _ =>
  }

  lemma DispatchProgresses(w: World, mask: Mask)
    requires Steadfast(w)
    requires mask.read ==> w.sh.polls[w.c.fd] == Read
    requires mask.write ==> w.sh.polls[w.c.fd] == Write
    ensures Progresses(w, Dispatch(w, mask))
  {
    if !mask.error {
      if mask.read {
        ReadProgresses(w);
      } else if mask.write {
        WriteProgresses(w);
      }
    }
  }

  lemma SomethingRemains(c: Conn, sh: Shared)
    requires Live(c, sh)
    ensures Remaining(c) >= 0
  {
  }

  /** Progress: every event of every run ends its connection, or lowers the pair of its phase and the bytes
      left in that phase, or changes nothing but the registration because every call it made would have blocked, was
      interrupted or wrote no byte. */
  lemma EveryEventProgresses(listenFd: nat, inputs: seq<Input>, fd: int, mask: Mask, sched: seq<Answer>)
    requires Feasible(listenFd, inputs + [Report(fd, mask, sched)])
    requires fd in Run(listenFd, inputs).clients
    ensures
      var s := Run(listenFd, inputs);
      var w := Begin(s.clients[fd], s.sh, sched);
      Progresses(w, Dispatch(w, mask)) && Remaining(w.c) >= 0
  {
    var s := Run(listenFd, inputs);
    assert (inputs + [Report(fd, mask, sched)])[..|inputs|] == inputs;
    RunKeeps(listenFd, inputs);
    assert EntryOk(s, fd);
    DispatchProgresses(Begin(s.clients[fd], s.sh, sched), mask);
    SomethingRemains(s.clients[fd], s.sh);
  }
}
