/** What a handler leaves for the event loop to report, and exactly when a reply is never sent. */
module Liveness {
  import opened Bytes
  import opened Protocol
  import opened Calls
  import opened History
  import opened Kernel
  import opened Handlers
  import opened System
  import opened ConnInvariant
  import opened HandlerProofs
  import opened DispatchProofs
  import opened RequestProofs
  import opened RunProofs
  import opened Batches
  import opened Resources
  import Outcomes

  // -------- no lost wake-up --------

  /** Under edge triggering the loop will report the descriptor again: it was registered anew, or the last
      read (write) met EAGAIN or was short while it is registered for reading (writing). */
  predicate Signalled(w: World) {
    w.sig.armed ||
    (w.c.fd in w.sh.polls &&
     (if w.sh.polls[w.c.fd] == Read then w.sig.readBlocked else w.sig.writeBlocked))
  }

  /** The first write of a status line moved nothing, and the descriptor is registered for reading. */
  predicate Stranded(w: World) {
    (w.c.state == SendOk || w.c.state == SendError) && w.c.respSent == 0
    && w.c.fd in w.sh.polls && w.sh.polls[w.c.fd] == Read
  }

  /** A NUL before the newline hides the end of the request line. */
  predicate Muffled(w: World) {
    w.c.state == RecvHeader && '\n' in w.c.header && '\0' in w.c.header
  }

  predicate WouldBlock(call: Call) {
    call.SocketWrite? && call.r == Error(EAGAIN)
  }

  /** Some write of the event met EAGAIN. */
  ghost predicate WriteBlocked(calls: seq<Call>) {
    exists call :: call in calls && WouldBlock(call)
  }

  /** The last call on the socket, by the state it left the connection in; a reply that could not begin met
      EAGAIN. */
  ghost predicate Pending(w: World) {
    w.alive ==>
      && (Stranded(w) ==> WriteBlocked(w.calls))
      && match w.c.state
         case RecvHeader => w.sig.readBlocked || Muffled(w)
         case RecvPutSize => w.sig.readBlocked || w.sig.armed
         case RecvPutData => w.sig.readBlocked
         case _ => w.sig.writeBlocked || w.sig.armed
  }

  /** A connection registered for writing stays so. */
  predicate StaysWriting(w: World, w': World) {
    w.c.fd in w.sh.polls && w.sh.polls[w.c.fd] == Write && w'.alive ==>
      w'.c.fd == w.c.fd && w'.c.fd in w'.sh.polls && w'.sh.polls[w'.c.fd] == Write
  }

  lemma RespondPends(w: World, status: Status)
    ensures Pending(Respond(w, status)) && StaysWriting(w, Respond(w, status))
    decreases if status.Success? then 4 else 1
  {
    WriteReplyPends(Prepared(w, status));
  }

  lemma WriteReplyPends(w: World)
    requires w.c.state == SendOk || w.c.state == SendError
    ensures Pending(WriteReply(w)) && StaysWriting(w, WriteReply(w))
    decreases if w.c.state == SendOk then 3 else 0
  {
    var (w1, r) := SockWrite(w, Drop(w.c.resp, w.c.respSent));
    if r == Error(EAGAIN) {
      assert w1.calls[|w.calls|] in w1.calls;
    }
    if r.Count? {
      var w2 := w1.(c := w1.c.(respSent := w.c.respSent + r.n));
      assert WriteReply(w) == ReplyMoved(w2);
      if w2.c.respSent == |w2.c.resp| && w2.c.state == SendOk && w2.c.verb == LIST {
        StartListPends(w2);
        assert ReplyMoved(w2) == StartSendList(w2);
      }
    }
  }

  lemma StartListPends(w: World)
    ensures Pending(StartSendList(w)) && StaysWriting(w, StartSendList(w))
    decreases 2
  {
    var (w1, memory) := Alloc(w, |ListBuffer(w.sh.list)|);
    if !memory {
      RespondPends(w1.(c := w1.c.(oom := true)), Failure(BadRequest));
    }
  }

  lemma {:induction false} FillSizePends(w: World)
    ensures FillSize(w).0.c.state == w.c.state
    ensures FillSize(w).1 == Blocked ==> FillSize(w).0.sig.readBlocked
    decreases SIZE_BYTES - w.c.transferred, |w.sched|
  {
    if w.c.transferred < SIZE_BYTES && SizeStep(w).1 == More {
      FillSizePends(SizeStep(w).0);
    }
  }

  lemma ReadChunkPends(w: World, count: nat)
    ensures ReadChunk(w, count).0.c.state == w.c.state
    ensures ReadChunk(w, count).1 == Blocked ==> ReadChunk(w, count).0.sig.readBlocked
  {
  }

  lemma FileStepPends(w: World)
    requires w.c.transferred < SizeOf(w.c.expected)
    ensures FileStep(w).0.c.state == w.c.state
    ensures FileStep(w).1 == Blocked ==> FileStep(w).0.sig.readBlocked
  {
    var count := Min(BUFFER_SIZE, SizeOf(w.c.expected) - w.c.transferred);
    assert FileStep(w) == ReadChunk(w, count);
    ReadChunkPends(w, count);
  }

  lemma {:induction false} FillFilePends(w: World)
    requires w.c.transferred <= SizeOf(w.c.expected)
    ensures FillFile(w).0.c.state == w.c.state
    ensures FillFile(w).1 == Blocked ==> FillFile(w).0.sig.readBlocked
    decreases SizeOf(w.c.expected) - w.c.transferred, |w.sched|
  {
    if w.c.transferred < SizeOf(w.c.expected) {
      FileStepPends(w);
      if FileStep(w).1 == More {
        FillFilePends(FileStep(w).0);
      }
    }
  }

  lemma {:induction false} DrainFilePends(w: World)
    requires w.c.transferred <= w.c.fileSize
    ensures DrainFile(w).0.c.state == w.c.state
    ensures DrainFile(w).1 == Blocked ==> DrainFile(w).0.sig.writeBlocked
    decreases w.c.fileSize - w.c.transferred
  {
    if w.c.transferred < w.c.fileSize && BodyStep(w).1 == More {
      DrainFilePends(BodyStep(w).0);
    }
  }

  lemma {:induction false} FillHeaderPends(w: World)
    ensures FillHeader(w).0.c.state == w.c.state
    ensures FillHeader(w).1 == Blocked && |FillHeader(w).0.c.header| < HEADER_MAX - 1 ==>
      FillHeader(w).0.sig.readBlocked
    decreases HEADER_MAX - |w.c.header|, |w.sched|
  {
    if |w.c.header| < HEADER_MAX - 1 && HeaderStep(w).1 == More {
      FillHeaderPends(HeaderStep(w).0);
    }
  }

  lemma RejectPends(w: World, file: int)
    ensures Pending(Reject(w, file))
  {
    RespondPends(LogOp(w, Rejection(w, file)), Failure(BadFileSize));
  }

  lemma RecvDataPends(w: World)
    requires w.c.state == RecvPutData && w.c.transferred <= SizeOf(w.c.expected)
    ensures FillFile(w).1 != More ==> Pending(RecvData(w))
  {
    FillFilePends(w);
    var (w1, outcome) := FillFile(w);
    match outcome
    case Broken => RejectPends(CloseOwn(w1), Ino(w1.sh, w1.c.fileFd));
    case Complete => FinishPends(w1);
    case _ =>
  }

  lemma FinishPends(w: World)
    ensures Pending(FinishUpload(w))
  {
    var (w1, r) := SockRead(CloseOwn(w), 1);
    if r.Count? && r.n > 0 {
      RejectPends(w1, Ino(w.sh, w.c.fileFd));
    } else {
      RespondPends(Listing(w, w1), Success);
    }
  }

  lemma RecvSizePends(w: World)
    requires SizePhase(w)
    ensures Pending(RecvSize(w))
  {
    FillingSize(w);
    FillSizePends(w);
    var (w1, outcome) := FillSize(w);
    match outcome
    case Broken => RejectPends(w1, -1);
    case Complete => OpenUploadPends(w1);
    case _ =>
  }

  lemma OpenUploadPends(w: World)
    requires SizePhase(w) && w.c.transferred == SIZE_BYTES
    ensures Pending(OpenUpload(w))
  {
    var (w1, fd) := OpenForPut(w.(c := w.c.(transferred := 0)));
    if fd == -1 {
      RejectPends(w1.(c := w1.c.(fileFd := -1)), -1);
    } else {
      var w2 := w1.(c := w1.c.(fileFd := fd, state := RecvPutData));
      SizeComplete(w, w1, fd);
      FillingFile(w2);
      RecvDataPends(w2);
    }
  }

  lemma RefusePends(w: World, verb: Verb)
    ensures Pending(Refuse(w, verb))
  {
    RespondPends(LogOp(w, Refused(w.c.id, verb, w.c.filename, Denied(w.calls))), Failure(NoSuchFile));
  }

  lemma StartGetPends(w: World)
    ensures Pending(StartGet(w))
  {
    var (w1, fd) := OpenForGet(w);
    var w2 := w1.(c := w1.c.(fileFd := fd));
    if fd == -1 {
      RefusePends(w2, GET);
    } else {
      var (w3, ok) := Stat(w2);
      if !ok {
        RefusePends(CloseOwn(w3), GET);
      } else {
        RespondPends(Announce(w3), Success);
      }
    }
  }

  lemma DeletePends(w: World)
    ensures Pending(Delete(w))
  {
    var (w1, ok) := Unlink(w);
    if w.c.filename !in w.sh.list {
      RefusePends(w, DELETE);
    } else if !ok {
      RefusePends(w1, DELETE);
    } else {
      RespondPends(w1.(c := w1.c.(op := |w1.sh.trace|), sh := DeleteName(w1.sh, w1.c.id, w1.c.filename)), Success);
    }
  }

  lemma ParsePends(w: World)
    requires LinePhase(w)
    ensures Pending(ParseHeader(w))
  {
    if StrChr(w.c.header, '\n') < 0 {
      var hl := |w.c.header|;
      assert w.c.header == w.c.header[..hl - 1] + ['\n'];
      StrChrSnoc(w.c.header[..hl - 1], '\n');
      assert w.c.header[hl - 1] == '\n';
    } else {
      var newline := StrChr(w.c.header, '\n');
      var request := ParseLine(w.c.header[..newline]);
      var w1 := Split(w, request, newline);
      ParsedTo(w, newline, request);
      RespondPends(w1, Failure(BadRequest));
      RespondPends(w1, Success);
      StartGetPends(w1);
      DeletePends(w1);
    }
  }

  lemma RecvHeaderPends(w: World)
    requires HeaderPhase(w)
    ensures Pending(RecvHeaderBytes(w))
  {
    FillingHeader(w);
    FillHeaderPends(w);
    var (w1, outcome) := FillHeader(w);
    match outcome
    case Broken =>
    case Complete => ParsePends(w1);
    case _ => RespondPends(w1, Failure(BadRequest));
  }

  /** A reply that could not begin leaves the descriptor registered for reading, where no report other than
      an error has any effect: that reply is never sent. */
  lemma StrandedForever(w: World, mask: Mask)
    requires Stranded(w) && !mask.error && !mask.write
    ensures Dispatch(w, mask) == w
  {
  }

  /** The OK of a LIST goes out at once, but there is no memory for the list buffer. */
  predicate ListTurnsBad(w: World, status: Status) {
    && status.Success? && w.c.verb == LIST && First(w.sched).Ready? && First(w.sched).k >= |OK_LINE|
    && (First(Rest(w.sched)).Ready? ==> |ListBuffer(w.sh.list)| >= SIZE_LIMIT)
  }

  /** Exactly when that happens: the first write of a status line meets EAGAIN while the descriptor is still
      registered for reading. For a LIST whose OK went out at once and whose buffer could not be allocated that
      may be the first write of the error reply. */
  lemma StrandedExactly(w: World, status: Status)
    requires w.alive && w.c.fd in w.sh.polls && w.sh.polls[w.c.fd] == Read
    ensures
      var w' := Respond(w, status);
      w'.alive && Stranded(w') <==>
        First(w.sched) == Again || (ListTurnsBad(w, status) && First(Rest(Rest(w.sched))) == Again)
    decreases if status.Success? then 2 else 0
  {
    var w1 := Prepared(w, status);
    var (w2, r) := SockWrite(w1, Drop(w1.c.resp, w1.c.respSent));
    if r.Count? {
      var w3 := w2.(c := w2.c.(respSent := r.n));
      assert WriteReply(w1) == ReplyMoved(w3);
      if r.n == |OK_LINE| && status.Success? && w.c.verb == LIST {
        ListStranded(w3);
      } else {
        MovedNotStranded(w3);
      }
    }
  }

  lemma MovedNotStranded(w: World)
    requires w.alive && w.c.fd in w.sh.polls
    requires w.c.state == SendOk && w.c.verb == LIST ==> w.c.respSent != |w.c.resp|
    requires w.c.state == SendOk || w.c.state == SendError
    ensures ReplyMoved(w).alive ==> !Stranded(ReplyMoved(w))
  {
  }

  lemma ListStranded(w: World)
    requires w.alive && w.c.fd in w.sh.polls && w.sh.polls[w.c.fd] == Read
    requires w.c.state == SendOk && w.c.verb == LIST && w.c.respSent == |w.c.resp|
    ensures
      ReplyMoved(w).alive && Stranded(ReplyMoved(w)) <==>
        (First(w.sched).Ready? ==> |ListBuffer(w.sh.list)| >= SIZE_LIMIT) && First(Rest(w.sched)) == Again
    decreases 1
  {
    var (w1, memory) := Alloc(w, |ListBuffer(w.sh.list)|);
    if !memory {
      StrandedExactly(w1.(c := w1.c.(oom := true)), Failure(BadRequest));
    }
  }

  /** The connection waits to begin its reply, registered for reading. */
  predicate Stuck(s: Sys, fd: int) {
    && fd in s.clients && (s.clients[fd].state == SendOk || s.clients[fd].state == SendError)
    && s.clients[fd].respSent == 0 && fd in s.sh.polls && s.sh.polls[fd] == Read
  }

  /** No report of an error on `fd`. */
  predicate NoErrorOn(inputs: seq<Input>, fd: int) {
    forall i :: i in inputs && i.Report? && i.fd == fd ==> !i.mask.error
  }

  /** However the run goes on, such a connection stays as it is until an error is reported for it: the reply is
      never sent. */
  lemma {:induction false} StrandedStays(listenFd: nat, inputs: seq<Input>, more: seq<Input>, fd: int)
    requires Feasible(listenFd, inputs) && Feasible(listenFd, inputs + more) && NoErrorOn(more, fd)
    requires Stuck(Run(listenFd, inputs), fd)
    ensures
      var s, s' := Run(listenFd, inputs), Run(listenFd, inputs + more);
      Stuck(s', fd) && s'.clients[fd] == s.clients[fd]
    decreases |more|
  {
    if more == [] {
      assert inputs + more == inputs;
    } else {
      var before, i := more[..|more| - 1], more[|more| - 1];
      assert (inputs + more)[..|inputs + more| - 1] == inputs + before;
      assert forall j :: j in before ==> j in more;
      StrandedStays(listenFd, inputs, before, fd);
      RunKeeps(listenFd, inputs + before);
      StuckStays(Run(listenFd, inputs + before), listenFd, i, fd);
    }
  }

  lemma StuckStays(s: Sys, listenFd: int, i: Input, fd: int)
    requires SysInv(s, listenFd) && Deliverable(s, i) && Stuck(s, fd)
    requires i.Report? && i.fd == fd ==> !i.mask.error
    ensures Stuck(Step(s, i), fd) && Step(s, i).clients[fd] == s.clients[fd]
  {
    assert EntryOk(s, fd);
    if i.Report? && i.fd == fd {
      StrandedForever(Begin(s.clients[fd], s.sh, i.sched), i.mask);
    } else {
      StepKeepsEntry(s, listenFd, i, fd);
    }
  }

  lemma ReadPends(w: World)
    requires Steadfast(w) && w.sh.polls[w.c.fd] == Read
    ensures Pending(HandleRead(w)) || Stranded(HandleRead(w))
    ensures Receiving(w.c.state) ==> Pending(HandleRead(w))
  {
    match w.c.state
    case RecvHeader => RecvHeaderPends(w);
    case RecvPutSize => RecvSizePends(w);
    case RecvPutData =>
      FillingFile(w);
      RecvDataPends(w);
    case _ =>
  }

  lemma WritePends(w: World)
    requires Steadfast(w) && w.sh.polls[w.c.fd] == Write
    ensures Pending(HandleWrite(w)) && StaysWriting(w, HandleWrite(w))
  {
    match w.c.state
    case SendOk => WriteReplyPends(w);
    case SendError => WriteReplyPends(w);
    case SendGetData => SendDataPends(w);
    case SendGetSize => SendSizePends(w);
    case SendListData => SendListPends(w);
    case _ =>
  }

  lemma SendSizePends(w: World)
    requires Live(w.c, w.sh) && w.c.state == SendGetSize
    ensures Pending(SendSize(w)) && StaysWriting(w, SendSize(w))
  {
  }

  lemma SendListPends(w: World)
    requires Live(w.c, w.sh) && w.c.state == SendListData
    ensures Pending(SendList(w)) && StaysWriting(w, SendList(w))
  {
  }

  lemma SendDataPends(w: World)
    requires BodyPhase(w)
    ensures Pending(SendData(w)) && StaysWriting(w, SendData(w))
  {
    DrainFilePends(w);
    DrainingFile(w);
  }

  lemma DispatchPends(w: World, mask: Mask)
    requires Steadfast(w) && (mask.read || mask.write || mask.error)
    requires mask.read ==> w.sh.polls[w.c.fd] == Read
    requires mask.write ==> w.sh.polls[w.c.fd] == Write
    ensures Pending(Dispatch(w, mask)) || Stranded(Dispatch(w, mask))
  {
    if !mask.error {
      if mask.read {
        ReadPends(w);
      } else {
        WritePends(w);
      }
    }
  }

  /** No lost wake-up: after every event of every run a connection that is still there will be reported
      again when there is something to do, except one whose reply could not begin and one whose request
      line hides its newline behind a NUL. */
  lemma NoLostWakeup(listenFd: nat, inputs: seq<Input>, fd: int, mask: Mask, sched: seq<Answer>)
    requires Feasible(listenFd, inputs + [Report(fd, mask, sched)])
    requires fd in Run(listenFd, inputs).clients && (mask.read || mask.write || mask.error)
    ensures
      var s := Run(listenFd, inputs);
      var w := Dispatch(Begin(s.clients[fd], s.sh, sched), mask);
      w.alive ==> Signalled(w) || Stranded(w) || Muffled(w)
  {
    var s := Run(listenFd, inputs);
    assert (inputs + [Report(fd, mask, sched)])[..|inputs|] == inputs;
    RunKeeps(listenFd, inputs);
    assert EntryOk(s, fd);
    var w := Begin(s.clients[fd], s.sh, sched);
    Dispatching(w, mask);
    DispatchPends(w, mask);
  }

  // -------- what holds a reply up --------

  /** In an event that found the connection receiving a write met EAGAIN: the first write of a status line. */
  ghost predicate HeldUp(episodes: seq<Episode>, id: nat) {
    exists i ::
      0 <= i < |episodes| && episodes[i].id == id && Receiving(episodes[i].from) && WriteBlocked(episodes[i].calls)
  }

  lemma HeldUpLater(episodes: seq<Episode>, e: Episode, id: nat)
    requires HeldUp(episodes, id) || (e.id == id && Receiving(e.from) && WriteBlocked(e.calls))
    ensures HeldUp(episodes + [e], id)
  {
    if HeldUp(episodes, id) {
      var i :|
        0 <= i < |episodes| && episodes[i].id == id && Receiving(episodes[i].from) && WriteBlocked(episodes[i].calls);
      assert (episodes + [e])[i] == episodes[i];
    } else {
      assert (episodes + [e])[|episodes|] == e;
    }
  }

  /** A reply that has not begun after an event had not begun before it, or met EAGAIN now. */
  lemma DispatchStrands(w: World, mask: Mask)
    requires Steadfast(w)
    requires mask.read ==> w.sh.polls[w.c.fd] == Read
    requires mask.write ==> w.sh.polls[w.c.fd] == Write
    ensures
      var w' := Dispatch(w, mask);
      w'.alive && Stranded(w') ==>
        (Stranded(w) && w'.c.id == w.c.id) || (Receiving(w.c.state) && WriteBlocked(w'.calls))
  {
    if !mask.error {
      if mask.read {
        ReadPends(w);
      } else if mask.write {
        WritePends(w);
      }
    }
  }

  lemma {:induction false} AcceptStrandsNone(s: Sys, arrivals: seq<Arrival>, fd: int)
    requires Stuck(AcceptAll(s, arrivals), fd)
    ensures Stuck(s, fd) && AcceptAll(s, arrivals).clients[fd] == s.clients[fd]
    ensures AcceptAll(s, arrivals).episodes == s.episodes
    decreases |arrivals|
  {
    if arrivals != [] {
      match arrivals[0]
      case Connect(k, stream) =>
        if k !in s.sh.fds {
          AcceptStrandsNone(Admit(s, k, stream), arrivals[1..], fd);
        }
      case Interrupted =>
        AcceptStrandsNone(s, arrivals[1..], fd);
      case NoneLeft =>
    }
  }

  lemma HandleHolds(s: Sys, listenFd: int, i: Input, fd: int)
    requires SysInv(s, listenFd) && Deliverable(s, i) && i.Report? && i.fd in s.clients && Stuck(Step(s, i), fd)
    requires Stuck(s, fd) ==> HeldUp(s.episodes, s.clients[fd].id)
    ensures HeldUp(Step(s, i).episodes, Step(s, i).clients[fd].id)
  {
    assert EntryOk(s, i.fd);
    var w := Begin(s.clients[i.fd], s.sh, i.sched);
    var w' := Dispatch(w, i.mask);
    var e := Episode(w'.c.id, w.c.state, w'.calls);
    Dispatching(w, i.mask);
    if fd == i.fd {
      DispatchStrands(w, i.mask);
    } else {
      assert EntryOk(s, fd);
      StepKeepsEntry(s, listenFd, i, fd);
    }
    HeldUpLater(s.episodes, e, Step(s, i).clients[fd].id);
  }

  /** Nothing but that holds a reply up: a connection that waits to begin its reply while it is registered for
      reading met EAGAIN with the first write of a status line. */
  lemma {:induction false} StuckIsHeldUp(listenFd: nat, inputs: seq<Input>, fd: int)
    requires Feasible(listenFd, inputs) && Stuck(Run(listenFd, inputs), fd)
    ensures HeldUp(Run(listenFd, inputs).episodes, Run(listenFd, inputs).clients[fd].id)
  {
    if inputs != [] {
      var before, i := inputs[..|inputs| - 1], inputs[|inputs| - 1];
      var s := Run(listenFd, before);
      RunKeeps(listenFd, before);
      if Stuck(s, fd) {
        StuckIsHeldUp(listenFd, before, fd);
      }
      match i
      case Incoming(arrivals) => AcceptStrandsNone(s, arrivals, fd);
      case Report(k, mask, sched) =>
        if k in s.clients {
          HandleHolds(s, listenFd, i, fd);
        }
    }
  }

  // -------- what is held up stays stuck --------

  /** The descriptor is registered for reading, and no write of the event has met EAGAIN. */
  ghost predicate Unblocked(w: World) {
    w.c.fd in w.sh.polls && w.sh.polls[w.c.fd] == Read && !WriteBlocked(w.calls)
  }

  /** A write that met EAGAIN was the first of a status line. */
  ghost predicate BlocksReply(w: World) {
    w.alive && WriteBlocked(w.calls) ==> Stranded(w)
  }

  lemma NextBlocked(calls: seq<Call>, call: Call)
    ensures WriteBlocked(calls + [call]) <==> WriteBlocked(calls) || WouldBlock(call)
  {
    if WriteBlocked(calls) {
      var b :| b in calls && WouldBlock(b);
      assert b in calls + [call];
    }
    assert call in calls + [call];
  }

  lemma CallUnblocked(w: World, w1: World, call: Call)
    requires Unblocked(w) && w1.calls == w.calls + [call] && !WouldBlock(call)
    requires w1.c.fd == w.c.fd && w1.sh.polls == w.sh.polls
    ensures Unblocked(w1)
  {
    NextBlocked(w.calls, call);
  }

  lemma RespondBlocks(w: World, status: Status)
    requires Unblocked(w)
    ensures BlocksReply(Respond(w, status))
    decreases if status.Success? then 4 else 1
  {
    WriteReplyBlocks(Prepared(w, status));
  }

  lemma WriteReplyBlocks(w: World)
    requires Unblocked(w) && (w.c.state == SendOk || w.c.state == SendError) && w.c.respSent == 0
    ensures BlocksReply(WriteReply(w))
    decreases if w.c.state == SendOk then 3 else 0
  {
    var data := Drop(w.c.resp, w.c.respSent);
    var (w1, r) := SockWrite(w, data);
    if r.Count? {
      CallUnblocked(w, w1, SocketWrite(|data|, r));
      var w2 := ReplyGrown(w1, r.n);
      if w2.c.respSent == |w2.c.resp| && w2.c.state == SendOk && w2.c.verb == LIST {
        StartListBlocks(w2);
      } else {
        MovedBlocksNone(w2);
      }
    }
  }

  lemma MovedBlocksNone(w: World)
    requires !WriteBlocked(w.calls) && (w.c.state == SendOk || w.c.state == SendError)
    requires w.c.respSent == |w.c.resp| && w.c.state == SendOk ==> w.c.verb != LIST
    ensures BlocksReply(ReplyMoved(w))
  {
  }

  lemma StartListBlocks(w: World)
    requires Unblocked(w)
    ensures BlocksReply(StartSendList(w))
    decreases 2
  {
    var (w1, memory) := Alloc(w, |ListBuffer(w.sh.list)|);
    CallUnblocked(w, w1, Allocate(memory));
    if !memory {
      RespondBlocks(w1.(c := w1.c.(oom := true)), Failure(BadRequest));
    }
  }

  lemma ReadUnblocked(w: World, count: nat)
    requires Unblocked(w)
    ensures Unblocked(SockRead(w, count).0)
  {
    var (w1, r) := SockRead(w, count);
    CallUnblocked(w, w1, SocketRead(count, r));
  }

  lemma {:induction false} FillHeaderUnblocked(w: World)
    requires Unblocked(w)
    ensures Unblocked(FillHeader(w).0)
    decreases HEADER_MAX - |w.c.header|, |w.sched|
  {
    if |w.c.header| < HEADER_MAX - 1 {
      ReadUnblocked(w, 1);
      if HeaderStep(w).1 == More {
        FillHeaderUnblocked(HeaderStep(w).0);
      }
    }
  }

  lemma {:induction false} FillSizeUnblocked(w: World)
    requires Unblocked(w)
    ensures Unblocked(FillSize(w).0)
    decreases SIZE_BYTES - w.c.transferred, |w.sched|
  {
    if w.c.transferred < SIZE_BYTES {
      ReadUnblocked(w, SIZE_BYTES - w.c.transferred);
      if SizeStep(w).1 == More {
        FillSizeUnblocked(SizeStep(w).0);
      }
    }
  }

  lemma StoreUnblocked(w: World, n: nat)
    requires Unblocked(w)
    ensures Unblocked(StoreChunk(w, n).0)
  {
    var d := JustRead(w.c, n);
    var (w1, written) := Pwrite(w, d, w.c.transferred);
    CallUnblocked(w, w1, FileWrite(|d|, written));
  }

  lemma FileStepUnblocked(w: World)
    requires Unblocked(w) && w.c.transferred < SizeOf(w.c.expected)
    ensures Unblocked(FileStep(w).0)
  {
    var count := Min(BUFFER_SIZE, SizeOf(w.c.expected) - w.c.transferred);
    var (w1, r) := SockRead(w, count);
    assert FileStep(w) == ReadChunk(w, count);
    ReadUnblocked(w, count);
    if r.Count? {
      StoreUnblocked(w1, r.n);
    }
  }

  lemma {:induction false} FillFileUnblocked(w: World)
    requires Unblocked(w)
    ensures Unblocked(FillFile(w).0)
    decreases SizeOf(w.c.expected) - w.c.transferred, |w.sched|
  {
    if w.c.transferred < SizeOf(w.c.expected) {
      FileStepUnblocked(w);
      if FileStep(w).1 == More {
        FillFileUnblocked(FileStep(w).0);
      }
    }
  }

  lemma CloseUnblocked(w: World)
    requires Unblocked(w)
    ensures Unblocked(CloseOwn(w))
  {
    CallUnblocked(w, CloseOwn(w), FileClose);
  }

  lemma RejectBlocks(w: World, file: int)
    requires Unblocked(w)
    ensures BlocksReply(Reject(w, file))
  {
    RespondBlocks(LogOp(w, Rejection(w, file)), Failure(BadFileSize));
  }

  lemma FinishBlocks(w: World)
    requires Unblocked(w)
    ensures BlocksReply(FinishUpload(w))
  {
    var (w1, r) := SockRead(CloseOwn(w), 1);
    CloseUnblocked(w);
    ReadUnblocked(CloseOwn(w), 1);
    if r.Count? && r.n > 0 {
      RejectBlocks(w1, Ino(w.sh, w.c.fileFd));
    } else {
      RespondBlocks(Listing(w, w1), Success);
    }
  }

  lemma RecvDataBlocks(w: World)
    requires Unblocked(w) && FillFile(w).1 != More
    ensures BlocksReply(RecvData(w))
  {
    FillFileUnblocked(w);
    var (w1, outcome) := FillFile(w);
    match outcome
    case Broken =>
      CloseUnblocked(w1);
      RejectBlocks(CloseOwn(w1), Ino(w1.sh, w1.c.fileFd));
    case Complete => FinishBlocks(w1);
    case Blocked =>
  }

  lemma OpenUploadBlocks(w: World)
    requires Unblocked(w) && SizePhase(w) && w.c.transferred == SIZE_BYTES
    ensures BlocksReply(OpenUpload(w))
  {
    var w0 := w.(c := w.c.(transferred := 0));
    var (w1, fd) := OpenForPut(w0);
    CallUnblocked(w0, w1, w1.calls[|w.calls|]);
    if fd == -1 {
      RejectBlocks(w1.(c := w1.c.(fileFd := -1)), -1);
    } else {
      var w2 := w1.(c := w1.c.(fileFd := fd, state := RecvPutData));
      SizeComplete(w, w1, fd);
      FillingFile(w2);
      RecvDataBlocks(w2);
    }
  }

  lemma RecvSizeBlocks(w: World)
    requires Unblocked(w) && SizePhase(w)
    ensures BlocksReply(RecvSize(w))
  {
    FillingSize(w);
    FillSizeUnblocked(w);
    var (w1, outcome) := FillSize(w);
    match outcome
    case Blocked =>
    case Broken => RejectBlocks(w1, -1);
    case Complete => OpenUploadBlocks(w1);
  }

  lemma RefuseBlocks(w: World, verb: Verb)
    requires Unblocked(w)
    ensures BlocksReply(Refuse(w, verb))
  {
    RespondBlocks(LogOp(w, Refused(w.c.id, verb, w.c.filename, Denied(w.calls))), Failure(NoSuchFile));
  }

  lemma StartGetBlocks(w: World)
    requires Unblocked(w)
    ensures BlocksReply(StartGet(w))
  {
    var (w1, fd) := OpenForGet(w);
    var w2 := w1.(c := w1.c.(fileFd := fd));
    CallUnblocked(w, w2, w1.calls[|w.calls|]);
    if fd == -1 {
      RefuseBlocks(w2, GET);
    } else {
      var (w3, ok) := Stat(w2);
      CallUnblocked(w2, w3, FileStat(ok));
      if ok {
        RespondBlocks(Announce(w3), Success);
      } else {
        CloseUnblocked(w3);
        RefuseBlocks(CloseOwn(w3), GET);
      }
    }
  }

  lemma DeleteBlocks(w: World)
    requires Unblocked(w)
    ensures BlocksReply(Delete(w))
  {
    var (w1, ok) := Unlink(w);
    CallUnblocked(w, w1, w1.calls[|w.calls|]);
    if w.c.filename !in w.sh.list {
      RefuseBlocks(w, DELETE);
    } else if !ok {
      RefuseBlocks(w1, DELETE);
    } else {
      RespondBlocks(w1.(c := w1.c.(op := |w1.sh.trace|), sh := DeleteName(w1.sh, w1.c.id, w1.c.filename)), Success);
    }
  }

  lemma NamedBlocks(w: World)
    requires Unblocked(w)
    ensures BlocksReply(StartGet(w)) && BlocksReply(Delete(w))
    ensures BlocksReply(Arm(w.(c := w.c.(transferred := 0, state := RecvPutSize)), Read))
  {
    StartGetBlocks(w);
    DeleteBlocks(w);
  }

  lemma ActedBlocks(w: World, request: Request)
    requires Unblocked(w)
    ensures BlocksReply(ActedOn(w, request))
  {
    if request.verb == UNKNOWN || request.verb == LIST || request.name.None? {
      RespondBlocks(w, if request.verb == LIST && request.name.None? then Success else Failure(BadRequest));
    } else {
      NamedBlocks(w.(c := w.c.(filename := StoredName(request.name.value))));
    }
  }

  lemma RecvHeaderBlocks(w: World)
    requires Unblocked(w)
    ensures BlocksReply(RecvHeaderBytes(w))
  {
    FillHeaderUnblocked(w);
    var (w1, outcome) := FillHeader(w);
    if outcome == Complete {
      ParseBlocks(w1);
    } else if outcome != Broken {
      RespondBlocks(w1, Failure(BadRequest));
    }
  }

  lemma ParseBlocks(w: World)
    requires Unblocked(w)
    ensures BlocksReply(ParseHeader(w))
  {
    var newline := StrChr(w.c.header, '\n');
    if newline >= 0 {
      var request := ParseLine(w.c.header[..newline]);
      ActedBlocks(w.(c := w.c.(header := Terminated(w.c.header, newline), asked := Some(request),
                               verb := if request.verb == UNKNOWN then w.c.verb else request.verb)),
                  request);
    }
  }

  /** In an event that finds the connection receiving, a write that meets EAGAIN holds the reply up. */
  lemma DispatchBlocks(w: World, mask: Mask)
    requires Steadfast(w) && Receiving(w.c.state) && w.calls == []
    requires mask.write ==> w.sh.polls[w.c.fd] == Write
    ensures BlocksReply(Dispatch(w, mask))
  {
    if !mask.error && mask.read {
      match w.c.state
      case RecvHeader => RecvHeaderBlocks(w);
      case RecvPutSize => RecvSizeBlocks(w);
      case RecvPutData =>
        FillingFile(w);
        RecvDataBlocks(w);
    }
  }

  /** A connection that is accepted has a number that was not given out before. */
  lemma {:induction false} AcceptedAreNew(s: Sys, arrivals: seq<Arrival>, fd: int)
    requires fd in AcceptAll(s, arrivals).clients
    ensures
      var s' := AcceptAll(s, arrivals);
      && s'.episodes == s.episodes
      && ((fd in s.clients && s'.clients[fd] == s.clients[fd]) || s'.clients[fd].id >= s.accepted)
    decreases |arrivals|
  {
    if arrivals != [] {
      match arrivals[0]
      case Connect(k, stream) =>
        if k !in s.sh.fds {
          AcceptedAreNew(Admit(s, k, stream), arrivals[1..], fd);
        }
      case Interrupted =>
        AcceptedAreNew(s, arrivals[1..], fd);
      case NoneLeft =>
    }
  }

  lemma HandleBlocks(s: Sys, listenFd: int, i: Input, fd: int)
    requires SysInv(s, listenFd) && Deliverable(s, i) && i.Report? && i.fd in s.clients && OwnNumbers(s)
    requires fd in Step(s, i).clients && HeldUp(Step(s, i).episodes, Step(s, i).clients[fd].id)
    requires fd in s.clients && HeldUp(s.episodes, s.clients[fd].id) ==> Stuck(s, fd)
    ensures Stuck(Step(s, i), fd)
  {
    assert EntryOk(s, i.fd);
    var w := Begin(s.clients[i.fd], s.sh, i.sched);
    var w' := Dispatch(w, i.mask);
    Dispatching(w, i.mask);
    assert fd in s.clients && Step(s, i).clients[fd].id == s.clients[fd].id;
    HeldUpWhen(s.episodes, Episode(w'.c.id, w.c.state, w'.calls), s.clients[fd].id);
    if HeldUp(s.episodes, s.clients[fd].id) {
      StuckStays(s, listenFd, i, fd);
    } else {
      DispatchBlocks(w, i.mask);
    }
  }

  lemma HeldUpWhen(episodes: seq<Episode>, e: Episode, id: nat)
    requires HeldUp(episodes + [e], id)
    ensures HeldUp(episodes, id) || (e.id == id && Receiving(e.from) && WriteBlocked(e.calls))
  {
    var all := episodes + [e];
    var i :| 0 <= i < |all| && all[i].id == id && Receiving(all[i].from) && WriteBlocked(all[i].calls);
  }

  lemma {:induction false} HeldUpIsStuck(listenFd: nat, inputs: seq<Input>, fd: int)
    requires Feasible(listenFd, inputs) && fd in Run(listenFd, inputs).clients
    requires HeldUp(Run(listenFd, inputs).episodes, Run(listenFd, inputs).clients[fd].id)
    ensures Stuck(Run(listenFd, inputs), fd)
  {
    if inputs != [] {
      var before, i := inputs[..|inputs| - 1], inputs[|inputs| - 1];
      var s := Run(listenFd, before);
      RunKeeps(listenFd, before);
      NumbersAreOwn(listenFd, before);
      if fd in s.clients && HeldUp(s.episodes, s.clients[fd].id) {
        HeldUpIsStuck(listenFd, before, fd);
      }
      match i
      case Incoming(arrivals) =>
        AcceptedAreNew(s, arrivals, fd);
        Outcomes.RunTold(listenFd, before);
        StuckStays(s, listenFd, i, fd);
      case Report(k, mask, sched) =>
        if k in s.clients {
          HandleBlocks(s, listenFd, i, fd);
        }
    }
  }

  /** Exactly when a reply is never sent: a connection waits to begin its reply while it is registered for reading if
      and only if, in an event that found it receiving, a write met EAGAIN. */
  lemma StuckExactly(listenFd: nat, inputs: seq<Input>, fd: int)
    requires Feasible(listenFd, inputs) && fd in Run(listenFd, inputs).clients
    ensures
      var s := Run(listenFd, inputs);
      Stuck(s, fd) <==> HeldUp(s.episodes, s.clients[fd].id)
  {
    if Stuck(Run(listenFd, inputs), fd) {
      StuckIsHeldUp(listenFd, inputs, fd);
    }
    if HeldUp(Run(listenFd, inputs).episodes, Run(listenFd, inputs).clients[fd].id) {
      HeldUpIsStuck(listenFd, inputs, fd);
    }
  }
}
