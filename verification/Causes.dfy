/** What brought an outcome about: how one event on a connection accounts for its answer, for the end of the
    connection and for its events of the history by the calls that were made for it. */
module Causes {
  import opened Bytes
  import opened Protocol
  import opened Calls
  import opened History
  import opened Kernel
  import opened Handlers
  import opened SharedInvariant
  import opened ConnInvariant
  import opened CallProofs
  import opened HandlerProofs
  import opened DispatchProofs
  import opened RequestProofs

  // -------- calls --------

  /** A call that breaks its connection off: an error event, a write that failed other than with EAGAIN, or nothing
      read from a file that should have more. */
  predicate Breaking(call: Call) {
    match call
    case HangUp => true
    case SocketWrite(_, r) => r.Error? && r.errno != EAGAIN
    case FileRead(_, n) => n == 0
    case _ => false
  }

  ghost predicate Broke(calls: seq<Call>) {
    exists call :: call in calls && Breaking(call)
  }

  ghost predicate NoUnlink(calls: seq<Call>) {
    forall call :: call in calls ==> !call.FileUnlink?
  }

  /** Calls that are made once an answer is decided; they have no part in it. */
  predicate Aftermath(call: Call, verb: Verb) {
    call.SocketWrite? || call.FileRead? || call.Allocate? || call.HangUp? || (call.FileUnlink? && verb == PUT)
  }

  ghost predicate OnlyAftermath(before: seq<Call>, calls: seq<Call>, verb: Verb) {
    before <= calls && forall i :: |before| <= i < |calls| ==> Aftermath(calls[i], verb)
  }

  lemma {:induction false} AftermathCourse(before: seq<Call>, calls: seq<Call>, verb: Verb)
    requires OnlyAftermath(before, calls, verb)
    ensures CourseOf(calls) == CourseOf(before)
  {
    if calls != before {
      AftermathCourse(before, calls[..|calls| - 1], verb);
    }
  }

  lemma {:induction false} AftermathDenied(before: seq<Call>, calls: seq<Call>, verb: Verb)
    requires OnlyAftermath(before, calls, verb) && verb != PUT
    ensures Denied(calls) == Denied(before)
  {
    if calls != before {
      AftermathDenied(before, calls[..|calls| - 1], verb);
      DeniedNext(calls[..|calls| - 1], calls[|calls| - 1]);
      assert calls == calls[..|calls| - 1] + [calls[|calls| - 1]];
    }
  }

  /** Calls that left an upload running do not matter to what becomes of it. */
  lemma {:induction false} CourseConcat(past: seq<Call>, calls: seq<Call>)
    requires CourseOf(past) == Running
    ensures CourseOf(past + calls) == CourseOf(calls)
  {
    if calls == [] {
      assert past + calls == past;
    } else {
      CourseConcat(past, calls[..|calls| - 1]);
      assert (past + calls)[..|past + calls| - 1] == past + calls[..|calls| - 1];
    }
  }

  lemma {:induction false} DeniedConcat(past: seq<Call>, calls: seq<Call>)
    requires Denied(past) == None
    ensures Denied(past + calls) == Denied(calls)
  {
    if calls == [] {
      assert past + calls == past;
    } else {
      DeniedConcat(past, calls[..|calls| - 1]);
      assert (past + calls)[..|past + calls| - 1] == past + calls[..|calls| - 1];
    }
  }

  // -------- one event so far --------

  /** Where an event began: all calls made for the connection until then, the length of the history, the connection's
      place in it, and the open descriptors. */
  datatype Origin = Origin(past: seq<Call>, start: nat, op: int, fds: map<int, Descriptor>)

  /** The event has added nothing to the history and opened nothing yet. */
  ghost predicate AtStart(o: Origin, w: World) {
    |w.sh.trace| == o.start && w.sh.fds == o.fds
  }

  /** What an event of the history says of other uploads is what the descriptors showed. */
  ghost predicate Seen(o: Origin, e: Event) {
    match e
    case PutOpened(_, _, ino, written, _) => written ==> Written(o.fds, ino)
    case Deleted(_, name, uploading) => uploading ==> Uploading(o.fds, name)
    case _ => true
  }

  function All(o: Origin, w: World): seq<Call> {
    o.past + w.calls
  }

  /** The history names the calls behind a refusal, a failed upload and a teardown. */
  ghost predicate EventTold(e: Event, calls: seq<Call>) {
    match e
    case Refused(_, _, _, denied) => denied.Some? ==> denied.value in calls
    case Rejected(_, _, _, _, course) => course.Failed? && CourseOf(calls) == course
    case TornDown(_, _) => FileUnlink(true, true) in calls
    case _ => true
  }

  /** The event's own entry `j` of the history is accounted for by the calls, and was done for the request. */
  ghost predicate News(o: Origin, w: World, j: nat)
    requires j < |w.sh.trace|
  {
    w.sh.trace[j].id == w.c.id && EventTold(w.sh.trace[j], All(o, w)) && DoneFor(w.sh.trace, j, w.c)
    && Seen(o, w.sh.trace[j])
  }

  /** The event's own entries of the history are accounted for, and so is the list buffer; the connection was given
      at most one place in the history. */
  ghost predicate Noted(o: Origin, w: World) {
    && o.start <= |w.sh.trace| && (forall j :: o.start <= j < |w.sh.trace| ==> News(o, w, j))
    && (w.c.oom <==> Allocate(false) in All(o, w)) && (w.c.oom ==> w.c.op == -1)
    && (w.c.op == o.op || (o.op == -1 && o.start <= w.c.op < |w.sh.trace|))
  }

  /** Nothing has been unlinked but for a DELETE, and no PUT that was not well-formed has a file. */
  ghost predicate Based(o: Origin, w: World) {
    && Noted(o, w) && w.alive && (w.c.verb != DELETE ==> NoUnlink(All(o, w)))
    && (w.c.verb == PUT ==> Asks(w.c, PUT) || w.c.filename !in w.sh.dir)
  }

  /** No file has been opened for the connection. */
  predicate Early(c: Conn) {
    c.state == RecvHeader || c.state == RecvPutSize
  }

  /** The request has not been decided. */
  predicate Undone(c: Conn) {
    c.op == -1 && !c.oom
  }

  ghost predicate Sound(o: Origin, w: World) {
    Based(o, w) && !Broke(All(o, w))
  }

  /** What became of the name of an upload that was freed unfinished: the system unlinked it, or refused to, or there
      was no such file. */
  ghost predicate TakenAway(c: Conn, calls: seq<Call>, t: seq<Event>, dir: map<bytes, nat>) {
    if FileUnlink(true, true) in calls then t != [] && t[|t| - 1] == TornDown(c.id, c.filename)
    else c.filename in dir ==> FileUnlink(true, false) in calls
  }

  /** An OK was not sent in full. */
  predicate CutOff(c: Conn) {
    c.state == SendOk ==> c.respSent < |c.resp|
  }

  /** The request line could not be read to its end. */
  predicate HeaderBroke(c: Conn, calls: seq<Call>) {
    c.state == RecvHeader && (SocketRead(1, Error(EIO)) in calls || c.wire.got >= |c.wire.stream|)
  }

  /** How a connection stands after an event: still there or done, and then nothing broke it; or broken off. */
  ghost predicate Kept(o: Origin, w: World) {
    && Noted(o, w)
    && (w.alive && Early(w.c) ==> |w.sh.trace| == o.start)
    && (if w.alive || w.c.state == Done then (w.c.verb != DELETE ==> NoUnlink(All(o, w))) && !Broke(All(o, w))
        else
          && (Broke(All(o, w)) || HeaderBroke(w.c, All(o, w))) && CutOff(w.c)
          && (w.c.verb == PUT ==> TakenAway(w.c, All(o, w), w.sh.trace, w.sh.dir)))
  }

  /** Between the two worlds only the wire, the counters and the state of the connection changed. */
  predicate SameCourse(w: World, w1: World) {
    && w1.c.id == w.c.id && SameRequest(w.c, w1.c) && w1.c.op == w.c.op && w1.c.oom == w.c.oom
    && w1.sh.trace == w.sh.trace && w1.sh.dir == w.sh.dir && w1.alive == w.alive
  }

  lemma ToldLater(e: Event, calls: seq<Call>, call: Call)
    requires EventTold(e, calls)
    ensures EventTold(e, calls + [call])
  {
    CourseNext(calls, call);
  }

  /** One more call. */
  lemma CallNoted(o: Origin, w: World, w1: World, call: Call)
    requires Noted(o, w) && SameCourse(w, w1) && w1.calls == w.calls + [call] && call != Allocate(false)
    ensures Noted(o, w1) && All(o, w1) == All(o, w) + [call]
  {
    assert All(o, w1) == All(o, w) + [call];
    forall j | o.start <= j < |w.sh.trace| ensures News(o, w1, j) {
      assert News(o, w, j);
      ToldLater(w.sh.trace[j], All(o, w), call);
      DoneForSame(w.sh.trace, j, w.c, w1.c);
    }
  }

  /** The connection changed without a call, but not its request nor its place in the history. */
  lemma MovedNoted(o: Origin, w: World, w1: World)
    requires Noted(o, w) && SameCourse(w, w1) && w1.calls == w.calls
    ensures Noted(o, w1) && All(o, w1) == All(o, w)
  {
    forall j | o.start <= j < |w.sh.trace| ensures News(o, w1, j) {
      assert News(o, w, j);
      DoneForSame(w.sh.trace, j, w.c, w1.c);
    }
  }

  lemma MovedSound(o: Origin, w: World, w1: World)
    requires Sound(o, w) && SameCourse(w, w1) && w1.calls == w.calls
    ensures Sound(o, w1) && All(o, w1) == All(o, w)
  {
    MovedNoted(o, w, w1);
  }

  /** The event that decides the request enters the history, and with it the connection's place. */
  lemma DecidedSound(o: Origin, w: World, w1: World, e: Event)
    requires Sound(o, w) && Undone(w.c) && w1.alive && w1.calls == w.calls
    requires w1.c.id == w.c.id == e.id && SameRequest(w.c, w1.c) && w1.c.op == |w.sh.trace| && !w1.c.oom
    requires w1.sh.trace == w.sh.trace + [e] && (w.c.verb == PUT ==> w1.sh.dir == w.sh.dir)
    requires EventTold(e, All(o, w)) && DoneFor(w1.sh.trace, |w.sh.trace|, w1.c) && Seen(o, e)
    ensures Sound(o, w1) && All(o, w1) == All(o, w)
  {
    forall j | o.start <= j < |w1.sh.trace| ensures News(o, w1, j) {
      if j < |w.sh.trace| {
        assert News(o, w, j);
        DoneForLater(w.sh.trace, w1.sh.trace, j, w.c);
        DoneForDecided(w1.sh.trace, j, w.c, w1.c);
      }
    }
  }

  lemma CallBased(o: Origin, w: World, w1: World, call: Call)
    requires Based(o, w) && SameCourse(w, w1) && w1.calls == w.calls + [call]
    requires call != Allocate(false) && !call.FileUnlink?
    ensures Based(o, w1) && (Broke(All(o, w1)) <==> Broke(All(o, w)) || Breaking(call))
  {
    CallNoted(o, w, w1, call);
    if Broke(All(o, w)) {
      var b :| b in All(o, w) && Breaking(b);
      assert b in All(o, w1);
    }
    assert call in All(o, w1);
  }

  // -------- the end of a connection --------

  /** The calls since `w0` are aftermath, and the request is the same. */
  ghost predicate Trails(w0: World, w: World) {
    OnlyAftermath(w0.calls, w.calls, w.c.verb) && SameRequest(w0.c, w.c)
  }

  lemma CallTrails(w0: World, w: World, w1: World, call: Call)
    requires Trails(w0, w) && w1.calls == w.calls + [call] && SameRequest(w.c, w1.c) && Aftermath(call, w.c.verb)
    ensures Trails(w0, w1)
  {
  }

  lemma AbortKept(o: Origin, w: World)
    requires Based(o, w)
    requires if w.c.state == Done then !Broke(All(o, w)) else Broke(All(o, w)) || HeaderBroke(w.c, All(o, w))
    requires CutOff(w.c)
    ensures Kept(o, Destroy(AbortUpload(w)))
  {
    if w.c.verb == PUT && w.c.state != Done {
      var (w1, ok) := Unlink(w);
      var call := w1.calls[|w.calls|];
      CallNoted(o, w, w1, call);
      assert call in All(o, w1);
      if b :| b in All(o, w) && Breaking(b) {
        assert b in All(o, w1);
      }
      if ok {
        TornNoted(o, w1);
      }
      assert Noted(o, AbortUpload(w)) && All(o, AbortUpload(w)) == All(o, w1);
      DestroyNoted(o, AbortUpload(w));
    } else {
      DestroyNoted(o, w);
    }
  }

  lemma DestroyNoted(o: Origin, w: World)
    requires Noted(o, w)
    ensures Noted(o, Destroy(w)) && All(o, Destroy(w)) == All(o, w)
  {
    forall j | o.start <= j < |w.sh.trace| ensures News(o, Destroy(w), j) {
      assert News(o, w, j);
    }
  }

  lemma TornNoted(o: Origin, w1: World)
    requires Noted(o, w1) && Asks(w1.c, PUT) && FileUnlink(true, true) in All(o, w1)
    ensures
      var w2 := w1.(sh := TearDown(w1.sh, w1.c.id, w1.c.filename));
      Noted(o, w2) && All(o, w2) == All(o, w1)
  {
    var w2 := w1.(sh := TearDown(w1.sh, w1.c.id, w1.c.filename));
    forall j | o.start <= j < |w2.sh.trace| ensures News(o, w2, j) {
      if j < |w1.sh.trace| {
        assert News(o, w1, j);
        DoneForLater(w1.sh.trace, w2.sh.trace, j, w1.c);
      }
    }
  }

  /** Closing a connection: done, or broken off for a reason. */
  lemma ClosingKept(o: Origin, w0: World, w: World)
    requires Based(o, w) && Trails(w0, w)
    requires if w.c.state == Done then !Broke(All(o, w)) else Broke(All(o, w)) || HeaderBroke(w.c, All(o, w))
    requires CutOff(w.c)
    ensures Kept(o, CloseAndCleanup(w)) && Trails(w0, CloseAndCleanup(w)) && CloseAndCleanup(w).c == w.c
  {
    MovedNoted(o, w, w.(sh := CloseSocket(w.sh, w.c.fd)));
    AbortKept(o, w.(sh := CloseSocket(w.sh, w.c.fd)));
  }

  lemma FinishKept(o: Origin, w0: World, w: World)
    requires Sound(o, w) && Trails(w0, w)
    ensures Kept(o, Finish(w)) && Trails(w0, Finish(w)) && Finish(w).c == w.c.(state := Done)
  {
    MovedSound(o, w, w.(c := w.c.(state := Done)));
    ClosingKept(o, w0, w.(c := w.c.(state := Done)));
  }

  // -------- replies --------

  /** The connection said, or is saying, what it decided to say: the outcome is still `status`, unless a LIST had no
      memory for its buffer. */
  ghost predicate Answers(o: Origin, w0: World, w: World, status: Status) {
    && Kept(o, w) && Trails(w0, w) && !Receiving(w.c.state)
    && (w.c.status == status || (status.Success? && w.c.verb == LIST && w.c.status == Failure(BadRequest)))
  }

  lemma RespondAnswers(o: Origin, w0: World, w: World, status: Status)
    requires Sound(o, w) && Trails(w0, w)
    requires status.Success? && w.c.verb == LIST ==> Asks(w.c, LIST) && Undone(w.c)
    ensures Answers(o, w0, Respond(w, status), status)
    decreases if status.Success? then 4 else 1
  {
    MovedSound(o, w, Prepared(w, status));
    WriteReplyAnswers(o, w0, Prepared(w, status));
  }

  /** A write to the socket breaks the connection off exactly if it fails other than with EAGAIN. */
  lemma WriteSound(o: Origin, w0: World, w: World, data: bytes)
    requires Sound(o, w) && Trails(w0, w)
    ensures
      var (w1, r) := SockWrite(w, data);
      && Based(o, w1) && Trails(w0, w1) && (Broke(All(o, w1)) <==> r.Error? && r.errno != EAGAIN)
      && w1.c == w.c.(wire := w1.c.wire) && w1.sh == w.sh
  {
    var (w1, r) := SockWrite(w, data);
    CallBased(o, w, w1, SocketWrite(|data|, r));
    CallTrails(w0, w, w1, SocketWrite(|data|, r));
  }

  lemma WriteReplyAnswers(o: Origin, w0: World, w: World)
    requires Sound(o, w) && Trails(w0, w)
    requires w.c.state == if w.c.status.Success? then SendOk else SendError
    requires w.c.state == SendOk && w.c.verb == LIST ==> Asks(w.c, LIST) && Undone(w.c)
    requires CutOff(w.c)
    ensures Answers(o, w0, WriteReply(w), w.c.status)
    decreases if w.c.state == SendOk then 3 else 0, 1
  {
    var data := Drop(w.c.resp, w.c.respSent);
    var (w1, r) := SockWrite(w, data);
    WriteSound(o, w0, w, data);
    if r.Count? {
      var w2 := w1.(c := w1.c.(respSent := w.c.respSent + r.n));
      assert WriteReply(w) == ReplyMoved(w2);
      MovedSound(o, w1, w2);
      ReplyMovedAnswers(o, w0, w2);
    } else if r.errno != EAGAIN {
      ClosingKept(o, w0, w1);
    }
  }

  lemma ReplyMovedAnswers(o: Origin, w0: World, w: World)
    requires Sound(o, w) && Trails(w0, w)
    requires w.c.state == if w.c.status.Success? then SendOk else SendError
    requires w.c.state == SendOk && w.c.verb == LIST ==> Asks(w.c, LIST) && Undone(w.c)
    ensures Answers(o, w0, ReplyMoved(w), w.c.status)
    decreases if w.c.state == SendOk then 3 else 0, 0
  {
    if w.c.respSent != |w.c.resp| {
      MovedSound(o, w, Arm(w, Write));
    } else if w.c.state == SendOk && w.c.verb == LIST {
      StartListAnswers(o, w0, w);
    } else if w.c.state == SendOk && w.c.verb == GET {
      MovedSound(o, w, ReplyMoved(w));
    } else {
      FinishKept(o, w0, w);
    }
  }

  /** A buffer that cannot be allocated is the reason for the error reply that follows. */
  lemma StartListAnswers(o: Origin, w0: World, w: World)
    requires Sound(o, w) && Trails(w0, w) && w.c.state == SendOk && w.c.status == Success
    requires Asks(w.c, LIST) && Undone(w.c)
    ensures Answers(o, w0, StartSendList(w), Success)
    decreases 2
  {
    var (w1, memory) := Alloc(w, |ListBuffer(w.sh.list)|);
    CallTrails(w0, w, w1, Allocate(memory));
    if memory {
      CallBased(o, w, w1, Allocate(true));
      var w2 := LogOp(w1, Listed(w1.c.id, w1.sh.list));
      DecidedSound(o, w1, w2, Listed(w1.c.id, w1.sh.list));
      MovedSound(o, w2, StartSendList(w));
    } else {
      var w2 := w1.(c := w1.c.(oom := true));
      ListFailsSound(o, w, w2);
      RespondAnswers(o, w0, w2, Failure(BadRequest));
    }
  }

  lemma ListFailsSound(o: Origin, w: World, w2: World)
    requires Sound(o, w) && w2.calls == w.calls + [Allocate(false)]
    requires w2.c == w.c.(oom := true) && w2.sh == w.sh && w2.alive && w.c.op == -1
    ensures Sound(o, w2)
  {
    var call := Allocate(false);
    assert All(o, w2) == All(o, w) + [call];
    assert call in All(o, w2);
    forall j | o.start <= j < |w.sh.trace| ensures News(o, w2, j) {
      assert News(o, w, j);
      ToldLater(w.sh.trace[j], All(o, w), call);
      DoneForSame(w.sh.trace, j, w.c, w2.c);
    }
  }

  // -------- payloads --------

  lemma SizeMovedAnswers(o: Origin, w0: World, w: World, n: nat)
    requires Sound(o, w) && Trails(w0, w) && w.c.state == SendGetSize
    ensures Answers(o, w0, SizeMoved(w, n), w.c.status)
  {
    MovedSound(o, w, SizeMoved(w, n));
  }

  lemma SendSizeAnswers(o: Origin, w0: World, w: World)
    requires Sound(o, w) && Trails(w0, w) && w.c.state == SendGetSize
    ensures Answers(o, w0, SendSize(w), w.c.status)
  {
    var w1 := SizeReady(w);
    MovedSound(o, w, w1);
    var data := Drop(w1.c.resp, w1.c.respSent);
    var (w2, r) := SockWrite(w1, data);
    WriteSound(o, w0, w1, data);
    if r.Count? {
      SizeMovedAnswers(o, w0, w2, r.n);
    } else if r.errno != EAGAIN {
      ClosingKept(o, w0, w2);
    }
  }

  lemma SendListAnswers(o: Origin, w0: World, w: World)
    requires Sound(o, w) && Trails(w0, w) && w.c.state == SendListData
    ensures Answers(o, w0, SendList(w), w.c.status)
  {
    var buffer := w.c.listBuf.GetOr([]);
    var data := Drop(buffer, w.c.listSent);
    var (w1, r) := SockWrite(w, data);
    WriteSound(o, w0, w, data);
    if r.Count? {
      ListMovedAnswers(o, w0, w1, r.n, |buffer|);
    } else if r.errno != EAGAIN {
      ClosingKept(o, w0, w1);
    }
  }

  lemma ListMovedAnswers(o: Origin, w0: World, w: World, n: nat, size: nat)
    requires Sound(o, w) && Trails(w0, w) && w.c.state == SendListData
    ensures Answers(o, w0, ListMoved(w, n, size), w.c.status)
  {
    var w1 := w.(c := w.c.(listSent := w.c.listSent + n));
    MovedSound(o, w, w1);
    if w1.c.listSent == size {
      FinishKept(o, w0, w1);
    }
  }

  /** What the loop over a file's body leaves in the record. */
  ghost predicate Streams(o: Origin, w0: World, w: World, w1: World, outcome: Outcome) {
    Based(o, w1) && Trails(w0, w1) && w1.c.state == w.c.state && w1.c.status == w.c.status
    && (Broke(All(o, w1)) <==> outcome == Broken)
  }

  lemma ChunkStreams(o: Origin, w0: World, w: World, chunk: bytes)
    requires Sound(o, w) && Trails(w0, w)
    ensures Streams(o, w0, w, ChunkSent(w, chunk).0, ChunkSent(w, chunk).1)
  {
    var (w1, r) := SockWrite(w, chunk);
    WriteSound(o, w0, w, chunk);
    if r.Count? {
      MovedSound(o, w1, w1.(c := w1.c.(transferred := w1.c.transferred + r.n)));
    }
  }

  lemma BodyStepStreams(o: Origin, w0: World, w: World)
    requires Sound(o, w) && Trails(w0, w) && w.c.transferred < w.c.fileSize
    ensures Streams(o, w0, w, BodyStep(w).0, BodyStep(w).1)
  {
    var count := Min(BUFFER_SIZE, w.c.fileSize - w.c.transferred);
    var (w1, chunk) := Pread(w, count, w.c.transferred);
    CallBased(o, w, w1, FileRead(count, |chunk|));
    CallTrails(w0, w, w1, FileRead(count, |chunk|));
    if chunk != [] {
      ChunkStreams(o, w0, w1, chunk);
    }
  }

  lemma {:induction false} DrainFileStreams(o: Origin, w0: World, w: World)
    requires Sound(o, w) && Trails(w0, w)
    ensures Streams(o, w0, w, DrainFile(w).0, DrainFile(w).1)
    decreases w.c.fileSize - w.c.transferred
  {
    if w.c.transferred < w.c.fileSize {
      BodyStepStreams(o, w0, w);
      if BodyStep(w).1 == More {
        DrainFileStreams(o, w0, BodyStep(w).0);
      }
    }
  }

  lemma SendDataAnswers(o: Origin, w0: World, w: World)
    requires Sound(o, w) && Trails(w0, w) && w.c.state == SendGetData && DrainFile(w).1 != More
    ensures Answers(o, w0, SendData(w), w.c.status)
  {
    DrainFileStreams(o, w0, w);
    var (w1, outcome) := DrainFile(w);
    if outcome == Broken {
      ClosingKept(o, w0, w1);
    } else if outcome == Complete {
      FinishKept(o, w0, w1);
    }
  }

  // -------- receiving --------

  lemma ReadSound(o: Origin, w: World, count: nat)
    requires Sound(o, w)
    ensures Sound(o, SockRead(w, count).0) && SameCourse(w, SockRead(w, count).0)
  {
    var (w1, r) := SockRead(w, count);
    CallBased(o, w, w1, SocketRead(count, r));
  }

  lemma SizeStepSound(o: Origin, w: World)
    requires Sound(o, w) && w.c.transferred < SIZE_BYTES
    ensures Sound(o, SizeStep(w).0) && SizeStep(w).0.sh == w.sh
  {
    ReadSound(o, w, SIZE_BYTES - w.c.transferred);
    var (w1, r) := SockRead(w, SIZE_BYTES - w.c.transferred);
    if r.Count? && r.n > 0 {
      SizeJoins(o, w1, r.n);
    }
  }

  lemma SizeJoins(o: Origin, w: World, n: nat)
    requires Sound(o, w)
    ensures Sound(o, StoreSize(w, n)) && StoreSize(w, n).sh == w.sh
  {
    MovedSound(o, w, StoreSize(w, n));
  }

  lemma {:induction false} FillSizeSound(o: Origin, w: World)
    requires Sound(o, w)
    ensures Sound(o, FillSize(w).0) && FillSize(w).0.sh == w.sh
    decreases SIZE_BYTES - w.c.transferred, |w.sched|
  {
    if w.c.transferred < SIZE_BYTES {
      SizeStepSound(o, w);
      if SizeStep(w).1 == More {
        FillSizeSound(o, SizeStep(w).0);
      }
    }
  }

  lemma PwriteSound(o: Origin, w: World, d: bytes, off: nat)
    requires Sound(o, w)
    ensures Sound(o, Pwrite(w, d, off).0)
  {
    var (w1, r) := Pwrite(w, d, off);
    CallBased(o, w, w1, FileWrite(|d|, r));
  }

  lemma ReadChunkSound(o: Origin, w: World, count: nat)
    requires Sound(o, w)
    ensures Sound(o, ReadChunk(w, count).0)
  {
    ReadSound(o, w, count);
    var (w1, r) := SockRead(w, count);
    if r.Count? && r.n > 0 {
      PwriteSound(o, w1, JustRead(w1.c, r.n), w1.c.transferred);
      MovedSound(o, Pwrite(w1, JustRead(w1.c, r.n), w1.c.transferred).0, StoreChunk(w1, r.n).0);
    }
  }

  lemma FileStepSound(o: Origin, w: World)
    requires Sound(o, w) && w.c.transferred < SizeOf(w.c.expected)
    ensures Sound(o, FileStep(w).0)
  {
    var count := Min(BUFFER_SIZE, SizeOf(w.c.expected) - w.c.transferred);
    assert FileStep(w) == ReadChunk(w, count);
    ReadChunkSound(o, w, count);
  }

  lemma {:induction false} FillFileSound(o: Origin, w: World)
    requires Sound(o, w)
    ensures Sound(o, FillFile(w).0)
    decreases SizeOf(w.c.expected) - w.c.transferred, |w.sched|
  {
    if w.c.transferred < SizeOf(w.c.expected) {
      FileStepSound(o, w);
      if FileStep(w).1 == More {
        FillFileSound(o, FileStep(w).0);
      }
    }
  }

  lemma HeaderStepSound(o: Origin, w: World)
    requires Sound(o, w) && w.c.state == RecvHeader && |w.sh.trace| == o.start && |w.c.header| < HEADER_MAX - 1
    requires w.c.verb == GET
    ensures HeaderStep(w).0.c.verb == GET
    ensures Sound(o, HeaderStep(w).0) && HeaderStep(w).0.c.state == RecvHeader && HeaderStep(w).0.sh == w.sh
    ensures HeaderStep(w).1 == Broken ==> HeaderBroke(HeaderStep(w).0.c, All(o, HeaderStep(w).0))
  {
    var (w1, r) := SockRead(w, 1);
    ReadSound(o, w, 1);
    assert SocketRead(1, r) in All(o, w1);
    if r.Count? && r.n > 0 {
      HeardSound(o, w1, StoreByte(w1, r.n).0);
    }
  }

  /** The request line grows or is taken apart while the event has no entry in the history. */
  lemma HeardSound(o: Origin, w: World, w1: World)
    requires Sound(o, w) && |w.sh.trace| == o.start && w1.sh == w.sh && w1.calls == w.calls && w1.alive
    requires w1.c.id == w.c.id && w1.c.op == w.c.op && w1.c.oom == w.c.oom && w.c.verb != DELETE
    requires w1.c.verb == PUT ==> Asks(w1.c, PUT) || w1.c.filename !in w1.sh.dir
    ensures Sound(o, w1) && All(o, w1) == All(o, w)
  {
  }

  /** The header loop stops broken only at the end of the stream or on a read error. */
  lemma {:induction false} FillHeaderSound(o: Origin, w: World)
    requires Sound(o, w) && w.c.state == RecvHeader && |w.sh.trace| == o.start && w.c.verb == GET
    ensures Sound(o, FillHeader(w).0) && FillHeader(w).0.c.state == RecvHeader && FillHeader(w).0.sh == w.sh
    ensures FillHeader(w).1 == Broken ==> HeaderBroke(FillHeader(w).0.c, All(o, FillHeader(w).0))
    decreases HEADER_MAX - |w.c.header|, |w.sched|
  {
    if |w.c.header| < HEADER_MAX - 1 {
      HeaderStepSound(o, w);
      if HeaderStep(w).1 == More {
        FillHeaderSound(o, HeaderStep(w).0);
      }
    }
  }

  lemma {:induction false} FillHeaderTells(w: World)
    requires CourseOf(w.calls) == Running
    ensures Tells(FillHeader(w).0, FillHeader(w).1)
    decreases HEADER_MAX - |w.c.header|, |w.sched|
  {
    if |w.c.header| < HEADER_MAX - 1 {
      ReadTells(w, 1);
      if HeaderStep(w).1 == More {
        FillHeaderTells(HeaderStep(w).0);
      }
    }
  }

  // -------- why an upload fails --------

  /** The stream ends before the announced body does, or even before the size. */
  predicate TooShort(c: Conn) {
    var start := |c.header| + SIZE_BYTES;
    |c.wire.stream| < start || |c.wire.stream| < start + SizeOf(c.wire.stream[|c.header|..start])
  }

  /** The peer sends more than it announced. */
  predicate TooLong(c: Conn) {
    var start := |c.header| + SIZE_BYTES;
    |c.wire.stream| > start && |c.wire.stream| > start + SizeOf(c.wire.stream[|c.header|..start])
  }

  /** An end of file or an extra byte is due to what the peer sends. */
  predicate Explained(c: Conn, course: Course) {
    && (course == Failed(EndOfInput) ==> TooShort(c))
    && (course == Failed(ExtraByte) ==> TooLong(c))
  }

  /** Body bytes are read where the stream has them, `size` of them at most. */
  predicate Reading(c: Conn, size: nat) {
    && c.wire.got == |c.header| + SIZE_BYTES + c.transferred <= |c.wire.stream| && c.transferred <= size
    && Asks(c, PUT) && Undone(c)
  }

  /** A step, or the whole loop, leaves the upload where it can go on, or breaks because the stream ends early or for
      no fault of the stream's. */
  ghost predicate StaysReading(w: World, w1: World, outcome: Outcome, size: nat) {
    && SameRequest(w.c, w1.c) && w1.c.state == w.c.state && w1.c.expected == w.c.expected && w1.c.id == w.c.id
    && w1.c.fileFd == w.c.fileFd && w1.sh.trace == w.sh.trace && w1.sh.fds == w.sh.fds && Undone(w1.c)
    && (if outcome == Broken then
          && (CourseOf(w1.calls) == Failed(EndOfInput) ==> |w1.c.wire.stream| < |w1.c.header| + SIZE_BYTES + size)
          && CourseOf(w1.calls) != Failed(ExtraByte)
        else Reading(w1.c, size))
  }

  /** A read of the body that brought nothing. */
  ghost predicate BroughtNothing(w: World, w1: World, call: Call, outcome: Outcome) {
    && w1.c == w.c && w1.sh == w.sh && w1.calls == w.calls + [call] && call.SocketRead?
    && (match call.r
        case Error(e) => outcome == OnError(e)
        case Count(n) => n == 0 && outcome == Broken && w.c.wire.got >= |w.c.wire.stream|)
  }

  lemma ReadsNone(w: World, count: nat)
    requires count > 0 && (SockRead(w, count).1.Error? || SockRead(w, count).1.n == 0)
    ensures
      BroughtNothing(w, ReadChunk(w, count).0, SocketRead(count, SockRead(w, count).1), ReadChunk(w, count).1)
  {
  }

  lemma NothingRead(w: World, w1: World, call: Call, outcome: Outcome, size: nat)
    requires Reading(w.c, size) && w.c.transferred < size && CourseOf(w.calls) == Running
    requires BroughtNothing(w, w1, call, outcome)
    ensures StaysReading(w, w1, outcome, size) && outcome != Complete
  {
    CourseNext(w.calls, call);
  }

  /** A write of the `n` bytes of a chunk. */
  ghost predicate Wrote(w: World, w1: World, n: nat, call: Call, outcome: Outcome) {
    && |JustRead(w.c, n)| == n && call.FileWrite? && call.count == n && w1.calls == w.calls + [call]
    && w1.sh.trace == w.sh.trace && w1.sh.fds == w.sh.fds
    && (if call.r == Count(n) then outcome == More && w1.c == w.c.(transferred := w.c.transferred + n)
        else outcome == Broken && w1.c == w.c)
    && (call.r.Error? ==> w1.sh == w.sh)
    && (call.r.Count? ==>
          call.r.n <= n && w1.sh == WriteFile(w.sh, w.c.fileFd, w.c.transferred, JustRead(w.c, n)[..call.r.n]))
  }

  lemma Writes(w: World, n: nat)
    requires n <= w.c.wire.got <= |w.c.wire.stream|
    ensures
      var call := FileWrite(n, Pwrite(w, JustRead(w.c, n), w.c.transferred).1);
      Wrote(w, StoreChunk(w, n).0, n, call, StoreChunk(w, n).1)
  {
  }

  /** The chunk in hand is what comes next of the body. */
  predicate AtHand(c: Conn, n: nat, size: nat) {
    c.wire.got == |c.header| + SIZE_BYTES + c.transferred + n <= |c.wire.stream| && n <= size - c.transferred
  }

  lemma ChunkStored(w: World, w1: World, n: nat, call: Call, outcome: Outcome, size: nat)
    requires AtHand(w.c, n, size) && Asks(w.c, PUT) && Undone(w.c) && CourseOf(w.calls) == Running
    requires Wrote(w, w1, n, call, outcome)
    ensures StaysReading(w, w1, outcome, size) && outcome != Complete
  {
    CourseNext(w.calls, call);
  }

  lemma ReadChunkReads(w: World, count: nat, size: nat)
    requires Reading(w.c, size) && 0 < count <= size - w.c.transferred && CourseOf(w.calls) == Running
    ensures StaysReading(w, ReadChunk(w, count).0, ReadChunk(w, count).1, size) && ReadChunk(w, count).1 != Complete
  {
    var (w1, r) := SockRead(w, count);
    if r.Error? || r.n == 0 {
      ReadsNone(w, count);
      NothingRead(w, ReadChunk(w, count).0, SocketRead(count, r), ReadChunk(w, count).1, size);
    } else {
      ReadTells(w, count);
      var (w2, outcome) := StoreChunk(w1, r.n);
      assert ReadChunk(w, count) == (w2, outcome);
      Writes(w1, r.n);
      ChunkStored(w1, w2, r.n, FileWrite(r.n, Pwrite(w1, JustRead(w1.c, r.n), w1.c.transferred).1), outcome, size);
    }
  }

  lemma FileStepReads(w: World, size: nat)
    requires Reading(w.c, size) && size == SizeOf(w.c.expected) && w.c.transferred < size
    requires CourseOf(w.calls) == Running
    ensures StaysReading(w, FileStep(w).0, FileStep(w).1, size) && FileStep(w).1 != Complete
  {
    assert FileStep(w) == ReadChunk(w, Min(BUFFER_SIZE, size - w.c.transferred));
    ReadChunkReads(w, Min(BUFFER_SIZE, size - w.c.transferred), size);
  }

  /** The loop over the body ends broken only for a reason, and complete with the whole body. */
  lemma {:induction false} FillFileReads(w: World, size: nat)
    requires Reading(w.c, size) && size == SizeOf(w.c.expected) && CourseOf(w.calls) == Running
    ensures StaysReading(w, FillFile(w).0, FillFile(w).1, size) && FillFile(w).1 != More
    ensures FillFile(w).1 == Complete ==> FillFile(w).0.c.transferred == size
    decreases size - w.c.transferred, |w.sched|
  {
    if w.c.transferred < size {
      FileStepReads(w, size);
      FileStepTells(w);
      if FileStep(w).1 == More {
        FillFileReads(FileStep(w).0, size);
      }
    }
  }

  /** The size that was announced is known. */
  predicate Aligned(c: Conn) {
    var start := |c.header| + SIZE_BYTES;
    start <= |c.wire.stream| && c.expected == c.wire.stream[|c.header|..start] && Reading(c, SizeOf(c.expected))
  }

  lemma FillFileAligned(w: World)
    requires Aligned(w.c) && CourseOf(w.calls) == Running
    ensures
      var (w1, outcome) := FillFile(w);
      && SameRequest(w.c, w1.c) && w1.c.state == w.c.state && outcome != More && w1.c.id == w.c.id
      && w1.c.fileFd == w.c.fileFd && w1.sh.trace == w.sh.trace && w1.sh.fds == w.sh.fds && Undone(w1.c)
      && (if outcome == Broken then Explained(w1.c, CourseOf(w1.calls)) && CourseOf(w1.calls) != Failed(ExtraByte)
          else Aligned(w1.c))
      && (outcome == Complete ==> w1.c.transferred == SizeOf(w1.c.expected))
  {
    FillFileReads(w, SizeOf(w.c.expected));
  }

  /** Where the size is being read. */
  predicate SizeReading(w: World) {
    w.c.wire.got == |w.c.header| + w.c.transferred <= |w.c.wire.stream| && CourseOf(w.calls) == Running
  }

  lemma SizeReadsOn(w: World)
    requires SizeReading(w) && w.c.transferred < SIZE_BYTES
    requires var r := SockRead(w, SIZE_BYTES - w.c.transferred).1; r.Count? && r.n > 0
    ensures SizeStep(w).1 == More && SizeReading(SizeStep(w).0)
  {
    var (w1, r) := SockRead(w, SIZE_BYTES - w.c.transferred);
    ReadTells(w, SIZE_BYTES - w.c.transferred);
    SizeJoined(w1, r.n);
  }

  lemma SizeJoined(w: World, n: nat)
    requires w.c.wire.got == |w.c.header| + w.c.transferred + n <= |w.c.wire.stream| && CourseOf(w.calls) == Running
    ensures SizeReading(StoreSize(w, n))
  {
  }

  lemma SizeReadsNothing(w: World)
    requires SizeReading(w) && w.c.transferred < SIZE_BYTES
    requires var r := SockRead(w, SIZE_BYTES - w.c.transferred).1; r.Error? || r.n == 0
    ensures SizeStep(w).1 == Broken ==> Explained(SizeStep(w).0.c, CourseOf(SizeStep(w).0.calls))
    ensures SizeStep(w).1 == More ==> SizeReading(SizeStep(w).0)
  {
    var count := SIZE_BYTES - w.c.transferred;
    var (w1, r) := SockRead(w, count);
    var outcome := if r.Error? then OnError(r.errno) else Broken;
    assert SizeStep(w) == (w1, outcome);
    SizeNothing(w, w1, SocketRead(count, r), outcome);
  }

  lemma SizeNothing(w: World, w1: World, call: Call, outcome: Outcome)
    requires SizeReading(w) && w.c.transferred < SIZE_BYTES && BroughtNothing(w, w1, call, outcome)
    ensures outcome == Broken ==> Explained(w1.c, CourseOf(w1.calls))
    ensures outcome == More ==> SizeReading(w1)
  {
    CourseNext(w.calls, call);
  }

  /** The loop over the size ends broken only for a reason. */
  lemma {:induction false} FillSizeExplains(w: World)
    requires SizeReading(w)
    ensures FillSize(w).1 == Broken ==> Explained(FillSize(w).0.c, CourseOf(FillSize(w).0.calls))
    decreases SIZE_BYTES - w.c.transferred, |w.sched|
  {
    if w.c.transferred < SIZE_BYTES {
      var r := SockRead(w, SIZE_BYTES - w.c.transferred).1;
      if r.Error? || r.n == 0 {
        SizeReadsNothing(w);
      } else {
        SizeReadsOn(w);
      }
      if SizeStep(w).1 == More {
        FillSizeExplains(SizeStep(w).0);
      }
    }
  }

  // -------- what an upload has in its file --------

  /** As long as no other PUT shares it, the file holds the body received so far. */
  ghost predicate Stored(w: World) {
    var file := Ino(w.sh, w.c.fileFd);
    0 <= file < |w.sh.data| && (file !in Tainted(w.sh) ==> w.sh.data[file] == Body(w.c))
  }

  /** The first bytes of a body of `size` bytes; all there are if the stream ended early. */
  ghost predicate BodyPart(c: Conn, d: bytes, size: nat, course: Course) {
    var start := |c.header| + SIZE_BYTES;
    start + |d| <= |c.wire.stream| && c.wire.stream[start..start + |d|] == d && |d| <= size
    && (course == Failed(EndOfInput) ==> start + |d| == |c.wire.stream|)
  }

  /** As long as no other PUT shares it, the file of an upload that broke holds a part of the body. */
  ghost predicate Halted(w: World, size: nat) {
    var file := Ino(w.sh, w.c.fileFd);
    0 <= file < |w.sh.data| && (file !in Tainted(w.sh) ==> BodyPart(w.c, w.sh.data[file], size, CourseOf(w.calls)))
  }

  /** What a failed upload leaves in the file it opened. */
  ghost predicate Leaves(w: World, file: nat) {
    OpenedBy(w.sh.trace, w.c.id, file)
    && (file !in Tainted(w.sh) ==> LeftBehind(w.c, Content(w.sh, file), CourseOf(w.calls)))
  }

  /** As long as no other PUT shares it, the file holds the body up to the chunk in hand. */
  ghost predicate StoredSoFar(w: World) {
    var file, start := Ino(w.sh, w.c.fileFd), |w.c.header| + SIZE_BYTES;
    && 0 <= file < |w.sh.data| && start + w.c.transferred <= |w.c.wire.stream|
    && (file !in Tainted(w.sh) ==> w.sh.data[file] == w.c.wire.stream[start..start + w.c.transferred])
  }

  /** `m` bytes of the chunk were written at the end of the file. */
  lemma PartStored(w: World, n: nat, m: nat, size: nat)
    requires AtHand(w.c, n, size) && m <= n && StoredSoFar(w)
    ensures
      var file, start := Ino(w.sh, w.c.fileFd), |w.c.header| + SIZE_BYTES;
      var sh' := WriteFile(w.sh, w.c.fileFd, w.c.transferred, JustRead(w.c, n)[..m]);
      && Ino(sh', w.c.fileFd) == file < |sh'.data| && sh'.trace == w.sh.trace
      && (file !in Tainted(w.sh) ==> sh'.data[file] == w.c.wire.stream[start..start + w.c.transferred + m])
  {
    var file, start, t := Ino(w.sh, w.c.fileFd), |w.c.header| + SIZE_BYTES, w.c.transferred;
    if file !in Tainted(w.sh) {
      OverlayAppends(w.sh.data[file], JustRead(w.c, n)[..m]);
      StreamGoesOn(w.c.wire.stream, start, start + t, start + t + n, m);
    }
  }

  lemma StreamGoesOn(stream: bytes, start: nat, from: nat, end: nat, m: nat)
    requires start <= from && from + m <= end <= |stream|
    ensures stream[start..from] + stream[from..end][..m] == stream[start..from + m]
  {
  }

  /** After a read the file holds the body up to the bytes just read. */
  lemma ReadStored(w: World, w1: World, n: nat, size: nat)
    requires Reading(w.c, size) && Stored(w) && n <= size - w.c.transferred && w.c.wire.got + n <= |w.c.wire.stream|
    requires w1.c == w.c.(wire := w.c.wire.(got := w.c.wire.got + n)) && w1.sh == w.sh
    ensures StoredSoFar(w1) && AtHand(w1.c, n, size)
  {
    assert Body(w.c) == w.c.wire.stream[|w.c.header| + SIZE_BYTES..w.c.wire.got];
  }

  lemma StoreChunkStored(w: World, w1: World, n: nat, call: Call, outcome: Outcome, size: nat)
    requires AtHand(w.c, n, size) && CourseOf(w.calls) == Running && StoredSoFar(w)
    requires Wrote(w, w1, n, call, outcome)
    ensures if outcome == More then Stored(w1) else Halted(w1, size)
  {
    CourseNext(w.calls, call);
    if call.r.Count? {
      PartStored(w, n, call.r.n, size);
    }
  }

  lemma NothingStored(w: World, w1: World, call: Call, outcome: Outcome, size: nat)
    requires Reading(w.c, size) && CourseOf(w.calls) == Running && Stored(w) && BroughtNothing(w, w1, call, outcome)
    ensures if outcome == Broken then Halted(w1, size) else Stored(w1)
  {
    CourseNext(w.calls, call);
  }

  lemma ReadChunkStored(w: World, count: nat, size: nat)
    requires Reading(w.c, size) && 0 < count <= size - w.c.transferred && CourseOf(w.calls) == Running && Stored(w)
    ensures
      var (w1, outcome) := ReadChunk(w, count);
      if outcome == Broken then Halted(w1, size) else Stored(w1)
  {
    var (w1, r) := SockRead(w, count);
    if r.Error? || r.n == 0 {
      ReadsNone(w, count);
      NothingStored(w, ReadChunk(w, count).0, SocketRead(count, r), ReadChunk(w, count).1, size);
    } else {
      ReadTells(w, count);
      var (w2, outcome) := StoreChunk(w1, r.n);
      assert ReadChunk(w, count) == (w2, outcome);
      Writes(w1, r.n);
      ReadStored(w, w1, r.n, size);
      StoreChunkStored(w1, w2, r.n, FileWrite(r.n, Pwrite(w1, JustRead(w1.c, r.n), w1.c.transferred).1), outcome,
        size);
    }
  }

  lemma FileStepStored(w: World, size: nat)
    requires Reading(w.c, size) && size == SizeOf(w.c.expected) && w.c.transferred < size
    requires CourseOf(w.calls) == Running && Stored(w)
    ensures
      var (w1, outcome) := FileStep(w);
      if outcome == Broken then Halted(w1, size) else Stored(w1)
  {
    assert FileStep(w) == ReadChunk(w, Min(BUFFER_SIZE, size - w.c.transferred));
    ReadChunkStored(w, Min(BUFFER_SIZE, size - w.c.transferred), size);
  }

  /** However the loop over the body ends, the file holds what was received, or a part of it. */
  lemma {:induction false} FillFileStored(w: World, size: nat)
    requires Reading(w.c, size) && size == SizeOf(w.c.expected) && CourseOf(w.calls) == Running && Stored(w)
    ensures
      var (w1, outcome) := FillFile(w);
      if outcome == Broken then Halted(w1, size) else Stored(w1)
    decreases size - w.c.transferred, |w.sched|
  {
    if w.c.transferred < size {
      FileStepReads(w, size);
      FileStepTells(w);
      FileStepStored(w, size);
      if FileStep(w).1 == More {
        FillFileStored(FileStep(w).0, size);
      }
    }
  }

  lemma HaltedLeaves(w: World, w1: World)
    requires Aligned(w.c) && HasOpened(w) && Halted(w1, SizeOf(w.c.expected))
    requires SameRequest(w.c, w1.c) && w1.c.id == w.c.id && w1.c.fileFd == w.c.fileFd && w1.sh.trace == w.sh.trace
    requires w1.sh.fds == w.sh.fds && CourseOf(w1.calls).Failed? && CourseOf(w1.calls) != Failed(ExtraByte)
    ensures Leaves(CloseOwn(w1), Ino(w1.sh, w1.c.fileFd))
  {
    CloseKeepsFailed(w1);
  }

  // -------- decisions --------

  /** An upload is refused exactly if its calls had failed, and for a reason the stream gives if there is one. */
  ghost predicate Judged(w: World) {
    if Receiving(w.c.state) then CourseOf(w.calls) == Running
    else
      (w.c.status == Failure(BadFileSize) <==> CourseOf(w.calls).Failed?) && Explained(w.c, CourseOf(w.calls))
  }

  lemma AnswersJudged(o: Origin, w0: World, w: World, status: Status)
    requires Answers(o, w0, w, status) && w0.c.verb == PUT && Explained(w0.c, CourseOf(w0.calls))
    requires status == Failure(BadFileSize) <==> CourseOf(w0.calls).Failed?
    ensures Judged(w)
  {
    AftermathCourse(w0.calls, w.calls, w.c.verb);
  }

  lemma RejectAnswers(o: Origin, w: World, file: int)
    requires Sound(o, w) && Asks(w.c, PUT) && Undone(w.c) && CourseOf(o.past) == Running && CourseOf(w.calls).Failed?
    requires Explained(w.c, CourseOf(w.calls)) && if file >= 0 then Leaves(w, file) else Silent(w.sh.trace, w.c.id)
    ensures
      var w' := Reject(w, file);
      Kept(o, w') && Judged(w') && !Receiving(w'.c.state)
  {
    var e := Rejection(w, file);
    var w1 := LogOp(w, e);
    CourseConcat(o.past, w.calls);
    assert w1.sh.trace[..|w.sh.trace|] == w.sh.trace;
    DecidedSound(o, w, w1, e);
    RespondAnswers(o, w1, w1, Failure(BadFileSize));
    AnswersJudged(o, w1, Reject(w, file), Failure(BadFileSize));
  }

  lemma CloseOwnSound(o: Origin, w: World)
    requires Sound(o, w)
    ensures Sound(o, CloseOwn(w)) && SameCourse(w, CloseOwn(w))
  {
    CallBased(o, w, CloseOwn(w), FileClose);
  }

  /** A complete upload is refused exactly if a byte too many turned up. */
  lemma FinishUploadJudged(o: Origin, w: World)
    requires Sound(o, w) && CourseOf(o.past) == Running && CourseOf(w.calls) == Running
    requires Aligned(w.c) && w.c.transferred == SizeOf(w.c.expected) && HasOpened(w) && Stored(w)
    ensures Kept(o, FinishUpload(w)) && Judged(FinishUpload(w)) && !Receiving(FinishUpload(w).c.state)
  {
    var (w1, r) := SockRead(CloseOwn(w), 1);
    CloseOwnSound(o, w);
    ReadSound(o, CloseOwn(w), 1);
    ProbeTells(w);
    if r.Count? && r.n > 0 {
      SpoiltLeaves(w, w1);
      RejectAnswers(o, w1, Ino(w.sh, w.c.fileFd));
    } else {
      var w2 := Listing(w, w1);
      CommittedSound(o, w, w1);
      RespondAnswers(o, w2, w2, Success);
      AnswersJudged(o, w2, FinishUpload(w), Success);
    }
  }

  /** The file the connection has open is the one it opened for its upload. */
  ghost predicate HasOpened(w: World) {
    OpenedBy(w.sh.trace, w.c.id, Ino(w.sh, w.c.fileFd))
  }

  lemma BodyAnnounced(c: Conn)
    requires Aligned(c) && c.transferred == SizeOf(c.expected)
    ensures Announced(c, Body(c))
  {
    var start := |c.header| + SIZE_BYTES;
    assert Body(c) == c.wire.stream[start..start + c.transferred];
  }

  /** An extra byte leaves the whole body in the file. */
  lemma SpoiltLeaves(w: World, w1: World)
    requires Aligned(w.c) && w.c.transferred == SizeOf(w.c.expected) && HasOpened(w) && Stored(w)
    requires SameCourse(w, w1) && w1.sh.data == w.sh.data && CourseOf(w1.calls) == Failed(ExtraByte)
    ensures Leaves(w1, Ino(w.sh, w.c.fileFd))
  {
    BodyAnnounced(w.c);
  }

  lemma CommittedSound(o: Origin, w: World, w1: World)
    requires Sound(o, w1) && SameCourse(w, w1) && Aligned(w.c) && w.c.transferred == SizeOf(w.c.expected)
    requires HasOpened(w)
    ensures Sound(o, Listing(w, w1)) && All(o, Listing(w, w1)) == All(o, w1)
  {
    var w2 := Listing(w, w1);
    var e := Committed(w1.c.id, w1.c.filename, Ino(w.sh, w.c.fileFd), Body(w.c));
    BodyAnnounced(w.c);
    assert w2.sh.trace[..|w1.sh.trace|] == w.sh.trace;
    DecidedSound(o, w1, w2, e);
  }

  lemma RecvDataJudged(o: Origin, w: World)
    requires Sound(o, w) && CourseOf(o.past) == Running && CourseOf(w.calls) == Running
    requires Aligned(w.c) && w.c.state == RecvPutData && HasOpened(w) && Stored(w)
    ensures Kept(o, RecvData(w)) && Judged(RecvData(w)) && !Early(RecvData(w).c)
  {
    FillFileSound(o, w);
    FillFileTells(w);
    FillFileAligned(w);
    FillFileStored(w, SizeOf(w.c.expected));
    var (w1, outcome) := FillFile(w);
    match outcome
    case Blocked =>
    case Broken =>
      CloseOwnSound(o, w1);
      CloseKeepsFailed(w1);
      HaltedLeaves(w, w1);
      RejectAnswers(o, CloseOwn(w1), Ino(w1.sh, w1.c.fileFd));
    case Complete =>
      FinishUploadJudged(o, w1);
  }

  lemma OpenRefusedSound(o: Origin, w: World)
    requires Sound(o, w) && OpenForPut(w).1 == -1
    ensures Sound(o, OpenForPut(w).0) && OpenForPut(w).0.c == w.c
  {
    CallBased(o, w, OpenForPut(w).0, FileOpen(w.c.filename in w.sh.dir, false));
  }

  /** The open of a PUT is the first event of its connection. */
  lemma OpenedSound(o: Origin, w: World)
    requires Sound(o, w) && Asks(w.c, PUT) && Undone(w.c) && Silent(w.sh.trace, w.c.id) && OpenForPut(w).1 != -1
    requires AtStart(o, w)
    ensures
      var (w1, fd) := OpenForPut(w);
      var w2 := w1.(c := w1.c.(fileFd := fd, state := RecvPutData));
      Sound(o, w2) && HasOpened(w2)
  {
    var (w1, fd) := OpenForPut(w);
    var w2 := w1.(c := w1.c.(fileFd := fd, state := RecvPutData));
    var call, e := FileOpen(w.c.filename in w.sh.dir, true), w1.sh.trace[|w.sh.trace|];
    CallBased(o, w, w.(calls := w.calls + [call]), call);
    assert w1.calls == w.calls + [call];
    assert News(o, w2, |w.sh.trace|);
  }

  lemma OpenedStored(w: World)
    requires DirInv(w.sh) && Aligned(w.c) && w.c.transferred == 0 && OpenForPut(w).1 != -1
    ensures
      var (w1, fd) := OpenForPut(w);
      Stored(w1.(c := w1.c.(fileFd := fd, state := RecvPutData)))
  {
    assert Body(w.c) == [];
  }

  /** An upload whose file cannot be opened. */
  lemma UnopenedJudged(o: Origin, w: World)
    requires Sound(o, w) && CourseOf(o.past) == Running && CourseOf(w.calls) == Running
    requires Asks(w.c, PUT) && Undone(w.c) && OpenForPut(w).1 == -1 && Silent(w.sh.trace, w.c.id)
    ensures
      var w1 := OpenForPut(w).0;
      var w' := Reject(w1.(c := w1.c.(fileFd := -1)), -1);
      Kept(o, w') && Judged(w')
  {
    var w1 := OpenForPut(w).0;
    OpenTells(w);
    OpenRefusedSound(o, w);
    MovedSound(o, w1, w1.(c := w1.c.(fileFd := -1)));
    RejectAnswers(o, w1.(c := w1.c.(fileFd := -1)), -1);
  }

  lemma OpenedJudged(o: Origin, w: World)
    requires Sound(o, w) && CourseOf(o.past) == Running && CourseOf(w.calls) == Running
    requires Aligned(w.c) && w.c.transferred == 0 && Silent(w.sh.trace, w.c.id) && AtStart(o, w)
    requires DirInv(w.sh) && OpenForPut(w).1 != -1
    ensures
      var (w1, fd) := OpenForPut(w);
      var w' := RecvData(w1.(c := w1.c.(fileFd := fd, state := RecvPutData)));
      Kept(o, w') && Judged(w')
  {
    var (w1, fd) := OpenForPut(w);
    OpenTells(w);
    OpenedSound(o, w);
    OpenedStored(w);
    RecvDataJudged(o, w1.(c := w1.c.(fileFd := fd, state := RecvPutData)));
  }

  lemma OpenUploadJudged(o: Origin, w: World)
    requires Sound(o, w) && CourseOf(o.past) == Running && CourseOf(w.calls) == Running
    requires Aligned(w.c.(transferred := 0)) && Silent(w.sh.trace, w.c.id) && AtStart(o, w)
    requires DirInv(w.sh)
    ensures Kept(o, OpenUpload(w)) && Judged(OpenUpload(w))
  {
    var w0 := w.(c := w.c.(transferred := 0));
    MovedSound(o, w, w0);
    if OpenForPut(w0).1 == -1 {
      UnopenedJudged(o, w0);
    } else {
      OpenedJudged(o, w0);
    }
  }

  /** What the loop over the size leaves: the upload can be refused, or its file opened. */
  lemma SizeLeft(w: World)
    requires SizePhase(w)
    ensures
      var (w1, outcome) := FillSize(w);
      && outcome != More && w1.c.id == w.c.id && Asks(w1.c, PUT) && Undone(w1.c) && w1.c.state == RecvPutSize
      && (outcome == Complete ==> Aligned(w1.c.(transferred := 0)) && DirInv(w1.sh))
  {
    FillingSize(w);
  }

  lemma RecvSizeJudged(o: Origin, w: World)
    requires Sound(o, w) && SizePhase(w) && CourseOf(o.past) == Running && CourseOf(w.calls) == Running
    requires Silent(w.sh.trace, w.c.id) && AtStart(o, w)
    ensures Kept(o, RecvSize(w)) && Judged(RecvSize(w))
  {
    FillSizeSound(o, w);
    FillSizeTells(w);
    FillSizeExplains(w);
    SizeLeft(w);
    var (w1, outcome) := FillSize(w);
    match outcome
    case Blocked =>
    case Broken => RejectAnswers(o, w1, -1);
    case Complete => OpenUploadJudged(o, w1);
  }

  /** A GET or DELETE for which the system would not act on a file that is there is answered "No such file". */
  ghost predicate Willing(w: World) {
    !Receiving(w.c.state) && (Denied(w.calls).Some? ==> w.c.status == Failure(NoSuchFile))
  }

  lemma AnswersWilling(o: Origin, w0: World, w: World, status: Status)
    requires Answers(o, w0, w, status) && w0.c.verb != PUT && w0.c.verb != LIST
    requires Denied(w0.calls).Some? ==> status == Failure(NoSuchFile)
    ensures Willing(w)
  {
    AftermathDenied(w0.calls, w.calls, w.c.verb);
  }

  lemma RefuseAnswers(o: Origin, w: World, verb: Verb)
    requires Sound(o, w) && (verb == GET || verb == DELETE) && Asks(w.c, verb) && Undone(w.c)
    ensures Kept(o, Refuse(w, verb)) && Willing(Refuse(w, verb)) && SameRequest(w.c, Refuse(w, verb).c)
  {
    var e := Refused(w.c.id, verb, w.c.filename, Denied(w.calls));
    var w1 := LogOp(w, e);
    DecidedSound(o, w, w1, e);
    RespondAnswers(o, w1, w1, Failure(NoSuchFile));
    AnswersWilling(o, w1, Refuse(w, verb), Failure(NoSuchFile));
  }

  lemma OpenForGetSound(o: Origin, w: World)
    requires Sound(o, w)
    ensures Sound(o, OpenForGet(w).0) && OpenForGet(w).0.c == w.c
  {
    var (w1, fd) := OpenForGet(w);
    CallBased(o, w, w1, w1.calls[|w.calls|]);
  }

  lemma StatSound(o: Origin, w: World)
    requires Sound(o, w) && Denied(w.calls) == None
    ensures Sound(o, Stat(w).0) && Stat(w).0.c == w.c
    ensures Stat(w).1 ==> Denied(Stat(w).0.calls) == None
  {
    var (w1, ok) := Stat(w);
    CallBased(o, w, w1, FileStat(ok));
    DeniedNext(w.calls, FileStat(ok));
  }

  lemma AnnounceAnswers(o: Origin, w: World)
    requires Sound(o, w) && Asks(w.c, GET) && Undone(w.c) && Denied(w.calls) == None
    ensures
      var w' := Respond(Announce(w), Success);
      Kept(o, w') && Willing(w') && SameRequest(w.c, w'.c)
  {
    var w1 := Announce(w);
    DecidedSound(o, w, w1, w1.sh.trace[|w.sh.trace|]);
    RespondAnswers(o, w1, w1, Success);
    AnswersWilling(o, w1, Respond(w1, Success), Success);
  }

  lemma StartGetWilling(o: Origin, w: World)
    requires Sound(o, w) && Asks(w.c, GET) && Undone(w.c) && Denied(w.calls) == None
    ensures Kept(o, StartGet(w)) && Willing(StartGet(w)) && SameRequest(w.c, StartGet(w).c)
  {
    var (w1, fd) := OpenForGet(w);
    var w2 := w1.(c := w1.c.(fileFd := fd));
    OpenForGetSound(o, w);
    MovedSound(o, w1, w2);
    OpenDenies(w);
    if fd == -1 {
      RefuseAnswers(o, w2, GET);
    } else {
      var (w3, ok) := Stat(w2);
      StatSound(o, w2);
      if ok {
        AnnounceAnswers(o, w3);
      } else {
        CloseOwnSound(o, w3);
        RefuseAnswers(o, CloseOwn(w3), GET);
      }
    }
  }

  lemma UnlinkSound(o: Origin, w: World)
    requires Sound(o, w) && w.c.verb == DELETE
    ensures Sound(o, Unlink(w).0) && Unlink(w).0.c == w.c
  {
    var (w1, ok) := Unlink(w);
    CallNoted(o, w, w1, w1.calls[|w.calls|]);
  }

  lemma DeleteWilling(o: Origin, w: World)
    requires Sound(o, w) && Asks(w.c, DELETE) && Undone(w.c) && Denied(w.calls) == None && AtStart(o, w)
    ensures Kept(o, Delete(w)) && Willing(Delete(w)) && SameRequest(w.c, Delete(w).c)
  {
    if w.c.filename !in w.sh.list {
      RefuseAnswers(o, w, DELETE);
    } else {
      var (w1, ok) := Unlink(w);
      UnlinkSound(o, w);
      if ok {
        DeniedNext(w.calls, FileUnlink(true, true));
        var w2 := w1.(c := w1.c.(op := |w1.sh.trace|), sh := DeleteName(w1.sh, w1.c.id, w1.c.filename));
        DecidedSound(o, w1, w2, w2.sh.trace[|w1.sh.trace|]);
        RespondAnswers(o, w2, w2, Success);
        AnswersWilling(o, w2, Respond(w2, Success), Success);
      } else {
        RefuseAnswers(o, w1, DELETE);
      }
    }
  }

  // -------- one event --------

  /** How the calls made for a connection, all in all, decide what it is answered. */
  ghost predicate Verdict(calls: seq<Call>, c: Conn, alive: bool) {
    && (alive && c.state == RecvHeader ==> CourseOf(calls) == Running && Denied(calls) == None)
    && (Asks(c, PUT) ==>
          if Receiving(c.state) then CourseOf(calls) == Running
          else (c.status == Failure(BadFileSize) <==> CourseOf(calls).Failed?) && Explained(c, CourseOf(calls)))
    && ((Asks(c, GET) || Asks(c, DELETE)) && !Receiving(c.state) && Denied(calls).Some? ==>
          c.status == Failure(NoSuchFile))
  }

  /** A connection whose calls so far said nothing yet. */
  ghost predicate Undecided(o: Origin) {
    CourseOf(o.past) == Running && Denied(o.past) == None
  }

  lemma WillingVerdict(o: Origin, w: World)
    requires Willing(w) && Undecided(o) && w.c.verb != PUT
    ensures Verdict(All(o, w), w.c, w.alive)
  {
    DeniedConcat(o.past, w.calls);
  }

  /** No request at all, or one whose answer does not depend on files. */
  lemma PlainVerdict(o: Origin, w: World, status: Status)
    requires Sound(o, w) && (Malformed(w.c) || (Asks(w.c, LIST) && Undone(w.c)))
    requires Malformed(w.c) ==> status.Failure?
    ensures
      var w' := Respond(w, status);
      Kept(o, w') && Verdict(All(o, w'), w'.c, w'.alive)
  {
    RespondAnswers(o, w, w, status);
  }

  lemma FileVerdict(o: Origin, w: World)
    requires Sound(o, w) && Undecided(o) && Denied(w.calls) == None
    requires (Asks(w.c, GET) || Asks(w.c, DELETE)) && Undone(w.c) && AtStart(o, w)
    ensures w.c.verb == GET ==> Kept(o, StartGet(w)) && Verdict(All(o, StartGet(w)), StartGet(w).c, StartGet(w).alive)
    ensures w.c.verb == DELETE ==> Kept(o, Delete(w)) && Verdict(All(o, Delete(w)), Delete(w).c, Delete(w).alive)
  {
    if w.c.verb == GET {
      StartGetWilling(o, w);
      WillingVerdict(o, StartGet(w));
    } else if w.c.verb == DELETE {
      DeleteWilling(o, w);
      WillingVerdict(o, Delete(w));
    }
  }

  /** Acting on a complete line. */
  lemma ParsedVerdict(o: Origin, w: World)
    requires Sound(o, w) && LinePhase(w) && Undecided(o) && CourseOf(w.calls) == Running && Denied(w.calls) == None
    requires AtStart(o, w) && [] !in w.sh.dir
    ensures Kept(o, ParseHeader(w)) && Verdict(All(o, ParseHeader(w)), ParseHeader(w).c, ParseHeader(w).alive)
  {
    CourseConcat(o.past, w.calls);
    DeniedConcat(o.past, w.calls);
    if StrChr(w.c.header, '\n') >= 0 {
      var newline := StrChr(w.c.header, '\n');
      var request := ParseLine(w.c.header[..newline]);
      var w1 := Split(w, request, newline);
      ParsedTo(w, newline, request);
      HeardSound(o, w, w1);
      if Malformed(w1.c) {
        PlainVerdict(o, w1, Failure(BadRequest));
      } else if request.verb == LIST {
        PlainVerdict(o, w1, Success);
      } else if request.verb != PUT {
        FileVerdict(o, w1);
      }
    }
  }

  lemma HeaderVerdict(o: Origin, w: World)
    requires Sound(o, w) && HeaderPhase(w) && Undecided(o) && w.calls == []
    requires AtStart(o, w) && [] !in w.sh.dir
    ensures Kept(o, RecvHeaderBytes(w))
    ensures Verdict(All(o, RecvHeaderBytes(w)), RecvHeaderBytes(w).c, RecvHeaderBytes(w).alive)
  {
    FillHeaderSound(o, w);
    FillHeaderTells(w);
    FillHeaderDenies(w);
    FillingHeader(w);
    var (w1, outcome) := FillHeader(w);
    CourseConcat(o.past, w1.calls);
    DeniedConcat(o.past, w1.calls);
    match outcome
    case Broken => ClosingKept(o, w1, w1);
    case Complete => ParsedVerdict(o, w1);
    case _ =>
      if |w1.c.header| >= HEADER_MAX - 1 {
        RespondAnswers(o, w1, w1, Failure(BadRequest));
      }
  }

  lemma AftermathAppended(past: seq<Call>, calls: seq<Call>, verb: Verb)
    requires OnlyAftermath([], calls, verb)
    ensures OnlyAftermath(past, past + calls, verb)
  {
  }

  /** Once there is an answer nothing that happens changes why. */
  lemma VerdictStays(o: Origin, w0: World, w: World)
    requires w0.calls == [] && Trails(w0, w) && Verdict(o.past, w0.c, true)
    requires w.c.status == w0.c.status || w0.c.verb == LIST
    requires Receiving(w.c.state) <==> Receiving(w0.c.state)
    requires !w.alive || !Receiving(w.c.state)
    ensures Verdict(All(o, w), w.c, w.alive)
  {
    AftermathAppended(o.past, w.calls, w.c.verb);
    AftermathCourse(o.past, All(o, w), w.c.verb);
    if w.c.verb != PUT {
      AftermathDenied(o.past, All(o, w), w.c.verb);
    }
  }

  lemma JudgedVerdict(o: Origin, w: World)
    requires Judged(w) && CourseOf(o.past) == Running && w.c.verb == PUT && (w.alive ==> w.c.state != RecvHeader)
    ensures Verdict(All(o, w), w.c, w.alive)
  {
    CourseConcat(o.past, w.calls);
  }

  /** What holds of a connection between two events. */
  ghost predicate Founded(o: Origin, w: World) {
    Kept(o, w) && Verdict(All(o, w), w.c, w.alive)
  }

  /** Before its upload opens a file a connection leaves no trace in the history. */
  ghost predicate Fresh(o: Origin, w: World) {
    AtStart(o, w) && [] !in w.sh.dir && (Early(w.c) ==> Silent(w.sh.trace, w.c.id))
  }

  /** What an event does besides: the request stays what it was once it was read, and nothing goes back. */
  predicate GoesOn(c: Conn, w: World) {
    (c.state != RecvHeader ==> SameRequest(c, w.c)) && (w.alive && Early(w.c) ==> Early(c))
  }

  lemma ReadFounded(o: Origin, w: World)
    requires Steadfast(w) && Sound(o, w) && Verdict(o.past, w.c, true) && Fresh(o, w) && w.sh.polls[w.c.fd] == Read
    ensures Founded(o, HandleRead(w)) && GoesOn(w.c, HandleRead(w))
  {
    assert All(o, w) == o.past;
    match w.c.state
    case RecvHeader => HeaderVerdict(o, w);
    case RecvPutSize =>
      RecvSizeJudged(o, w);
      ReceivingSize(w);
      JudgedVerdict(o, RecvSize(w));
    case RecvPutData =>
      RecvDataJudged(o, w);
      ReceivingData(w);
      JudgedVerdict(o, RecvData(w));
    case _ =>
  }

  lemma WriteAnswers(o: Origin, w: World)
    requires Steadfast(w) && Sound(o, w) && !Receiving(w.c.state)
    ensures Answers(o, w, HandleWrite(w), w.c.status)
  {
    match w.c.state
    case SendOk => WriteReplyAnswers(o, w, w);
    case SendError => WriteReplyAnswers(o, w, w);
    case SendListData => SendListAnswers(o, w, w);
    case SendGetSize => SendSizeAnswers(o, w, w);
    case SendGetData =>
      DrainingFile(w);
      SendDataAnswers(o, w, w);
    case _ =>
  }

  /** One event: its calls account for what it led to. */
  lemma DispatchFounded(o: Origin, w: World, mask: Mask)
    requires Steadfast(w) && Sound(o, w) && Verdict(o.past, w.c, true) && Fresh(o, w)
    requires mask.read ==> w.sh.polls[w.c.fd] == Read
    requires mask.write ==> w.sh.polls[w.c.fd] == Write
    ensures Founded(o, Dispatch(w, mask)) && GoesOn(w.c, Dispatch(w, mask))
  {
    assert All(o, w) == o.past;
    if mask.error {
      var w1 := w.(calls := w.calls + [HangUp]);
      CallBased(o, w, w1, HangUp);
      CallTrails(w, w, w1, HangUp);
      ClosingKept(o, w, w1);
      VerdictStays(o, w, Dispatch(w, mask));
    } else if mask.read {
      ReadFounded(o, w);
    } else if mask.write {
      WriteAnswers(o, w);
      VerdictStays(o, w, HandleWrite(w));
    }
  }
}
