/** The request line, and one dispatched event as a whole. */
module RequestProofs {
  import opened Bytes
  import opened Protocol
  import opened Calls
  import opened Kernel
  import opened Handlers
  import opened SharedInvariant
  import opened ConnInvariant
  import opened CallProofs
  import opened HandlerProofs
  import opened DispatchProofs

  // -------- reading the line --------

  /** One more byte behind a text without a visible newline. */
  lemma {:induction false} StrChrSnoc(s: bytes, ch: byte)
    requires StrChr(s, '\n') < 0
    ensures StrChr(s + [ch], '\n') == if ch == '\n' && '\0' !in s then |s| else -1
  {
    var t := s + [ch];
    if s != [] {
      assert t[1..] == s[1..] + [ch];
      if s[0] != '\0' {
        StrChrSnoc(s[1..], ch);
        assert '\0' in s <==> '\0' in s[1..];
      }
    }
  }

  ghost predicate HeaderBase(w: World) {
    && w.alive && SharedInv(w.sh) && Linked(w.c, w.sh) && ConnOk(w.c, w.sh.trace)
    && w.c.state == RecvHeader && w.sh.polls[w.c.fd] == Read && w.c.fileFd == -1 && w.c.listBuf.None?
    && w.c.header == Line(w.c)
  }

  /** The request line is being received. */
  ghost predicate HeaderPhase(w: World) {
    HeaderBase(w) && RequestOk(w.c)
  }

  /** A newline was just stored. */
  ghost predicate LinePhase(w: World) {
    var hl := |w.c.header|;
    HeaderBase(w) && hl > 0 && w.c.header[hl - 1] == '\n' && StrChr(w.c.header[..hl - 1], '\n') < 0
  }

  /** What an iteration of the header loop, or the whole loop, leaves behind. */
  ghost predicate Heard(w: World, w1: World, outcome: Outcome) {
    && Reaches(w, w1)
    && (if outcome == Complete then LinePhase(w1) else HeaderPhase(w1))
  }

  lemma HeardAfter(w0: World, w1: World, w2: World, outcome: Outcome)
    requires Reaches(w0, w1) && Heard(w1, w2, outcome)
    ensures Heard(w0, w2, outcome)
  {
    Chain(w0, w1, w2);
  }

  lemma ByteStored(w: World, w1: World)
    requires HeaderPhase(w) && |w.c.header| < HEADER_MAX - 1
    requires SockRead(w, 1) == (w1, Count(1))
    ensures
      var w2 := w1.(c := w1.c.(header := w1.c.header + JustRead(w1.c, 1)));
      Heard(w, w2, if JustRead(w1.c, 1) == "\n" then Complete else More)
  {
    var d := JustRead(w1.c, 1);
    var w2 := w1.(c := w1.c.(header := w1.c.header + d));
    Quiet(w, w2);
    assert d == [w.c.wire.stream[w.c.wire.got]];
    assert w2.c.header == Line(w2.c);
    StrChrSnoc(w.c.header, d[0]);
    assert w2.c.header[..|w.c.header|] == w.c.header;
  }

  lemma HeaderStays(w: World, w1: World)
    requires HeaderPhase(w) && Idle(w, w1)
    ensures HeaderPhase(w1) && Reaches(w, w1)
  {
    Quiet(w, w1);
  }

  lemma HeaderStepOk(w: World)
    requires HeaderPhase(w) && |w.c.header| < HEADER_MAX - 1
    ensures Heard(w, HeaderStep(w).0, HeaderStep(w).1)
  {
    var (w1, r) := SockRead(w, 1);
    if r.Error? || r.n == 0 {
      ReadsNothing(w, 1);
      HeaderStays(w, w1);
    } else {
      assert r.n == 1;
      ByteStored(w, w1);
    }
  }

  /** The header loop, however the line arrives. */
  lemma FillingHeader(w: World)
    requires HeaderPhase(w)
    ensures Heard(w, FillHeader(w).0, FillHeader(w).1)
    ensures FillHeader(w).1 != More
    decreases HEADER_MAX - |w.c.header|, |w.sched|
  {
    if |w.c.header| < HEADER_MAX - 1 {
      HeaderStepOk(w);
      var (w1, outcome) := HeaderStep(w);
      if outcome == More {
        FillingHeader(w1);
        HeardAfter(w, w1, FillHeader(w).0, FillHeader(w).1);
      }
    } else {
      Quiet(w, w);
    }
  }

  // -------- acting on the line --------

  /** Handled, with the request recorded as it was read. */
  ghost predicate Understood(w: World, w': World) {
    Handled(w, w') && RequestOk(w'.c)
  }

  lemma RequestKept(c: Conn, c': Conn)
    requires RequestOk(c) && SameRequest(c, c')
    ensures RequestOk(c')
  {
  }

  lemma UnderstoodAfter(w: World, w1: World, w2: World)
    requires Reaches(w, w1) && RequestOk(w1.c) && Served(w1, w2)
    ensures Understood(w, w2)
  {
    Chain(w, w1, w2);
    RequestKept(w1.c, w2.c);
  }

  /** The connection once its complete line was taken apart. */
  function Split(w: World, request: Request, newline: nat): World
    requires newline < |w.c.header|
  {
    w.(c := w.c.(header := Terminated(w.c.header, newline), asked := Some(request),
                 verb := if request.verb == UNKNOWN then w.c.verb else request.verb,
                 filename := NameOf(request)))
  }

  /** The newline just stored is the first of the line, if it can be seen at all. */
  lemma NewlineLast(header: bytes)
    requires header != [] && header[|header| - 1] == '\n' && StrChr(header[..|header| - 1], '\n') < 0
    ensures StrChr(header, '\n') < 0 || StrChr(header, '\n') == |header| - 1
  {
    assert header == header[..|header| - 1] + ['\n'];
    StrChrSnoc(header[..|header| - 1], '\n');
  }

  lemma NameFits(header: bytes, newline: nat)
    requires StrChr(header, '\n') == newline
    ensures var name := NameOf(ParseLine(header[..newline])); |name| <= NAME_MAX && Printable(name)
  {
    ParsedNamePrintable(header, newline);
  }

  /** The request of the connection once its line was taken apart. */
  lemma RequestRead(c: Conn, request: Request, newline: nat, c': Conn)
    requires c.header == Line(c) && c.verb == GET && StrChr(c.header, '\n') == newline == |c.header| - 1
    requires request == ParseLine(c.header[..newline])
    requires c' == c.(header := Terminated(c.header, newline), asked := Some(request),
                      verb := if request.verb == UNKNOWN then c.verb else request.verb, filename := NameOf(request))
    ensures RequestOk(c') && |c'.header| == |c.header|
  {
    assert Line(c') == Line(c);
  }

  lemma LineSplit(w: World)
    requires LinePhase(w) && StrChr(w.c.header, '\n') >= 0
    ensures
      var newline := StrChr(w.c.header, '\n');
      var request := ParseLine(w.c.header[..newline]);
      var w1 := Split(w, request, newline);
      && newline == |w.c.header| - 1
      && RequestOk(w1.c) && RequestBase(w1.c) && w1.c.fileFd == -1
  {
    var newline := StrChr(w.c.header, '\n');
    var request := ParseLine(w.c.header[..newline]);
    NewlineLast(w.c.header);
    NameFits(w.c.header, newline);
    RequestRead(w.c, request, newline, Split(w, request, newline).c);
  }

  lemma LineReaches(w: World, request: Request, newline: nat)
    requires LinePhase(w) && newline < |w.c.header|
    ensures Reaches(w, Split(w, request, newline))
    ensures var w1 := Split(w, request, newline); w1.alive && SharedInv(w1.sh) && Linked(w1.c, w1.sh)
  {
    Quiet(w, Split(w, request, newline));
  }

  /** The line announces an upload: its size is next. */
  lemma UploadAsked(w: World, w1: World)
    requires LinePhase(w) && Reaches(w, w1) && w1.alive && SharedInv(w1.sh) && Linked(w1.c, w1.sh)
    requires RequestBase(w1.c) && Asks(w1.c, PUT) && w1.c.fileFd == -1 && RequestOk(w1.c)
    requires |w1.c.expected| == SIZE_BYTES && w1.c.wire.got == |w1.c.header|
    ensures Understood(w, Arm(w1.(c := w1.c.(transferred := 0, state := RecvPutSize)), Read))
  {
    var w2 := w1.(c := w1.c.(transferred := 0, state := RecvPutSize));
    UploadAwaited(w1);
    Quiet(w1, w2);
    Arming(w2, Read);
    Chain(w, w1, w2);
    Chain(w, w2, Arm(w2, Read));
    RequestKept(w1.c, w2.c);
  }

  lemma UploadAwaited(w: World)
    requires w.alive && Linked(w.c, w.sh) && RequestBase(w.c) && Asks(w.c, PUT) && w.c.fileFd == -1
    requires |w.c.expected| == SIZE_BYTES && w.c.wire.got == |w.c.header|
    ensures
      var w1 := Arm(w.(c := w.c.(transferred := 0, state := RecvPutSize)), Read);
      Live(w1.c, w1.sh)
  {
  }

  lemma LineIllFormed(w: World, w1: World)
    requires Reaches(w, w1) && w1.alive && SharedInv(w1.sh) && Linked(w1.c, w1.sh)
    requires RequestBase(w1.c) && Malformed(w1.c) && w1.c.fileFd == -1 && RequestOk(w1.c)
    ensures Understood(w, Respond(w1, Failure(BadRequest)))
  {
    Responding(w1, Failure(BadRequest));
    UnderstoodAfter(w, w1, Respond(w1, Failure(BadRequest)));
  }

  lemma LineWellFormed(w: World, w1: World, v: Verb)
    requires Reaches(w, w1) && w1.alive && SharedInv(w1.sh) && Linked(w1.c, w1.sh)
    requires RequestBase(w1.c) && Asks(w1.c, v) && w1.c.fileFd == -1 && RequestOk(w1.c)
    requires Denied(w1.calls) == None
    ensures v == LIST ==> Understood(w, Respond(w1, Success))
    ensures v == GET ==> Understood(w, StartGet(w1))
    ensures v == DELETE ==> Understood(w, Delete(w1))
  {
    if v == LIST {
      Responding(w1, Success);
      UnderstoodAfter(w, w1, Respond(w1, Success));
    } else if v == GET {
      StartingGet(w1);
      UnderstoodAfter(w, w1, StartGet(w1));
    } else if v == DELETE {
      DeletingRequest(w1);
      UnderstoodAfter(w, w1, Delete(w1));
    }
  }

  /** What `ParseHeader` does with a complete line, in terms of the connection after the split. */
  lemma ParsedTo(w: World, newline: nat, request: Request)
    requires StrChr(w.c.header, '\n') == newline && request == ParseLine(w.c.header[..newline])
    requires w.c.filename == []
    ensures
      var w1 := Split(w, request, newline);
      ParseHeader(w) ==
        if request.verb == UNKNOWN || (request.verb == LIST <==> request.name.Some?) then
          Respond(w1, Failure(BadRequest))
        else match request.verb
          case LIST => Respond(w1, Success)
          case DELETE => Delete(w1)
          case GET => StartGet(w1)
          case _ => Arm(w1.(c := w1.c.(transferred := 0, state := RecvPutSize)), Read)
  {
  }

  /** `parse_header_and_transition`. */
  lemma ParsingHeader(w: World)
    requires LinePhase(w) && Denied(w.calls) == None
    ensures Understood(w, ParseHeader(w))
  {
    if StrChr(w.c.header, '\n') < 0 {
      Quiet(w, w);
    } else {
      var newline := StrChr(w.c.header, '\n');
      var request := ParseLine(w.c.header[..newline]);
      var w1 := Split(w, request, newline);
      LineSplit(w);
      LineReaches(w, request, newline);
      ParsedTo(w, newline, request);
      if Malformed(w1.c) {
        LineIllFormed(w, w1);
      } else if request.verb == PUT {
        UploadAsked(w, w1);
      } else {
        LineWellFormed(w, w1, request.verb);
      }
    }
  }

  lemma LineTooLong(w: World)
    requires HeaderPhase(w) && |w.c.header| >= HEADER_MAX - 1
    ensures Understood(w, Respond(w, Failure(BadRequest)))
  {
    Responding(w, Failure(BadRequest));
    RequestKept(w.c, Respond(w, Failure(BadRequest)).c);
  }

  lemma LineWaits(w: World)
    requires HeaderPhase(w)
    ensures Live(w.c, w.sh)
  {
  }

  lemma LineBreaks(w: World, w1: World)
    requires HeaderPhase(w1) && Reaches(w, w1)
    ensures Understood(w, CloseAndCleanup(w1))
  {
    Breaks(w1, w1);
    UnderstoodAfter(w, w1, CloseAndCleanup(w1));
  }

  lemma UnderstoodChain(w: World, w1: World, w2: World)
    requires Reaches(w, w1) && Understood(w1, w2)
    ensures Understood(w, w2)
  {
    Chain(w, w1, w2);
  }

  /** `handle_read_event` in STATE_RECV_HEADER. */
  lemma ReceivingHeader(w: World)
    requires HeaderPhase(w) && Denied(w.calls) == None
    ensures Understood(w, RecvHeaderBytes(w))
  {
    FillingHeader(w);
    FillHeaderDenies(w);
    var (w1, outcome) := FillHeader(w);
    match outcome
    case Broken =>
      LineBreaks(w, w1);
    case Complete =>
      ParsingHeader(w1);
      UnderstoodChain(w, w1, RecvHeaderBytes(w));
    case _ =>
      if |w1.c.header| >= HEADER_MAX - 1 {
        LineTooLong(w1);
        UnderstoodChain(w, w1, RecvHeaderBytes(w));
      } else {
        LineWaits(w1);
      }
  }

  // -------- dispatch --------

  /** A connection in the map with the shared state, at the start of a handler call. */
  ghost predicate Steadfast(w: World) {
    w.alive && SharedInv(w.sh) && Live(w.c, w.sh) && RequestOk(w.c) && w.calls == []
  }

  lemma ServedIsUnderstood(w: World, w': World)
    requires Served(w, w') && RequestOk(w.c)
    ensures Understood(w, w')
  {
    RequestKept(w.c, w'.c);
  }

  lemma Unmoved(w: World)
    requires Steadfast(w)
    ensures Served(w, w)
  {
    Quiet(w, w);
  }

  lemma HandlingRead(w: World)
    requires Steadfast(w)
    ensures Understood(w, HandleRead(w))
  {
    match w.c.state
    case RecvHeader =>
      ReceivingHeader(w);
    case RecvPutSize =>
      ReceivingSize(w);
      ServedIsUnderstood(w, HandleRead(w));
    case RecvPutData =>
      ReceivingData(w);
      ServedIsUnderstood(w, HandleRead(w));
    case _ =>
      Unmoved(w);
  }

  lemma HandlingWrite(w: World)
    requires Steadfast(w)
    ensures Served(w, HandleWrite(w))
  {
    match w.c.state
    case SendOk => WritingReply(w);
    case SendError => WritingReply(w);
    case SendListData => SendingList(w);
    case SendGetSize => SendingSize(w);
    case SendGetData => SendingData(w);
    case _ => Unmoved(w);
  }

  /** One event, reported as the event loop may report it, keeps everything in order. */
  lemma Dispatching(w: World, mask: Mask)
    requires Steadfast(w)
    requires mask.read ==> w.sh.polls[w.c.fd] == Read
    requires mask.write ==> w.sh.polls[w.c.fd] == Write
    ensures Understood(w, Dispatch(w, mask))
  {
    if mask.error {
      Breaks(w, w.(calls := w.calls + [HangUp]));
      ServedIsUnderstood(w, Dispatch(w, mask));
    } else if mask.read {
      HandlingRead(w);
    } else if mask.write {
      Unmoved(w);
      HandlingWrite(w);
      ServedIsUnderstood(w, HandleWrite(w));
    } else {
      Unmoved(w);
    }
  }
}
