/** Client and server together: requests heard right, and files that come back as they were sent. */
module EndToEnd {
  import opened Bytes
  import opened Protocol
  import opened Calls
  import opened History
  import opened Kernel
  import opened Handlers
  import opened System
  import opened ConnInvariant
  import opened RequestProofs
  import opened RunProofs
  import opened Theorems
  import opened Orderly
  import opened Outcomes
  import opened Causes
  import Liveness
  import opened Common
  import opened FileClient

  // -------- requests --------

  /** However its bytes arrive, the server reads a printed request line as the request it was printed for: until
      the last byte of the line has been read it holds a proper part of it, and from then on exactly that verb
      and that name, as far as it fits its field. */
  lemma HeardRight(listenFd: nat, inputs: seq<Input>, c: Conn, v: Verb, name: bytes, rest: bytes)
    requires Feasible(listenFd, inputs) && Known(Run(listenFd, inputs), c)
    requires v != UNKNOWN && Printable(name) && c.wire.stream == RequestLine(v, name) + rest
    ensures c.asked == None ==> c.header < RequestLine(v, name)
    ensures c.asked != None ==>
      && c.asked == Some(Meant(v, name)) && c.verb == v && c.filename == NameOf(Meant(v, name))
      && |c.header| == |RequestLine(v, name)|
  {
    KnownOk(listenFd, inputs, c);
    LineHeard(c, v, name, rest);
  }

  /** No part of the stream that lacks a newline reaches past the first one. */
  lemma BeforeNewline(stream: bytes, k: nat, n: nat)
    requires StrChr(stream, '\n') == k && n <= |stream| && StrChr(stream[..n], '\n') < 0
    ensures n <= k
  {
    if k < n {
      assert stream[..n][..k] == stream[..k];
      StrChrFinds(stream[..n], '\n', k);
    }
  }

  lemma AtNewline(stream: bytes, n: nat)
    requires 0 < n <= |stream| && StrChr(stream[..n], '\n') == n - 1
    ensures StrChr(stream, '\n') == n - 1
  {
    assert stream[..n][..n - 1] == stream[..n - 1];
    StrChrFinds(stream, '\n', n - 1);
  }

  lemma LineHeard(c: Conn, v: Verb, name: bytes, rest: bytes)
    requires RequestOk(c) && |c.header| <= |c.wire.stream|
    requires v != UNKNOWN && Printable(name) && c.wire.stream == RequestLine(v, name) + rest
    ensures c.asked == None ==> c.header < RequestLine(v, name)
    ensures c.asked != None ==>
      && c.asked == Some(Meant(v, name)) && c.verb == v && c.filename == NameOf(Meant(v, name))
      && |c.header| == |RequestLine(v, name)|
  {
    var stream, line, n := c.wire.stream, RequestLine(v, name), |c.header|;
    ParsePrint(v, name, rest);
    assert Line(c) == stream[..n];
    if c.asked == None {
      BeforeNewline(stream, |line| - 1, n);
    } else {
      AtNewline(stream, n);
      assert stream[..n][..n - 1] == line[..n - 1];
    }
  }

  /** A stream without a newline in its first 1023 bytes is never taken for a request: all it is ever answered is
      a part of "Bad request". */
  lemma TooLongIsBad(listenFd: nat, inputs: seq<Input>, c: Conn)
    requires Feasible(listenFd, inputs) && Known(Run(listenFd, inputs), c)
    requires |c.wire.stream| >= HEADER_MAX - 1 && '\n' !in c.wire.stream[..HEADER_MAX - 1]
    ensures c.asked == None && c.wire.sent <= ErrorReply(BadRequest)
    ensures c.state == Done ==> c.wire.sent == ErrorReply(BadRequest)
  {
    KnownOk(listenFd, inputs, c);
    assert Line(c) == c.wire.stream[..HEADER_MAX - 1][..|c.header|];
    StrChrMisses(Line(c), '\n');
  }

  // -------- uploads --------

  lemma ErrorIsNotOk(m: Message, k: nat)
    requires k <= |ErrorReply(m)|
    ensures ErrorReply(m)[..k] != OK_LINE
  {
    if k > 0 {
      assert ErrorReply(m)[..k][0] == 'E';
    }
  }

  /** A PUT client that was answered OK has its file in the history, under its name and with its bytes. */
  lemma UploadCommitted(listenFd: nat, inputs: seq<Input>, c: Conn, name: bytes, data: bytes)
    requires Feasible(listenFd, inputs) && Known(Run(listenFd, inputs), c)
    requires Printable(name) && |name| <= NAME_MAX && |data| < SIZE_LIMIT
    requires c.wire.stream == PutStream(name, data) && c.wire.sent == OK_LINE
    ensures
      var t := Run(listenFd, inputs).sh.trace;
      Placed(c, t) && t[c.op].Committed? && t[c.op].name == name && t[c.op].body == data
  {
    KnownOk(listenFd, inputs, c);
    UploadRecorded(c, Run(listenFd, inputs).sh.trace, name, data);
  }

  lemma PutHeard(c: Conn, name: bytes, data: bytes)
    requires RequestOk(c) && |c.header| <= |c.wire.stream| && Printable(name) && |name| <= NAME_MAX
    requires c.wire.stream == PutStream(name, data)
    ensures c.wire.stream == RequestLine(PUT, name) + (SizeBytes(|data|) + data)
    ensures c.asked.Some? ==> Asks(c, PUT) && c.filename == name && |c.header| == |RequestLine(PUT, name)|
  {
    var rest := SizeBytes(|data|) + data;
    assert c.wire.stream == RequestLine(PUT, name) + rest;
    LineHeard(c, PUT, name, rest);
  }

  lemma UploadRecorded(c: Conn, t: seq<Event>, name: bytes, data: bytes)
    requires RequestOk(c) && ConnOk(c, t)
    requires Printable(name) && |name| <= NAME_MAX && |data| < SIZE_LIMIT
    requires c.wire.stream == PutStream(name, data) && c.wire.sent == OK_LINE
    ensures Placed(c, t) && t[c.op].Committed? && t[c.op].name == name && t[c.op].body == data
  {
    PutHeard(c, name, data);
    SaidOk(c, t);
    BodyIs(c, RequestLine(PUT, name), data, t[c.op].body);
  }

  /** The body a request announces is the one that was sent. */
  lemma BodyIs(c: Conn, line: bytes, data: bytes, body: bytes)
    requires c.wire.stream == line + (SizeBytes(|data|) + data) && |c.header| == |line|
    requires |data| < SIZE_LIMIT && Announced(c, body)
    ensures body == data
  {
    var start := |line| + SIZE_BYTES;
    assert c.wire.stream[|line|..start] == SizeBytes(|data|);
    SizeRoundTrip(|data|);
    assert c.wire.stream[start..start + |data|] == data;
  }

  /** Only success is answered OK. */
  lemma SaidOk(c: Conn, t: seq<Event>)
    requires ConnOk(c, t) && c.wire.sent == OK_LINE && (c.asked.Some? ==> Asks(c, PUT))
    ensures c.asked.Some? && Decided(c, t, Success)
  {
    match c.state
    case SendError =>
      match c.status {
        case Failure(m) => ErrorIsNotOk(m, c.respSent);
        case Success =>
      }
    case _ =>
  }

  // -------- downloads --------

  /** The history has the fetch of `name` whose file the GET announced. */
  ghost predicate FetchedFor(c: Conn, t: seq<Event>, name: bytes) {
    Placed(c, t) && t[c.op].Fetched? && t[c.op].name == name && t[c.op].body == c.snapshot
  }

  ghost predicate RefusedFor(c: Conn, t: seq<Event>, name: bytes) {
    Placed(c, t) && t[c.op].Refused? && t[c.op].name == name
  }

  /** A GET for `name` sent nothing, or a part of the file the history says it fetched, or a part of the refusal
      the history records. */
  ghost predicate GetAnswered(c: Conn, t: seq<Event>, name: bytes) {
    || c.wire.sent == []
    || (FetchedFor(c, t, name) && c.wire.sent <= PayloadReply(c.snapshot))
    || (RefusedFor(c, t, name) && c.wire.sent <= ErrorReply(NoSuchFile))
  }

  /** It sent one of these in full. */
  ghost predicate GetComplete(c: Conn, t: seq<Event>, name: bytes) {
    || (FetchedFor(c, t, name) && c.wire.sent == PayloadReply(c.snapshot))
    || (RefusedFor(c, t, name) && c.wire.sent == ErrorReply(NoSuchFile))
  }

  lemma GetHeard(c: Conn, name: bytes)
    requires RequestOk(c) && |c.header| <= |c.wire.stream| && Printable(name) && |name| <= NAME_MAX
    requires c.wire.stream == RequestLine(GET, name)
    ensures c.asked == None ==> |c.header| < HEADER_MAX - 1
    ensures c.asked != None ==> Asks(c, GET) && c.filename == name && !Malformed(c)
    ensures c.verb == GET
  {
    assert c.wire.stream == RequestLine(GET, name) + [];
    LineHeard(c, GET, name, []);
  }

  lemma GetSendsFile(c: Conn, t: seq<Event>, name: bytes)
    requires ConnOk(c, t) && Asks(c, GET) && c.filename == name && c.status == Success && !Receiving(c.state)
    requires SentGetBody(c) ==> SentBody(c) == Take(c.snapshot, c.transferred)
    ensures FetchedFor(c, t, name) && c.wire.sent <= PayloadReply(c.snapshot)
    ensures c.state == Done ==> c.wire.sent == PayloadReply(c.snapshot)
  {
    if SentGetBody(c) {
      SnapshotReply(c, t);
    } else if c.state == SendGetSize {
      PrefixWithin(OK_LINE, SizeBytes(c.fileSize), if c.resp == [] then 0 else c.respSent);
      assert PayloadReply(c.snapshot) == OK_LINE + SizeBytes(c.fileSize) + c.snapshot;
    } else {
      assert PayloadReply(c.snapshot)[..3] == OK_LINE;
    }
  }

  lemma GetEnded(c: Conn, t: seq<Event>, name: bytes)
    requires ConnOk(c, t) && RequestOk(c) && Printable(name) && |name| <= NAME_MAX
    requires c.wire.stream == RequestLine(GET, name)
    requires SentGetBody(c) ==> SentBody(c) == Take(c.snapshot, c.transferred)
    ensures GetAnswered(c, t, name)
    ensures c.state == Done ==> GetComplete(c, t, name)
  {
    GetHeard(c, name);
    if Receiving(c.state) {
    } else if c.status == Success {
      GetAsked(c, t);
      GetSendsFile(c, t, name);
    } else {
      GetRefused(c, t, name);
    }
  }

  lemma GetAsked(c: Conn, t: seq<Event>)
    requires ConnOk(c, t) && c.status == Success && !Receiving(c.state) && c.verb == GET
    ensures Asks(c, GET)
  {
  }

  lemma GetRefused(c: Conn, t: seq<Event>, name: bytes)
    requires ConnOk(c, t) && c.status.Failure? && !Receiving(c.state) && c.verb == GET
    requires c.asked == None ==> |c.header| < HEADER_MAX - 1
    requires c.asked != None ==> Asks(c, GET) && c.filename == name && !Malformed(c)
    ensures RefusedFor(c, t, name) && c.wire.sent <= ErrorReply(NoSuchFile)
    ensures c.state == Done ==> c.wire.sent == ErrorReply(NoSuchFile)
  {
    assert c.status == Failure(NoSuchFile);
  }

  // -------- round trip --------

  /** No other PUT had the file open when the connection with the number `id` opened it; from then until position `q`
      nothing but that connection touches the name; and from `q` to `at` nobody truncates that file. */
  ghost predicate Alone(t: seq<Event>, id: nat, name: bytes, q: int, at: nat) {
    forall o :: 0 <= o < |t| && t[o].PutOpened? && t[o].id == id ==>
      && !t[o].written
      && (forall k :: o < k < |t| && k < q && Touches(t[k], name) ==> t[k].id == id)
      && (forall k :: 0 <= q <= k < |t| && k < at ==> !Truncates(t[k], t[o].ino))
  }

  /** A finished upload that was left alone is sheltered. */
  lemma AloneSheltered(c: Conn, t: seq<Event>, name: bytes, q: nat, at: nat) returns (o: nat)
    requires OwnEvents(t, c) && OneOperation(c, t) && c.status == Success && t[c.op].Committed? && t[c.op].name == name
    requires c.op < q <= |t| && Alone(t, c.id, name, q, at)
    ensures Sheltered(t, o, c.op, q) && t[o].name == name
    ensures forall k :: q <= k < |t| && k < at ==> !Truncates(t[k], t[o].ino)
  {
    assert DoneFor(t, c.op, c);
    var i :| 0 <= i < c.op && t[..c.op][i].PutOpened? && t[..c.op][i].id == c.id && t[..c.op][i].ino == t[c.op].file;
    o := i;
    assert DoneFor(t, o, c);
    forall k | o < k < q && k != c.op ensures t[k].id != c.id && !Touches(t[k], name) {
    }
  }

  /** What a GET of the name finds after an upload that was left alone is what was uploaded; it is refused only if the
      system would not open or stat the file that is there. */
  lemma FetchedIsCommitted(listenFd: nat, inputs: seq<Input>, put: Ended, q: nat, at: nat)
    requires Feasible(listenFd, inputs) && put in Run(listenFd, inputs).gone
    requires
      var t := Run(listenFd, inputs).sh.trace;
      && put.c.state == Done && Placed(put.c, t) && t[put.c.op].Committed? && put.c.op < q < |t|
      && About(t[q], t[put.c.op].name) && Alone(t, put.c.id, t[put.c.op].name, q, at)
    ensures
      var t := Run(listenFd, inputs).sh.trace;
      && (t[q].Fetched? ==> t[q].body == t[put.c.op].body && (q < at <= |t| ==> Untouched(t[..at], q)))
      && (t[q].Refused? ==> t[q].denied.Some?)
  {
    var s := Run(listenFd, inputs);
    var i :| 0 <= i < |s.gone| && s.gone[i] == put;
    FinishedOnce(listenFd, inputs, i);
    KnownOwns(listenFd, inputs, put.c);
    KnownOk(listenFd, inputs, put.c);
    RunKeeps(listenFd, inputs);
    FetchedAlone(put.c, s.sh.trace, q, at);
  }

  lemma FetchedAlone(c: Conn, t: seq<Event>, q: nat, at: nat)
    requires Legal(t) && OwnEvents(t, c) && OneOperation(c, t) && ConnOk(c, t) && c.state == Done
    requires Placed(c, t) && t[c.op].Committed? && c.op < q < |t|
    requires About(t[q], t[c.op].name) && Alone(t, c.id, t[c.op].name, q, at)
    ensures t[q].Fetched? ==> t[q].body == t[c.op].body && (q < at <= |t| ==> Untouched(t[..at], q))
    ensures t[q].Refused? ==> t[q].denied.Some?
  {
    var o := AloneSheltered(c, t, t[c.op].name, q, at);
    ShelteredFetch(t, o, c.op, q);
    if q < at <= |t| && t[q].Fetched? {
      UntouchedUntil(t, q, at);
    }
  }

  lemma UntouchedUntil(t: seq<Event>, q: nat, at: nat)
    requires q < at <= |t| && t[q].Fetched? && t[q].solid && forall k :: q <= k < at ==> !Truncates(t[k], t[q].ino)
    ensures Untouched(t[..at], q)
  {
  }

  /** What a GET client makes of all it received, `d` being the file it asked for: it never takes anything else for
      the whole file, what it keeps is a part of the file, and a complete reply gives it the file. */
  predicate Received(c: Conn, d: bytes, refused: bool, probed: bool) {
    var (report, file) := Download(c.wire.sent, true, probed);
    && (report == None ==> file == Some(d))
    && (file.Some? ==> file.value <= d)
    && (c.state == Done && !refused ==> report == None)
  }

  lemma ReceivedFile(c: Conn, d: bytes, refused: bool, probed: bool)
    requires |d| < SIZE_LIMIT && c.wire.sent <= PayloadReply(d) && (c.state == Done ==> c.wire.sent == PayloadReply(d))
    ensures Received(c, d, refused, probed)
  {
    if c.wire.sent == PayloadReply(d) {
      DownloadClassified(|d|, d, probed);
      assert Take(d, |d|) == d;
    } else {
      DownloadCutShort(d, c.wire.sent, probed);
    }
  }

  lemma ReceivedRefusal(c: Conn, d: bytes, probed: bool)
    requires c.wire.sent <= ErrorReply(NoSuchFile)
    ensures Received(c, d, true, probed)
  {
    ErrorNeverOk(NoSuchFile, c.wire.sent);
  }

  /** No part of an error reply is taken for success. */
  lemma ErrorNeverOk(m: Message, reply: bytes)
    requires reply <= ErrorReply(m)
    ensures StatusReport(reply) != Successful
  {
    var status := FirstLine(reply, LINE_BUFFER - 1);
    if status != [] {
      assert status[0] == reply[0] == ErrorReply(m)[0] == 'E';
    }
  }

  /** An answer of OK is the end of it. */
  lemma OkIsDone(listenFd: nat, inputs: seq<Input>, put: Ended, name: bytes, d: bytes)
    requires Feasible(listenFd, inputs) && put in Run(listenFd, inputs).gone
    requires Printable(name) && |name| <= NAME_MAX
    requires put.c.wire.stream == PutStream(name, d) && put.c.wire.sent == OK_LINE
    ensures put.c.state == Done && Known(Run(listenFd, inputs), put.c)
  {
    var s := Run(listenFd, inputs);
    var i :| 0 <= i < |s.gone| && s.gone[i] == put;
    GoneFacts(listenFd, inputs, i);
    PutHeard(put.c, name, d);
    SaidOk(put.c, s.sh.trace);
    OkSentInFull(put.c, s.sh.trace);
  }

  lemma OkSentInFull(c: Conn, t: seq<Event>)
    requires ConnOk(c, t) && Decided(c, t, Success) && Asks(c, PUT) && c.wire.sent == OK_LINE
    requires c.state != Done ==> CutOff(c)
    ensures c.state == Done || c.state == SendError
  {
  }

  /** Round trip, whatever the system answers: if a PUT of `d` under `name` was answered OK and had ended when a GET of
      the name was accepted, and nobody else acted on the name from the PUT's open to the GET's end, then whatever the
      GET's client received, under any splitting and wherever the connection broke off: it accepts nothing but `d`,
      keeps at most a part of `d`, and has `d` if the reply was completed, unless the system would not open or stat the
      file. */
  lemma RoundTrip(listenFd: nat, before: seq<Input>, after: seq<Input>, put: Ended, get: Ended, name: bytes, d: bytes,
      probed: bool)
    requires Feasible(listenFd, before + after)
    requires put in Run(listenFd, before).gone && get in Run(listenFd, before + after).gone
    requires get.c.id >= Run(listenFd, before).accepted
    requires Printable(name) && |name| <= NAME_MAX && |d| < SIZE_LIMIT
    requires put.c.wire.stream == PutStream(name, d) && put.c.wire.sent == OK_LINE
    requires get.c.wire.stream == RequestLine(GET, name)
    requires Alone(Run(listenFd, before + after).sh.trace, put.c.id, name, get.c.op, get.at)
    ensures
      var s := Run(listenFd, before + after);
      Received(get.c, d, exists call :: call in Story(s, get.c) && Denies(call), probed)
  {
    var all := before + after;
    var s := Run(listenFd, all);
    var t := s.sh.trace;
    PutThenGet(listenFd, before, after, put, get, name, d);
    EndedInOrder(listenFd, all, get, name);
    GetEnded(get.c, t, name);
    RefusalOnRecord(listenFd, all, get.c);
    GetReceived(get.c, t, name, d, exists call :: call in Story(s, get.c) && Denies(call), probed);
  }

  /** The history has the upload, and after it the download, which finds the uploaded file. */
  lemma PutThenGet(listenFd: nat, before: seq<Input>, after: seq<Input>, put: Ended, get: Ended, name: bytes, d: bytes)
    requires Feasible(listenFd, before + after)
    requires put in Run(listenFd, before).gone && get in Run(listenFd, before + after).gone
    requires get.c.id >= Run(listenFd, before).accepted
    requires Printable(name) && |name| <= NAME_MAX && |d| < SIZE_LIMIT
    requires put.c.wire.stream == PutStream(name, d) && put.c.wire.sent == OK_LINE
    requires Alone(Run(listenFd, before + after).sh.trace, put.c.id, name, get.c.op, get.at)
    ensures
      var t := Run(listenFd, before + after).sh.trace;
      Placed(get.c, t) && About(t[get.c.op], name) ==>
        && (t[get.c.op].Fetched? ==> t[get.c.op].body == d && Unspoilt(get, t))
        && (t[get.c.op].Refused? ==> t[get.c.op].denied.Some?)
  {
    var all := before + after;
    var s := Run(listenFd, all);
    var t := s.sh.trace;
    RunGrows(listenFd, before, after);
    OkIsDone(listenFd, all, put, name, d);
    UploadCommitted(listenFd, all, put.c, name, d);
    var i :| 0 <= i < |s.gone| && s.gone[i] == get;
    RealTimeOrder(listenFd, before, after, put, get.c);
    EndedIsOver(listenFd, all, get);
    if Placed(get.c, t) && About(t[get.c.op], name) {
      FetchedIsCommitted(listenFd, all, put, get.c.op, get.at);
    }
  }

  /** A refusal by the system is on record. */
  lemma RefusalOnRecord(listenFd: nat, inputs: seq<Input>, c: Conn)
    requires Feasible(listenFd, inputs) && Known(Run(listenFd, inputs), c)
    ensures
      var s := Run(listenFd, inputs);
      Placed(c, s.sh.trace) && s.sh.trace[c.op].Refused? && s.sh.trace[c.op].denied.Some? ==>
        exists call :: call in Story(s, c) && Denies(call)
  {
    var s := Run(listenFd, inputs);
    RunTold(listenFd, inputs);
    RunKeeps(listenFd, inputs);
    if Placed(c, s.sh.trace) && s.sh.trace[c.op].Refused? && s.sh.trace[c.op].denied.Some? {
      LegalAt(s.sh.trace, c.op);
      assert EventOk(s, s.sh.trace[c.op]);
      assert s.sh.trace[c.op].denied.value in Story(s, c);
    }
  }

  lemma GetReceived(c: Conn, t: seq<Event>, name: bytes, d: bytes, denied: bool, probed: bool)
    requires |d| < SIZE_LIMIT && GetAnswered(c, t, name) && (c.state == Done ==> GetComplete(c, t, name))
    requires FetchedFor(c, t, name) ==> c.snapshot == d
    requires RefusedFor(c, t, name) ==> denied
    ensures Received(c, d, denied, probed)
  {
    if c.wire.sent == [] {
      assert c.wire.sent <= PayloadReply(d);
      ReceivedFile(c, d, denied, probed);
    } else if t[c.op].Fetched? {
      ReceivedFile(c, d, denied, probed);
    } else {
      ReceivedRefusal(c, d, probed);
    }
  }

  /** A GET whose file nobody truncated sent nothing but what its file held. */
  lemma EndedInOrder(listenFd: nat, inputs: seq<Input>, e: Ended, name: bytes)
    requires Feasible(listenFd, inputs) && e in Run(listenFd, inputs).gone
    requires Printable(name) && |name| <= NAME_MAX && e.c.wire.stream == RequestLine(GET, name)
    requires
      var t := Run(listenFd, inputs).sh.trace;
      Placed(e.c, t) && About(t[e.c.op], name) && t[e.c.op].Fetched? ==> Unspoilt(e, t)
    ensures RequestOk(e.c) && ConnOk(e.c, Run(listenFd, inputs).sh.trace)
    ensures SentGetBody(e.c) ==> SentBody(e.c) == Take(e.c.snapshot, e.c.transferred)
    ensures Known(Run(listenFd, inputs), e.c)
  {
    var s := Run(listenFd, inputs);
    RunKeeps(listenFd, inputs);
    var i :| 0 <= i < |s.gone| && s.gone[i] == e;
    assert EndedOk(s, i);
    GetHeard(e.c, name);
  }

  // -------- lists --------

  /** What the client of a finished, successful LIST prints, cut at its newlines, is the file list as it was when the
      reply was built. */
  lemma ListHeard(listenFd: nat, inputs: seq<Input>, i: nat, probed: bool)
    requires Feasible(listenFd, inputs) && i < |Run(listenFd, inputs).gone|
    requires
      var c := Run(listenFd, inputs).gone[i].c;
      c.state == Done && c.status == Success && c.verb == LIST
    ensures
      var s := Run(listenFd, inputs);
      var c, t := s.gone[i].c, s.sh.trace;
      var (report, printed) := Listing(c.wire.sent, true, probed);
      && report == None && printed == Drop(c.wire.sent, PREFIX)
      && 0 <= c.op < |t| && SplitBody(printed) == Replay(t[..c.op]).store.names
  {
    var s := Run(listenFd, inputs);
    ListPayloadIsList(listenFd, inputs, i);
    var names := s.sh.trace[s.gone[i].c.op].names;
    ListPrinted(names, probed);
    SentListBody(names, s.gone[i].c.wire.sent);
  }

  // -------- when all goes well --------

  lemma StreamFits(c: Conn, name: bytes, data: bytes)
    requires c.wire.stream == PutStream(name, data) && |c.header| == |RequestLine(PUT, name)| && |data| < SIZE_LIMIT
    ensures !TooShort(c) && !TooLong(c)
  {
    var start := |c.header| + SIZE_BYTES;
    assert c.wire.stream[|c.header|..start] == SizeBytes(|data|);
    SizeRoundTrip(|data|);
  }

  /** A PUT whose peer sends its whole line does not end in the middle of it. */
  lemma PutHeardWhole(c: Conn, t: seq<Event>, name: bytes, data: bytes)
    requires RequestOk(c) && ConnOk(c, t) && Printable(name) && |name| <= NAME_MAX
    requires c.wire.stream == PutStream(name, data)
    requires c.state == Done || (c.state == RecvHeader && c.wire.got >= |c.wire.stream|)
    ensures c.state == Done && Asks(c, PUT) && |c.header| == |RequestLine(PUT, name)|
  {
    PutHeard(c, name, data);
    LineHeard(c, PUT, name, SizeBytes(|data|) + data);
  }

  lemma UploadEnds(listenFd: nat, inputs: seq<Input>, put: Ended, name: bytes, data: bytes)
    requires Feasible(listenFd, inputs) && put in Run(listenFd, inputs).gone
    requires Printable(name) && |name| <= NAME_MAX && put.c.wire.stream == PutStream(name, data)
    requires Smooth(Story(Run(listenFd, inputs), put.c), PUT)
    ensures put.c.state == Done && Asks(put.c, PUT) && |put.c.header| == |RequestLine(PUT, name)|
    ensures Known(Run(listenFd, inputs), put.c) && ConnOk(put.c, Run(listenFd, inputs).sh.trace)
  {
    var s := Run(listenFd, inputs);
    var i :| 0 <= i < |s.gone| && s.gone[i] == put;
    SmoothEnds(listenFd, inputs, i, PUT);
    KnownOk(listenFd, inputs, put.c);
    PutHeardWhole(put.c, s.sh.trace, name, data);
  }

  /** An upload all of whose calls succeed can only be freed in STATE_DONE, answered OK, with its file committed under
      its name and with its bytes. */
  lemma UploadCompletes(listenFd: nat, inputs: seq<Input>, put: Ended, name: bytes, data: bytes)
    requires Feasible(listenFd, inputs) && put in Run(listenFd, inputs).gone
    requires Printable(name) && |name| <= NAME_MAX && |data| < SIZE_LIMIT
    requires put.c.wire.stream == PutStream(name, data)
    requires Smooth(Story(Run(listenFd, inputs), put.c), PUT)
    ensures
      var t := Run(listenFd, inputs).sh.trace;
      && put.c.state == Done && put.c.wire.sent == OK_LINE
      && Placed(put.c, t) && t[put.c.op].Committed? && t[put.c.op].name == name && t[put.c.op].body == data
  {
    UploadEnds(listenFd, inputs, put, name, data);
    StreamFits(put.c, name, data);
    SmoothUpload(listenFd, inputs, put.c);
    UploadCommitted(listenFd, inputs, put.c, name, data);
  }

  lemma GetHeardWhole(c: Conn, t: seq<Event>, name: bytes)
    requires RequestOk(c) && ConnOk(c, t) && Printable(name) && |name| <= NAME_MAX
    requires c.wire.stream == RequestLine(GET, name)
    requires c.state == Done || (c.state == RecvHeader && c.wire.got >= |c.wire.stream|)
    ensures c.state == Done && Asks(c, GET)
  {
    GetHeard(c, name);
    assert c.wire.stream == RequestLine(GET, name) + [];
    LineHeard(c, GET, name, []);
  }

  /** A download all of whose calls succeed can only be freed in STATE_DONE, answered OK, or "No such file" because
      there was none. */
  lemma DownloadCompletes(listenFd: nat, inputs: seq<Input>, get: Ended, name: bytes)
    requires Feasible(listenFd, inputs) && get in Run(listenFd, inputs).gone
    requires Printable(name) && |name| <= NAME_MAX && get.c.wire.stream == RequestLine(GET, name)
    requires Smooth(Story(Run(listenFd, inputs), get.c), GET)
    ensures
      var t := Run(listenFd, inputs).sh.trace;
      && get.c.state == Done && Placed(get.c, t)
      && (get.c.status != Success ==> t[get.c.op].Refused? && t[get.c.op].denied == None)
  {
    var s := Run(listenFd, inputs);
    var i :| 0 <= i < |s.gone| && s.gone[i] == get;
    SmoothEnds(listenFd, inputs, i, GET);
    KnownOk(listenFd, inputs, get.c);
    GetHeardWhole(get.c, s.sh.trace, name);
    SmoothDownload(listenFd, inputs, get.c);
  }

  /** Round trip, when all goes well: a PUT of `d` that had ended when a GET of the same name was accepted, nobody else
      acting on the name from the PUT's open to the GET's end, and all calls made for the two succeed. However reads and
      writes are split, once both connections have ended the PUT was answered OK and its file committed, the GET was
      sent the whole reply, and its client reports success and has `d`. */
  lemma RoundTripCompletes(listenFd: nat, before: seq<Input>, after: seq<Input>, put: Ended, get: Ended, name: bytes,
      d: bytes, probed: bool)
    requires Feasible(listenFd, before + after)
    requires put in Run(listenFd, before).gone && get in Run(listenFd, before + after).gone
    requires get.c.id >= Run(listenFd, before).accepted
    requires Printable(name) && |name| <= NAME_MAX && |d| < SIZE_LIMIT
    requires put.c.wire.stream == PutStream(name, d) && get.c.wire.stream == RequestLine(GET, name)
    requires
      var s := Run(listenFd, before + after);
      && Smooth(Story(s, put.c), PUT) && Smooth(Story(s, get.c), GET)
      && Alone(s.sh.trace, put.c.id, name, get.c.op, get.at)
    ensures put.c.state == Done && put.c.wire.sent == OK_LINE
    ensures get.c.state == Done && get.c.wire.sent == PayloadReply(d)
    ensures Download(get.c.wire.sent, true, probed) == (None, Some(d))
  {
    var all := before + after;
    var t := Run(listenFd, all).sh.trace;
    RunGrows(listenFd, before, after);
    UploadCompletes(listenFd, all, put, name, d);
    DownloadCompletes(listenFd, all, get, name);
    PutThenGet(listenFd, before, after, put, get, name, d);
    EndedInOrder(listenFd, all, get, name);
    GetEnded(get.c, t, name);
    DoneGetHas(get.c, t, name, d, probed);
  }

  lemma DoneGetHas(c: Conn, t: seq<Event>, name: bytes, d: bytes, probed: bool)
    requires |d| < SIZE_LIMIT && GetComplete(c, t, name) && !RefusedFor(c, t, name)
    requires FetchedFor(c, t, name) ==> t[c.op].body == d
    ensures c.wire.sent == PayloadReply(d) && Download(c.wire.sent, true, probed) == (None, Some(d))
  {
    DownloadClassified(|d|, d, probed);
    assert Take(d, |d|) == d;
  }

  /** A client whose first status line does not meet EAGAIN is never forgotten: after every event on its connection
      the connection is gone or the event loop will report it again. */
  lemma NeverForgotten(listenFd: nat, inputs: seq<Input>, fd: int, mask: Mask, sched: seq<Answer>,
      v: Verb, name: bytes, rest: bytes)
    requires Feasible(listenFd, inputs + [Report(fd, mask, sched)])
    requires fd in Run(listenFd, inputs).clients && (mask.read || mask.write || mask.error)
    requires v != UNKNOWN && Printable(name)
    requires
      var c := Run(listenFd, inputs).clients[fd];
      && c.wire.stream == RequestLine(v, name) + rest
      && !Liveness.HeldUp(Run(listenFd, inputs + [Report(fd, mask, sched)]).episodes, c.id)
    ensures
      var s := Run(listenFd, inputs);
      var w := Dispatch(Begin(s.clients[fd], s.sh, sched), mask);
      w.alive ==> Liveness.Signalled(w)
  {
    var s, i := Run(listenFd, inputs), Report(fd, mask, sched);
    assert (inputs + [i])[..|inputs|] == inputs;
    var s' := Run(listenFd, inputs + [i]);
    var w := Dispatch(Begin(s.clients[fd], s.sh, sched), mask);
    Liveness.NoLostWakeup(listenFd, inputs, fd, mask, sched);
    if w.alive {
      HandledIdentity(listenFd, inputs, fd, mask, sched);
      if Liveness.Stranded(w) {
        Liveness.StuckIsHeldUp(listenFd, inputs + [i], fd);
      }
      assert fd in s'.clients && s'.clients[fd] == w.c;
      NotMuffled(listenFd, inputs + [i], w, v, name, rest);
    }
  }

  lemma HandledIdentity(listenFd: nat, inputs: seq<Input>, fd: int, mask: Mask, sched: seq<Answer>)
    requires Feasible(listenFd, inputs + [Report(fd, mask, sched)]) && fd in Run(listenFd, inputs).clients
    ensures
      var s := Run(listenFd, inputs);
      var w := Dispatch(Begin(s.clients[fd], s.sh, sched), mask);
      w.c.fd == fd && w.c.id == s.clients[fd].id && w.c.wire.stream == s.clients[fd].wire.stream
  {
    var s := Run(listenFd, inputs);
    assert (inputs + [Report(fd, mask, sched)])[..|inputs|] == inputs;
    RunKeeps(listenFd, inputs);
    assert EntryOk(s, fd);
    Dispatching(Begin(s.clients[fd], s.sh, sched), mask);
  }

  /** The line of a client has no NUL that could hide its newline. */
  lemma NotMuffled(listenFd: nat, inputs: seq<Input>, w: World, v: Verb, name: bytes, rest: bytes)
    requires Feasible(listenFd, inputs) && Known(Run(listenFd, inputs), w.c)
    requires v != UNKNOWN && Printable(name) && w.c.wire.stream == RequestLine(v, name) + rest
    ensures !Liveness.Muffled(w)
  {
    HeardRight(listenFd, inputs, w.c, v, name, rest);
    KnownOk(listenFd, inputs, w.c);
    WordFacts(v);
    assert '\0' !in RequestLine(v, name);
  }
}
