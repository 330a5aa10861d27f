/** Requests and replies letter for letter: what the bytes that arrive ask for, and the bytes that are sent for it. */
module Spelling {
  import opened Bytes
  import opened Protocol
  import opened Calls
  import opened History
  import opened Kernel
  import opened System
  import opened ConnInvariant
  import opened RunProofs
  import opened Outcomes
  import opened Theorems

  // -------- requests --------

  /** The first newline is at `n`, and no NUL hides it. */
  predicate LineEnds(stream: bytes, n: nat) {
    n < |stream| && stream[n] == '\n' && '\n' !in stream[..n] && '\0' !in stream[..n]
  }

  /** The bytes begin with one of the four requests. */
  predicate OneOfFour(stream: bytes) {
    "GET " <= stream || "PUT " <= stream || "DELETE " <= stream || "LIST\n" <= stream
  }

  /** The request is the one the bytes spell, and the name is what stands between the first space and the newline, as
      far as it fits. */
  ghost predicate Spelt(c: Conn, n: nat) {
    var stream := c.wire.stream;
    && LineEnds(stream, n)
    && (Asks(c, GET) <==> "GET " <= stream) && (Asks(c, PUT) <==> "PUT " <= stream)
    && (Asks(c, DELETE) <==> "DELETE " <= stream) && (Asks(c, LIST) <==> "LIST\n" <= stream)
    && ("GET " <= stream || "PUT " <= stream ==> 4 <= n && c.filename == Take(stream[4..n], 255))
    && ("DELETE " <= stream ==> 7 <= n && c.filename == Take(stream[7..n], 255))
  }

  lemma WordEnds(stream: bytes, n: nat, word: bytes)
    requires LineEnds(stream, n) && word + " " <= stream && '\n' !in word && ' ' !in word
    ensures |word| < n && StrChr(stream[..n], ' ') == |word| && stream[..|word|] == word
  {
    if n <= |word| {
      assert (word + " ")[n] == '\n';
    }
    StrChrFinds(stream[..n], ' ', |word|);
  }

  lemma ListEnds(stream: bytes, n: nat)
    requires LineEnds(stream, n) && "LIST\n" <= stream
    ensures n == 4 && stream[..n] == "LIST" && StrChr(stream[..n], ' ') < 0
  {
    assert stream[..4] == "LIST" && stream[4] == '\n';
    StrChrFinds(stream, '\n', n);
    StrChrFinds(stream, '\n', 4);
    StrChrMisses(stream[..n], ' ');
  }

  /** The words a line can begin with. */
  lemma WordsRead(stream: bytes, n: nat)
    requires LineEnds(stream, n)
    ensures
      var r := ParseLine(stream[..n]);
      && (r.verb == GET && r.name.Some? <==> "GET " <= stream)
      && (r.verb == PUT && r.name.Some? <==> "PUT " <= stream)
      && (r.verb == DELETE && r.name.Some? <==> "DELETE " <= stream)
      && (r.verb == LIST && r.name.None? <==> "LIST\n" <= stream)
      && ("GET " <= stream || "PUT " <= stream ==> 4 <= n && r.name == Some(stream[4..n]))
      && ("DELETE " <= stream ==> 7 <= n && r.name == Some(stream[7..n]))
  {
    var line := stream[..n];
    var space := StrChr(line, ' ');
    if "GET " <= stream {
      WordEnds(stream, n, "GET");
    }
    if "PUT " <= stream {
      WordEnds(stream, n, "PUT");
    }
    if "DELETE " <= stream {
      WordEnds(stream, n, "DELETE");
    }
    if "LIST\n" <= stream {
      ListEnds(stream, n);
    }
    if space >= 0 {
      assert stream[..space + 1] == line[..space] + " ";
    } else {
      assert stream[..n + 1] == line + "\n";
    }
  }

  lemma RequestSpelt(c: Conn)
    requires RequestOk(c) && c.asked.Some? && |c.header| <= |c.wire.stream|
    ensures Spelt(c, |c.header| - 1)
  {
    var n := |c.header| - 1;
    assert Line(c)[..n] == c.wire.stream[..n];
    WordsRead(c.wire.stream, n);
  }

  /** The event is of the kind the bytes ask for, and about the name they give. */
  predicate EventSpelt(stream: bytes, n: nat, e: Event)
    requires n <= |stream|
  {
    match e
    case Listed(_, _) => "LIST\n" <= stream
    case Deleted(_, name, _) => "DELETE " <= stream && 7 <= n && name == Take(stream[7..n], 255)
    case Fetched(_, name, _, _, _) => "GET " <= stream && 4 <= n && name == Take(stream[4..n], 255)
    case Refused(_, verb, name, _) =>
      if verb == GET then "GET " <= stream && 4 <= n && name == Take(stream[4..n], 255)
      else "DELETE " <= stream && 7 <= n && name == Take(stream[7..n], 255)
    case _ => "PUT " <= stream && 4 <= n && e.name == Take(stream[4..n], 255)
  }

  lemma DoneSpelt(t: seq<Event>, j: nat, c: Conn)
    requires j < |t| && DoneFor(t, j, c) && RequestOk(c) && |c.header| <= |c.wire.stream|
    ensures c.asked.Some? && 0 < |c.header| && EventSpelt(c.wire.stream, |c.header| - 1, t[j])
    ensures OneOfFour(c.wire.stream)
  {
    RequestSpelt(c);
  }

  /** No newline that can be seen among the first 1023 bytes. */
  ghost predicate NoLine(stream: bytes) {
    |stream| >= 1023 && forall n: nat :: n < 1023 ==> !LineEnds(stream, n)
  }

  lemma UnheardTooLong(c: Conn, t: seq<Event>)
    requires RequestOk(c) && ConnOk(c, t) && c.asked == None && !Receiving(c.state)
    ensures c.status == Failure(BadRequest) && NoLine(c.wire.stream)
  {
    DecidedStatus(c, t);
    forall n: nat | n < 1023 ensures !LineEnds(c.wire.stream, n) {
      if LineEnds(c.wire.stream, n) {
        assert c.header[..n] == c.wire.stream[..n];
        StrChrFinds(c.header, '\n', n);
      }
    }
  }

  /** The request line is the bytes up to the first newline, at most 1023 of them; there is an answer without one only
      if there is none among so many. */
  ghost predicate LineSpelt(c: Conn) {
    && (c.asked.Some? ==> 0 < |c.header| <= 1023 && Spelt(c, |c.header| - 1))
    && (c.asked.None? && !Receiving(c.state) ==> NoLine(c.wire.stream))
  }

  /** Only the four requests are answered anything but "Bad request", and are answered that only if a LIST has no
      memory. */
  ghost predicate AnswerSpelt(c: Conn, calls: seq<Call>) {
    var stream := c.wire.stream;
    && (!Receiving(c.state) && c.status != Failure(BadRequest) ==> OneOfFour(stream))
    && (c.asked.Some? && OneOfFour(stream) && !Receiving(c.state) && c.status == Failure(BadRequest) ==>
          "LIST\n" <= stream && Allocate(false) in calls)
  }

  /** The events of the connection are what its bytes ask for. */
  ghost predicate EventsSpelt(c: Conn, t: seq<Event>) {
    forall j :: 0 <= j < |t| && t[j].id == c.id ==>
      0 < |c.header| <= |c.wire.stream| && OneOfFour(c.wire.stream)
      && EventSpelt(c.wire.stream, |c.header| - 1, t[j])
  }

  lemma LineIsSpelt(c: Conn, t: seq<Event>)
    requires RequestOk(c) && ConnOk(c, t)
    ensures LineSpelt(c)
  {
    if c.asked.Some? {
      RequestSpelt(c);
    } else if !Receiving(c.state) {
      UnheardTooLong(c, t);
    }
  }

  lemma AnswerIsSpelt(c: Conn, t: seq<Event>, calls: seq<Call>)
    requires RequestOk(c) && ConnOk(c, t) && (c.oom <==> Allocate(false) in calls)
    ensures AnswerSpelt(c, calls)
  {
    if !Receiving(c.state) {
      DecidedStatus(c, t);
      if c.asked.Some? {
        RequestSpelt(c);
      }
    }
  }

  lemma EventsAreSpelt(c: Conn, t: seq<Event>)
    requires RequestOk(c) && ConnOk(c, t) && OwnEvents(t, c)
    ensures EventsSpelt(c, t)
  {
    forall j | 0 <= j < |t| && t[j].id == c.id
      ensures 0 < |c.header| <= |c.wire.stream| && OneOfFour(c.wire.stream)
      ensures EventSpelt(c.wire.stream, |c.header| - 1, t[j])
    {
      DoneSpelt(t, j, c);
    }
  }

  /** What a connection is taken to ask for is what its bytes spell. Every event of the history that was done for it is
      of the kind and about the name they give, and only bytes that begin with "GET ", "PUT ", "DELETE " or "LIST" and a
      newline are answered anything but "Bad request", or have an event at all; these are answered so only if a LIST has
      no memory. */
  lemma RequestsSpelt(listenFd: nat, inputs: seq<Input>, c: Conn)
    requires Feasible(listenFd, inputs) && Known(Run(listenFd, inputs), c)
    ensures
      var s := Run(listenFd, inputs);
      LineSpelt(c) && AnswerSpelt(c, Story(s, c)) && EventsSpelt(c, s.sh.trace)
  {
    var s := Run(listenFd, inputs);
    KnownTold(listenFd, inputs, c);
    KnownOwns(listenFd, inputs, c);
    LineIsSpelt(c, s.sh.trace);
    AnswerIsSpelt(c, s.sh.trace, Story(s, c));
    EventsAreSpelt(c, s.sh.trace);
  }

  /** Anything else has no effect and is answered "Bad request", and nothing but that. */
  lemma OthersRefused(listenFd: nat, inputs: seq<Input>, c: Conn)
    requires Feasible(listenFd, inputs) && Known(Run(listenFd, inputs), c) && !OneOfFour(c.wire.stream)
    ensures
      var t := Run(listenFd, inputs).sh.trace;
      && Silent(t, c.id) && c.wire.sent <= "ERROR\nBad request\n\n"
      && (c.state == Done ==> c.wire.sent == "ERROR\nBad request\n\n")
  {
    var t := Run(listenFd, inputs).sh.trace;
    RequestsSpelt(listenFd, inputs, c);
    KnownOk(listenFd, inputs, c);
    ErrorsSpelled();
    UnaskedSent(c, t);
  }

  lemma UnaskedSent(c: Conn, t: seq<Event>)
    requires ConnOk(c, t) && (!Receiving(c.state) ==> c.status == Failure(BadRequest)) && !Asks(c, LIST)
    ensures c.wire.sent <= ErrorReply(BadRequest) && (c.state == Done ==> c.wire.sent == ErrorReply(BadRequest))
  {
  }

  // -------- replies --------

  /** What is sent for an event. */
  ghost predicate ReplySpelt(e: Event, sent: bytes) {
    match e
    case Committed(_, _, _, _) => sent == "OK\n"
    case Deleted(_, _, _) => sent == "OK\n"
    case Refused(_, _, _, _) => sent == "ERROR\nNo such file\n\n"
    case Rejected(_, _, _, _, _) => sent == "ERROR\nBad file size\n\n"
    case Fetched(_, _, _, body, _) => Framed(sent, body)
    case Listed(_, names) => Framed(sent, Drop(sent, 11)) && LaidOut(names, Drop(sent, 11))
    case _ => false
  }

  lemma EventReplySpelt(t: seq<Event>, i: nat, sent: bytes)
    requires Legal(t) && i < |t| && sent == EventReply(t[i])
    requires !t[i].PutOpened? && !t[i].TornDown?
    ensures ReplySpelt(t[i], sent)
  {
    LegalAt(t, i);
    ErrorsSpelled();
    if t[i].Fetched? {
      PayloadFramed(t[i].body);
    } else if t[i].Listed? {
      PayloadFramed(ListBody(t[i].names));
      ListBodyLaidOut(t[i].names);
    }
  }

  /** A finished connection was sent, byte for byte, what its event calls for (a GET unless its file was truncated
      meanwhile), or "Bad request". */
  lemma RepliesSpelt(listenFd: nat, inputs: seq<Input>, i: nat)
    requires Feasible(listenFd, inputs)
    requires
      var s := Run(listenFd, inputs);
      i < |s.gone| && s.gone[i].c.state == Done && Vouched(s.gone[i], s.sh.trace)
    ensures
      var s := Run(listenFd, inputs);
      var c := s.gone[i].c;
      if c.status == Failure(BadRequest) then
        c.wire.sent == (if c.oom then "OK\n" else []) + "ERROR\nBad request\n\n"
      else Placed(c, s.sh.trace) && ReplySpelt(s.sh.trace[c.op], c.wire.sent)
  {
    var s := Run(listenFd, inputs);
    AnsweredAsRecorded(listenFd, inputs, i);
    ErrorsSpelled();
    RunKeeps(listenFd, inputs);
    if s.gone[i].c.status != Failure(BadRequest) {
      EventReplySpelt(s.sh.trace, s.gone[i].c.op, s.gone[i].c.wire.sent);
    }
  }
}
