/** What holds of one connection between two events, and when its record is freed. */
module ConnInvariant {
  import opened Bytes
  import opened Protocol
  import opened Calls
  import opened History
  import opened Kernel
  import opened Handlers
  import opened SharedInvariant

  // -------- the request --------

  /** The bytes received as the request line. */
  function Line(c: Conn): bytes {
    Take(c.wire.stream, |c.header|)
  }

  /** The field `filename` for a request. */
  function NameOf(r: Request): bytes {
    if r.name.Some? && r.verb != LIST && r.verb != UNKNOWN then StoredName(r.name.value) else []
  }

  /** What was read of the request line: a part of it without a visible newline, or the complete line,
      and then the verb and the name are what it says. */
  ghost predicate RequestOk(c: Conn) {
    var newline := |c.header| - 1;
    match c.asked
    case None => c.header == Line(c) && StrChr(c.header, '\n') < 0 && c.verb == GET && c.filename == []
    case Some(r) =>
      0 <= newline < |Line(c)| && StrChr(Line(c), '\n') == newline && r == ParseLine(Line(c)[..newline])
      && c.verb == (if r.verb == UNKNOWN then GET else r.verb) && c.filename == NameOf(r)
  }

  predicate SameRequest(c: Conn, c': Conn) {
    c'.header == c.header && c'.asked == c.asked && c'.verb == c.verb && c'.filename == c.filename
    && c'.wire.stream == c.wire.stream
  }

  /** The request is a well-formed request for `v`. */
  predicate Asks(c: Conn, v: Verb) {
    c.verb == v && c.asked.Some? && c.asked.value.verb == v && (v == LIST <==> c.asked.value.name.None?)
  }

  /** No visible newline in 1023 bytes, an unknown verb, a LIST with a name, or another verb without one. */
  predicate Malformed(c: Conn) {
    match c.asked
    case None => |c.header| == HEADER_MAX - 1
    case Some(r) => r.verb == UNKNOWN || (r.verb == LIST <==> r.name.Some?)
  }

  // -------- the answer and its place in the history --------

  ghost predicate Placed(c: Conn, trace: seq<Event>) {
    0 <= c.op < |trace| && trace[c.op].id == c.id
  }

  /** The body the request announces: the bytes after the size, as many as the size says. */
  ghost predicate Announced(c: Conn, body: bytes) {
    var start := |c.header| + SIZE_BYTES;
    start + |body| <= |c.wire.stream|
    && c.wire.stream[start..start + |body|] == body
    && SizeOf(c.wire.stream[|c.header|..start]) == |body|
  }

  /** What a failed upload may leave in a file of its own: the first bytes of the announced body; all that was sent
      if the peer stopped early, and the whole body if it sent too much. */
  ghost predicate LeftBehind(c: Conn, kept: bytes, course: Course) {
    var start := |c.header| + SIZE_BYTES;
    && start + |kept| <= |c.wire.stream| && c.wire.stream[start..start + |kept|] == kept
    && |kept| <= SizeOf(c.wire.stream[|c.header|..start])
    && (course == Failed(EndOfInput) ==> start + |kept| == |c.wire.stream|)
    && (course == Failed(ExtraByte) ==> Announced(c, kept))
  }

  /** The outcome `status` is what the request and the event recorded for it call for. */
  ghost predicate Decided(c: Conn, trace: seq<Event>, status: Status) {
    match status
    case Success => (
      match c.verb
      case LIST => Asks(c, LIST)
      case GET =>
        Asks(c, GET) && Placed(c, trace) && c.fileSize == |c.snapshot|
        && trace[c.op].Fetched? && trace[c.op].name == c.filename && trace[c.op].body == c.snapshot
      case DELETE =>
        Asks(c, DELETE) && Placed(c, trace) && trace[c.op].Deleted? && trace[c.op].name == c.filename
      case PUT =>
        Asks(c, PUT) && Placed(c, trace) && trace[c.op].Committed? && trace[c.op].name == c.filename
        && Announced(c, trace[c.op].body)
      case UNKNOWN => false)
    case Failure(BadRequest) => Malformed(c) || (c.oom && Asks(c, LIST))
    case Failure(NoSuchFile) =>
      (Asks(c, GET) || Asks(c, DELETE)) && Placed(c, trace) && trace[c.op].Refused?
      && trace[c.op].verb == c.verb && trace[c.op].name == c.filename
    case Failure(BadFileSize) =>
      Asks(c, PUT) && Placed(c, trace) && trace[c.op].Rejected? && trace[c.op].name == c.filename
  }

  /** The event at `j` was done for the request of `c`: it is of the kind and for the name asked for. A PUT opens its
      file before anything else, commits what it announced to the file it opened, and what decides a request is the
      one event recorded as its place in the history. */
  ghost predicate DoneFor(t: seq<Event>, j: nat, c: Conn)
    requires j < |t|
  {
    match t[j]
    case PutOpened(_, name, _, _, _) => Asks(c, PUT) && name == c.filename != [] && Earliest(t, j)
    case Committed(_, name, file, body) =>
      Asks(c, PUT) && name == c.filename && Announced(c, body) && c.op == j && OpenedBy(t[..j], c.id, file)
    case Rejected(_, name, file, kept, course) =>
      Asks(c, PUT) && name == c.filename && c.op == j
      && (if file < 0 then Earliest(t, j)
          else OpenedBy(t[..j], c.id, file) && (file !in Replay(t[..j]).tainted ==> LeftBehind(c, kept, course)))
    case Deleted(_, name, _) => Asks(c, DELETE) && name == c.filename && c.op == j
    case Fetched(_, name, _, _, _) => Asks(c, GET) && name == c.filename && c.op == j
    case Refused(_, verb, name, _) =>
      (verb == GET || verb == DELETE) && Asks(c, verb) && name == c.filename && c.op == j
    case Listed(_, _) => Asks(c, LIST) && c.op == j
    case TornDown(_, name) => Asks(c, PUT) && name == c.filename
  }

  /** No earlier event has its number. */
  ghost predicate Earliest(t: seq<Event>, j: nat)
    requires j < |t|
  {
    forall i :: 0 <= i < j ==> t[i].id != t[j].id
  }

  /** No event has that number. */
  ghost predicate Silent(t: seq<Event>, id: nat) {
    forall j :: 0 <= j < |t| ==> t[j].id != id
  }

  lemma DoneForSame(t: seq<Event>, j: nat, c: Conn, c': Conn)
    requires j < |t| && DoneFor(t, j, c) && SameRequest(c, c') && c'.op == c.op && c'.id == c.id
    ensures DoneFor(t, j, c')
  {
  }

  lemma DoneForLater(t: seq<Event>, t': seq<Event>, j: nat, c: Conn)
    requires j < |t| && DoneFor(t, j, c) && t <= t'
    ensures DoneFor(t', j, c)
  {
    assert t'[..j] == t[..j];
  }

  /** What was done before a request was decided stays done for it. */
  lemma DoneForDecided(t: seq<Event>, j: nat, c: Conn, c': Conn)
    requires j < |t| && DoneFor(t, j, c) && SameRequest(c, c') && c.op == -1 && c'.id == c.id
    ensures DoneFor(t, j, c')
  {
  }

  /** What was sent before an error reply: nothing, or the OK of a LIST whose buffer could not be allocated. */
  function Before(c: Conn): bytes {
    if c.oom then OK_LINE else []
  }

  /** The LIST body was built from the list recorded in the history. */
  ghost predicate ListPlaced(c: Conn, trace: seq<Event>) {
    Asks(c, LIST) && Placed(c, trace) && trace[c.op].Listed?
  }

  const PREFIX: nat := 11

  /** What a GET sends before the body. */
  function GetPrefix(size: nat): (r: bytes)
    ensures |r| == PREFIX
  {
    OK_LINE + SizeBytes(size)
  }

  /** The reply is complete. */
  ghost predicate Complete(c: Conn, trace: seq<Event>) {
    match c.status
    case Failure(_) => Decided(c, trace, c.status) && c.wire.sent == Before(c) + ReplyText(c.status)
    case Success =>
      !c.oom && Decided(c, trace, Success) &&
      match c.verb
      case GET =>
        c.transferred == c.fileSize && |c.wire.sent| == PREFIX + c.fileSize
        && c.wire.sent[..PREFIX] == GetPrefix(c.fileSize)
      case LIST => ListPlaced(c, trace) && c.wire.sent == OK_LINE + ListBuffer(trace[c.op].names)
      case _ => c.wire.sent == OK_LINE
  }

  /** The connection's own bookkeeping: what was received and sent so far fits its state. */
  ghost predicate ConnOk(c: Conn, trace: seq<Event>) {
    var hl := |c.header|;
    && hl <= c.wire.got <= |c.wire.stream| && hl <= HEADER_MAX - 1
    && |c.filename| <= NAME_MAX && Printable(c.filename)
    && (c.oom ==> (c.state == SendError || c.state == Done) && Asks(c, LIST) && c.status == Failure(BadRequest))
    && match c.state
       case RecvHeader =>
         c.wire.got == hl && |c.expected| == SIZE_BYTES
         && c.verb == GET && c.filename == [] && c.asked == None
         && c.wire.sent == [] && c.op == -1
       case RecvPutSize =>
         Asks(c, PUT) && c.wire.sent == [] && c.op == -1 && |c.expected| == SIZE_BYTES && c.transferred <= SIZE_BYTES
         && c.wire.got == hl + c.transferred
         && c.expected[..c.transferred] == c.wire.stream[hl..c.wire.got]
       case RecvPutData =>
         Asks(c, PUT) && c.filename != [] && c.wire.sent == [] && c.op == -1
         && c.wire.got == hl + SIZE_BYTES + c.transferred
         && c.expected == c.wire.stream[hl..hl + SIZE_BYTES] && c.transferred <= SizeOf(c.expected)
       case SendOk =>
         c.status == Success && Decided(c, trace, Success) && c.resp == OK_LINE && c.respSent <= |c.resp|
         && c.wire.sent == c.resp[..c.respSent] && (c.verb == GET ==> c.transferred == 0)
         && (c.verb == LIST ==> c.op == -1)
       case SendError =>
         c.status.Failure? && Decided(c, trace, c.status) && c.resp == ReplyText(c.status)
         && c.respSent <= |c.resp| && c.wire.sent == Before(c) + c.resp[..c.respSent]
       case SendGetSize =>
         c.status == Success && c.verb == GET && Decided(c, trace, Success) && c.transferred == 0
         && (c.resp == [] || c.resp == SizeBytes(c.fileSize))
         && c.respSent <= |c.resp| && c.wire.sent == OK_LINE + c.resp[..c.respSent]
       case SendGetData =>
         c.status == Success && c.verb == GET && Decided(c, trace, Success) && c.transferred <= c.fileSize
         && |c.wire.sent| == PREFIX + c.transferred && c.wire.sent[..PREFIX] == GetPrefix(c.fileSize)
       case SendListData =>
         c.status == Success && c.verb == LIST && ListPlaced(c, trace)
         && c.listBuf == Some(ListBuffer(trace[c.op].names)) && c.listSent <= |c.listBuf.value|
         && c.wire.sent == OK_LINE + c.listBuf.value[..c.listSent]
       case Done => Complete(c, trace)
  }

  // -------- files and registrations --------

  /** The file a GET is sending: as long as it is untouched it starts with what was announced. */
  ghost predicate ReadsFile(c: Conn, sh: Shared) {
    && c.fileFd in FileFds(sh.fds) && c.fileFd != c.fd
    && sh.fds[c.fileFd] == File(c.filename, sh.fds[c.fileFd].ino, false)
    && Placed(c, sh.trace) && sh.trace[c.op].Fetched? && sh.trace[c.op].ino == sh.fds[c.fileFd].ino
    && (Untouched(sh.trace, c.op) ==>
          Solid(sh, sh.fds[c.fileFd].ino) && c.snapshot <= Content(sh, sh.fds[c.fileFd].ino))
    && CutsHeld(sh.trace, c.op, sh.fds[c.fileFd].ino)
  }

  /** The history has the connection's open of the file `ino`. */
  ghost predicate OpenedBy(t: seq<Event>, id: nat, ino: int) {
    exists i :: 0 <= i < |t| && t[i].PutOpened? && t[i].id == id && t[i].ino == ino
  }

  lemma OpenedByLater(t: seq<Event>, t': seq<Event>, id: nat, ino: int)
    requires OpenedBy(t, id, ino) && t <= t'
    ensures OpenedBy(t', id, ino)
  {
    var i :| 0 <= i < |t| && t[i].PutOpened? && t[i].id == id && t[i].ino == ino;
    assert t'[i] == t[i];
  }

  /** The file a PUT is receiving: as long as its inode is untainted it holds the body received so far. */
  ghost predicate WritesFile(c: Conn, sh: Shared) {
    && c.fileFd in FileFds(sh.fds) && c.fileFd != c.fd
    && sh.fds[c.fileFd] == File(c.filename, sh.fds[c.fileFd].ino, true)
    && OpenedBy(sh.trace, c.id, sh.fds[c.fileFd].ino)
    && (sh.fds[c.fileFd].ino !in Tainted(sh) ==> Content(sh, sh.fds[c.fileFd].ino) == Body(c))
  }

  /** The body bytes a GET has sent. */
  function SentBody(c: Conn): bytes {
    Drop(c.wire.sent, PREFIX)
  }

  /** As long as the file is untouched, the bytes sent are those announced, none skipped or repeated. */
  ghost predicate SendsSnapshot(c: Conn, trace: seq<Event>) {
    Untouched(trace, c.op) ==> SentBody(c) == Take(c.snapshot, c.transferred)
  }

  /** The states in which a connection has a file open. */
  predicate HoldsFile(c: Conn) {
    c.state == RecvPutData || (c.verb == GET && (c.state == SendOk || c.state == SendGetSize || c.state == SendGetData))
  }

  ghost predicate Linked(c: Conn, sh: Shared) {
    c.fd in sh.fds && sh.fds[c.fd].Socket? && c.fd in sh.polls
  }

  ghost predicate FileOk(c: Conn, sh: Shared) {
    && (HoldsFile(c) <==> c.fileFd != -1)
    && (c.state == RecvPutData ==> WritesFile(c, sh))
    && (HoldsFile(c) && c.state != RecvPutData ==> ReadsFile(c, sh))
    && (c.state == SendGetData ==> SendsSnapshot(c, sh.trace))
  }

  /** What the connection is registered for. */
  ghost predicate InterestOk(c: Conn, sh: Shared)
    requires c.fd in sh.polls
  {
    match c.state
    case RecvHeader => sh.polls[c.fd] == Read
    case RecvPutSize => sh.polls[c.fd] == Read
    case RecvPutData => sh.polls[c.fd] == Read
    case SendOk => sh.polls[c.fd] == Read ==> c.respSent == 0
    case SendError => sh.polls[c.fd] == Read ==> c.respSent == 0
    case _ => sh.polls[c.fd] == Write
  }

  /** Work is left in the current phase. */
  ghost predicate Unfinished(c: Conn) {
    match c.state
    case RecvHeader => true
    case RecvPutSize => c.transferred < SIZE_BYTES
    case RecvPutData => c.transferred < SizeOf(c.expected)
    case SendOk => c.respSent < |c.resp|
    case SendError => c.respSent < |c.resp|
    case SendGetSize => c.resp == [] || c.respSent < |c.resp|
    case SendGetData => c.transferred < c.fileSize || c.transferred == 0
    case SendListData => c.listBuf.Some? && c.listSent < |c.listBuf.value|
    case Done => false
  }

  /** A connection in the map, between two events. */
  ghost predicate Live(c: Conn, sh: Shared) {
    && ConnOk(c, sh.trace) && Linked(c, sh) && FileOk(c, sh) && InterestOk(c, sh) && Unfinished(c)
    && (c.listBuf.Some? <==> c.state == SendListData)
  }

  /** A GET that got as far as its body. */
  predicate SentGetBody(c: Conn) {
    c.verb == GET && c.status == Success && (c.state == SendGetData || c.state == Done)
  }

  /** What a GET that sent a body, or part of it, leaves behind when it ends with the history `trace`. */
  ghost predicate BodyAccounted(c: Conn, trace: seq<Event>) {
    SentGetBody(c) ==>
      && 0 <= c.op < |trace| && trace[c.op].Fetched? && CutsHeld(trace, c.op, trace[c.op].ino)
      && SendsSnapshot(c, trace)
  }

  /** A record that was freed when the history had the length `at`. */
  ghost predicate Freed(c: Conn, at: nat, trace: seq<Event>) {
    at <= |trace| && ConnOk(c, trace) && BodyAccounted(c, trace[..at])
  }

  // -------- what a handler call does --------

  /** The descriptors that belong to the connection. */
  function Mine(c: Conn): set<int> {
    {c.fd} + if c.fileFd == -1 then {} else {c.fileFd}
  }

  function Owned(w: World): set<int> {
    if w.alive then Mine(w.c) else {}
  }

  /** From `w` to `w'` the connection kept its identity and left the others alone. */
  ghost predicate Reaches(w: World, w': World) {
    && SharedInv(w'.sh)
    && Steady(w.sh, w'.sh, Owned(w), Owned(w'))
    && w'.sh.polls - {w.c.fd} == w.sh.polls - {w.c.fd}
    && w'.c.fd == w.c.fd && w'.c.id == w.c.id && w'.c.wire.stream == w.c.wire.stream
    && (w'.alive <==> w'.c.fd in w'.sh.polls)
  }

  ghost predicate Handled(w: World, w': World) {
    && Reaches(w, w')
    && (w'.alive ==> Live(w'.c, w'.sh))
    && (!w'.alive ==> Freed(w'.c, |w'.sh.trace|, w'.sh.trace))
  }

  lemma Chain(w0: World, w1: World, w2: World)
    requires Reaches(w0, w1) && Reaches(w1, w2)
    ensures Reaches(w0, w2)
  {
    SteadyTrans(w0.sh, w1.sh, w2.sh, Owned(w0), Owned(w1), Owned(w2));
  }

  lemma ConnOkLater(c: Conn, t: seq<Event>, t': seq<Event>)
    requires ConnOk(c, t) && t <= t'
    ensures ConnOk(c, t')
  {
  }

  lemma FreedLater(c: Conn, at: nat, t: seq<Event>, t': seq<Event>)
    requires Freed(c, at, t) && t <= t'
    ensures Freed(c, at, t')
  {
    ConnOkLater(c, t, t');
    assert t'[..at] == t[..at];
  }

  /** What a GET has open and has sent survives what another connection does. */
  lemma ReadsSteady(c: Conn, sh: Shared, sh': Shared)
    requires ReadsFile(c, sh) && sh.trace <= sh'.trace && Undisturbed(sh, sh', sh.fds[c.fileFd])
    requires c.fileFd in sh'.fds && sh'.fds[c.fileFd] == sh.fds[c.fileFd]
    ensures ReadsFile(c, sh')
    ensures SendsSnapshot(c, sh.trace) ==> SendsSnapshot(c, sh'.trace)
  {
    var ino := sh.fds[c.fileFd].ino;
    if Untouched(sh'.trace, c.op) {
      UntouchedBefore(sh.trace, sh'.trace, c.op);
    }
    forall j | c.op <= j < |sh'.trace| && Truncates(sh'.trace[j], ino) ensures sh'.trace[j].held {
      if j < |sh.trace| {
        assert Truncates(sh.trace[j], ino);
      }
    }
  }

  /** A connection's invariant survives whatever another connection does. */
  lemma LiveSteady(c: Conn, sh: Shared, sh': Shared, m: set<int>, m': set<int>)
    requires Live(c, sh) && Steady(sh, sh', m, m') && Mine(c) !! m
    requires c.fd in sh'.polls && sh'.polls[c.fd] == sh.polls[c.fd]
    ensures Live(c, sh')
  {
    ConnOkLater(c, sh.trace, sh'.trace);
    assert c.fd in sh.fds - m;
    assert sh'.fds[c.fd] == (sh'.fds - m')[c.fd] == (sh.fds - m)[c.fd];
    if c.fileFd != -1 {
      assert c.fileFd in Mine(c);
      assert c.fileFd in sh.fds - m;
      assert c.fileFd in sh'.fds - m';
      assert sh'.fds[c.fileFd] == (sh'.fds - m')[c.fileFd] == (sh.fds - m)[c.fileFd];
      assert Undisturbed(sh, sh', sh.fds[c.fileFd]);
      if c.state != RecvPutData {
        ReadsSteady(c, sh, sh');
      } else {
        OpenedByLater(sh.trace, sh'.trace, c.id, sh.fds[c.fileFd].ino);
      }
    }
  }
}
