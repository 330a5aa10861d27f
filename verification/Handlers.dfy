/** What each handler of the server does to its connection and to the shared state, as a function of the
    answers the system gives. The handlers themselves are the methods of module FileServer. */
module Handlers {
  import opened Bytes
  import opened Protocol
  import opened Calls
  import opened History
  import opened Kernel

  const BUFFER_SIZE: nat := 4096

  // -------- teardown --------

  function TearDown(sh: Shared, id: nat, name: bytes): Shared {
    sh.(dir := sh.dir - {name}, trace := sh.trace + [TornDown(id, name)])
  }

  /** The `unlink` of a PUT that has not reached STATE_DONE. */
  function AbortUpload(w: World): World {
    if w.c.verb == PUT && w.c.state != Done then
      var (w1, ok) := Unlink(w);
      if ok then w1.(sh := TearDown(w1.sh, w1.c.id, w1.c.filename)) else w1
    else w
  }

  /** `client_destroy`. */
  function Destroy(w: World): World {
    w.(alive := false, sh := if w.c.fileFd != -1 then CloseFd(w.sh, w.c.fileFd) else w.sh)
  }

  function CloseAndCleanup(w: World): World {
    Destroy(AbortUpload(w.(sh := CloseSocket(w.sh, w.c.fd))))
  }

  /** Reaches STATE_DONE and frees the record. */
  function Finish(w: World): World {
    CloseAndCleanup(w.(c := w.c.(state := Done)))
  }

  // -------- replies --------

  function ReplyText(status: Status): bytes {
    match status
    case Success => OK_LINE
    case Failure(m) => ErrorReply(m)
  }

  /** `prepare_and_send_response` up to the write. */
  function Prepared(w: World, status: Status): World {
    w.(c := w.c.(resp := ReplyText(status), respSent := 0, status := status,
                 state := if status.Success? then SendOk else SendError))
  }

  ghost function Respond(w: World, status: Status): World
    decreases if status.Success? then 4 else 1, 1
  {
    WriteReply(Prepared(w, status))
  }

  /** `execute_simple_response_write`. */
  ghost function WriteReply(w: World): World
    decreases if w.c.state == SendOk then 3 else 0, 1
  {
    var (w1, r) := SockWrite(w, Drop(w.c.resp, w.c.respSent));
    match r
    case Error(e) => if e == EAGAIN then w1 else CloseAndCleanup(w1)
    case Count(n) => ReplyMoved(ReplyGrown(w1, n))
  }

  /** `n` more bytes of the status line are out. */
  function ReplyGrown(w: World, n: nat): World {
    w.(c := w.c.(respSent := w.c.respSent + n))
  }

  /** The rest of `execute_simple_response_write`, after a write that moved something. */
  ghost function ReplyMoved(w: World): World
    decreases if w.c.state == SendOk then 3 else 0, 0
  {
    if w.c.respSent != |w.c.resp| then Arm(w, Write)
    else if w.c.state == SendOk then
      if w.c.verb == LIST then StartSendList(w)
      else if w.c.verb == GET then
        Arm(w.(c := w.c.(resp := [], respSent := 0, state := SendGetSize)), Write)
      else Finish(w)
    else if w.c.state == SendError then Finish(w)
    else w
  }

  /** The size field and the names, as `build_list_buffer` lays them out. */
  function ListBuffer(names: seq<bytes>): bytes {
    SizeBytes(|ListBody(names)|) + ListBody(names)
  }

  function LogOp(w: World, e: Event): World {
    w.(c := w.c.(op := |w.sh.trace|), sh := Log(w.sh, e))
  }

  /** `start_send_list`; the answer says whether the buffer could be allocated. */
  ghost function StartSendList(w: World): World
    decreases 2, 1
  {
    var (w1, memory) := Alloc(w, |ListBuffer(w.sh.list)|);
    if !memory then
      Respond(w1.(c := w1.c.(oom := true)), Failure(BadRequest))
    else
      var w2 := LogOp(w1, Listed(w1.c.id, w1.sh.list));
      Arm(w2.(c := w2.c.(listBuf := Some(ListBuffer(w2.sh.list)), listSent := 0, state := SendListData)),
          Write)
  }

  // -------- PUT --------

  /** How an iteration of an I/O loop ends: the loop goes on (`More`), everything was moved, the socket
      would block, or there was an error or an end of file. */
  datatype Outcome = More | Complete | Blocked | Broken

  /** An iteration moved something towards its limit, or it used up one EINTR. */
  predicate Advanced(w: World, w1: World, before: nat, after: nat, limit: nat) {
    before < after <= limit || (before == after && |w1.sched| < |w.sched|)
  }

  function OnError(e: Errno): Outcome {
    match e
    case EINTR => More
    case EAGAIN => Blocked
    case EIO => Broken
  }

  /** The `n` bytes just read join those of the size. */
  function StoreSize(w: World, n: nat): World {
    w.(c := w.c.(expected := Overlay(w.c.expected, w.c.transferred, JustRead(w.c, n)),
                 transferred := w.c.transferred + n))
  }

  /** One read of the size: it arrives in the memory of `expected_size`, byte by byte if need be. */
  function SizeStep(w: World): (r: (World, Outcome))
    requires w.c.transferred < SIZE_BYTES
    ensures r.1 == More ==> Advanced(w, r.0, w.c.transferred, r.0.c.transferred, SIZE_BYTES)
  {
    var (w1, r) := SockRead(w, SIZE_BYTES - w.c.transferred);
    match r
    case Error(e) => (w1, OnError(e))
    case Count(n) =>
      if n == 0 then (w1, Broken)
      else (StoreSize(w1, n), More)
  }

  /** The loop of `recv_put_size`. */
  function FillSize(w: World): (World, Outcome)
    decreases SIZE_BYTES - w.c.transferred, |w.sched|
  {
    if w.c.transferred < SIZE_BYTES then
      var (w1, outcome) := SizeStep(w);
      if outcome == More then FillSize(w1) else (w1, outcome)
    else (w, Complete)
  }

  /** The history's record of a failed upload of `file`, -1 if none was opened. */
  function Rejection(w: World, file: int): Event {
    Rejected(w.c.id, w.c.filename, file, if file >= 0 then Content(w.sh, file) else [], CourseOf(w.calls))
  }

  /** Answers "Bad file size". */
  ghost function Reject(w: World, file: int): World {
    Respond(LogOp(w, Rejection(w, file)), Failure(BadFileSize))
  }

  /** `recv_put_size`. */
  ghost function RecvSize(w: World): World {
    var (w1, outcome) := FillSize(w);
    match outcome
    case Blocked => w1
    case Broken => Reject(w1, -1)
    case _ => OpenUpload(w1)
  }

  /** The rest of `recv_put_size`: opens the file and goes on to the data. */
  ghost function OpenUpload(w: World): World {
    var (w1, fd) := OpenForPut(w.(c := w.c.(transferred := 0)));
    if fd == -1 then Reject(w1.(c := w1.c.(fileFd := -1)), -1)
    else RecvData(w1.(c := w1.c.(fileFd := fd, state := RecvPutData)))
  }

  /** The body bytes read so far: what follows the request line and the size. */
  function Body(c: Conn): bytes {
    Drop(Take(c.wire.stream, c.wire.got), |c.header| + SIZE_BYTES)
  }

  /** `add_file_to_list`. */
  function Commit(sh: Shared, id: nat, name: bytes, ino: int, body: bytes): Shared {
    sh.(list := With(sh.list, name), trace := sh.trace + [Committed(id, name, ino, body)])
  }

  /** A complete upload: close, probe for an extra byte, then list the file. */
  ghost function FinishUpload(w: World): World {
    var (w1, r) := SockRead(CloseOwn(w), 1);
    if r.Count? && r.n > 0 then Reject(w1, Ino(w.sh, w.c.fileFd))
    else
      Respond(w1.(c := w1.c.(op := |w1.sh.trace|),
                  sh := Commit(w1.sh, w1.c.id, w1.c.filename, Ino(w.sh, w.c.fileFd), Body(w.c))),
              Success)
  }

  /** The `n` bytes just read are written at their own offset; anything but all of it ends the upload. */
  function StoreChunk(w: World, n: nat): (World, Outcome) {
    var (w1, written) := Pwrite(w, JustRead(w.c, n), w.c.transferred);
    if written != Count(n) then (w1, Broken)
    else (w1.(c := w1.c.(transferred := w1.c.transferred + n)), More)
  }

  /** At most `count` bytes are read and stored. */
  function ReadChunk(w: World, count: nat): (r: (World, Outcome))
    ensures r.0.c.expected == w.c.expected
    ensures r.1 == More ==> Advanced(w, r.0, w.c.transferred, r.0.c.transferred, w.c.transferred + count)
  {
    var (w1, r) := SockRead(w, count);
    match r
    case Error(e) => (w1, OnError(e))
    case Count(n) => if n == 0 then (w1, Broken) else StoreChunk(w1, n)
  }

  /** One chunk of the body is read and stored. */
  function FileStep(w: World): (r: (World, Outcome))
    requires w.c.transferred < SizeOf(w.c.expected)
    ensures r.0.c.expected == w.c.expected
    ensures r.1 == More ==> Advanced(w, r.0, w.c.transferred, r.0.c.transferred, SizeOf(w.c.expected))
  {
    ReadChunk(w, Min(BUFFER_SIZE, SizeOf(w.c.expected) - w.c.transferred))
  }

  /** The loop of `recv_put_data`. */
  function FillFile(w: World): (World, Outcome)
    decreases SizeOf(w.c.expected) - w.c.transferred, |w.sched|
  {
    if w.c.transferred < SizeOf(w.c.expected) then
      var (w1, outcome) := FileStep(w);
      if outcome == More then FillFile(w1) else (w1, outcome)
    else (w, if w.c.transferred == SizeOf(w.c.expected) then Complete else Blocked)
  }

  /** `recv_put_data`. */
  ghost function RecvData(w: World): World {
    var (w1, outcome) := FillFile(w);
    match outcome
    case Blocked => w1
    case Broken => Reject(CloseOwn(w1), Ino(w1.sh, w1.c.fileFd))
    case _ => FinishUpload(w1)
  }

  // -------- GET --------

  /** Answers "No such file". */
  ghost function Refuse(w: World, verb: Verb): World {
    Respond(LogOp(w, Refused(w.c.id, verb, w.c.filename, Denied(w.calls))), Failure(NoSuchFile))
  }

  /** `start_send_get`. */
  ghost function StartGet(w: World): World {
    var (w1, fd) := OpenForGet(w);
    var w2 := w1.(c := w1.c.(fileFd := fd));
    if fd == -1 then Refuse(w2, GET)
    else
      var (w3, ok) := Stat(w2);
      if !ok then Refuse(CloseOwn(w3), GET) else Respond(Announce(w3), Success)
  }

  /** What `fstat` tells: the size the file has at this moment. */
  ghost function Announce(w: World): World {
    var ino := Max(0, Ino(w.sh, w.c.fileFd));
    var file := Content(w.sh, ino);
    LogOp(w.(c := w.c.(fileSize := |file|, transferred := 0, snapshot := file)),
          Fetched(w.c.id, w.c.filename, ino, file, Solid(w.sh, ino)))
  }

  /** The first call of `send_get_size` puts the size into the response buffer. */
  function SizeReady(w: World): World {
    if |w.c.resp| == 0 then w.(c := w.c.(resp := SizeBytes(w.c.fileSize), respSent := 0)) else w
  }

  /** `send_get_size` from the write on. */
  ghost function WriteSize(w: World): World {
    var (w1, r) := SockWrite(w, Drop(w.c.resp, w.c.respSent));
    match r
    case Error(e) => if e == EAGAIN then w1 else CloseAndCleanup(w1)
    case Count(n) => SizeMoved(w1, n)
  }

  /** `n` more bytes of the size are out: the body is next once all are. */
  function SizeMoved(w: World, n: nat): World {
    var w1 := w.(c := w.c.(respSent := w.c.respSent + n));
    if w1.c.respSent == |w1.c.resp| then
      Arm(w1.(c := w1.c.(state := SendGetData, resp := [], respSent := 0)), Write)
    else w1
  }

  /** `send_get_size`. */
  ghost function SendSize(w: World): World {
    WriteSize(SizeReady(w))
  }

  /** As much of the chunk as the socket takes. */
  function ChunkSent(w: World, chunk: bytes): (r: (World, Outcome))
    ensures r.0.c.fileSize == w.c.fileSize
    ensures r.1 == More ==> r.0.c.transferred == w.c.transferred + |chunk|
  {
    var (w1, r) := SockWrite(w, chunk);
    match r
    case Error(e) => (w1, if e == EAGAIN then Blocked else Broken)
    case Count(n) => (w1.(c := w1.c.(transferred := w1.c.transferred + n)), if n < |chunk| then Blocked else More)
  }

  /** One chunk of the file. */
  function BodyStep(w: World): (r: (World, Outcome))
    requires w.c.transferred < w.c.fileSize
    ensures r.0.c.fileSize == w.c.fileSize
    ensures r.1 == More ==> w.c.transferred < r.0.c.transferred <= w.c.fileSize
  {
    var (w1, chunk) := Pread(w, Min(BUFFER_SIZE, w.c.fileSize - w.c.transferred), w.c.transferred);
    if chunk == [] then (w1, Broken) else ChunkSent(w1, chunk)
  }

  /** The loop of `send_get_data`. */
  function DrainFile(w: World): (World, Outcome)
    decreases w.c.fileSize - w.c.transferred
  {
    if w.c.transferred < w.c.fileSize then
      var (w1, outcome) := BodyStep(w);
      if outcome == More then DrainFile(w1) else (w1, outcome)
    else (w, if w.c.transferred == w.c.fileSize then Complete else Blocked)
  }

  /** `send_get_data`. */
  ghost function SendData(w: World): World {
    var (w1, outcome) := DrainFile(w);
    match outcome
    case Blocked => w1
    case Broken => CloseAndCleanup(w1)
    case _ => Finish(w1)
  }

  // -------- DELETE --------

  /** The `unlink` of a listed name together with its removal from the list. */
  ghost function DeleteName(sh: Shared, id: nat, name: bytes): Shared {
    sh.(list := Without(sh.list, name), dir := sh.dir - {name},
        trace := sh.trace + [Deleted(id, name, Uploading(sh.fds, name))])
  }

  /** `delete_request`. */
  ghost function Delete(w: World): World {
    if w.c.filename !in w.sh.list then Refuse(w, DELETE) else DeleteListed(w)
  }

  ghost function DeleteListed(w: World): World {
    var (w1, ok) := Unlink(w);
    if !ok then Refuse(w1, DELETE)
    else
      Respond(w1.(c := w1.c.(op := |w1.sh.trace|), sh := DeleteName(w1.sh, w1.c.id, w1.c.filename)), Success)
  }

  // -------- LIST --------

  /** `send_list_data`. */
  ghost function SendList(w: World): World {
    var buffer := w.c.listBuf.GetOr([]);
    var (w1, r) := SockWrite(w, Drop(buffer, w.c.listSent));
    match r
    case Error(e) => if e == EAGAIN then w1 else CloseAndCleanup(w1)
    case Count(n) => ListMoved(w1, n, |buffer|)
  }

  /** `n` more bytes of the list buffer, which has `size`, are out. */
  ghost function ListMoved(w: World, n: nat, size: nat): World {
    var w1 := w.(c := w.c.(listSent := w.c.listSent + n));
    if w1.c.listSent == size then Finish(w1) else w1
  }

  // -------- the request line --------

  /** The request line with its newline and first space overwritten by NUL. */
  function Terminated(header: bytes, newline: nat): bytes
    requires newline < |header|
  {
    var cut := header[newline := '\0'];
    var space := StrChr(cut, ' ');
    if space < 0 then cut else cut[space := '\0']
  }

  /** `parse_header_and_transition`; it does nothing when a NUL hides the newline. */
  ghost function ParseHeader(w: World): World {
    var newline := StrChr(w.c.header, '\n');
    if newline < 0 then w
    else
      var request := ParseLine(w.c.header[..newline]);
      ActedOn(w.(c := w.c.(header := Terminated(w.c.header, newline), asked := Some(request),
                           verb := if request.verb == UNKNOWN then w.c.verb else request.verb)),
              request)
  }

  /** The rest of `parse_header_and_transition`. */
  ghost function ActedOn(w: World, request: Request): World {
    if request.verb == UNKNOWN then Respond(w, Failure(BadRequest))
    else if request.verb == LIST then
      Respond(w, if request.name.Some? then Failure(BadRequest) else Success)
    else if request.name.None? then Respond(w, Failure(BadRequest))
    else
      var w1 := w.(c := w.c.(filename := StoredName(request.name.value)));
      if request.verb == DELETE then Delete(w1)
      else if request.verb == GET then StartGet(w1)
      else Arm(w1.(c := w1.c.(transferred := 0, state := RecvPutSize)), Read)
  }

  /** The byte just read joins the request line; `Complete` when it is the newline. */
  function StoreByte(w: World, n: nat): (World, Outcome) {
    var d := JustRead(w.c, n);
    (w.(c := w.c.(header := w.c.header + d)), if d == "\n" then Complete else More)
  }

  /** One byte of the request line. */
  function HeaderStep(w: World): (r: (World, Outcome))
    requires |w.c.header| < HEADER_MAX - 1
    ensures r.1 == More ==> Advanced(w, r.0, |w.c.header|, |r.0.c.header|, HEADER_MAX - 1)
  {
    var (w1, r) := SockRead(w, 1);
    match r
    case Error(e) => (w1, OnError(e))
    case Count(n) =>
      if n == 0 then (w1, Broken) else StoreByte(w1, n)
  }

  /** The loop over the request line; `Blocked` also when the buffer is full. */
  function FillHeader(w: World): (World, Outcome)
    decreases HEADER_MAX - |w.c.header|, |w.sched|
  {
    if |w.c.header| < HEADER_MAX - 1 then
      var (w1, outcome) := HeaderStep(w);
      if outcome == More then FillHeader(w1) else (w1, outcome)
    else (w, Blocked)
  }

  /** `handle_read_event` in STATE_RECV_HEADER. */
  ghost function RecvHeaderBytes(w: World): World {
    var (w1, outcome) := FillHeader(w);
    match outcome
    case Broken => CloseAndCleanup(w1)
    case Complete => ParseHeader(w1)
    case _ =>
      if |w1.c.header| >= HEADER_MAX - 1 then Respond(w1, Failure(BadRequest)) else w1
  }

  // -------- dispatch --------

  ghost function HandleRead(w: World): World {
    match w.c.state
    case RecvHeader => RecvHeaderBytes(w)
    case RecvPutSize => RecvSize(w)
    case RecvPutData => RecvData(w)
    case _ => w
  }

  ghost function HandleWrite(w: World): World {
    match w.c.state
    case SendOk => WriteReply(w)
    case SendError => WriteReply(w)
    case SendListData => SendList(w)
    case SendGetSize => SendSize(w)
    case SendGetData => SendData(w)
    case _ => w
  }

  /** What the event loop reports about a descriptor. */
  datatype Mask = Mask(read: bool, write: bool, error: bool)

  /** One reported event, dispatched as the main loop does it. */
  ghost function Dispatch(w: World, mask: Mask): World {
    if mask.error then CloseAndCleanup(w.(calls := w.calls + [HangUp]))
    else
      var w1 := if mask.read then HandleRead(w) else w;
      if mask.write && w1.c.state != RecvHeader then HandleWrite(w1) else w1
  }
}
