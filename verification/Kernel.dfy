/** The server's view of the operating system: connections, descriptors, the directory, and system
    calls answered by an arbitrary schedule. */
module Kernel {
  import opened Bytes
  import opened Protocol
  import opened Calls
  import opened History

  datatype State =
    | RecvHeader | RecvPutSize | RecvPutData
    | SendOk | SendError | SendGetSize | SendGetData | SendListData
    | Done

  predicate Receiving(state: State) {
    state == RecvHeader || state == RecvPutSize || state == RecvPutData
  }

  /** The socket of one connection. `stream` is all the peer will ever send, of which `got` bytes
      have been read; `sent` is all that was written to it. */
  datatype Wire = Wire(stream: bytes, got: nat, sent: bytes)

  /** What the event loop will report after the handler in progress: whether its last read met EAGAIN,
      whether its last write met EAGAIN or was short, whether it registered the descriptor again. */
  datatype Signals = Signals(readBlocked: bool, writeBlocked: bool, armed: bool)

  const NO_SIGNALS := Signals(false, false, false)

  datatype Status = Success | Failure(message: Message)

  /** `client_t`, its socket, and what the proofs remember about it: the connection number, the request
      line once it was read, the outcome being reported, what a GET's file held when it was opened
      (`snapshot`), where the history records this connection's effect (`op`, -1 for nowhere), and
      whether the list buffer could not be allocated. */
  datatype Conn = Conn(
    fd: int, state: State, verb: Verb,
    header: bytes, filename: bytes,
    fileFd: int, expected: bytes, fileSize: nat, transferred: nat,
    listBuf: Option<bytes>, listSent: nat,
    resp: bytes, respSent: nat,
    wire: Wire,
    id: nat, asked: Option<Request>, status: Status, snapshot: bytes, op: int, oom: bool)

  /** `client_create`. */
  function NewConn(id: nat, fd: int, stream: bytes): Conn {
    Conn(fd, RecvHeader, GET, [], [], -1, Zeros(SIZE_BYTES), 0, 0, None, 0, [], 0,
         Wire(stream, 0, []), id, None, Success, [], -1, false)
  }

  datatype Interest = Read | Write

  datatype Descriptor = Socket | File(name: bytes, ino: nat, writing: bool)

  /** What all connections share: the file list, the directory and the inodes' contents, the open
      descriptors, the event loop's registrations, how many file descriptors were opened and how many
      times `close` was called on one, and the history. */
  datatype Shared = Shared(
    list: seq<bytes>,
    dir: map<bytes, nat>, data: seq<bytes>,
    fds: map<int, Descriptor>, polls: map<int, Interest>,
    opens: nat, closes: nat,
    trace: seq<Event>)

  /** One handler call: a connection, the shared state, the answers still to come, the signals set so far,
      whether the record is still allocated, and the calls made so far. */
  datatype World = World(c: Conn, sh: Shared, sched: seq<Answer>, sig: Signals, alive: bool, calls: seq<Call>)

  /** A connection at the start of an event. */
  function Begin(c: Conn, sh: Shared, sched: seq<Answer>): World {
    World(c, sh, sched, NO_SIGNALS, true, [])
  }

  /** An answer was used up for a call. */
  function Called(w: World, call: Call): World {
    w.(sched := Rest(w.sched), calls := w.calls + [call])
  }

  // -------- sockets --------

  /** `read(client->fd, _, count)`; the bytes read are `stream[got..got + n]`. A stream that has been
      read to its end answers 0, end of file. */
  function SockRead(w: World, count: nat): (World, IoResult) {
    match First(w.sched)
    case Again =>
      (Called(w, SocketRead(count, Error(EAGAIN))).(sig := w.sig.(readBlocked := true)), Error(EAGAIN))
    case Intr => (Called(w, SocketRead(count, Error(EINTR))), Error(EINTR))
    case Fail => (Called(w, SocketRead(count, Error(EIO))), Error(EIO))
    case Ready(k) =>
      var n := Min(Max(k, 1), Min(count, Max(0, |w.c.wire.stream| - w.c.wire.got)));
      (Called(w, SocketRead(count, Count(n))).(
         c := w.c.(wire := w.c.wire.(got := w.c.wire.got + n)), sig := w.sig.(readBlocked := false)),
       Count(n))
  }

  /** The bytes a read that returned `n` delivered, seen from the connection after the read. */
  function JustRead(c: Conn, n: nat): bytes {
    if n <= c.wire.got <= |c.wire.stream| then c.wire.stream[c.wire.got - n..c.wire.got] else []
  }

  /** `write(client->fd, data, |data|)`. */
  function SockWrite(w: World, data: bytes): (World, IoResult) {
    match First(w.sched)
    case Again =>
      (Called(w, SocketWrite(|data|, Error(EAGAIN))).(sig := w.sig.(writeBlocked := true)), Error(EAGAIN))
    case Intr => (Called(w, SocketWrite(|data|, Error(EINTR))), Error(EINTR))
    case Fail => (Called(w, SocketWrite(|data|, Error(EIO))), Error(EIO))
    case Ready(k) =>
      var n := Min(k, |data|);
      (Called(w, SocketWrite(|data|, Count(n))).(
         c := w.c.(wire := w.c.wire.(sent := w.c.wire.sent + data[..n])),
         sig := w.sig.(writeBlocked := n < |data|)),
       Count(n))
  }

  /** `event_loop_modify`: an edge-triggered registration, which reports present readiness anew. */
  function Arm(w: World, interest: Interest): World {
    w.(sig := w.sig.(armed := true),
       sh := if w.c.fd in w.sh.polls then w.sh.(polls := w.sh.polls[w.c.fd := interest]) else w.sh)
  }

  /** `event_loop_remove` and `close` of the client socket. */
  function CloseSocket(sh: Shared, fd: int): Shared {
    sh.(polls := sh.polls - {fd}, fds := sh.fds - {fd})
  }

  // -------- files --------

  function Log(sh: Shared, e: Event): Shared {
    sh.(trace := sh.trace + [e])
  }

  ghost predicate Held(fds: map<int, Descriptor>, ino: nat) {
    exists k :: k in fds && fds[k].File? && fds[k].ino == ino
  }

  /** Some PUT has the file open. */
  ghost predicate Written(fds: map<int, Descriptor>, ino: nat) {
    exists k :: k in fds && fds[k].File? && fds[k].writing && fds[k].ino == ino
  }

  ghost predicate Uploading(fds: map<int, Descriptor>, name: bytes) {
    exists k :: k in fds && fds[k].File? && fds[k].writing && fds[k].name == name
  }

  function Content(sh: Shared, ino: nat): bytes {
    if ino < |sh.data| then sh.data[ino] else []
  }

  /** The inode behind descriptor `fd`, -1 when it is not an open file. */
  function Ino(sh: Shared, fd: int): (r: int)
    ensures -1 <= r
  {
    if fd in sh.fds && sh.fds[fd].File? then sh.fds[fd].ino else -1
  }

  /** `open(_, O_WRONLY | O_CREAT | O_TRUNC)` succeeding with descriptor `fd`. */
  ghost function PutOpen(sh: Shared, id: nat, name: bytes, fd: int): Shared {
    var ino := if name in sh.dir then sh.dir[name] else |sh.data|;
    sh.(dir := sh.dir[name := ino],
        data := if ino < |sh.data| then sh.data[ino := []] else sh.data + [[]],
        fds := sh.fds[fd := File(name, ino, true)],
        opens := sh.opens + 1,
        trace := sh.trace + [PutOpened(id, name, ino, Written(sh.fds, ino), Held(sh.fds, ino))])
  }

  /** `open(_, O_RDONLY)` succeeding with descriptor `fd`. */
  function GetOpen(sh: Shared, name: bytes, fd: int): Shared
    requires name in sh.dir
  {
    sh.(fds := sh.fds[fd := File(name, sh.dir[name], false)], opens := sh.opens + 1)
  }

  /** No two PUTs are writing the file, or nobody is any more: until a PUT truncates it again it can only
      grow. */
  ghost predicate Solid(sh: Shared, ino: nat) {
    ino in Replay(sh.trace).tainted ==> !Written(sh.fds, ino)
  }

  /** `close` of a file descriptor. */
  function CloseFd(sh: Shared, fd: int): Shared {
    sh.(fds := sh.fds - {fd}, closes := sh.closes + 1)
  }

  /** `open` for a PUT may hand out any descriptor not in use, and may refuse any name; it refuses the
      empty name. The file is truncated or created at once. */
  ghost function OpenForPut(w: World): (World, int) {
    var present := w.c.filename in w.sh.dir;
    var refused := (Called(w, FileOpen(present, false)), -1);
    match First(w.sched)
    case Ready(k) =>
      if k in w.sh.fds || w.c.filename == [] then refused
      else (Called(w, FileOpen(present, true)).(sh := PutOpen(w.sh, w.c.id, w.c.filename, k)), k as int)
    case _ => refused
  }

  function OpenForGet(w: World): (World, int) {
    var present := w.c.filename in w.sh.dir;
    var refused := (Called(w, FileOpen(present, false)), -1);
    match First(w.sched)
    case Ready(k) =>
      if k in w.sh.fds || !present then refused
      else (Called(w, FileOpen(true, true)).(sh := GetOpen(w.sh, w.c.filename, k)), k as int)
    case _ => refused
  }

  /** `fstat`: whether it succeeded. */
  function Stat(w: World): (World, bool) {
    var ok := First(w.sched).Ready?;
    (Called(w, FileStat(ok)), ok)
  }

  /** The part of `pwrite(fd, d, |d|, off)` that reached the file. */
  function WriteFile(sh: Shared, fd: int, off: nat, d: bytes): Shared {
    var ino := Ino(sh, fd);
    if 0 <= ino < |sh.data| then sh.(data := sh.data[ino := Overlay(sh.data[ino], off, d)]) else sh
  }

  /** `pwrite`, which may write less than it was asked to. */
  function Pwrite(w: World, d: bytes, off: nat): (World, IoResult) {
    match First(w.sched)
    case Ready(k) =>
      var n := Min(k, |d|);
      (Called(w, FileWrite(|d|, Count(n))).(sh := WriteFile(w.sh, w.c.fileFd, off, d[..n])), Count(n))
    case _ => (Called(w, FileWrite(|d|, Error(EIO))), Error(EIO))
  }

  /** `pread`: the bytes read, or nothing at the end of the file and on an error. */
  function Pread(w: World, count: nat, off: nat): (World, bytes) {
    var ino := Ino(w.sh, w.c.fileFd);
    var file := if ino >= 0 then Content(w.sh, ino) else [];
    var chunk := match First(w.sched)
      case Ready(k) => Take(Drop(file, off), Min(Max(k, 1), count))
      case _ => [];
    (Called(w, FileRead(count, |chunk|)), chunk)
  }

  /** `close` of the connection's file. */
  function CloseOwn(w: World): World {
    w.(c := w.c.(fileFd := -1), sh := CloseFd(w.sh, w.c.fileFd), calls := w.calls + [FileClose])
  }

  /** The answer to `unlink`: it fails when refused or when there is no such entry. */
  function Unlink(w: World): (World, bool) {
    var present := w.c.filename in w.sh.dir;
    var ok := First(w.sched).Ready? && present;
    (Called(w, FileUnlink(present, ok)), ok)
  }

  /** The answer to an allocation; none is as large as the address space. */
  function Alloc(w: World, size: nat): (World, bool) {
    var ok := First(w.sched).Ready? && size < SIZE_LIMIT;
    (Called(w, Allocate(ok)), ok)
  }

  // -------- what the system may do --------

  /** A read may bring any number of the bytes that are still to come, up to as many as were asked for, and a write may
      take any number of those offered; either may be interrupted, find the socket not ready, or fail. */
  lemma SocketMay(w: World, count: nat, data: bytes, n: nat)
    ensures 0 < n <= count && w.c.wire.got + n <= |w.c.wire.stream| ==>
      SockRead(w.(sched := [Ready(n)]), count).1 == Count(n)
    ensures n <= |data| ==> SockWrite(w.(sched := [Ready(n)]), data).1 == Count(n)
    ensures SockRead(w.(sched := [Intr]), count).1 == SockWrite(w.(sched := [Intr]), data).1 == Error(EINTR)
    ensures SockRead(w.(sched := [Again]), count).1 == SockWrite(w.(sched := [Again]), data).1 == Error(EAGAIN)
    ensures SockRead(w.(sched := [Fail]), count).1 == SockWrite(w.(sched := [Fail]), data).1 == Error(EIO)
  {
  }

  /** A file may take or give any part of a chunk, or nothing, and any call on it may be refused. */
  lemma FileMay(w: World, d: bytes, off: nat, n: nat)
    ensures n <= |d| ==> Pwrite(w.(sched := [Ready(n)]), d, off).1 == Count(n)
    ensures Pwrite(w.(sched := [Fail]), d, off).1.Error?
    ensures
      var file := Content(w.sh, Max(0, Ino(w.sh, w.c.fileFd)));
      0 <= Ino(w.sh, w.c.fileFd) && 0 < n && off + n <= |file| ==>
        Pread(w.(sched := [Ready(n)]), n, off).1 == file[off..off + n]
    ensures Pread(w.(sched := [Fail]), n, off).1 == []
    ensures n !in w.sh.fds && w.c.filename != [] ==> OpenForPut(w.(sched := [Ready(n)])).1 == n
    ensures n !in w.sh.fds && w.c.filename in w.sh.dir ==> OpenForGet(w.(sched := [Ready(n)])).1 == n
    ensures OpenForPut(w.(sched := [Fail])).1 == OpenForGet(w.(sched := [Fail])).1 == -1
    ensures !Stat(w.(sched := [Fail])).1 && Stat(w.(sched := [Ready(0)])).1
    ensures !Unlink(w.(sched := [Fail])).1 && (Unlink(w.(sched := [Ready(0)])).1 <==> w.c.filename in w.sh.dir)
  {
  }
}
