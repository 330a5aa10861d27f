/** The server itself: the connection records, the containers and the handlers of src/server.c, changing
    state in place. Each method is proved to do what the function of module Handlers or System that it is
    modelled by says, so everything proved about runs holds of it. */
module FileServer {
  import opened Bytes
  import opened Protocol
  import opened Calls
  import opened History
  import opened Kernel
  import opened Handlers
  import opened System
  import opened Collections

  /** The first space of a line is the first space of the header cut at the newline. */
  lemma CutAt(buffer: bytes, header: bytes, newline: nat)
    requires newline < |header| <= |buffer| && buffer[..|header|] == header[newline := '\0']
    ensures StrChr(buffer, ' ') == StrChr(header[..newline], ' ')
    ensures StrChr(header[newline := '\0'], ' ') == StrChr(header[..newline], ' ')
    ensures buffer[..newline] == header[..newline] && buffer[newline] == '\0'
  {
    var cut := header[newline := '\0'];
    assert buffer[newline] == buffer[..|header|][newline];
    StrChrTerminated(buffer, ' ', newline);
    StrChrTerminated(cut, ' ', newline);
    assert buffer[..newline] == cut[..newline] == header[..newline];
  }

  /** The loop over the request line, unrolled once. */
  lemma HeaderLoop(w: World, w1: World, outcome: Outcome)
    requires |w.c.header| < HEADER_MAX - 1 && HeaderStep(w) == (w1, outcome)
    ensures Handlers.FillHeader(w) == if outcome == More then Handlers.FillHeader(w1) else (w1, outcome)
    ensures outcome == More ==> Advanced(w, w1, |w.c.header|, |w1.c.header|, HEADER_MAX - 1)
  {
  }

  /** What a read of a part of the size leads to. */
  lemma SizeReceived(w: World, w1: World, r: IoResult)
    requires w.c.transferred < SIZE_BYTES && SockRead(w, SIZE_BYTES - w.c.transferred) == (w1, r)
    ensures
      SizeStep(w) == match r
        case Error(e) => (w1, OnError(e))
        case Count(n) =>
          if n == 0 then (w1, Broken)
          else (Handlers.StoreSize(w1, n), More)
  {
  }

  /** What a read of a chunk of the body leads to. */
  lemma ChunkReceived(w: World, w1: World, r: IoResult)
    requires w.c.transferred < SizeOf(w.c.expected)
    requires SockRead(w, Min(BUFFER_SIZE, SizeOf(w.c.expected) - w.c.transferred)) == (w1, r)
    ensures
      FileStep(w) == match r
        case Error(e) => (w1, OnError(e))
        case Count(n) => if n == 0 then (w1, Broken) else Handlers.StoreChunk(w1, n)
  {
  }

  /** `client_t` with the socket behind its descriptor. The ghost fields are those of `Conn`, and whether
      the record is still allocated. */
  class Client {
    const fd: int
    var state: State
    var verb: Verb
    const headerBuf: array<byte>
    var headerLen: nat
    var filename: bytes
    var fileFd: int
    var expected: bytes
    var fileSize: nat
    var transferred: nat
    var listBuf: Option<bytes>
    var listSent: nat
    var resp: bytes
    var respSent: nat
    var wire: Wire
    ghost var header: bytes
    ghost const id: nat
    ghost var asked: Option<Request>
    ghost var status: Status
    ghost var snapshot: bytes
    ghost var op: int
    ghost var oom: bool
    ghost var alive: bool

    /** No offset is past the end of what it is an offset into. */
    ghost predicate Valid()
      reads this
    {
      && respSent <= |resp| < HEADER_MAX
      && (listBuf.Some? ==> listSent <= |listBuf.value|)
      && |expected| == SIZE_BYTES
    }

    /** `header` is what the buffer holds. */
    ghost predicate Buffered()
      reads this, headerBuf
    {
      headerBuf.Length == HEADER_MAX && headerLen < HEADER_MAX && header == headerBuf[..headerLen]
    }

    ghost function View(): Conn
      reads this
    {
      Conn(fd, state, verb, header, filename, fileFd, expected, fileSize, transferred,
           listBuf, listSent, resp, respSent, wire, id, asked, status, snapshot, op, oom)
    }

    /** The state of a record, which only one that has not been freed has. */
    function Current(): State
      requires alive
      reads this
    {
      state
    }

    /** `client_create`. */
    constructor (fd: int, ghost id: nat, stream: bytes)
      ensures Valid() && Buffered() && alive && fresh(headerBuf)
      ensures this.fd == fd && View() == NewConn(id, fd, stream)
    {
      this.fd := fd;
      this.id := id;
      headerBuf := new byte[HEADER_MAX](_ => '\0');
      state, verb, headerLen, filename := RecvHeader, GET, 0, [];
      header := [];
      fileFd, expected, fileSize, transferred := -1, Zeros(SIZE_BYTES), 0, 0;
      listBuf, listSent, resp, respSent := None, 0, [], 0;
      wire := Wire(stream, 0, []);
      asked, status, snapshot, op, oom := None, Success, [], -1, false;
      alive := true;
    }
  }

  /** The operating system the server runs on. */
  class Host {
    var dir: map<bytes, nat>
    var data: seq<bytes>
    var fds: map<int, Descriptor>
    var polls: map<int, Interest>
    var sched: seq<Answer>
    ghost var sig: Signals
    ghost var opens: nat
    ghost var closes: nat
    ghost var trace: seq<Event>
    ghost var calls: seq<Call>

    constructor (listenFd: int)
      ensures dir == map[] && data == [] && fds == map[listenFd := Socket] && polls == map[listenFd := Read]
      ensures opens == 0 && closes == 0 && trace == []
    {
      dir, data, fds, polls, sched := map[], [], map[listenFd := Socket], map[listenFd := Read], [];
      sig, opens, closes, trace, calls := NO_SIGNALS, 0, 0, [], [];
    }
  }

  class Server {
    const os: Host
    const listenFd: nat
    const files: Vector<bytes>
    const clients: Dictionary<Client?>

    constructor (listenFd: nat)
      ensures this.listenFd == listenFd && fresh(os) && fresh(files) && fresh(clients)
      ensures files.Valid() && clients.Valid() && clients.contents == map[]
      ensures fresh(files.data) && fresh(clients.entries)
      ensures SharedView() == InitShared(listenFd)
    {
      this.listenFd := listenFd;
      os := new Host(listenFd);
      files := new Vector<bytes>();
      clients := new Dictionary<Client?>();
    }

    ghost function SharedView(): Shared
      reads os, files
    {
      Shared(files.elements, os.dir, os.data, os.fds, os.polls, os.opens, os.closes, os.trace)
    }

    /** A handler call on `c` at this moment. */
    ghost function Now(c: Client): World
      reads os, files, c
    {
      World(c.View(), SharedView(), os.sched, os.sig, c.alive, os.calls)
    }

    /** The server can run a handler on `c`: in particular the record has not been freed. */
    ghost predicate Serves(c: Client)
      reads files, files.data, clients, clients.entries, c
    {
      files.Valid() && clients.Valid() && c.Valid() && c.alive
    }

    /** What any handler keeps: the map is as it was, without the connection if its record was freed. */
    twostate predicate MapKept(c: Client)
      reads files, files.data, clients, clients.entries, c
    {
      && files.Valid() && clients.Valid() && c.Valid()
      && clients.entries == old(clients.entries)
      && (files.data == old(files.data) || fresh(files.data))
      && clients.contents == (if c.alive then old(clients.contents) else old(clients.contents) - {c.fd})
    }

    /** What a handler keeps that does not touch the request line. */
    twostate predicate Kept(c: Client)
      reads files, files.data, clients, clients.entries, c
    {
      MapKept(c) && c.headerLen == old(c.headerLen) && c.header == old(c.header)
    }

    // -------- system calls --------

    /** Enters a call into the record. */
    ghost method Record(call: Call)
      modifies os`calls
      ensures os.calls == old(os.calls) + [call]
    {
      os.calls := os.calls + [call];
    }

    /** The answer to the next call. */
    method NextAnswer() returns (answer: Answer)
      modifies os`sched
      ensures answer == First(old(os.sched)) && os.sched == Rest(old(os.sched))
    {
      answer := First(os.sched);
      os.sched := Rest(os.sched);
    }

    /** Bytes that arrive. */
    method Receive(c: Client, n: nat) returns (data: bytes)
      requires c.Valid()
      modifies os`sig, c`wire
      ensures
        var w := old(Now(c));
        Now(c) == w.(c := w.c.(wire := w.c.wire.(got := w.c.wire.got + n)), sig := w.sig.(readBlocked := false))
      ensures data == JustRead(c.View(), n)
    {
      c.wire := c.wire.(got := c.wire.got + n);
      os.sig := os.sig.(readBlocked := false);
      data := if c.wire.got <= |c.wire.stream| then c.wire.stream[c.wire.got - n..c.wire.got] else [];
    }

    /** `read(client->fd, _, count)`. */
    method ReadSocket(c: Client, count: nat) returns (r: IoResult, data: bytes)
      requires Serves(c)
      modifies os`sched, os`calls, os`sig, c`wire
      ensures (Now(c), r) == SockRead(old(Now(c)), count)
      ensures data == if r.Count? then JustRead(c.View(), r.n) else []
    {
      var answer := NextAnswer();
      data := [];
      match answer {
        case Again =>
          os.sig := os.sig.(readBlocked := true);
          r := Error(EAGAIN);
        case Intr =>
          r := Error(EINTR);
        case Fail =>
          r := Error(EIO);
        case Ready(k) =>
          r := Count(Min(Max(k, 1), Min(count, Max(0, |c.wire.stream| - c.wire.got))));
          data := Receive(c, r.n);
      }
      Record(SocketRead(count, r));
    }

    /** Bytes that go out. */
    method Send(c: Client, data: bytes, n: nat)
      requires c.Valid() && n <= |data|
      modifies os`sig, c`wire
      ensures c.Valid()
      ensures
        var w := old(Now(c));
        Now(c) == w.(c := w.c.(wire := w.c.wire.(sent := w.c.wire.sent + data[..n])),
                     sig := w.sig.(writeBlocked := n < |data|))
    {
      c.wire := c.wire.(sent := c.wire.sent + data[..n]);
      os.sig := os.sig.(writeBlocked := n < |data|);
    }

    /** `write(client->fd, data, |data|)`. */
    method WriteSocket(c: Client, data: bytes) returns (r: IoResult)
      requires Serves(c)
      modifies os`sched, os`calls, os`sig, c`wire
      ensures (Now(c), r) == SockWrite(old(Now(c)), data)
      ensures r.Count? ==> r.n <= |data|
    {
      var answer := NextAnswer();
      match answer {
        case Again =>
          os.sig := os.sig.(writeBlocked := true);
          r := Error(EAGAIN);
        case Intr =>
          r := Error(EINTR);
        case Fail =>
          r := Error(EIO);
        case Ready(k) =>
          r := Count(Min(k, |data|));
          Send(c, data, r.n);
      }
      Record(SocketWrite(|data|, r));
    }

    /** `modify_event_loop`. */
    method ModifyEventLoop(c: Client, interest: Interest)
      requires Serves(c)
      modifies os`polls, os`sig
      ensures Now(c) == Arm(old(Now(c)), interest)
    {
      os.sig := os.sig.(armed := true);
      if c.fd in os.polls {
        os.polls := os.polls[c.fd := interest];
      }
    }

    /** The answer to `unlink`. */
    method Unlink(c: Client) returns (ok: bool)
      requires c.Valid()
      modifies os`sched, os`calls
      ensures (Now(c), ok) == Kernel.Unlink(old(Now(c)))
    {
      var answer := NextAnswer();
      ok := answer.Ready? && c.filename in os.dir;
      Record(FileUnlink(c.filename in os.dir, ok));
    }

    /** `fstat`: whether it succeeds. */
    method Fstat(c: Client) returns (ok: bool)
      requires c.Valid()
      modifies os`sched, os`calls
      ensures (Now(c), ok) == Stat(old(Now(c)))
    {
      var answer := NextAnswer();
      ok := answer.Ready?;
      Record(FileStat(ok));
    }

    /** `calloc`: whether it succeeds. */
    method Alloc(c: Client, size: nat) returns (ok: bool)
      requires c.Valid()
      modifies os`sched, os`calls
      ensures (Now(c), ok) == Kernel.Alloc(old(Now(c)), size)
    {
      var answer := NextAnswer();
      ok := answer.Ready? && size < SIZE_LIMIT;
      Record(Allocate(ok));
    }

    /** `close` of the connection's file. */
    method CloseFile(c: Client)
      requires Serves(c)
      modifies os`fds, os`closes, os`calls, c`fileFd
      ensures Now(c) == CloseOwn(old(Now(c)))
    {
      os.fds := os.fds - {c.fileFd};
      os.closes := os.closes + 1;
      c.fileFd := -1;
      Record(FileClose);
    }

    // -------- teardown --------

    /** The `close` in `client_destroy`. */
    method CloseLeftOpen(c: Client)
      requires Serves(c)
      modifies os`fds, os`closes
      ensures SharedView() ==
        if c.fileFd != -1 then CloseFd(old(SharedView()), c.fileFd) else old(SharedView())
    {
      if c.fileFd != -1 {
        os.fds := os.fds - {c.fileFd};
        os.closes := os.closes + 1;
      }
    }

    /** `client_destroy`: closes the file and frees the record. */
    method Destroy(c: Client)
      requires Serves(c)
      modifies os`fds, os`closes, c`alive
      ensures Now(c) == Handlers.Destroy(old(Now(c)))
      ensures !c.alive
    {
      CloseLeftOpen(c);
      c.alive := false;
    }

    /** The `unlink` in `close_and_cleanup`. */
    method AbortUpload(c: Client)
      requires Serves(c)
      modifies os`sched, os`calls, os`dir, os`trace
      ensures Now(c) == Handlers.AbortUpload(old(Now(c)))
    {
      if c.verb == PUT && c.state != Done {
        var ok := Unlink(c);
        if ok {
          os.dir := os.dir - {c.filename};
          os.trace := os.trace + [TornDown(c.id, c.filename)];
        }
      }
    }

    /** `close_and_cleanup`. */
    method CloseAndCleanup(c: Client)
      requires Serves(c)
      modifies os, c, clients, clients.entries
      ensures Kept(c) && !c.alive
      ensures Now(c) == Handlers.CloseAndCleanup(old(Now(c)))
    {
      ghost var w := Now(c);
      os.polls := os.polls - {c.fd};
      os.fds := os.fds - {c.fd};
      assert Now(c) == w.(sh := CloseSocket(w.sh, w.c.fd));
      AbortUpload(c);
      clients.Remove(c.fd);
      Destroy(c);
    }

    /** Reaches STATE_DONE. */
    method Finish(c: Client)
      requires Serves(c)
      modifies os, c, clients, clients.entries
      ensures Kept(c) && !c.alive
      ensures Now(c) == Handlers.Finish(old(Now(c)))
    {
      c.state := Done;
      CloseAndCleanup(c);
    }

    // -------- replies --------

    /** The response buffer and the state it is sent in. The text never fills the buffer, so it is never
        cut to its size. */
    method PrepareReply(c: Client, text: bytes, next: State, ghost status: Status)
      requires Serves(c) && |text| < HEADER_MAX
      modifies c`resp, c`respSent, c`state, c`status
      ensures c.Valid()
      ensures var w := old(Now(c));
        Now(c) == w.(c := w.c.(resp := text, respSent := 0, status := status, state := next))
    {
      c.respSent := 0;
      c.resp := text;
      c.state := next;
      c.status := status;
    }

    /** `prepare_and_send_response`. */
    method Respond(c: Client, status: Status)
      requires Serves(c)
      modifies os, c, clients, clients.entries
      ensures Kept(c)
      ensures Now(c) == Handlers.Respond(old(Now(c)), status)
      decreases if status.Success? then 4 else 1, 1
    {
      match status {
        case Success =>
          PrepareReply(c, OK_LINE, SendOk, status);
        case Failure(m) =>
          PrepareReply(c, ERROR_LINE + Text(m) + "\n", SendError, status);
      }
      WriteReply(c);
    }

    /** `execute_simple_response_write`. */
    method WriteReply(c: Client)
      requires Serves(c)
      modifies os, c, clients, clients.entries
      ensures Kept(c)
      ensures Now(c) == Handlers.WriteReply(old(Now(c)))
      decreases if c.state == SendOk then 3 else 0, 2
    {
      var r := WriteSocket(c, c.resp[c.respSent..]);
      match r {
        case Error(e) =>
          if e != EAGAIN {
            CloseAndCleanup(c);
          }
        case Count(n) =>
          ReplyGrew(c, n);
      }
    }

    /** `n` more bytes of the status line are out. */
    method ReplyGrew(c: Client, n: nat)
      requires Serves(c) && c.respSent + n <= |c.resp|
      modifies os, c, clients, clients.entries
      ensures Kept(c)
      ensures Now(c) == Handlers.ReplyMoved(ReplyGrown(old(Now(c)), n))
      decreases if c.state == SendOk then 3 else 0, 1
    {
      ghost var w := Now(c);
      c.respSent := c.respSent + n;
      assert Now(c) == ReplyGrown(w, n);
      ReplyMoved(c);
    }

    /** The rest of `execute_simple_response_write`. */
    method ReplyMoved(c: Client)
      requires Serves(c)
      modifies os, c, clients, clients.entries
      ensures Kept(c)
      ensures Now(c) == Handlers.ReplyMoved(old(Now(c)))
      decreases if c.state == SendOk then 3 else 0, 0
    {
      if c.respSent != |c.resp| {
        ModifyEventLoop(c, Write);
      } else if c.state == SendOk {
        if c.verb == LIST {
          StartSendList(c);
        } else if c.verb == GET {
          GoOnToSize(c);
        } else {
          Finish(c);
        }
      } else if c.state == SendError {
        Finish(c);
      }
    }

    /** From the OK of a GET to the size. */
    method GoOnToSize(c: Client)
      requires Serves(c)
      modifies os`polls, os`sig, c`resp, c`respSent, c`state
      ensures c.Valid()
      ensures var w := old(Now(c));
        Now(c) == Arm(w.(c := w.c.(resp := [], respSent := 0, state := SendGetSize)), Write)
    {
      c.resp := [];
      c.respSent := 0;
      c.state := SendGetSize;
      ModifyEventLoop(c, Write);
    }

    /** `start_send_list`. */
    method StartSendList(c: Client)
      requires Serves(c)
      modifies os, c, clients, clients.entries
      ensures Kept(c)
      ensures Now(c) == Handlers.StartSendList(old(Now(c)))
      decreases 2, 1
    {
      ghost var w := Now(c);
      var buffer := BuildListBuffer(c);
      if buffer.None? {
        ghost var w1 := Now(c);
        c.oom := true;
        assert Now(c) == w1.(c := w1.c.(oom := true));
        Respond(c, Failure(BadRequest));
      } else {
        GoOnToList(c, buffer.value);
      }
    }

    /** From the OK of a LIST to its payload. */
    method GoOnToList(c: Client, buffer: bytes)
      requires Serves(c)
      modifies os`polls, os`sig, os`trace, c`listBuf, c`listSent, c`state, c`op
      ensures c.Valid()
      ensures
        var w := old(Now(c));
        var w1 := LogOp(w, Listed(w.c.id, w.sh.list));
        Now(c) == Arm(w1.(c := w1.c.(listBuf := Some(buffer), listSent := 0, state := SendListData)), Write)
    {
      LogEvent(c, Listed(c.id, files.elements));
      HoldList(c, buffer);
      ModifyEventLoop(c, Write);
    }

    /** The list buffer and the state it is sent in. */
    method HoldList(c: Client, buffer: bytes)
      requires Serves(c)
      modifies c`listBuf, c`listSent, c`state
      ensures c.Valid()
      ensures var w := old(Now(c));
        Now(c) == w.(c := w.c.(listBuf := Some(buffer), listSent := 0, state := SendListData))
    {
      c.listBuf := Some(buffer);
      c.listSent := 0;
      c.state := SendListData;
    }

    /** Enters an event on behalf of `c` into the history. */
    ghost method LogEvent(c: Client, e: Event)
      requires Serves(c)
      modifies os`trace, c`op
      ensures Now(c) == LogOp(old(Now(c)), e)
    {
      c.op := |os.trace|;
      os.trace := os.trace + [e];
    }

    /** The first loop of `build_list_buffer`: the room the names and the newlines between them take. */
    method SizeNames() returns (total: nat)
      requires files.Valid()
      ensures total == |ListBody(files.elements)|
    {
      ghost var names := files.elements;
      var i := 0;
      total := 0;
      while i < files.size
        invariant i <= files.size
        invariant total == |Filled(names, i)|
      {
        var name := files.Get(i);
        total := total + |name.value|;
        if i < files.size - 1 {
          total := total + 1;
        }
        i := i + 1;
      }
      FilledThenRest(names, |names|);
    }

    /** The second loop of `build_list_buffer`: fills the buffer exactly, writing nothing out of its bounds. */
    method FillNames(buffer: array<byte>)
      requires files.Valid() && buffer.Length == SIZE_BYTES + |ListBody(files.elements)|
      modifies buffer
      ensures buffer[..SIZE_BYTES] == old(buffer[..SIZE_BYTES])
      ensures buffer[SIZE_BYTES..] == ListBody(files.elements)
    {
      ghost var names := files.elements;
      var offset, i := SIZE_BYTES, 0;
      while i < files.size
        invariant i <= files.size && offset == SIZE_BYTES + |Filled(names, i)| <= buffer.Length
        invariant buffer[..SIZE_BYTES] == old(buffer[..SIZE_BYTES])
        invariant buffer[SIZE_BYTES..offset] == Filled(names, i)
      {
        offset := FillName(buffer, offset, i);
        i := i + 1;
      }
      FilledThenRest(names, |names|);
    }

    /** One iteration: the name at position `i`, and a newline unless it is the last. */
    method FillName(buffer: array<byte>, offset: nat, i: nat) returns (next: nat)
      requires files.Valid() && i < files.size && buffer.Length == SIZE_BYTES + |ListBody(files.elements)|
      requires offset == SIZE_BYTES + |Filled(files.elements, i)|
      modifies buffer
      ensures next == SIZE_BYTES + |Filled(files.elements, i + 1)| <= buffer.Length
      ensures offset <= next && buffer[..offset] == old(buffer[..offset])
      ensures Filled(files.elements, i) + buffer[offset..next] == Filled(files.elements, i + 1)
    {
      FilledThenRest(files.elements, i + 1);
      var name := files.Get(i);
      next := CopyInto(buffer, offset, name.value);
      if i < files.size - 1 {
        next := CopyInto(buffer, next, "\n");
      }
    }

    /** `memcpy` to an offset of the buffer; answers the offset behind it. */
    static method CopyInto(buffer: array<byte>, offset: nat, data: bytes) returns (next: nat)
      requires offset + |data| <= buffer.Length
      modifies buffer
      ensures next == offset + |data|
      ensures buffer[..next] == old(buffer[..offset]) + data
    {
      forall j | 0 <= j < |data| {
        buffer[offset + j] := data[j];
      }
      next := offset + |data|;
    }

    /** `build_list_buffer`, when the buffer could be allocated. */
    method FilledBuffer(total: nat) returns (r: bytes)
      requires files.Valid() && total == |ListBody(files.elements)|
      ensures r == ListBuffer(files.elements)
    {
      var buffer := new byte[SIZE_BYTES + total];
      var size := CopyInto(buffer, 0, SizeBytes(total));
      assert buffer[..size] == SizeBytes(total);
      FillNames(buffer);
      assert buffer[..] == buffer[..SIZE_BYTES] + buffer[SIZE_BYTES..];
      r := buffer[..];
    }

    /** `build_list_buffer`: nothing if the buffer cannot be allocated. */
    method BuildListBuffer(c: Client) returns (r: Option<bytes>)
      requires Serves(c)
      modifies os`sched, os`calls
      ensures (Now(c), r.Some?) == Kernel.Alloc(old(Now(c)), |ListBuffer(files.elements)|)
      ensures r.Some? ==> r.value == ListBuffer(files.elements)
    {
      var total := SizeNames();
      var memory := Alloc(c, SIZE_BYTES + total);
      if !memory {
        return None;
      }
      var buffer := FilledBuffer(total);
      r := Some(buffer);
    }

    // -------- PUT --------

    /** What a failed `read` or `write` means for the loop around it. */
    static function OnErrno(e: Errno): Outcome {
      if e == EINTR then More else if e == EAGAIN then Blocked else Broken
    }

    /** One iteration of `recv_put_size`: the size arrives in the memory of `expected_size`. */
    method ReadSize(c: Client) returns (outcome: Outcome)
      requires Serves(c) && c.transferred < SIZE_BYTES
      modifies os`sched, os`calls, os`sig, c`wire, c`expected, c`transferred
      ensures c.Valid()
      ensures (Now(c), outcome) == SizeStep(old(Now(c)))
    {
      ghost var w := Now(c);
      var r, data := ReadSocket(c, SIZE_BYTES - c.transferred);
      SizeReceived(w, Now(c), r);
      match r {
        case Error(e) =>
          outcome := OnErrno(e);
        case Count(n) =>
          if n == 0 {
            return Broken;
          }
          StoreSize(c, data, n);
          outcome := More;
      }
    }

    /** Bytes of the size that have arrived. */
    method StoreSize(c: Client, data: bytes, n: nat)
      requires c.Valid() && c.transferred + |data| <= SIZE_BYTES && data == JustRead(c.View(), n)
      modifies c`expected, c`transferred
      ensures c.Valid()
      ensures Now(c) == Handlers.StoreSize(old(Now(c)), n)
    {
      OverlayPrefix(c.expected, c.transferred, data);
      c.expected := Overlay(c.expected, c.transferred, data);
      c.transferred := c.transferred + n;
    }

    /** The loop of `recv_put_size`. */
    method FillSize(c: Client) returns (outcome: Outcome)
      requires Serves(c)
      modifies os`sched, os`calls, os`sig, c`wire, c`expected, c`transferred
      ensures c.Valid()
      ensures (Now(c), outcome) == Handlers.FillSize(old(Now(c)))
    {
      while c.transferred < SIZE_BYTES
        invariant c.Valid() && c.alive
        invariant Handlers.FillSize(Now(c)) == Handlers.FillSize(old(Now(c)))
        decreases SIZE_BYTES - c.transferred, |os.sched|
      {
        outcome := ReadSize(c);
        if outcome != More {
          return;
        }
      }
      return Complete;
    }

    /** The file that a successful `open` for a PUT finds or creates, and truncates. */
    method Truncate(c: Client, fd: nat)
      requires c.Valid()
      modifies os`dir, os`data, os`fds, os`opens, os`trace
      ensures SharedView() == PutOpen(old(SharedView()), c.id, c.filename, fd)
    {
      var ino := if c.filename in os.dir then os.dir[c.filename] else |os.data|;
      os.trace := os.trace + [PutOpened(c.id, c.filename, ino, Written(os.fds, ino), Held(os.fds, ino))];
      os.dir := os.dir[c.filename := ino];
      os.data := if ino < |os.data| then os.data[ino := []] else os.data + [[]];
      os.fds := os.fds[fd := File(c.filename, ino, true)];
      os.opens := os.opens + 1;
    }

    /** `open(_, O_WRONLY | O_CREAT | O_TRUNC)`. */
    method OpenForPut(c: Client) returns (fd: int)
      requires c.Valid()
      modifies os`sched, os`calls, os`dir, os`data, os`fds, os`opens, os`trace
      ensures (Now(c), fd) == Kernel.OpenForPut(old(Now(c)))
    {
      ghost var present := c.filename in os.dir;
      var answer := NextAnswer();
      if !answer.Ready? || answer.k in os.fds || c.filename == [] {
        Record(FileOpen(present, false));
        return -1;
      }
      Truncate(c, answer.k);
      Record(FileOpen(present, true));
      fd := answer.k;
    }

    /** The answer "Bad file size"; for the history, what the upload left in its file and what its calls had come
        to. */
    method Reject(c: Client, ghost file: int)
      requires Serves(c)
      modifies os, c, clients, clients.entries
      ensures Kept(c)
      ensures Now(c) == Handlers.Reject(old(Now(c)), file)
    {
      LogEvent(c, Rejection(Now(c), file));
      Respond(c, Failure(BadFileSize));
    }

    /** `recv_put_size`. */
    method RecvSize(c: Client)
      requires Serves(c)
      modifies os, c, clients, clients.entries, files, files.data
      ensures Kept(c)
      ensures Now(c) == Handlers.RecvSize(old(Now(c)))
    {
      var outcome := FillSize(c);
      match outcome {
        case Blocked =>
        case Broken =>
          Reject(c, -1);
        case _ =>
          OpenUpload(c);
      }
    }

    /** What `open` returned, and the state that follows. */
    method SetFile(c: Client, fd: int, next: State)
      requires c.Valid()
      modifies c`fileFd, c`state
      ensures c.Valid()
      ensures var w := old(Now(c)); Now(c) == w.(c := w.c.(fileFd := fd, state := next))
    {
      c.fileFd := fd;
      c.state := next;
    }

    /** The rest of `recv_put_size`. */
    method OpenUpload(c: Client)
      requires Serves(c)
      modifies os, c, clients, clients.entries, files, files.data
      ensures Kept(c)
      ensures Now(c) == Handlers.OpenUpload(old(Now(c)))
    {
      ghost var w := Now(c);
      c.transferred := 0;
      assert Now(c) == w.(c := w.c.(transferred := 0));
      var fd := OpenForPut(c);
      UploadOpened(c, fd);
    }

    /** From `open` to the data, or to an error reply. */
    method UploadOpened(c: Client, fd: int)
      requires Serves(c)
      modifies os, c, clients, clients.entries, files, files.data
      ensures Kept(c)
      ensures
        var w := old(Now(c));
        Now(c) ==
          if fd == -1 then Handlers.Reject(w.(c := w.c.(fileFd := -1)), -1)
          else Handlers.RecvData(w.(c := w.c.(fileFd := fd, state := RecvPutData)))
    {
      if fd == -1 {
        SetFile(c, -1, c.state);
        Reject(c, -1);
      } else {
        SetFile(c, fd, RecvPutData);
        RecvData(c);
      }
    }

    /** `pwrite`: the number of bytes written, or an error. */
    method Pwrite(c: Client, d: bytes, off: nat) returns (r: IoResult)
      requires c.Valid()
      modifies os`sched, os`calls, os`data
      ensures (Now(c), r) == Kernel.Pwrite(old(Now(c)), d, off)
    {
      var answer := NextAnswer();
      if !answer.Ready? {
        Record(FileWrite(|d|, Error(EIO)));
        return Error(EIO);
      }
      var n := Min(answer.k, |d|);
      if c.fileFd in os.fds && os.fds[c.fileFd].File? && os.fds[c.fileFd].ino < |os.data| {
        var ino := os.fds[c.fileFd].ino;
        os.data := os.data[ino := Overlay(os.data[ino], off, d[..n])];
      }
      r := Count(n);
      Record(FileWrite(|d|, r));
    }

    /** One iteration of `recv_put_data`: a chunk is read and written at its own offset. */
    method ReceiveChunk(c: Client) returns (outcome: Outcome)
      requires Serves(c) && c.transferred < SizeOf(c.expected)
      modifies os`sched, os`calls, os`sig, os`data, c`wire, c`transferred
      ensures c.Valid()
      ensures (Now(c), outcome) == FileStep(old(Now(c)))
    {
      ghost var w := Now(c);
      var r, data := ReadSocket(c, Min(BUFFER_SIZE, SizeOf(c.expected) - c.transferred));
      ChunkReceived(w, Now(c), r);
      match r {
        case Error(e) =>
          outcome := OnErrno(e);
        case Count(n) =>
          if n == 0 {
            return Broken;
          }
          outcome := StoreChunk(c, data, n);
      }
    }

    /** The write of a chunk of `n` bytes; anything but all of it ends the upload. */
    method StoreChunk(c: Client, data: bytes, n: nat) returns (outcome: Outcome)
      requires c.Valid() && data == JustRead(Now(c).c, n)
      modifies os`sched, os`calls, os`data, c`transferred
      ensures c.Valid()
      ensures (Now(c), outcome) == Handlers.StoreChunk(old(Now(c)), n)
    {
      var written := Pwrite(c, data, c.transferred);
      if written != Count(n) {
        return Broken;
      }
      c.transferred := c.transferred + n;
      outcome := More;
    }

    /** The loop of `recv_put_data`. */
    method FillFile(c: Client) returns (outcome: Outcome)
      requires Serves(c)
      modifies os`sched, os`calls, os`sig, os`data, c`wire, c`transferred
      ensures c.Valid()
      ensures (Now(c), outcome) == Handlers.FillFile(old(Now(c)))
    {
      while c.transferred < SizeOf(c.expected)
        invariant c.Valid() && c.alive
        invariant Handlers.FillFile(Now(c)) == Handlers.FillFile(old(Now(c)))
        decreases SizeOf(c.expected) - c.transferred, |os.sched|
      {
        outcome := ReceiveChunk(c);
        if outcome != More {
          return;
        }
      }
      outcome := if c.transferred == SizeOf(c.expected) then Complete else Blocked;
    }

    /** `recv_put_data`. */
    method RecvData(c: Client)
      requires Serves(c)
      modifies os, c, clients, clients.entries, files, files.data
      ensures Kept(c)
      ensures Now(c) == Handlers.RecvData(old(Now(c)))
    {
      var outcome := FillFile(c);
      match outcome {
        case Blocked =>
        case Broken =>
          ghost var file := Ino(SharedView(), c.fileFd);
          CloseFile(c);
          Reject(c, file);
        case _ =>
          FinishUpload(c);
      }
    }

    /** The end of `recv_put_data`: close, probe for an extra byte, list the file. */
    method FinishUpload(c: Client)
      requires Serves(c)
      modifies os, c, clients, clients.entries, files, files.data
      ensures Kept(c)
      ensures Now(c) == Handlers.FinishUpload(old(Now(c)))
    {
      ghost var file, body := Ino(SharedView(), c.fileFd), Body(c.View());
      CloseFile(c);
      var r, data := ReadSocket(c, 1);
      if r.Count? && r.n > 0 {
        Reject(c, file);
      } else {
        ListFile(c, file, body);
        Respond(c, Success);
      }
    }

    /** Lists the uploaded file and notes it in the history. */
    method ListFile(c: Client, ghost file: int, ghost body: bytes)
      requires Serves(c)
      modifies os`trace, c`op, files, files.data
      ensures files.Valid() && (files.data == old(files.data) || fresh(files.data))
      ensures var w := old(Now(c));
        Now(c) == w.(c := w.c.(op := |w.sh.trace|), sh := Commit(w.sh, w.c.id, w.c.filename, file, body))
    {
      AddFileToList(c.filename);
      LogEvent(c, Committed(c.id, c.filename, file, body));
    }

    /** The scan for a name in the file list: its position, or the length of the list. */
    method FindFile(name: bytes) returns (i: nat)
      requires files.Valid()
      ensures i <= |files.elements| && name !in files.elements[..i]
      ensures i < |files.elements| ==> files.elements[i] == name
    {
      i := 0;
      while i < files.size
        invariant i <= files.size && name !in files.elements[..i]
      {
        var file := files.Get(i);
        if file == Some(name) {
          return;
        }
        i := i + 1;
      }
    }

    /** `add_file_to_list`. */
    method AddFileToList(name: bytes)
      requires files.Valid()
      modifies files, files.data
      ensures files.Valid() && (files.data == old(files.data) || fresh(files.data))
      ensures files.elements == With(old(files.elements), name)
    {
      var i := FindFile(name);
      if i == files.size {
        files.PushBack(name, true);
      }
    }

    /** `remove_file_from_list`. */
    method RemoveFileFromList(name: bytes)
      requires files.Valid()
      modifies files, files.data
      ensures files.Valid() && files.data == old(files.data)
      ensures files.elements == Without(old(files.elements), name)
    {
      var i := FindFile(name);
      if i < files.size {
        WithoutIndex(files.elements, name, i);
        files.Erase(i);
      } else {
        WithoutAbsent(files.elements, name);
      }
    }

    // -------- GET --------

    /** `open(_, O_RDONLY)`. */
    method OpenForGet(c: Client) returns (fd: int)
      requires c.Valid()
      modifies os`sched, os`calls, os`fds, os`opens
      ensures (Now(c), fd) == Kernel.OpenForGet(old(Now(c)))
    {
      var answer := NextAnswer();
      if !answer.Ready? || answer.k in os.fds || c.filename !in os.dir {
        Record(FileOpen(c.filename in os.dir, false));
        return -1;
      }
      os.fds := os.fds[answer.k := File(c.filename, os.dir[c.filename], false)];
      os.opens := os.opens + 1;
      Record(FileOpen(true, true));
      fd := answer.k;
    }

    /** The answer "No such file", and the call that was denied if any, for the history. */
    method Refuse(c: Client, ghost verb: Verb)
      requires Serves(c)
      modifies os, c, clients, clients.entries
      ensures Kept(c)
      ensures Now(c) == Handlers.Refuse(old(Now(c)), verb)
    {
      LogEvent(c, Refused(c.id, verb, c.filename, Denied(os.calls)));
      Respond(c, Failure(NoSuchFile));
    }

    /** `start_send_get`. */
    method StartSendGet(c: Client)
      requires Serves(c)
      modifies os, c, clients, clients.entries
      ensures Kept(c)
      ensures Now(c) == Handlers.StartGet(old(Now(c)))
    {
      var fd := OpenForGet(c);
      SetFile(c, fd, c.state);
      if fd == -1 {
        Refuse(c, GET);
      } else {
        GetOpened(c);
      }
    }

    /** The rest of `start_send_get`. */
    method GetOpened(c: Client)
      requires Serves(c)
      modifies os, c, clients, clients.entries
      ensures Kept(c)
      ensures
        var (w, ok) := Stat(old(Now(c)));
        Now(c) == if !ok then Handlers.Refuse(CloseOwn(w), GET) else Handlers.Respond(Handlers.Announce(w), Success)
    {
      var ok := Fstat(c);
      if !ok {
        CloseFile(c);
        Refuse(c, GET);
      } else {
        Announce(c);
        Respond(c, Success);
      }
    }

    /** What `fstat` tells. */
    method Announce(c: Client)
      requires Serves(c)
      modifies os`trace, c`fileSize, c`transferred, c`snapshot, c`op
      ensures c.Valid()
      ensures Now(c) == Handlers.Announce(old(Now(c)))
    {
      var size;
      ghost var ino, file;
      size, ino, file := SizeOfFile(c);
      ghost var solid := Solid(SharedView(), ino);
      SetSize(c, size, file);
      LogEvent(c, Fetched(c.id, c.filename, ino, file, solid));
    }

    /** The size `fstat` tells, and the file and what it holds at this moment. */
    method SizeOfFile(c: Client) returns (size: nat, ghost number: nat, ghost file: bytes)
      ensures number == Max(0, Ino(SharedView(), c.fileFd)) && file == Content(SharedView(), number)
      ensures size == |file|
    {
      var ino := if c.fileFd in os.fds && os.fds[c.fileFd].File? then os.fds[c.fileFd].ino else 0;
      size := if ino < |os.data| then |os.data[ino]| else 0;
      number, file := ino, Content(SharedView(), ino);
    }

    /** The size to announce. */
    method SetSize(c: Client, size: nat, ghost file: bytes)
      requires c.Valid()
      modifies c`fileSize, c`transferred, c`snapshot
      ensures c.Valid()
      ensures var w := old(Now(c)); Now(c) == w.(c := w.c.(fileSize := size, transferred := 0, snapshot := file))
    {
      c.fileSize := size;
      c.transferred := 0;
      c.snapshot := file;
    }

    /** The first lines of `send_get_size`: the size goes into the response buffer, once. */
    method PrepareSize(c: Client)
      requires c.Valid()
      modifies c`resp, c`respSent
      ensures c.Valid()
      ensures Now(c) == SizeReady(old(Now(c)))
    {
      if |c.resp| == 0 {
        c.resp := SizeBytes(c.fileSize);
        c.respSent := 0;
      }
    }

    /** `send_get_size`. */
    method SendSizeField(c: Client)
      requires Serves(c)
      modifies os, c, clients, clients.entries
      ensures Kept(c)
      ensures Now(c) == Handlers.SendSize(old(Now(c)))
    {
      PrepareSize(c);
      var r := WriteSocket(c, c.resp[c.respSent..]);
      match r {
        case Error(e) =>
          if e != EAGAIN {
            CloseAndCleanup(c);
          }
        case Count(n) =>
          SizeMoved(c, n);
      }
    }

    /** The rest of `send_get_size`. */
    method SizeMoved(c: Client, n: nat)
      requires Serves(c) && c.respSent + n <= |c.resp|
      modifies os`polls, os`sig, c`respSent, c`resp, c`state
      ensures c.Valid()
      ensures Now(c) == Handlers.SizeMoved(old(Now(c)), n)
    {
      c.respSent := c.respSent + n;
      if c.respSent == |c.resp| {
        c.state := SendGetData;
        c.resp := [];
        c.respSent := 0;
        ModifyEventLoop(c, Write);
      }
    }

    /** `pread`: the bytes read, none at the end of the file or on an error. */
    method Pread(c: Client, count: nat, off: nat) returns (chunk: bytes)
      requires c.Valid()
      modifies os`sched, os`calls
      ensures (Now(c), chunk) == Kernel.Pread(old(Now(c)), count, off)
    {
      var answer := NextAnswer();
      if !answer.Ready? {
        Record(FileRead(count, 0));
        return [];
      }
      var file := [];
      if c.fileFd in os.fds && os.fds[c.fileFd].File? && os.fds[c.fileFd].ino < |os.data| {
        file := os.data[os.fds[c.fileFd].ino];
      }
      chunk := Take(Drop(file, off), Min(Max(answer.k, 1), count));
      Record(FileRead(count, |chunk|));
    }

    /** One iteration of `send_get_data`. */
    method SendChunk(c: Client) returns (outcome: Outcome)
      requires Serves(c) && c.transferred < c.fileSize
      modifies os`sched, os`calls, os`sig, c`wire, c`transferred
      ensures c.Valid()
      ensures (Now(c), outcome) == BodyStep(old(Now(c)))
    {
      var chunk := Pread(c, Min(BUFFER_SIZE, c.fileSize - c.transferred), c.transferred);
      if |chunk| == 0 {
        return Broken;
      }
      outcome := WriteChunk(c, chunk);
    }

    /** The write of a chunk; what the socket does not take is read again later. */
    method WriteChunk(c: Client, chunk: bytes) returns (outcome: Outcome)
      requires Serves(c)
      modifies os`sched, os`calls, os`sig, c`wire, c`transferred
      ensures c.Valid()
      ensures
        var (w, r) := SockWrite(old(Now(c)), chunk);
        (Now(c), outcome) ==
          match r
          case Error(e) => (w, if e == EAGAIN then Blocked else Broken)
          case Count(n) =>
            (w.(c := w.c.(transferred := w.c.transferred + n)), if n < |chunk| then Blocked else More)
    {
      var r := WriteSocket(c, chunk);
      match r {
        case Error(e) =>
          outcome := if e == EAGAIN then Blocked else Broken;
        case Count(n) =>
          c.transferred := c.transferred + n;
          outcome := if n < |chunk| then Blocked else More;
      }
    }

    /** The loop of `send_get_data`. */
    method DrainFile(c: Client) returns (outcome: Outcome)
      requires Serves(c)
      modifies os`sched, os`calls, os`sig, c`wire, c`transferred
      ensures c.Valid()
      ensures (Now(c), outcome) == Handlers.DrainFile(old(Now(c)))
    {
      while c.transferred < c.fileSize
        invariant c.Valid() && c.alive
        invariant Handlers.DrainFile(Now(c)) == Handlers.DrainFile(old(Now(c)))
        decreases c.fileSize - c.transferred
      {
        outcome := SendChunk(c);
        if outcome != More {
          return;
        }
      }
      outcome := if c.transferred == c.fileSize then Complete else Blocked;
    }

    /** `send_get_data`. */
    method SendFileData(c: Client)
      requires Serves(c)
      modifies os, c, clients, clients.entries
      ensures Kept(c)
      ensures Now(c) == Handlers.SendData(old(Now(c)))
    {
      var outcome := DrainFile(c);
      match outcome {
        case Blocked =>
        case Broken =>
          CloseAndCleanup(c);
        case _ =>
          Finish(c);
      }
    }

    // -------- DELETE --------

    /** `delete_request`. */
    method DeleteRequest(c: Client)
      requires Serves(c)
      modifies os, c, clients, clients.entries, files, files.data
      ensures Kept(c)
      ensures Now(c) == Handlers.Delete(old(Now(c)))
    {
      var index := FindFile(c.filename);
      if index == files.size {
        Refuse(c, DELETE);
      } else {
        DeleteListed(c);
      }
    }

    /** The rest of it, for a name that is listed. */
    method DeleteListed(c: Client)
      requires Serves(c)
      modifies os, c, clients, clients.entries, files, files.data
      ensures Kept(c)
      ensures Now(c) == Handlers.DeleteListed(old(Now(c)))
    {
      var ok := Unlink(c);
      if !ok {
        Refuse(c, DELETE);
      } else {
        UnlistFile(c);
        Respond(c, Success);
      }
    }

    /** Removes the name from the directory and the list and notes it in the history. */
    method UnlistFile(c: Client)
      requires Serves(c)
      modifies os`dir, os`trace, c`op, files, files.data
      ensures files.Valid() && files.data == old(files.data)
      ensures
        var w := old(Now(c));
        Now(c) == w.(c := w.c.(op := |w.sh.trace|), sh := DeleteName(w.sh, w.c.id, w.c.filename))
    {
      ghost var uploading := Uploading(os.fds, c.filename);
      os.dir := os.dir - {c.filename};
      RemoveFileFromList(c.filename);
      LogEvent(c, Deleted(c.id, c.filename, uploading));
    }

    // -------- LIST --------

    /** `send_list_data`. */
    method SendListBody(c: Client)
      requires Serves(c) && c.listBuf.Some?
      modifies os, c, clients, clients.entries
      ensures Kept(c)
      ensures Now(c) == Handlers.SendList(old(Now(c)))
    {
      var r := WriteSocket(c, c.listBuf.value[c.listSent..]);
      match r {
        case Error(e) =>
          if e != EAGAIN {
            CloseAndCleanup(c);
          }
        case Count(n) =>
          c.listSent := c.listSent + n;
          if c.listSent == |c.listBuf.value| {
            Finish(c);
          }
      }
    }

    // -------- the request line --------

    /** `strchr` on a buffer that holds a NUL. */
    static method FindChar(buffer: array<byte>, ch: byte, ghost end: nat) returns (i: int)
      requires end < buffer.Length && buffer[end] == '\0' && ch != '\0'
      ensures i == StrChr(buffer[..], ch)
    {
      i := 0;
      while buffer[i] != '\0' && buffer[i] != ch
        invariant 0 <= i <= end && '\0' !in buffer[..i] && ch !in buffer[..i]
        decreases end - i
      {
        i := i + 1;
      }
      if buffer[i] == ch {
        StrChrFinds(buffer[..], ch, i);
      } else {
        StrChrEnds(buffer[..], ch, i);
        i := -1;
      }
    }

    /** The first lines of `parse_header_and_transition`: the line is cut at its newline and at its first
        space, in place. */
    method SplitLine(c: Client) returns (request: Option<Request>)
      requires Serves(c) && c.Buffered() && c.headerBuf[c.headerLen] == '\0'
      modifies c.headerBuf, c`header
      ensures c.Buffered()
      ensures
        var w := old(Now(c));
        var newline := StrChr(w.c.header, '\n');
        if newline < 0 then request == None && Now(c) == w
        else
          request == Some(ParseLine(w.c.header[..newline]))
          && Now(c) == w.(c := w.c.(header := Terminated(w.c.header, newline)))
    {
      ghost var header := c.header;
      StrChrTerminated(c.headerBuf[..], '\n', c.headerLen);
      var newline := FindChar(c.headerBuf, '\n', c.headerLen);
      if newline < 0 {
        return None;
      }
      c.headerBuf[newline] := '\0';
      request := SplitWord(c, newline, header);
      c.header := c.headerBuf[..c.headerLen];
    }

    /** The verb and, behind the first space, the name; the space is overwritten too. */
    method SplitWord(c: Client, newline: nat, ghost header: bytes) returns (request: Option<Request>)
      requires c.headerBuf.Length == HEADER_MAX && newline < |header| == c.headerLen < HEADER_MAX
      requires c.headerBuf[..c.headerLen] == header[newline := '\0']
      modifies c.headerBuf
      ensures request == Some(ParseLine(header[..newline]))
      ensures c.headerBuf[..c.headerLen] == Terminated(header, newline)
    {
      CutAt(c.headerBuf[..], header, newline);
      ghost var line := header[..newline];
      var space := FindChar(c.headerBuf, ' ', newline);
      if space < 0 {
        return Some(Request(VerbOf(c.headerBuf[..newline]), None));
      }
      assert c.headerBuf[space + 1..newline] == line[space + 1..];
      c.headerBuf[space] := '\0';
      request := Some(Request(VerbOf(c.headerBuf[..space]), Some(c.headerBuf[space + 1..newline])));
    }

    /** `parse_header_and_transition`: it gives up when a NUL hides the newline. */
    method ParseHeader(c: Client)
      requires Serves(c) && c.Buffered() && c.headerBuf[c.headerLen] == '\0'
      modifies os, c, c.headerBuf, clients, clients.entries, files, files.data
      ensures MapKept(c) && c.Buffered()
      ensures Now(c) == Handlers.ParseHeader(old(Now(c)))
    {
      var split := SplitLine(c);
      if split.Some? {
        label Cut:
        var request := split.value;
        SetVerb(c, request);
        ActOn(c, request);
        assert c.headerBuf[..] == old@Cut(c.headerBuf[..]);
      }
    }

    /** The verb of the request, left as it is when unknown. */
    method SetVerb(c: Client, request: Request)
      requires c.Valid()
      modifies c`verb, c`asked
      ensures c.Valid()
      ensures
        var w := old(Now(c));
        Now(c) == w.(c := w.c.(asked := Some(request),
                               verb := if request.verb == UNKNOWN then w.c.verb else request.verb))
    {
      c.asked := Some(request);
      c.verb := if request.verb == UNKNOWN then c.verb else request.verb;
    }

    /** `strncpy` into the zeroed field `filename`. */
    method SetFilename(c: Client, name: bytes)
      requires c.Valid()
      modifies c`filename
      ensures c.Valid()
      ensures var w := old(Now(c)); Now(c) == w.(c := w.c.(filename := StoredName(name)))
    {
      c.filename := Take(name, NAME_MAX);
    }

    /** The rest of `parse_header_and_transition`. */
    method ActOn(c: Client, request: Request)
      requires Serves(c)
      modifies os, c, clients, clients.entries, files, files.data
      ensures Kept(c)
      ensures Now(c) == ActedOn(old(Now(c)), request)
    {
      if request.verb == UNKNOWN {
        Respond(c, Failure(BadRequest));
      } else if request.verb == LIST {
        Respond(c, if request.name.Some? then Failure(BadRequest) else Success);
      } else if request.name.None? {
        Respond(c, Failure(BadRequest));
      } else {
        SetFilename(c, request.name.value);
        if request.verb == DELETE {
          DeleteRequest(c);
        } else if request.verb == GET {
          StartSendGet(c);
        } else {
          AwaitSize(c);
        }
      }
    }

    /** From the request line of a PUT to the size. */
    method AwaitSize(c: Client)
      requires Serves(c)
      modifies os`polls, os`sig, c`transferred, c`state
      ensures c.Valid()
      ensures
        var w := old(Now(c));
        Now(c) == Arm(w.(c := w.c.(transferred := 0, state := RecvPutSize)), Read)
    {
      c.transferred := 0;
      c.state := RecvPutSize;
      ModifyEventLoop(c, Read);
    }

    /** One byte of the request line. */
    method ReadHeaderByte(c: Client) returns (outcome: Outcome)
      requires Serves(c) && c.Buffered() && c.headerLen < HEADER_MAX - 1
      modifies os`sched, os`calls, os`sig, c`wire, c`headerLen, c`header, c.headerBuf
      ensures c.Valid() && c.Buffered()
      ensures (Now(c), outcome) == HeaderStep(old(Now(c)))
    {
      var r, data := ReadSocket(c, 1);
      match r {
        case Error(e) =>
          outcome := OnErrno(e);
        case Count(n) =>
          if n == 0 {
            return Broken;
          }
          outcome := StoreByte(c, data);
      }
    }

    /** Appends the byte just read to the header. */
    method StoreByte(c: Client, data: bytes) returns (outcome: Outcome)
      requires c.Valid() && c.Buffered() && c.headerLen < HEADER_MAX - 1 && |data| == 1 && data == JustRead(c.View(), 1)
      modifies c`headerLen, c`header, c.headerBuf
      ensures c.Valid() && c.Buffered()
      ensures (Now(c), outcome) == Handlers.StoreByte(old(Now(c)), 1)
    {
      assert data == [data[0]];
      outcome := if data[0] == '\n' then Complete else More;
      c.headerBuf[c.headerLen] := data[0];
      c.headerLen := c.headerLen + 1;
      c.header := c.header + data;
    }

    /** The loop of `handle_read_event` over the request line. */
    method FillHeader(c: Client) returns (outcome: Outcome)
      requires Serves(c) && c.Buffered()
      modifies os`sched, os`calls, os`sig, c`wire, c`headerLen, c`header, c.headerBuf
      ensures c.Valid() && c.Buffered()
      ensures (Now(c), outcome) == Handlers.FillHeader(old(Now(c)))
    {
      ghost var start := Now(c);
      while c.headerLen < HEADER_MAX - 1
        invariant c.Valid() && c.alive && c.Buffered()
        invariant Handlers.FillHeader(Now(c)) == Handlers.FillHeader(start)
        decreases HEADER_MAX - c.headerLen, |os.sched|
      {
        ghost var w := Now(c);
        outcome := ReadHeaderByte(c);
        HeaderLoop(w, Now(c), outcome);
        if outcome != More {
          return;
        }
      }
      return Blocked;
    }

    /** `handle_read_event` in STATE_RECV_HEADER. */
    method RecvHeaderLine(c: Client)
      requires Serves(c) && c.Buffered()
      modifies os, c, c.headerBuf, clients, clients.entries, files, files.data
      ensures MapKept(c) && c.Buffered()
      ensures Now(c) == RecvHeaderBytes(old(Now(c)))
    {
      var outcome := FillHeader(c);
      match outcome {
        case Broken =>
          CloseAndCleanup(c);
        case Complete =>
          c.headerBuf[c.headerLen] := '\0';
          ParseHeader(c);
        case _ =>
          if c.headerLen >= HEADER_MAX - 1 {
            Respond(c, Failure(BadRequest));
          }
      }
    }

    // -------- dispatch --------

    /** `handle_read_event`. */
    method HandleReadEvent(c: Client)
      requires Serves(c) && c.Buffered()
      modifies os, c, c.headerBuf, clients, clients.entries, files, files.data
      ensures MapKept(c) && c.Buffered()
      ensures Now(c) == HandleRead(old(Now(c)))
    {
      match c.Current() {
        case RecvHeader =>
          RecvHeaderLine(c);
        case RecvPutSize =>
          RecvSize(c);
          assert c.headerBuf[..] == old(c.headerBuf[..]);
        case RecvPutData =>
          RecvData(c);
          assert c.headerBuf[..] == old(c.headerBuf[..]);
        case _ =>
      }
    }

    /** `handle_write_event`. */
    method HandleWriteEvent(c: Client)
      requires Serves(c) && (c.state == SendListData ==> c.listBuf.Some?)
      modifies os, c, clients, clients.entries
      ensures Kept(c)
      ensures Now(c) == HandleWrite(old(Now(c)))
    {
      match c.Current() {
        case SendOk =>
          WriteReply(c);
        case SendError =>
          WriteReply(c);
        case SendListData =>
          SendListBody(c);
        case SendGetSize =>
          SendSizeField(c);
        case SendGetData =>
          SendFileData(c);
        case _ =>
      }
    }

    /** The body of the main loop for an event on a connection. The second test reads the record again; no
        event sets both bits, so the first handler has not run and cannot have freed it. */
    method DispatchEvent(c: Client, mask: Mask)
      requires Serves(c) && c.Buffered() && (c.state == SendListData ==> c.listBuf.Some?)
      requires !(mask.read && mask.write)
      modifies os, c, c.headerBuf, clients, clients.entries, files, files.data
      ensures MapKept(c) && c.Buffered()
      ensures Now(c) == Dispatch(old(Now(c)), mask)
    {
      if mask.error {
        Record(HangUp);
        CloseAndCleanup(c);
        assert c.headerBuf[..] == old(c.headerBuf[..]);
        return;
      }
      if mask.read {
        HandleReadEvent(c);
      }
      if mask.write && c.Current() != RecvHeader {
        HandleWriteEvent(c);
        assert c.headerBuf[..] == old(c.headerBuf[..]);
      }
    }
  }
}
