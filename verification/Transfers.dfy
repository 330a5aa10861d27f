/** What one event moves between a socket and a file, whoever else has the file open. */
module Transfers {
  import opened Bytes
  import opened Protocol
  import opened Calls
  import opened Kernel
  import opened Handlers
  import opened System
  import opened SharedInvariant
  import opened ConnInvariant
  import opened HandlerProofs
  import opened RunProofs

  // -------- uploads --------

  /** From `w` to `w1` some bytes of the stream were read and written to the connection's file at the offset reached;
      no other file changed. */
  ghost predicate Stores(w: World, w1: World) {
    && w.c.wire.got <= w1.c.wire.got <= |w.c.wire.stream|
    && w1.c.wire == w.c.wire.(got := w1.c.wire.got) && w1.c.fileFd == w.c.fileFd && w1.c.verb == w.c.verb
    && w1.c.status == w.c.status && w1.c.expected == w.c.expected
    && w1.c.transferred == w.c.transferred + (w1.c.wire.got - w.c.wire.got)
    && w1.sh == WriteFile(w.sh, w.c.fileFd, w.c.transferred, w.c.wire.stream[w.c.wire.got..w1.c.wire.got])
  }

  lemma WriteNothing(sh: Shared, fd: int, off: nat)
    ensures WriteFile(sh, fd, off, []) == sh
  {
  }

  lemma WriteTwice(sh: Shared, fd: int, off: nat, d: bytes, e: bytes)
    ensures WriteFile(WriteFile(sh, fd, off, d), fd, off + |d|, e) == WriteFile(sh, fd, off, d + e)
  {
    var ino := Ino(sh, fd);
    if 0 <= ino < |sh.data| {
      OverlayTwice(sh.data[ino], off, d, e);
      assert sh.data[ino := Overlay(sh.data[ino], off, d)][ino := Overlay(sh.data[ino], off, d + e)]
        == sh.data[ino := Overlay(sh.data[ino], off, d + e)];
    }
  }

  lemma StoresTwice(w: World, w1: World, w2: World)
    requires Stores(w, w1) && Stores(w1, w2)
    ensures Stores(w, w2)
  {
    var stream, a, b, c := w.c.wire.stream, w.c.wire.got, w1.c.wire.got, w2.c.wire.got;
    WriteTwice(w.sh, w.c.fileFd, w.c.transferred, stream[a..b], stream[b..c]);
    assert stream[a..b] + stream[b..c] == stream[a..c];
  }

  lemma ReadChunkStores(w: World, count: nat)
    requires w.c.wire.got <= |w.c.wire.stream|
    ensures ReadChunk(w, count).1 != Broken ==> Stores(w, ReadChunk(w, count).0)
  {
    var (w1, r) := SockRead(w, count);
    if r.Error? {
      WriteNothing(w.sh, w.c.fileFd, w.c.transferred);
      assert w.c.wire.stream[w.c.wire.got..w.c.wire.got] == [];
    } else if r.n > 0 {
      var d := JustRead(w1.c, r.n);
      assert d == w.c.wire.stream[w.c.wire.got..w1.c.wire.got] && d[..|d|] == d;
    }
  }

  lemma FileStepStores(w: World)
    requires w.c.wire.got <= |w.c.wire.stream| && w.c.transferred < SizeOf(w.c.expected)
    ensures FileStep(w).1 != Broken ==> Stores(w, FileStep(w).0)
  {
    var count := Min(BUFFER_SIZE, SizeOf(w.c.expected) - w.c.transferred);
    assert FileStep(w) == ReadChunk(w, count);
    ReadChunkStores(w, count);
  }

  lemma {:induction false} FillFileStores(w: World)
    requires w.c.wire.got <= |w.c.wire.stream|
    ensures FillFile(w).1 != Broken ==> Stores(w, FillFile(w).0)
    decreases SizeOf(w.c.expected) - w.c.transferred, |w.sched|
  {
    if w.c.transferred < SizeOf(w.c.expected) {
      FileStepStores(w);
      if FileStep(w).1 == More {
        FillFileStores(FileStep(w).0);
        if FillFile(w).1 != Broken {
          StoresTwice(w, FileStep(w).0, FillFile(w).0);
        }
      }
    } else {
      WriteNothing(w.sh, w.c.fileFd, w.c.transferred);
      assert w.c.wire.stream[w.c.wire.got..w.c.wire.got] == [];
    }
  }

  /** Answering reads nothing, writes to no file, and reports what it is to report. */
  lemma RespondStoresNone(w: World, status: Status)
    requires status.Success? ==> w.c.verb == PUT
    ensures
      var w' := Respond(w, status);
      w'.sh.data == w.sh.data && w'.c.wire.got == w.c.wire.got && w'.c.status == status && !Receiving(w'.c.state)
  {
    var w1 := Prepared(w, status);
    var (w2, r) := SockWrite(w1, Drop(w1.c.resp, w1.c.respSent));
    if r.Count? {
      MovedStoresNone(ReplyGrown(w2, r.n));
    }
  }

  lemma MovedStoresNone(w: World)
    requires w.c.state == SendError || (w.c.state == SendOk && w.c.verb == PUT)
    ensures
      var w' := ReplyMoved(w);
      && w'.sh.data == w.sh.data && w'.c.wire.got == w.c.wire.got && w'.c.status == w.c.status
      && !Receiving(w'.c.state)
  {
  }

  /** The upload goes on, or has been listed. */
  predicate Accepted(c: Conn) {
    Receiving(c.state) || c.status == Success
  }

  lemma FinishStores(w: World)
    requires w.c.verb == PUT && w.c.wire.got <= |w.c.wire.stream|
    ensures Accepted(FinishUpload(w).c) ==>
      FinishUpload(w).sh.data == w.sh.data && FinishUpload(w).c.wire.got == w.c.wire.got
  {
    var (w1, r) := SockRead(CloseOwn(w), 1);
    if r.Count? && r.n > 0 {
      RespondStoresNone(LogOp(w1, Rejection(w1, Ino(w.sh, w.c.fileFd))), Failure(BadFileSize));
    } else {
      RespondStoresNone(Listing(w, w1), Success);
    }
  }

  lemma RecvDataStores(w: World)
    requires w.c.verb == PUT && w.c.wire.got <= |w.c.wire.stream| && FillFile(w).1 != More
    ensures
      var w' := RecvData(w);
      Accepted(w'.c) ==>
        && w.c.wire.got <= w'.c.wire.got <= |w.c.wire.stream|
        && w'.sh.data ==
             WriteFile(w.sh, w.c.fileFd, w.c.transferred, w.c.wire.stream[w.c.wire.got..w'.c.wire.got]).data
  {
    FillFileStores(w);
    var (w1, outcome) := FillFile(w);
    match outcome
    case Blocked =>
    case Broken =>
      var w2 := CloseOwn(w1);
      RespondStoresNone(LogOp(w2, Rejection(w2, Ino(w1.sh, w1.c.fileFd))), Failure(BadFileSize));
    case Complete => FinishStores(w1);
  }

  /** A connection that moves a file has it open. */
  lemma FileAtHand(c: Conn, sh: Shared)
    requires SharedInv(sh) && Live(c, sh) && (c.state == RecvPutData || c.state == SendGetData)
    ensures 0 <= Ino(sh, c.fileFd) < |sh.data| && c.wire.got <= |c.wire.stream|
    ensures c.verb == if c.state == RecvPutData then PUT else GET
  {
  }

  /** Every event on an upload that does not end in a refusal writes the bytes it reads, all of them, to the file the
      upload opened, at its own offset, and changes no other file: also when another PUT is writing the same file, or
      has truncated it. */
  lemma UploadStoresInPlace(listenFd: nat, inputs: seq<Input>, fd: int, sched: seq<Answer>)
    requires
      var s := Run(listenFd, inputs);
      Feasible(listenFd, inputs) && fd in s.clients && s.clients[fd].state == RecvPutData
    ensures
      var s := Run(listenFd, inputs);
      var c := s.clients[fd];
      var w' := Dispatch(Begin(c, s.sh, sched), Mask(true, false, false));
      var ino := Ino(s.sh, c.fileFd);
      0 <= ino < |s.sh.data| &&
      (Accepted(w'.c) ==>
         && c.wire.got <= w'.c.wire.got <= |c.wire.stream|
         && w'.sh.data ==
              s.sh.data[ino := Overlay(s.sh.data[ino], c.transferred, c.wire.stream[c.wire.got..w'.c.wire.got])])
  {
    var s := Run(listenFd, inputs);
    var w := Begin(s.clients[fd], s.sh, sched);
    RunKeeps(listenFd, inputs);
    assert EntryOk(s, fd);
    FileAtHand(s.clients[fd], s.sh);
    FillingFile(w);
    assert Dispatch(w, Mask(true, false, false)) == RecvData(w);
    RecvDataStores(w);
  }

  // -------- downloads --------

  /** From `w` to `w1` the bytes of the connection's file behind the offset reached were sent, as the file stands. */
  ghost predicate Sends(w: World, w1: World) {
    var file := Content(w.sh, Max(0, Ino(w.sh, w.c.fileFd)));
    && w1.sh == w.sh && w1.c.fileFd == w.c.fileFd && w1.c.verb == w.c.verb && w1.c.state == w.c.state
    && w.c.transferred <= w1.c.transferred && (w.c.transferred < w1.c.transferred ==> w1.c.transferred <= |file|)
    && w1.c.wire ==
         w.c.wire.(sent := w.c.wire.sent + if w.c.transferred < w1.c.transferred
                                           then file[w.c.transferred..w1.c.transferred] else [])
  }

  lemma SendsTwice(w: World, w1: World, w2: World)
    requires Sends(w, w1) && Sends(w1, w2)
    ensures Sends(w, w2)
  {
    var file := Content(w.sh, Max(0, Ino(w.sh, w.c.fileFd)));
    if w.c.transferred < w1.c.transferred < w2.c.transferred {
      assert file[w.c.transferred..w1.c.transferred] + file[w1.c.transferred..w2.c.transferred]
        == file[w.c.transferred..w2.c.transferred];
    }
  }

  lemma BodyStepSendsFile(w: World)
    requires w.c.transferred < w.c.fileSize && 0 <= Ino(w.sh, w.c.fileFd)
    ensures Sends(w, BodyStep(w).0)
  {
    var file, off := Content(w.sh, Ino(w.sh, w.c.fileFd)), w.c.transferred;
    var (w1, chunk) := Pread(w, Min(BUFFER_SIZE, w.c.fileSize - off), off);
    if chunk != [] {
      var (w2, r) := SockWrite(w1, chunk);
      assert off + |chunk| <= |file| && chunk == file[off..off + |chunk|];
      if r.Count? {
        assert chunk[..r.n] == file[off..off + r.n];
      }
    }
  }

  lemma {:induction false} DrainFileSends(w: World)
    requires 0 <= Ino(w.sh, w.c.fileFd)
    ensures Sends(w, DrainFile(w).0)
    decreases w.c.fileSize - w.c.transferred
  {
    if w.c.transferred < w.c.fileSize {
      BodyStepSendsFile(w);
      if BodyStep(w).1 == More {
        DrainFileSends(BodyStep(w).0);
        SendsTwice(w, BodyStep(w).0, DrainFile(w).0);
      }
    }
  }

  lemma ClosingSendsNone(w: World)
    requires w.c.verb == GET
    ensures CloseAndCleanup(w).c == w.c && CloseAndCleanup(w).sh.data == w.sh.data
  {
  }

  /** The event that led from `w` to `w'` sent the bytes that the open file has behind the offset reached, none skipped
      or repeated, and changed no file. */
  ghost predicate SentFromFile(w: World, w': World) {
    var ino := Ino(w.sh, w.c.fileFd);
    && 0 <= ino < |w.sh.data| && w'.sh.data == w.sh.data && w.c.transferred <= w'.c.transferred
    && (w.c.transferred < w'.c.transferred ==> w'.c.transferred <= |w.sh.data[ino]|)
    && w'.c.wire.sent ==
         w.c.wire.sent + Take(Drop(w.sh.data[ino], w.c.transferred), w'.c.transferred - w.c.transferred)
  }

  lemma SendDataSends(w: World)
    requires 0 <= Ino(w.sh, w.c.fileFd) < |w.sh.data| && w.c.verb == GET
    ensures SentFromFile(w, SendData(w))
  {
    DrainFileSends(w);
    var w1 := DrainFile(w).0;
    ClosingSendsNone(w1);
    ClosingSendsNone(w1.(c := w1.c.(state := Done)));
  }

  /** Every event on a GET that is sending its file sends what the file holds at that moment, also when it has been
      truncated or written anew since the GET opened it. */
  lemma DownloadSendsFile(listenFd: nat, inputs: seq<Input>, fd: int, sched: seq<Answer>)
    requires
      var s := Run(listenFd, inputs);
      Feasible(listenFd, inputs) && fd in s.clients && s.clients[fd].state == SendGetData
    ensures
      var s := Run(listenFd, inputs);
      var w := Begin(s.clients[fd], s.sh, sched);
      SentFromFile(w, Dispatch(w, Mask(false, true, false)))
  {
    var s := Run(listenFd, inputs);
    RunKeeps(listenFd, inputs);
    assert EntryOk(s, fd);
    FileAtHand(s.clients[fd], s.sh);
    SendDataSends(Begin(s.clients[fd], s.sh, sched));
  }
}
