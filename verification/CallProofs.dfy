/** What the loops of the handlers leave in the record of calls. */
module CallProofs {
  import opened Bytes
  import opened Protocol
  import opened Calls
  import opened Kernel
  import opened Handlers

  // -------- uploads --------

  /** How the outcome of a loop of an upload shows in its calls. */
  predicate Tells(w: World, outcome: Outcome) {
    if outcome == Broken then CourseOf(w.calls).Failed? else CourseOf(w.calls) == Running
  }

  lemma ReadTells(w: World, count: nat)
    requires CourseOf(w.calls) == Running
    ensures
      var (w1, r) := SockRead(w, count);
      && (r.Error? ==> Tells(w1, OnError(r.errno)))
      && (r.Count? ==> CourseOf(w1.calls) == if r.n == 0 then Failed(EndOfInput) else Running)
  {
    var (w1, r) := SockRead(w, count);
    CourseNext(w.calls, SocketRead(count, r));
  }

  lemma WriteTells(w: World, d: bytes, off: nat)
    requires CourseOf(w.calls) == Running
    ensures
      var (w1, r) := Pwrite(w, d, off);
      CourseOf(w1.calls) == if r == Count(|d|) then Running else Failed(WriteFailed)
  {
    CourseNext(w.calls, FileWrite(|d|, Pwrite(w, d, off).1));
  }

  lemma OpenTells(w: World)
    requires CourseOf(w.calls) == Running
    ensures
      var (w1, fd) := OpenForPut(w);
      CourseOf(w1.calls) == if fd == -1 then Failed(OpenFailed) else Running
  {
    CourseNext(w.calls, FileOpen(w.c.filename in w.sh.dir, true));
    CourseNext(w.calls, FileOpen(w.c.filename in w.sh.dir, false));
  }

  /** After the close the only thing that can go wrong is a byte too many. */
  lemma ProbeTells(w: World)
    requires CourseOf(w.calls) == Running
    ensures
      var (w1, r) := SockRead(CloseOwn(w), 1);
      CourseOf(w1.calls) == if r.Count? && r.n > 0 then Failed(ExtraByte) else Probing
  {
    var (w1, r) := SockRead(CloseOwn(w), 1);
    CourseNext(w.calls, FileClose);
    CourseNext(w.calls + [FileClose], SocketRead(1, r));
  }

  lemma CloseKeepsFailed(w: World)
    requires CourseOf(w.calls).Failed?
    ensures CourseOf(CloseOwn(w).calls) == CourseOf(w.calls)
  {
    CourseNext(w.calls, FileClose);
  }

  lemma SizeStepTells(w: World)
    requires CourseOf(w.calls) == Running && w.c.transferred < SIZE_BYTES
    ensures Tells(SizeStep(w).0, SizeStep(w).1)
  {
    var (w1, r) := SockRead(w, SIZE_BYTES - w.c.transferred);
    ReadTells(w, SIZE_BYTES - w.c.transferred);
    if r.Count? && r.n > 0 {
      assert SizeStep(w).1 == More && SizeStep(w).0.calls == w1.calls;
    } else {
      assert SizeStep(w) == (w1, if r.Error? then OnError(r.errno) else Broken);
    }
  }

  lemma {:induction false} FillSizeTells(w: World)
    requires CourseOf(w.calls) == Running
    ensures Tells(FillSize(w).0, FillSize(w).1)
    decreases SIZE_BYTES - w.c.transferred, |w.sched|
  {
    if w.c.transferred < SIZE_BYTES {
      SizeStepTells(w);
      if SizeStep(w).1 == More {
        FillSizeTells(SizeStep(w).0);
      }
    }
  }

  lemma JustReadLength(w: World, count: nat)
    requires w.c.wire.got <= |w.c.wire.stream| && SockRead(w, count).1.Count?
    ensures
      var (w1, r) := SockRead(w, count);
      |JustRead(w1.c, r.n)| == r.n && w1.c.wire.got <= |w1.c.wire.stream|
  {
  }

  lemma StoreTells(w: World, n: nat)
    requires CourseOf(w.calls) == Running && |JustRead(w.c, n)| == n && w.c.wire.got <= |w.c.wire.stream|
    ensures Tells(StoreChunk(w, n).0, StoreChunk(w, n).1)
    ensures StoreChunk(w, n).1 == More || StoreChunk(w, n).1 == Broken
    ensures StoreChunk(w, n).0.c.wire == w.c.wire
  {
    WriteTells(w, JustRead(w.c, n), w.c.transferred);
  }

  lemma ReadChunkTells(w: World, count: nat)
    requires CourseOf(w.calls) == Running && w.c.wire.got <= |w.c.wire.stream|
    ensures
      var (w1, outcome) := ReadChunk(w, count);
      Tells(w1, outcome) && w1.c.wire.got <= |w1.c.wire.stream|
  {
    ReadTells(w, count);
    var (w1, r) := SockRead(w, count);
    if r.Count? && r.n > 0 {
      JustReadLength(w, count);
      StoreTells(w1, r.n);
    }
  }

  lemma FileStepTells(w: World)
    requires CourseOf(w.calls) == Running && w.c.transferred < SizeOf(w.c.expected)
    requires w.c.wire.got <= |w.c.wire.stream|
    ensures Tells(FileStep(w).0, FileStep(w).1) && FileStep(w).0.c.wire.got <= |FileStep(w).0.c.wire.stream|
  {
    var count := Min(BUFFER_SIZE, SizeOf(w.c.expected) - w.c.transferred);
    assert FileStep(w) == ReadChunk(w, count);
    ReadChunkTells(w, count);
  }

  lemma {:induction false} FillFileTells(w: World)
    requires CourseOf(w.calls) == Running && w.c.wire.got <= |w.c.wire.stream|
    ensures Tells(FillFile(w).0, FillFile(w).1)
    decreases SizeOf(w.c.expected) - w.c.transferred, |w.sched|
  {
    if w.c.transferred < SizeOf(w.c.expected) {
      FileStepTells(w);
      if FileStep(w).1 == More {
        FillFileTells(FileStep(w).0);
      }
    }
  }

  // -------- refusals --------

  lemma DeniedNext(calls: seq<Call>, call: Call)
    ensures Denied(calls + [call]) == if Denies(call) then Some(call) else Denied(calls)
  {
    assert (calls + [call])[..|calls|] == calls;
  }

  /** Reading the request line is no refusal. */
  lemma {:induction false} FillHeaderDenies(w: World)
    ensures Denied(FillHeader(w).0.calls) == Denied(w.calls)
    decreases HEADER_MAX - |w.c.header|, |w.sched|
  {
    if |w.c.header| < HEADER_MAX - 1 {
      DeniedNext(w.calls, SocketRead(1, SockRead(w, 1).1));
      if HeaderStep(w).1 == More {
        FillHeaderDenies(HeaderStep(w).0);
      }
    }
  }

  /** An open for a GET is denied exactly if the file is there. */
  lemma OpenDenies(w: World)
    requires Denied(w.calls) == None
    ensures
      var (w1, fd) := OpenForGet(w);
      Denied(w1.calls) == if fd == -1 && w.c.filename in w.sh.dir then Some(FileOpen(true, false)) else None
  {
    DeniedNext(w.calls, FileOpen(w.c.filename in w.sh.dir, false));
    DeniedNext(w.calls, FileOpen(true, true));
  }

  lemma StatDenies(w: World)
    requires Denied(w.calls) == None && !Stat(w).1
    ensures Denied(CloseOwn(Stat(w).0).calls) == Some(FileStat(false))
  {
    DeniedNext(w.calls, FileStat(false));
    DeniedNext(w.calls + [FileStat(false)], FileClose);
  }

  lemma UnlinkDenies(w: World)
    requires Denied(w.calls) == None && !Unlink(w).1
    ensures Denied(Unlink(w).0.calls) == if w.c.filename in w.sh.dir then Some(FileUnlink(true, false)) else None
  {
    DeniedNext(w.calls, FileUnlink(w.c.filename in w.sh.dir, false));
  }
}
