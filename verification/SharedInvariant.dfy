/** What every effect on the shared state keeps, whichever connection it is done for. */
module SharedInvariant {
  import opened Bytes
  import opened Protocol
  import opened History
  import opened Kernel
  import opened Handlers

  function FileFds(fds: map<int, Descriptor>): set<int> {
    set k | k in fds && fds[k].File?
  }

  /** The list, the directory and the file count are what the history replays to, and the history is legal. */
  ghost predicate Agrees(sh: Shared) {
    var h := Replay(sh.trace);
    Legal(sh.trace) && h.store.names == sh.list && h.dir == sh.dir && |h.owners| == |sh.data|
  }

  /** The list has no duplicates, holds only listable names, and each has a content in the store. */
  ghost predicate ListInv(sh: Shared) {
    && Distinct(sh.list)
    && (forall n :: n in sh.list ==> Listable(n) && n in Replay(sh.trace).store.content)
  }

  /** The name a file was created under. */
  function Owner(sh: Shared, ino: nat): bytes {
    var owners := Replay(sh.trace).owners;
    if ino < |owners| then owners[ino] else []
  }

  /** Directory entries name existing files, each under the name it was created with, hence distinct ones;
      contents fit a size_t. */
  ghost predicate DirInv(sh: Shared) {
    && (forall n :: n in sh.dir ==> sh.dir[n] < |sh.data| && Owner(sh, sh.dir[n]) == n)
    && (forall i :: 0 <= i < |sh.data| ==> |sh.data[i]| < SIZE_LIMIT)
  }

  /** Open files exist and were opened by the name they were created with, and every descriptor opened is
      open or was closed exactly once. */
  ghost predicate FdInv(sh: Shared) {
    && (forall k :: k in sh.fds ==> k >= 0)
    && (forall k :: k in FileFds(sh.fds) ==>
          sh.fds[k].ino < |sh.data| && Owner(sh, sh.fds[k].ino) == sh.fds[k].name)
    && sh.opens == sh.closes + |FileFds(sh.fds)|
  }

  predicate SameWriter(sh: Shared, j: int, k: int)
    requires j in FileFds(sh.fds) && k in FileFds(sh.fds)
  {
    sh.fds[j].writing && sh.fds[k].writing && sh.fds[j].ino == sh.fds[k].ino &&
    sh.fds[j].ino !in Replay(sh.trace).tainted
  }

  /** An untainted inode has at most one writer. */
  ghost predicate WriterInv(sh: Shared) {
    forall j, k :: j in FileFds(sh.fds) && k in FileFds(sh.fds) ==>
      SameWriter(sh, j, k) ==> j == k
  }

  /** A clean name is listed exactly when it is on disk, with the content the store has for it, and
      nobody is writing its file. */
  ghost predicate CleanName(sh: Shared, h: Ledger, n: bytes) {
    && (n in sh.list <==> n in sh.dir)
    && (n in sh.dir ==>
          && n in h.store.content && Content(sh, sh.dir[n]) == h.store.content[n]
          && (forall k :: k in FileFds(sh.fds) && sh.fds[k].writing ==> sh.fds[k].ino != sh.dir[n]))
  }

  ghost predicate CleanInv(sh: Shared) {
    var h := Replay(sh.trace);
    forall n :: n !in h.dirty ==> CleanName(sh, h, n)
  }

  /** A listed or uploading name that is not lost is on disk. */
  ghost predicate LostInv(sh: Shared) {
    forall n :: n !in Replay(sh.trace).lost && (n in sh.list || Uploading(sh.fds, n)) ==> n in sh.dir
  }

  /** The file `ino` exists, and no PUT has it open. */
  ghost predicate Closed(sh: Shared, ino: int) {
    0 <= ino < |sh.data| && forall k :: k in FileFds(sh.fds) && sh.fds[k].writing ==> sh.fds[k].ino != ino
  }

  /** A settled file holds what it was left with. */
  ghost predicate SettledInv(sh: Shared) {
    var settled := Replay(sh.trace).settled;
    forall i :: i in settled ==> Closed(sh, i) && sh.data[i] == settled[i]
  }

  ghost predicate SharedInv(sh: Shared) {
    && Agrees(sh) && ListInv(sh) && DirInv(sh) && FdInv(sh)
    && WriterInv(sh) && CleanInv(sh) && LostInv(sh) && SettledInv(sh)
  }

  // -------- what one connection may do to the others --------

  function Tainted(sh: Shared): set<nat> {
    Replay(sh.trace).tainted
  }

  /** An open descriptor `d`. For writing: as long as its inode is untainted, so it was before, and its content
      is as it was. For reading: if the file was solid and is not truncated, it still is, and has at most
      grown. Whoever truncated it meanwhile found it open. */
  ghost predicate Undisturbed(sh: Shared, sh': Shared, d: Descriptor)
    requires d.File?
  {
    && (d.writing && d.ino !in Tainted(sh') ==>
          d.ino !in Tainted(sh) && Content(sh, d.ino) == Content(sh', d.ino))
    && (!d.writing && Solid(sh, d.ino) && !Cut(sh'.trace, |sh.trace|, d.ino) ==>
          Solid(sh', d.ino) && Content(sh, d.ino) <= Content(sh', d.ino))
    && CutsHeld(sh'.trace, |sh.trace|, d.ino)
  }

  /** The step from `sh` to `sh'` of a connection owning the descriptors `mine` before and `mine'` after. */
  ghost predicate Steady(sh: Shared, sh': Shared, mine: set<int>, mine': set<int>) {
    && sh'.fds - mine' == sh.fds - mine
    && sh.trace <= sh'.trace
    && (forall k :: k in FileFds(sh.fds) && k !in mine ==> Undisturbed(sh, sh', sh.fds[k]))
  }

  lemma UndisturbedTrans(a: Shared, b: Shared, c: Shared, d: Descriptor)
    requires d.File? && a.trace <= b.trace <= c.trace && Undisturbed(a, b, d) && Undisturbed(b, c, d)
    ensures Undisturbed(a, c, d)
  {
    if !Cut(c.trace, |a.trace|, d.ino) {
      assert !Cut(c.trace, |b.trace|, d.ino);
      forall j | |a.trace| <= j < |b.trace| ensures !Truncates(b.trace[j], d.ino) {
        assert b.trace[j] == c.trace[j];
      }
      assert !Cut(b.trace, |a.trace|, d.ino);
    }
    forall j | |a.trace| <= j < |c.trace| && Truncates(c.trace[j], d.ino) ensures c.trace[j].held {
      if j < |b.trace| {
        assert b.trace[j] == c.trace[j];
      }
    }
  }

  lemma SteadyTrans(a: Shared, b: Shared, c: Shared, m0: set<int>, m1: set<int>, m2: set<int>)
    requires Steady(a, b, m0, m1) && Steady(b, c, m1, m2)
    ensures Steady(a, c, m0, m2)
  {
    forall k | k in FileFds(a.fds) && k !in m0
      ensures Undisturbed(a, c, a.fds[k])
    {
      assert k in a.fds - m0;
      assert k in b.fds - m1;
      assert b.fds[k] == (b.fds - m1)[k] == (a.fds - m0)[k] == a.fds[k];
      assert Undisturbed(a, b, a.fds[k]) && Undisturbed(b, c, b.fds[k]);
      UndisturbedTrans(a, b, c, a.fds[k]);
    }
  }

  lemma SteadyWiden(a: Shared, b: Shared, m: set<int>, m': set<int>, extra: set<int>)
    requires Steady(a, b, m, m')
    ensures Steady(a, b, m + extra, m' + extra)
  {
    assert b.fds - (m' + extra) == (b.fds - m') - extra;
    assert a.fds - (m + extra) == (a.fds - m) - extra;
  }

  // -------- descriptors --------

  /** The descriptor table changed, but not in its writers, and any new reader has a linked file open. */
  ghost predicate SameWriters(sh: Shared, sh': Shared) {
    && sh' == sh.(fds := sh'.fds, polls := sh'.polls, opens := sh'.opens, closes := sh'.closes)
    && (forall k :: k in sh'.fds ==> k >= 0)
    && sh'.opens == sh'.closes + |FileFds(sh'.fds)|
    && (forall k :: k in FileFds(sh'.fds) ==>
          if k in FileFds(sh.fds) then sh'.fds[k] == sh.fds[k]
          else !sh'.fds[k].writing && sh'.fds[k].name in sh.dir && sh.dir[sh'.fds[k].name] == sh'.fds[k].ino)
  }

  lemma DescriptorsClean(sh: Shared, sh': Shared)
    requires SharedInv(sh) && SameWriters(sh, sh')
    ensures CleanInv(sh')
  {
    forall n | n !in Replay(sh'.trace).dirty ensures CleanName(sh', Replay(sh'.trace), n) {
      assert CleanName(sh, Replay(sh.trace), n);
    }
  }

  lemma DescriptorsFiles(sh: Shared, sh': Shared)
    requires DirInv(sh) && FdInv(sh) && WriterInv(sh) && SameWriters(sh, sh')
    ensures DirInv(sh') && FdInv(sh') && WriterInv(sh')
  {
  }

  lemma DescriptorsSettled(sh: Shared, sh': Shared)
    requires SettledInv(sh) && SameWriters(sh, sh')
    ensures SettledInv(sh')
  {
  }

  lemma DescriptorsLost(sh: Shared, sh': Shared)
    requires LostInv(sh) && SameWriters(sh, sh')
    ensures LostInv(sh')
  {
    forall n | Uploading(sh'.fds, n) ensures Uploading(sh.fds, n) {
      var k :| k in sh'.fds && sh'.fds[k].File? && sh'.fds[k].writing && sh'.fds[k].name == n;
      assert k in FileFds(sh'.fds);
    }
  }

  lemma DescriptorsChange(sh: Shared, sh': Shared)
    requires SharedInv(sh) && SameWriters(sh, sh')
    ensures SharedInv(sh')
  {
    DescriptorsFiles(sh, sh');
    DescriptorsSettled(sh, sh');
    DescriptorsLost(sh, sh');
    DescriptorsClean(sh, sh');
  }

  lemma ClosingFd(sh: Shared, fd: int)
    requires SharedInv(sh) && fd in FileFds(sh.fds)
    ensures SharedInv(CloseFd(sh, fd))
    ensures Steady(sh, CloseFd(sh, fd), {fd}, {})
  {
    assert FileFds(CloseFd(sh, fd).fds) == FileFds(sh.fds) - {fd};
    DescriptorsChange(sh, CloseFd(sh, fd));
  }

  /** A file that was being written is not settled; if only one PUT had it open, nobody has once that is closed. */
  lemma ClosingWriter(sh: Shared, fd: int)
    requires SharedInv(sh) && fd in FileFds(sh.fds) && sh.fds[fd].writing
    ensures Ino(sh, fd) !in Replay(sh.trace).settled
    ensures Ino(sh, fd) !in Tainted(sh) ==> Closed(CloseFd(sh, fd), Ino(sh, fd))
  {
    var file := sh.fds[fd].ino;
    if file !in Tainted(sh) {
      forall k | k in FileFds(sh.fds) && k != fd && sh.fds[k].writing ensures sh.fds[k].ino != file {
        assert !SameWriter(sh, fd, k);
      }
    }
  }

  lemma ClosingSocket(sh: Shared, fd: int)
    requires SharedInv(sh) && fd in sh.fds && sh.fds[fd].Socket?
    ensures SharedInv(CloseSocket(sh, fd))
    ensures Steady(sh, CloseSocket(sh, fd), {fd}, {})
  {
    assert FileFds(CloseSocket(sh, fd).fds) == FileFds(sh.fds);
    DescriptorsChange(sh, CloseSocket(sh, fd));
  }

  lemma OpeningSocket(sh: Shared, fd: nat)
    requires SharedInv(sh) && fd !in sh.fds
    ensures SharedInv(sh.(fds := sh.fds[fd := Socket], polls := sh.polls[fd := Read]))
    ensures Steady(sh, sh.(fds := sh.fds[fd := Socket], polls := sh.polls[fd := Read]), {}, {fd})
  {
    var sh' := sh.(fds := sh.fds[fd := Socket], polls := sh.polls[fd := Read]);
    assert FileFds(sh'.fds) == FileFds(sh.fds);
    DescriptorsChange(sh, sh');
  }

  lemma Polling(sh: Shared, polls: map<int, Interest>)
    requires SharedInv(sh)
    ensures SharedInv(sh.(polls := polls))
    ensures Steady(sh, sh.(polls := polls), {}, {})
  {
    DescriptorsChange(sh, sh.(polls := polls));
  }

  lemma GetOpenSteady(sh: Shared, name: bytes, fd: nat)
    requires SharedInv(sh) && fd !in sh.fds && name in sh.dir
    ensures Steady(sh, GetOpen(sh, name, fd), {}, {fd})
  {
  }

  lemma OpeningForGet(sh: Shared, name: bytes, fd: nat)
    requires SharedInv(sh) && fd !in sh.fds && name in sh.dir
    ensures SharedInv(GetOpen(sh, name, fd))
    ensures Steady(sh, GetOpen(sh, name, fd), {}, {fd})
  {
    var sh' := GetOpen(sh, name, fd);
    assert FileFds(sh'.fds) == FileFds(sh.fds) + {fd};
    GetOpenSteady(sh, name, fd);
    DescriptorsChange(sh, sh');
  }

  // -------- opening for a PUT --------

  ghost function Opening(sh: Shared, id: nat, name: bytes, ino: nat): Event {
    PutOpened(id, name, ino, Written(sh.fds, ino), Held(sh.fds, ino))
  }

  /** The parts of `PutOpen` that the lemmas below look at. */
  lemma PutOpenFacts(sh: Shared, id: nat, name: bytes, fd: nat)
    requires SharedInv(sh) && fd !in sh.fds
    ensures
      var sh' := PutOpen(sh, id, name, fd);
      var ino := sh'.dir[name];
      && FileFds(sh'.fds) == FileFds(sh.fds) + {fd}
      && Replay(sh'.trace) == Apply(Replay(sh.trace), Opening(sh, id, name, ino))
      && ino < |sh'.data| && |sh.data| <= |sh'.data| && sh'.data[ino] == []
      && (forall i :: 0 <= i < |sh.data| && i != ino ==> sh'.data[i] == sh.data[i])
      && (forall k :: k in FileFds(sh.fds) && sh.fds[k].ino == ino ==> Held(sh.fds, ino) && name in sh.dir)
      && (forall m :: m in sh.dir && m != name ==> sh.dir[m] != ino)
  {
    var sh' := PutOpen(sh, id, name, fd);
    var ino := sh'.dir[name];
    ReplayNext(sh.trace, Opening(sh, id, name, ino));
  }

  lemma PutOpenAgrees(sh: Shared, id: nat, name: bytes, fd: nat)
    requires SharedInv(sh) && fd !in sh.fds
    ensures Agrees(PutOpen(sh, id, name, fd)) && ListInv(PutOpen(sh, id, name, fd))
  {
    var sh' := PutOpen(sh, id, name, fd);
    var ino := sh'.dir[name];
    PutOpenFacts(sh, id, name, fd);
    assert Held(sh.fds, ino) ==> name in sh.dir by {
      if Held(sh.fds, ino) {
        var k :| k in sh.fds && sh.fds[k].File? && sh.fds[k].ino == ino;
        assert k in FileFds(sh.fds);
      }
    }
    LegalAppend(sh.trace, Opening(sh, id, name, ino));
  }

  lemma PutOpenDir(sh: Shared, id: nat, name: bytes, fd: nat)
    requires SharedInv(sh) && fd !in sh.fds
    ensures DirInv(PutOpen(sh, id, name, fd))
  {
    PutOpenFacts(sh, id, name, fd);
  }

  lemma PutOpenFds(sh: Shared, id: nat, name: bytes, fd: nat)
    requires SharedInv(sh) && fd !in sh.fds
    ensures FdInv(PutOpen(sh, id, name, fd))
  {
    PutOpenFacts(sh, id, name, fd);
    OpenedFds(sh, PutOpen(sh, id, name, fd), name, fd);
  }

  /** One more descriptor, on a file of the name it is opened by. */
  lemma OpenedFds(sh: Shared, sh': Shared, name: bytes, fd: nat)
    requires FdInv(sh) && fd !in sh.fds && name in sh'.dir
    requires sh'.fds == sh.fds[fd := File(name, sh'.dir[name], true)] && |sh.data| <= |sh'.data|
    requires FileFds(sh'.fds) == FileFds(sh.fds) + {fd}
    requires sh'.dir[name] < |sh'.data| && Owner(sh', sh'.dir[name]) == name
    requires sh'.opens == sh.opens + 1 && sh'.closes == sh.closes
    requires forall k :: k in FileFds(sh.fds) ==> Owner(sh', sh.fds[k].ino) == Owner(sh, sh.fds[k].ino)
    ensures FdInv(sh')
  {
  }

  lemma PutOpenWriters(sh: Shared, id: nat, name: bytes, fd: nat)
    requires SharedInv(sh) && fd !in sh.fds
    ensures WriterInv(PutOpen(sh, id, name, fd)) && LostInv(PutOpen(sh, id, name, fd))
  {
    PutOpenFacts(sh, id, name, fd);
    var sh' := PutOpen(sh, id, name, fd);
    forall n | n != name && Uploading(sh'.fds, n) ensures Uploading(sh.fds, n) {
    }
  }

  /** A descriptor on another inode sees nothing of it. */
  lemma PutOpenElsewhere(sh: Shared, id: nat, name: bytes, fd: nat, k: int)
    requires SharedInv(sh) && fd !in sh.fds && k in FileFds(sh.fds)
    requires sh.fds[k].ino != PutOpen(sh, id, name, fd).dir[name]
    ensures Undisturbed(sh, PutOpen(sh, id, name, fd), sh.fds[k])
  {
    PutOpenFacts(sh, id, name, fd);
  }

  /** A descriptor on the same inode has its file truncated under it, and the event says so. */
  lemma PutOpenOnto(sh: Shared, id: nat, name: bytes, fd: nat, k: int)
    requires SharedInv(sh) && fd !in sh.fds && k in FileFds(sh.fds)
    requires sh.fds[k].ino == PutOpen(sh, id, name, fd).dir[name]
    ensures Undisturbed(sh, PutOpen(sh, id, name, fd), sh.fds[k])
  {
    PutOpenFacts(sh, id, name, fd);
    assert Truncates(PutOpen(sh, id, name, fd).trace[|sh.trace|], sh.fds[k].ino);
  }

  lemma PutOpenSteady(sh: Shared, id: nat, name: bytes, fd: nat)
    requires SharedInv(sh) && fd !in sh.fds
    ensures Steady(sh, PutOpen(sh, id, name, fd), {}, {fd})
  {
    forall k | k in FileFds(sh.fds) ensures Undisturbed(sh, PutOpen(sh, id, name, fd), sh.fds[k]) {
      if sh.fds[k].ino == PutOpen(sh, id, name, fd).dir[name] {
        PutOpenOnto(sh, id, name, fd, k);
      } else {
        PutOpenElsewhere(sh, id, name, fd, k);
      }
    }
  }

  lemma PutOpenClean(sh: Shared, id: nat, name: bytes, fd: nat)
    requires SharedInv(sh) && fd !in sh.fds
    ensures CleanInv(PutOpen(sh, id, name, fd))
  {
    PutOpenFacts(sh, id, name, fd);
    var sh' := PutOpen(sh, id, name, fd);
    var h' := Replay(sh'.trace);
    forall n | n !in h'.dirty ensures CleanName(sh', h', n) {
      assert CleanName(sh, Replay(sh.trace), n);
    }
  }

  lemma OpeningForPut(sh: Shared, id: nat, name: bytes, fd: nat)
    requires SharedInv(sh) && fd !in sh.fds
    ensures SharedInv(PutOpen(sh, id, name, fd))
    ensures Steady(sh, PutOpen(sh, id, name, fd), {}, {fd})
  {
    PutOpenAgrees(sh, id, name, fd);
    PutOpenDir(sh, id, name, fd);
    PutOpenFds(sh, id, name, fd);
    PutOpenWriters(sh, id, name, fd);
    PutOpenClean(sh, id, name, fd);
    PutOpenSteady(sh, id, name, fd);
  }

  // -------- writing --------

  lemma WritingClean(sh: Shared, fd: int, off: nat, d: bytes)
    requires SharedInv(sh) && fd in FileFds(sh.fds) && sh.fds[fd].writing
    ensures CleanInv(WriteFile(sh, fd, off, d)) && LostInv(WriteFile(sh, fd, off, d))
  {
    var sh' := WriteFile(sh, fd, off, d);
    forall n | n !in Replay(sh'.trace).dirty ensures CleanName(sh', Replay(sh'.trace), n) {
      assert CleanName(sh, Replay(sh.trace), n);
    }
  }

  lemma WritingFiles(sh: Shared, fd: int, off: nat, d: bytes)
    requires SharedInv(sh) && fd in FileFds(sh.fds) && sh.fds[fd].writing && off + |d| < SIZE_LIMIT
    ensures DirInv(WriteFile(sh, fd, off, d)) && SettledInv(WriteFile(sh, fd, off, d))
  {
    OverlayLength(sh.data[sh.fds[fd].ino], off, d);
  }

  lemma WritingSteady(sh: Shared, fd: int, off: nat, d: bytes)
    requires SharedInv(sh) && fd in FileFds(sh.fds) && sh.fds[fd].writing
    requires sh.fds[fd].ino !in Tainted(sh) ==> off == |Content(sh, sh.fds[fd].ino)|
    ensures Steady(sh, WriteFile(sh, fd, off, d), {fd}, {fd})
  {
    var ino := sh.fds[fd].ino;
    if ino !in Tainted(sh) {
      OverlayAppends(sh.data[ino], d);
    }
    forall k | k in FileFds(sh.fds) && k != fd && sh.fds[k].writing && sh.fds[k].ino == ino
      ensures ino in Tainted(sh)
    {
      assert !SameWriter(sh, fd, k);
    }
  }

  lemma WritingNames(sh: Shared, sh': Shared)
    requires Agrees(sh) && ListInv(sh) && FdInv(sh) && WriterInv(sh)
    requires sh' == sh.(data := sh'.data) && |sh'.data| == |sh.data|
    ensures Agrees(sh') && ListInv(sh') && FdInv(sh') && WriterInv(sh')
  {
  }

  /** A PUT appends at its own offset: as long as its inode is untainted, that is the end of the file. */
  lemma Writing(sh: Shared, fd: int, off: nat, d: bytes)
    requires SharedInv(sh) && fd in FileFds(sh.fds) && sh.fds[fd].writing
    requires off + |d| < SIZE_LIMIT
    requires sh.fds[fd].ino !in Tainted(sh) ==> off == |Content(sh, sh.fds[fd].ino)|
    ensures SharedInv(WriteFile(sh, fd, off, d))
    ensures Steady(sh, WriteFile(sh, fd, off, d), {fd}, {fd})
  {
    WritingNames(sh, WriteFile(sh, fd, off, d));
    WritingFiles(sh, fd, off, d);
    WritingClean(sh, fd, off, d);
    WritingSteady(sh, fd, off, d);
  }

  // -------- list and directory --------

  lemma DeletedClean(sh: Shared, id: nat, name: bytes)
    requires SharedInv(sh) && name in sh.list && name in sh.dir
    ensures CleanInv(DeleteName(sh, id, name)) && LostInv(DeleteName(sh, id, name))
  {
    var sh' := DeleteName(sh, id, name);
    var h, h' := Replay(sh.trace), Replay(sh'.trace);
    LegalAppend(sh.trace, Deleted(id, name, Uploading(sh.fds, name)));
    WithoutMembers(sh.list, name);
    forall n | n !in h'.dirty ensures CleanName(sh', h', n) {
      assert n != name ==> CleanName(sh, h, n);
    }
  }

  /** Nothing happened to the files and descriptors; the directory may have lost entries. */
  lemma FilesKept(sh: Shared, sh': Shared)
    requires DirInv(sh) && FdInv(sh) && WriterInv(sh)
    requires sh'.data == sh.data && sh'.fds == sh.fds && sh'.opens == sh.opens && sh'.closes == sh.closes
    requires Replay(sh'.trace).owners == Replay(sh.trace).owners && Tainted(sh') == Tainted(sh)
    requires forall n :: n in sh'.dir ==> n in sh.dir && sh'.dir[n] == sh.dir[n]
    ensures DirInv(sh') && FdInv(sh') && WriterInv(sh')
  {
    forall j, k | j in FileFds(sh'.fds) && k in FileFds(sh'.fds) && SameWriter(sh', j, k) ensures j == k {
      assert SameWriter(sh, j, k);
    }
  }

  lemma DeletedNames(sh: Shared, id: nat, name: bytes)
    requires SharedInv(sh) && name in sh.list && name in sh.dir
    ensures Agrees(DeleteName(sh, id, name)) && ListInv(DeleteName(sh, id, name))
    ensures Steady(sh, DeleteName(sh, id, name), {}, {})
  {
    LegalAppend(sh.trace, Deleted(id, name, Uploading(sh.fds, name)));
    WithoutMembers(sh.list, name);
  }

  lemma DeletedFiles(sh: Shared, id: nat, name: bytes)
    requires SharedInv(sh) && name in sh.list && name in sh.dir
    ensures
      var sh' := DeleteName(sh, id, name);
      DirInv(sh') && FdInv(sh') && WriterInv(sh') && SettledInv(sh')
  {
    LegalAppend(sh.trace, Deleted(id, name, Uploading(sh.fds, name)));
  }

  lemma Deleting(sh: Shared, id: nat, name: bytes)
    requires SharedInv(sh) && name in sh.list && name in sh.dir
    ensures SharedInv(DeleteName(sh, id, name))
    ensures Steady(sh, DeleteName(sh, id, name), {}, {})
  {
    DeletedNames(sh, id, name);
    DeletedFiles(sh, id, name);
    DeletedClean(sh, id, name);
  }

  lemma TornClean(sh: Shared, id: nat, name: bytes)
    requires SharedInv(sh) && name in sh.dir
    ensures CleanInv(TearDown(sh, id, name)) && LostInv(TearDown(sh, id, name))
  {
    var sh' := TearDown(sh, id, name);
    var h, h' := Replay(sh.trace), Replay(sh'.trace);
    LegalAppend(sh.trace, TornDown(id, name));
    forall n | n !in h'.dirty ensures CleanName(sh', h', n) {
      assert CleanName(sh, h, n);
    }
  }

  lemma TornFiles(sh: Shared, id: nat, name: bytes)
    requires DirInv(sh) && FdInv(sh) && WriterInv(sh)
    ensures var sh' := TearDown(sh, id, name); DirInv(sh') && FdInv(sh') && WriterInv(sh')
  {
    ReplayNext(sh.trace, TornDown(id, name));
    FilesKept(sh, TearDown(sh, id, name));
  }

  lemma TornSettled(sh: Shared, id: nat, name: bytes)
    requires SettledInv(sh)
    ensures SettledInv(TearDown(sh, id, name))
  {
    ReplayNext(sh.trace, TornDown(id, name));
  }

  lemma Tearing(sh: Shared, id: nat, name: bytes)
    requires SharedInv(sh) && name in sh.dir
    ensures SharedInv(TearDown(sh, id, name))
    ensures Steady(sh, TearDown(sh, id, name), {}, {})
  {
    LegalAppend(sh.trace, TornDown(id, name));
    TornFiles(sh, id, name);
    TornSettled(sh, id, name);
    TornClean(sh, id, name);
  }

  /** Events that record an answer. */
  predicate Notes(e: Event) {
    e.Fetched? || e.Refused? || e.Listed? || e.Rejected?
  }

  lemma NotedClean(sh: Shared, e: Event)
    requires SharedInv(sh) && Notes(e) && LegalNext(Replay(sh.trace), e)
    ensures CleanInv(Log(sh, e)) && LostInv(Log(sh, e))
  {
    var sh' := Log(sh, e);
    LegalAppend(sh.trace, e);
    forall n | n !in Replay(sh'.trace).dirty ensures CleanName(sh', Replay(sh'.trace), n) {
      assert CleanName(sh, Replay(sh.trace), n);
    }
  }

  lemma NotedFiles(sh: Shared, e: Event)
    requires DirInv(sh) && FdInv(sh) && WriterInv(sh) && Notes(e)
    ensures DirInv(Log(sh, e)) && FdInv(Log(sh, e)) && WriterInv(Log(sh, e))
  {
    ReplayNext(sh.trace, e);
    FilesKept(sh, Log(sh, e));
  }

  lemma NotedSettled(sh: Shared, e: Event)
    requires SettledInv(sh) && Notes(e)
    requires e.Rejected? && e.file >= 0 && e.file !in Tainted(sh) ==> Closed(sh, e.file) && sh.data[e.file] == e.kept
    ensures SettledInv(Log(sh, e))
  {
    ReplayNext(sh.trace, e);
  }

  /** They change nothing; a file whose upload was refused is settled. */
  lemma Noting(sh: Shared, e: Event)
    requires SharedInv(sh) && Notes(e) && LegalNext(Replay(sh.trace), e)
    requires e.Rejected? && e.file >= 0 && e.file !in Tainted(sh) ==> Closed(sh, e.file) && sh.data[e.file] == e.kept
    ensures SharedInv(Log(sh, e))
    ensures Steady(sh, Log(sh, e), {}, {})
  {
    LegalAppend(sh.trace, e);
    NotedFiles(sh, e);
    NotedSettled(sh, e);
    NotedClean(sh, e);
  }

  lemma CommittedClean(sh: Shared, id: nat, name: bytes, file: nat, body: bytes)
    requires SharedInv(sh) && Listable(name) && file !in Replay(sh.trace).settled
    requires name !in Replay(sh.trace).lost ==> name in sh.dir
    requires file !in Tainted(sh) ==> Closed(sh, file) && sh.data[file] == body
    ensures CleanInv(Commit(sh, id, name, file, body)) && LostInv(Commit(sh, id, name, file, body))
  {
    var sh' := Commit(sh, id, name, file, body);
    var h, h' := Replay(sh.trace), Replay(sh'.trace);
    LegalAppend(sh.trace, Committed(id, name, file, body));
    WithMembers(sh.list, name);
    forall n | n !in h'.dirty ensures CleanName(sh', h', n) {
      assert n != name ==> CleanName(sh, h, n);
    }
  }

  lemma CommittedFiles(sh: Shared, id: nat, name: bytes, file: nat, body: bytes)
    requires SharedInv(sh) && Listable(name) && file !in Replay(sh.trace).settled
    requires file !in Tainted(sh) ==> Closed(sh, file) && sh.data[file] == body
    ensures
      var sh' := Commit(sh, id, name, file, body);
      DirInv(sh') && FdInv(sh') && WriterInv(sh') && SettledInv(sh')
  {
    LegalAppend(sh.trace, Committed(id, name, file, body));
  }

  /** Listing a complete upload whose descriptor is already closed. */
  lemma Committing(sh: Shared, id: nat, name: bytes, file: nat, body: bytes)
    requires SharedInv(sh) && Listable(name) && file !in Replay(sh.trace).settled
    requires name !in Replay(sh.trace).lost ==> name in sh.dir
    requires file !in Tainted(sh) ==> Closed(sh, file) && sh.data[file] == body
    ensures SharedInv(Commit(sh, id, name, file, body))
    ensures Steady(sh, Commit(sh, id, name, file, body), {}, {})
  {
    LegalAppend(sh.trace, Committed(id, name, file, body));
    WithMembers(sh.list, name);
    CommittedFiles(sh, id, name, file, body);
    CommittedClean(sh, id, name, file, body);
  }
}
