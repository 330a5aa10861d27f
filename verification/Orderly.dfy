/** When the files agree with the store: names whose uploads run one at a time, undisturbed, to their commit. */
module Orderly {
  import opened Bytes
  import opened Protocol
  import opened History
  import opened Kernel
  import opened System
  import opened ConnInvariant
  import opened RunProofs
  import opened Outcomes
  import opened Theorems

  /** The inode of the upload of `n` that was opened last and has not been committed. */
  function Upload(t: seq<Event>, n: bytes): Option<int> {
    if t == [] then None
    else
      match t[|t| - 1]
      case PutOpened(_, name, ino, _, _) => if name == n then Some(ino) else Upload(t[..|t| - 1], n)
      case Committed(_, name, _, _) => if name == n then None else Upload(t[..|t| - 1], n)
      case _ => Upload(t[..|t| - 1], n)
  }

  /** Event `e` does not overlap an upload of `n`: a PUT opens `n` while no other upload of it is under way
      and nobody has its file open, and then it is committed; DELETE and GET of `n` happen between uploads;
      no unfinished upload of `n` is torn down. */
  ghost predicate OrderlyNext(t: seq<Event>, n: bytes, e: Event) {
    About(e, n) ==>
      match e
      case PutOpened(_, _, _, _, held) => Upload(t, n) == None && !held
      case Committed(_, _, file, _) => Upload(t, n) == Some(file)
      case Rejected(_, _, _, _, _) => true
      case TornDown(_, _) => false
      case _ => Upload(t, n) == None
  }

  ghost predicate OrderlyName(t: seq<Event>, n: bytes) {
    t == [] || (OrderlyName(t[..|t| - 1], n) && OrderlyNext(t[..|t| - 1], n, t[|t| - 1]))
  }

  lemma {:induction false} OrderlyPrefix(t: seq<Event>, n: bytes, i: nat)
    requires OrderlyName(t, n) && i <= |t|
    ensures OrderlyName(t[..i], n)
    ensures i < |t| ==> OrderlyNext(t[..i], n, t[i])
  {
    if i < |t| {
      var before := t[..|t| - 1];
      if i < |t| - 1 {
        OrderlyPrefix(before, n, i);
        assert before[..i] == t[..i];
      }
    } else {
      assert t[..i] == t;
    }
  }

  /** The directory names each file by the name it was created under. */
  ghost predicate OwnersNamed(h: Ledger) {
    forall n :: n in h.dir ==> h.dir[n] < |h.owners| && h.owners[h.dir[n]] == n
  }

  lemma OwnersNext(h: Ledger, e: Event)
    requires LegalNext(h, e) && OwnersNamed(h)
    ensures OwnersNamed(Apply(h, e))
  {
    match e
    case PutOpened(_, name, ino, _, _) =>
      assert Apply(h, e).owners[ino] == name;
    case _ =>
  }

  lemma {:induction false} LegalOwners(t: seq<Event>)
    requires Legal(t)
    ensures OwnersNamed(Replay(t))
  {
    if t != [] {
      LegalOwners(t[..|t| - 1]);
      OwnersNext(Replay(t[..|t| - 1]), t[|t| - 1]);
    }
  }

  /** The heart of it: for an orderly name the only time the file may differ from the store is during an
      upload, and then its inode is untainted and linked. */
  lemma {:induction false} OrderlyDirt(t: seq<Event>, n: bytes)
    requires Legal(t) && OrderlyName(t, n)
    ensures
      var h := Replay(t);
      && (n in h.dirty <==> Upload(t, n).Some?)
      && (Upload(t, n).Some? ==>
            n in h.dir && h.dir[n] == Upload(t, n).value && Upload(t, n).value !in h.tainted)
  {
    if t != [] {
      var before := t[..|t| - 1];
      OrderlyDirt(before, n);
      LegalOwners(before);
    }
  }

  /** Only a PUT that opened a file by the name it was created under can taint it. */
  lemma {:induction false} OrderlyUntainted(t: seq<Event>, n: bytes, ino: nat)
    requires Legal(t) && OrderlyName(t, n)
    requires ino < |Replay(t).owners| && Replay(t).owners[ino] == n
    ensures ino !in Replay(t).tainted
  {
    if t != [] {
      var before := t[..|t| - 1];
      LegalOwners(before);
      if ino < |Replay(before).owners| {
        OrderlyUntainted(before, n, ino);
      } else {
        FutureUntainted(before, ino);
      }
    }
  }

  /** A file that does not exist yet is not tainted. */
  lemma {:induction false} FutureUntainted(t: seq<Event>, ino: nat)
    requires Legal(t) && ino >= |Replay(t).owners|
    ensures ino !in Replay(t).tainted
  {
    if t != [] {
      var before := t[..|t| - 1];
      LegalOwners(before);
      FutureUntainted(before, ino);
    }
  }

  lemma {:induction false} OwnersGrow(t: seq<Event>, i: nat)
    requires i <= |t|
    ensures Replay(t[..i]).owners <= Replay(t).owners
  {
    if i < |t| {
      OwnersGrow(t[..|t| - 1], i);
      assert t[..|t| - 1][..i] == t[..i];
    } else {
      assert t[..i] == t;
    }
  }

  /** A file of an orderly name is only ever truncated while nobody has it open. */
  lemma OrderlyCuts(t: seq<Event>, n: bytes, op: nat, ino: nat, j: nat)
    requires Legal(t) && OrderlyName(t, n) && op <= j < |t| && Truncates(t[j], ino)
    requires ino < |Replay(t[..op]).owners| && Replay(t[..op]).owners[ino] == n
    ensures !t[j].held
  {
    LegalAt(t, j);
    LegalOwners(t[..j]);
    OwnersGrow(t[..j], op);
    assert t[..j][..op] == t[..op];
    OrderlyPrefix(t, n, j);
  }

  /** What a GET of an orderly name fetched stays what it was while the GET has it open. */
  lemma OrderlyUntouched(t: seq<Event>, n: bytes, op: nat)
    requires Legal(t) && OrderlyName(t, n) && op < |t| && t[op].Fetched? && t[op].name == n
    requires CutsHeld(t, op, t[op].ino)
    ensures Untouched(t, op)
  {
    var ino := t[op].ino;
    LegalAt(t, op);
    LegalOwners(t[..op]);
    OrderlyPrefix(t, n, op);
    OrderlyUntainted(t[..op], n, ino);
    if j :| op <= j < |t| && Truncates(t[j], ino) {
      OrderlyCuts(t, n, op, ino, j);
    }
  }

  lemma OrderlyUnspoilt(e: Ended, trace: seq<Event>, n: bytes)
    requires Legal(trace) && OrderlyName(trace, n) && Freed(e.c, e.at, trace) && SentGetBody(e.c)
    requires e.c.filename == n
    ensures Unspoilt(e, trace)
  {
    OrderlyPrefix(trace, n, e.at);
    if e.at < |trace| {
      LegalAt(trace, e.at);
    } else {
      assert trace[..e.at] == trace;
    }
    OrderlyUntouched(trace[..e.at], n, e.c.op);
  }

  /** What the store and the answers are for an orderly name at each event of the history. */
  ghost predicate AnswersStore(h: Ledger, e: Event) {
    match e
    case Fetched(_, name, _, body, _) =>
      name in h.store.names && name in h.store.content && h.store.content[name] == body
    case Refused(_, _, name, denied) => denied.None? ==> name !in h.store.names
    case Deleted(_, name, _) => name in h.store.names
    case _ => true
  }

  /** A finished connection: its request is one operation of the store, or none if it is "Bad request", and it was sent
      exactly the reply of that operation. */
  ghost predicate Carried(c: Conn, t: seq<Event>) {
    OneOperation(c, t) && OwnEvents(t, c)
    && (if c.status == Failure(BadRequest) then AnsweredBadRequest(c) else AnsweredFromHistory(c, t))
  }

  /** Every finished connection that asked for an orderly name got the reply of its event, without exception. */
  lemma OrderlyAnswers(listenFd: nat, inputs: seq<Input>, n: bytes, i: nat)
    requires Feasible(listenFd, inputs) && OrderlyName(Run(listenFd, inputs).sh.trace, n)
    requires i < |Run(listenFd, inputs).gone|
    requires var c := Run(listenFd, inputs).gone[i].c; c.state == Done && c.filename == n
    ensures
      Carried(Run(listenFd, inputs).gone[i].c, Run(listenFd, inputs).sh.trace)
  {
    var s := Run(listenFd, inputs);
    RunKeeps(listenFd, inputs);
    FinishedOnce(listenFd, inputs, i);
    KnownOwns(listenFd, inputs, s.gone[i].c);
    assert EndedOk(s, i);
    if SentGetBody(s.gone[i].c) {
      OrderlyUnspoilt(s.gone[i], s.sh.trace, n);
    }
    AnswerRecorded(s.gone[i], s.sh.trace);
  }

  /** The sequential store in full, under the conditions it needs: if the uploads of `n` do not overlap each
      other, a DELETE or an open GET of `n`, and each that opens its file is committed, then outside an upload the
      file of `n` is what the store says; every event of `n` is one for which some connection asked, with the outcome
      it has on the store; and every finished connection that asked for `n` is exactly one such operation, and was
      sent exactly its outcome. */
  lemma OrderlyNameIsSequential(listenFd: nat, inputs: seq<Input>, n: bytes)
    requires Feasible(listenFd, inputs) && OrderlyName(Run(listenFd, inputs).sh.trace, n)
    ensures
      var s := Run(listenFd, inputs);
      var sh, h := s.sh, Replay(s.sh.trace);
      && (Upload(sh.trace, n).None? ==>
            (n in sh.list <==> n in sh.dir)
            && (n in sh.list ==> n in h.store.content && Content(sh, sh.dir[n]) == h.store.content[n]))
      && (forall i :: 0 <= i < |sh.trace| && About(sh.trace[i], n) ==>
            AnswersStore(Replay(sh.trace[..i]), sh.trace[i]) && Requested(s, sh.trace[i]))
      && (forall i :: 0 <= i < |s.gone| && s.gone[i].c.state == Done && s.gone[i].c.filename == n ==>
            Carried(s.gone[i].c, sh.trace))
  {
    var s := Run(listenFd, inputs);
    StateIsStore(listenFd, inputs);
    SequentialRefinement(listenFd, inputs);
    OrderlyDirt(s.sh.trace, n);
    forall i | 0 <= i < |s.sh.trace| && About(s.sh.trace[i], n)
      ensures AnswersStore(Replay(s.sh.trace[..i]), s.sh.trace[i])
    {
      EventAnswersStore(s.sh.trace, n, i);
    }
    forall i | 0 <= i < |s.gone| && s.gone[i].c.state == Done && s.gone[i].c.filename == n
      ensures Carried(s.gone[i].c, s.sh.trace)
    {
      OrderlyAnswers(listenFd, inputs, n, i);
    }
  }

  lemma EventAnswersStore(t: seq<Event>, n: bytes, i: nat)
    requires Legal(t) && OrderlyName(t, n) && i < |t| && About(t[i], n)
    ensures AnswersStore(Replay(t[..i]), t[i])
  {
    LegalAt(t, i);
    OrderlyPrefix(t, n, i);
    OrderlyDirt(t[..i], n);
  }

  // -------- one upload left alone --------

  /** An upload opened its file at `o`, while no other PUT had it open, and committed it at `p`; up to position `q`
      nothing else touches the name. */
  ghost predicate Sheltered(t: seq<Event>, o: nat, p: nat, q: nat) {
    && o < p < q <= |t| && t[o].PutOpened? && !t[o].written
    && t[p].Committed? && t[p].name == t[o].name && t[p].file == t[o].ino
    && (forall k :: o < k < q && k != p ==> !Touches(t[k], t[o].name))
  }

  /** The name is linked to the file, and no two uploads share it. */
  predicate OwnLink(h: Ledger, name: bytes, ino: nat) {
    name in h.dir && h.dir[name] == ino && ino !in h.tainted
  }

  lemma LinkStays(h: Ledger, e: Event, name: bytes, ino: nat)
    requires LegalNext(h, e) && OwnersNamed(h) && OwnLink(h, name, ino) && (Touches(e, name) ==> e.Committed?)
    ensures OwnLink(Apply(h, e), name, ino)
  {
  }

  /** From the open on the name is linked to the file, and no other upload has a part in it. */
  lemma {:induction false} ShelteredLink(t: seq<Event>, o: nat, k: nat)
    requires Legal(t) && o < k <= |t| && t[o].PutOpened? && !t[o].written
    requires forall i :: o < i < k && Touches(t[i], t[o].name) ==> t[i].Committed?
    ensures OwnLink(Replay(t[..k]), t[o].name, t[o].ino)
  {
    var before, e := t[..k - 1], t[k - 1];
    assert t[..k] == before + [e];
    ReplayNext(before, e);
    if k - 1 > o {
      ShelteredLink(t, o, k - 1);
      LegalAt(t, k - 1);
      LegalOwners(before);
      LinkStays(Replay(before), e, t[o].name, t[o].ino);
    }
  }

  /** What a GET fetches there is what was committed; it is refused only if the system would not open or stat the file
      that is there. */
  lemma ShelteredFetch(t: seq<Event>, o: nat, p: nat, q: nat)
    requires Legal(t) && Sheltered(t, o, p, q) && q < |t| && About(t[q], t[o].name)
    ensures t[q].Fetched? ==> t[q].body == t[p].body && t[q].ino == t[o].ino && t[q].solid
    ensures t[q].Refused? ==> t[q].denied.Some?
  {
    ShelteredLink(t, o, p);
    ShelteredLink(t, o, q);
    assert t[..q][..p] == t[..p];
    WholeSince(t[..q], p);
    LegalAt(t, q);
  }

  /** What is on disk after a failed upload that was left alone: under its name the first bytes of what was sent, for
      as long as nobody opens, lists, deletes or tears down a file of that name. */
  lemma FailedUploadOnDisk(listenFd: nat, inputs: seq<Input>, c: Conn, o: nat)
    requires Feasible(listenFd, inputs) && Known(Run(listenFd, inputs), c)
    requires c.status == Failure(BadFileSize) && !Receiving(c.state)
    requires
      var t := Run(listenFd, inputs).sh.trace;
      && o < |t| && t[o].PutOpened? && t[o].id == c.id && !t[o].written
      && (forall k :: o < k < |t| ==> !Touches(t[k], c.filename))
    ensures
      var sh := Run(listenFd, inputs).sh;
      && Placed(c, sh.trace) && sh.trace[c.op].Rejected? && c.filename in sh.dir
      && Content(sh, sh.dir[c.filename]) == sh.trace[c.op].kept
      && LeftBehind(c, sh.trace[c.op].kept, sh.trace[c.op].course)
  {
    var s := Run(listenFd, inputs);
    var t := s.sh.trace;
    RunKeeps(listenFd, inputs);
    KnownOk(listenFd, inputs, c);
    KnownOwns(listenFd, inputs, c);
    DecidedStatus(c, t);
    RejectedLinked(c, t, o);
    UploadLeaves(listenFd, inputs, c.op, t[o].ino, t[c.op].kept);
  }

  lemma RejectedLinked(c: Conn, t: seq<Event>, o: nat)
    requires Legal(t) && OwnEvents(t, c) && Placed(c, t) && t[c.op].Rejected?
    requires o < |t| && t[o].PutOpened? && t[o].id == c.id && !t[o].written
    requires forall k :: o < k < |t| ==> !Touches(t[k], c.filename)
    ensures
      var h, ino := Replay(t), t[o].ino;
      && t[c.op].file == ino && !Cut(t, c.op, ino) && ino !in Replay(t[..c.op]).tainted
      && OwnLink(h, c.filename, ino)
  {
    RejectedFile(c, t, o);
    ShelteredLink(t, o, c.op);
    ShelteredLink(t, o, |t|);
    assert t[..|t|] == t;
  }

  /** The file of the failed upload is the one it opened, and nobody has truncated it since. */
  lemma RejectedFile(c: Conn, t: seq<Event>, o: nat)
    requires Legal(t) && OwnEvents(t, c) && Placed(c, t) && t[c.op].Rejected?
    requires o < |t| && t[o].PutOpened? && t[o].id == c.id && !t[o].written
    requires forall k :: o < k < |t| ==> !Touches(t[k], c.filename)
    ensures o < c.op && t[c.op].file == t[o].ino && t[o].name == c.filename && !Cut(t, c.op, t[o].ino)
  {
    assert DoneFor(t, o, c) && DoneFor(t, c.op, c);
    OpenedOnce(t, o, c.op, c);
    if k :| c.op <= k < |t| && Truncates(t[k], t[o].ino) {
      SameNameTruncated(t, o, k);
    }
  }

  /** The one file a failed upload opened. */
  lemma OpenedOnce(t: seq<Event>, o: nat, j: nat, c: Conn)
    requires o < |t| && t[o].PutOpened? && DoneFor(t, o, c) && j < |t| && t[j].Rejected? && DoneFor(t, j, c)
    requires t[o].id == t[j].id == c.id && OwnEvents(t, c)
    ensures o < j && t[j].file == t[o].ino
  {
    var i :| 0 <= i < j && t[..j][i].PutOpened? && t[..j][i].id == c.id && t[..j][i].ino == t[j].file;
    assert DoneFor(t, i, c);
  }

  lemma OpenedOwner(t: seq<Event>, k: nat)
    requires Legal(t) && k < |t| && t[k].PutOpened?
    ensures
      var owners := Replay(t[..k + 1]).owners;
      t[k].ino < |owners| && owners[t[k].ino] == t[k].name
  {
    LegalAt(t, k);
    LegalOwners(t[..k]);
    assert t[..k + 1] == t[..k] + [t[k]];
    ReplayNext(t[..k], t[k]);
  }

  /** A file is opened by no name but that under which it was created. */
  lemma SameNameTruncated(t: seq<Event>, o: nat, k: nat)
    requires Legal(t) && o < k < |t| && t[o].PutOpened? && Truncates(t[k], t[o].ino)
    ensures t[k].name == t[o].name
  {
    OpenedOwner(t, o);
    OpenedOwner(t, k);
    OwnersGrow(t[..k + 1], o + 1);
    assert t[..k + 1][..o + 1] == t[..o + 1];
  }
}
