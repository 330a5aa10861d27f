/** What holds after every run of the server, whatever the peers send, however the system answers and
    however the connections interleave. */
module Theorems {
  import opened Bytes
  import opened Protocol
  import opened History
  import opened ListOrder
  import opened Kernel
  import opened Handlers
  import opened System
  import opened SharedInvariant
  import opened ConnInvariant
  import opened RunProofs
  import opened Outcomes

  // -------- replies --------

  /** The complete replies a connection with its request and outcome can give. A GET announces the size
      its file had; a LIST whose buffer could not be allocated has already said OK. */
  ghost predicate Due(c: Conn, trace: seq<Event>, reply: bytes) {
    match c.status
    case Failure(m) => reply == Before(c) + ErrorReply(m)
    case Success =>
      match c.verb
      case GET => exists body :: |body| == c.fileSize && reply == PayloadReply(body)
      case LIST => exists names :: ListedAs(c, trace, names) && reply == PayloadReply(ListBody(names))
      case _ => reply == OK_LINE
  }

  /** If the list of the reply has been fixed, `names` is that list. */
  ghost predicate ListedAs(c: Conn, trace: seq<Event>, names: seq<bytes>) {
    Placed(c, trace) && trace[c.op].Listed? ==> names == trace[c.op].names
  }

  /** The bytes sent are part of a reply that is due, and all of it once the connection is done. */
  ghost predicate WireOk(c: Conn, trace: seq<Event>) {
    && (Receiving(c.state) ==> c.wire.sent == [])
    && (!Receiving(c.state) ==> exists reply :: Due(c, trace, reply) && c.wire.sent <= reply)
    && (c.state == Done ==> Due(c, trace, c.wire.sent))
    && (c.state == Done && c.status == Success && c.verb == LIST ==> ListPlaced(c, trace))
  }

  lemma ListReplyIsPayload(names: seq<bytes>)
    ensures OK_LINE + ListBuffer(names) == PayloadReply(ListBody(names))
  {
  }

  lemma PrefixWithin(s: bytes, t: bytes, k: nat)
    requires k <= |t|
    ensures s + t[..k] <= s + t
  {
  }

  lemma ConnWireOk(c: Conn, trace: seq<Event>)
    requires ConnOk(c, trace)
    ensures WireOk(c, trace)
  {
    match c.state
    case SendError =>
      PrefixWithin(Before(c), c.resp, c.respSent);
      assert Due(c, trace, Before(c) + c.resp);
    case SendOk => OkWireOk(c, trace);
    case SendGetSize => GetWireOk(c, trace);
    case SendGetData => GetWireOk(c, trace);
    case SendListData =>
      ListReplyIsPayload(trace[c.op].names);
      PrefixWithin(OK_LINE, c.listBuf.value, c.listSent);
      assert Due(c, trace, OK_LINE + c.listBuf.value);
    case Done => DoneWireOk(c, trace);
    case _ =>
  }

  lemma OkWireOk(c: Conn, trace: seq<Event>)
    requires ConnOk(c, trace) && c.state == SendOk
    ensures exists reply :: Due(c, trace, reply) && c.wire.sent <= reply
  {
    if c.verb == GET {
      var body := Zeros(c.fileSize);
      assert Due(c, trace, PayloadReply(body));
      assert c.wire.sent <= PayloadReply(body);
    } else if c.verb == LIST {
      var names: seq<bytes> := [];
      assert Due(c, trace, PayloadReply(ListBody(names)));
      assert c.wire.sent <= PayloadReply(ListBody(names));
    } else {
      assert Due(c, trace, OK_LINE);
    }
  }

  lemma GetWireOk(c: Conn, trace: seq<Event>)
    requires ConnOk(c, trace) && (c.state == SendGetSize || c.state == SendGetData)
    ensures exists reply :: Due(c, trace, reply) && c.wire.sent <= reply
  {
    var rest := Zeros(c.fileSize - c.transferred);
    var body := (if c.state == SendGetData then SentBody(c) else []) + rest;
    assert |body| == c.fileSize;
    assert Due(c, trace, PayloadReply(body));
    if c.state == SendGetData {
      assert PayloadReply(body) == GetPrefix(c.fileSize) + SentBody(c) + rest;
      assert c.wire.sent == GetPrefix(c.fileSize) + SentBody(c);
    } else {
      PrefixWithin(OK_LINE, SizeBytes(c.fileSize), if c.resp == [] then 0 else c.respSent);
      assert PayloadReply(body) == OK_LINE + SizeBytes(c.fileSize) + body;
    }
  }

  lemma DoneWireOk(c: Conn, trace: seq<Event>)
    requires ConnOk(c, trace) && c.state == Done
    ensures Due(c, trace, c.wire.sent)
  {
    if c.status.Success? && c.verb == GET {
      var body := SentBody(c);
      assert c.wire.sent == c.wire.sent[..PREFIX] + body;
      assert PayloadReply(body) == GetPrefix(|body|) + body;
    } else if c.status.Success? && c.verb == LIST {
      ListReplyIsPayload(trace[c.op].names);
    }
  }

  /** Wire-format safety: on every connection, at every moment of every run, the bytes sent so far are a
      prefix of one well-formed reply to its request, with no byte skipped or repeated across partial
      writes, and exactly that reply if the connection has reached STATE_DONE. */
  lemma WireSafety(listenFd: nat, inputs: seq<Input>)
    requires Feasible(listenFd, inputs)
    ensures
      var s := Run(listenFd, inputs);
      && (forall k :: k in s.clients ==> WireOk(s.clients[k], s.sh.trace))
      && (forall i :: 0 <= i < |s.gone| ==> WireOk(s.gone[i].c, s.sh.trace))
  {
    var s := Run(listenFd, inputs);
    RunKeeps(listenFd, inputs);
    forall k | k in s.clients ensures WireOk(s.clients[k], s.sh.trace) {
      assert EntryOk(s, k);
      ConnWireOk(s.clients[k], s.sh.trace);
    }
    forall i | 0 <= i < |s.gone| ensures WireOk(s.gone[i].c, s.sh.trace) {
      assert EndedOk(s, i);
      ConnWireOk(s.gone[i].c, s.sh.trace);
    }
  }

  // -------- what a GET sends --------

  /** The bytes of a GET are those its file held when it was opened, as the history recorded them. */
  ghost predicate SendsRecorded(c: Conn, trace: seq<Event>) {
    && Placed(c, trace) && trace[c.op].Fetched? && trace[c.op].name == c.filename && trace[c.op].body == c.snapshot
    && c.wire.sent <= PayloadReply(c.snapshot)
    && (c.state == Done ==> c.wire.sent == PayloadReply(c.snapshot))
  }

  lemma SnapshotReply(c: Conn, trace: seq<Event>)
    requires ConnOk(c, trace) && SentGetBody(c) && SentBody(c) == Take(c.snapshot, c.transferred)
    ensures SendsRecorded(c, trace)
  {
    assert c.wire.sent == c.wire.sent[..PREFIX] + SentBody(c);
    assert PayloadReply(c.snapshot) == GetPrefix(|c.snapshot|) + c.snapshot;
  }

  /** GET stability over inodes: whatever the other connections do meanwhile, including deleting the name,
      uploading it anew after that, or going on with an upload that had begun before, a GET sends a prefix of
      what its file held when it was opened, and all of it if it finishes, as long as no PUT truncated that same
      inode between the moment the GET took its size and its end, and unless at that moment two PUTs that share
      the file were at it. */
  lemma GetStability(listenFd: nat, inputs: seq<Input>)
    requires Feasible(listenFd, inputs)
    ensures
      var s := Run(listenFd, inputs);
      && (forall k :: k in s.clients && s.clients[k].state == SendGetData && Untouched(s.sh.trace, s.clients[k].op) ==>
            SendsRecorded(s.clients[k], s.sh.trace))
      && (forall i :: 0 <= i < |s.gone| && SentGetBody(s.gone[i].c) && Unspoilt(s.gone[i], s.sh.trace) ==>
            SendsRecorded(s.gone[i].c, s.sh.trace))
  {
    var s := Run(listenFd, inputs);
    RunKeeps(listenFd, inputs);
    forall k | k in s.clients && s.clients[k].state == SendGetData && Untouched(s.sh.trace, s.clients[k].op)
      ensures SendsRecorded(s.clients[k], s.sh.trace)
    {
      assert EntryOk(s, k);
      SnapshotReply(s.clients[k], s.sh.trace);
    }
    forall i | 0 <= i < |s.gone| && SentGetBody(s.gone[i].c) && Unspoilt(s.gone[i], s.sh.trace)
      ensures SendsRecorded(s.gone[i].c, s.sh.trace)
    {
      assert EndedOk(s, i);
      SnapshotReply(s.gone[i].c, s.sh.trace);
    }
  }

  /** Nobody truncated the file of the GET between its fetch and its end. */
  ghost predicate Unspoilt(e: Ended, trace: seq<Event>) {
    e.at <= |trace| && Untouched(trace[..e.at], e.c.op)
  }

  // -------- sequential refinement --------

  /** The reply the sequential store gives at an event. */
  function EventReply(e: Event): bytes {
    match e
    case Fetched(_, _, _, body, _) => PayloadReply(body)
    case Listed(_, names) => PayloadReply(ListBody(names))
    case Refused(_, _, _, _) => ErrorReply(NoSuchFile)
    case Rejected(_, _, _, _, _) => ErrorReply(BadFileSize)
    case _ => OK_LINE
  }

  /** The connection was answered with the reply of the event the history has for it, which is of the kind and
      the name it asked for. */
  ghost predicate AnsweredFromHistory(c: Conn, trace: seq<Event>) {
    && Placed(c, trace) && c.wire.sent == EventReply(trace[c.op])
    && match trace[c.op]
       case Committed(_, name, _, body) => Asks(c, PUT) && name == c.filename && Announced(c, body)
       case Rejected(_, name, _, _, _) => Asks(c, PUT) && name == c.filename
       case Deleted(_, name, _) => Asks(c, DELETE) && name == c.filename
       case Fetched(_, name, _, _, _) => Asks(c, GET) && name == c.filename
       case Refused(_, verb, name, _) => Asks(c, verb) && name == c.filename
       case Listed(_, _) => Asks(c, LIST)
       case _ => false
  }

  /** It was not a request the store knows, or a LIST for which there was no memory. */
  ghost predicate AnsweredBadRequest(c: Conn) {
    (Malformed(c) || (c.oom && Asks(c, LIST))) && c.wire.sent == Before(c) + ErrorReply(BadRequest)
  }

  /** Of a GET that sent a body: nobody truncated its file meanwhile. */
  ghost predicate Vouched(e: Ended, trace: seq<Event>) {
    SentGetBody(e.c) ==> Unspoilt(e, trace)
  }

  lemma AnswerRecorded(e: Ended, trace: seq<Event>)
    requires Freed(e.c, e.at, trace) && e.c.state == Done && Vouched(e, trace)
    ensures
      if e.c.status == Failure(BadRequest) then AnsweredBadRequest(e.c) else AnsweredFromHistory(e.c, trace)
  {
    var c := e.c;
    if c.status == Success && c.verb == GET {
      SnapshotReply(c, trace);
    } else if c.status == Success && c.verb == LIST {
      ListReplyIsPayload(trace[c.op].names);
    }
  }

  /** Every finished connection was answered as the history has it, unless its request was malformed. */
  lemma AnsweredAsRecorded(listenFd: nat, inputs: seq<Input>, i: nat)
    requires Feasible(listenFd, inputs)
    requires
      var s := Run(listenFd, inputs);
      i < |s.gone| && s.gone[i].c.state == Done && Vouched(s.gone[i], s.sh.trace)
    ensures
      var s := Run(listenFd, inputs);
      var c := s.gone[i].c;
      if c.status == Failure(BadRequest) then AnsweredBadRequest(c) else AnsweredFromHistory(c, s.sh.trace)
  {
    var s := Run(listenFd, inputs);
    RunKeeps(listenFd, inputs);
    assert EndedOk(s, i);
    AnswerRecorded(s.gone[i], s.sh.trace);
  }

  /** Sequential refinement: the history of every run, in the order of open/fstat for GET, listing or refusal for
      PUT, unlink plus removal for DELETE and building the buffer for LIST, is one of the sequential
      insertion-ordered store, name by name for the clean names. Its events are what was asked for: each was done for
      the request of a connection of the run, and every finished request is one operation, or none if it was answered
      "Bad request". And every finished connection was answered with the reply the store gives at its place in the
      history (a GET unless its file was truncated meanwhile), or with "Bad request" if it asked for nothing the store
      knows. */
  lemma SequentialRefinement(listenFd: nat, inputs: seq<Input>)
    requires Feasible(listenFd, inputs)
    ensures
      var s := Run(listenFd, inputs);
      && Legal(s.sh.trace)
      && (forall i :: 0 <= i < |s.sh.trace| ==> LegalNext(Replay(s.sh.trace[..i]), s.sh.trace[i]))
      && (forall i :: 0 <= i < |s.sh.trace| ==> Requested(s, s.sh.trace[i]))
      && (forall c :: Known(s, c) ==> OwnEvents(s.sh.trace, c))
      && (forall i :: 0 <= i < |s.gone| && s.gone[i].c.state == Done ==> OneOperation(s.gone[i].c, s.sh.trace))
      && (forall i :: 0 <= i < |s.gone| && s.gone[i].c.state == Done && Vouched(s.gone[i], s.sh.trace) ==>
            if s.gone[i].c.status == Failure(BadRequest) then AnsweredBadRequest(s.gone[i].c)
            else AnsweredFromHistory(s.gone[i].c, s.sh.trace))
  {
    var s := Run(listenFd, inputs);
    RunKeeps(listenFd, inputs);
    EventsAreAsked(listenFd, inputs);
    forall i | 0 <= i < |s.sh.trace| ensures LegalNext(Replay(s.sh.trace[..i]), s.sh.trace[i]) {
      LegalAt(s.sh.trace, i);
    }
    forall i | 0 <= i < |s.gone| && s.gone[i].c.state == Done ensures OneOperation(s.gone[i].c, s.sh.trace) {
      FinishedOnce(listenFd, inputs, i);
    }
    forall i | 0 <= i < |s.gone| && s.gone[i].c.state == Done && Vouched(s.gone[i], s.sh.trace)
      ensures
        if s.gone[i].c.status == Failure(BadRequest) then AnsweredBadRequest(s.gone[i].c)
        else AnsweredFromHistory(s.gone[i].c, s.sh.trace)
    {
      AnsweredAsRecorded(listenFd, inputs, i);
    }
  }

  /** The server's state is the store's: the list always, the files for every clean name. */
  lemma StateIsStore(listenFd: nat, inputs: seq<Input>)
    requires Feasible(listenFd, inputs)
    ensures
      var s := Run(listenFd, inputs);
      var h := Replay(s.sh.trace);
      && s.sh.list == h.store.names && Distinct(s.sh.list) && s.sh.dir == h.dir
      && (forall n :: n !in h.dirty ==> (n in s.sh.list <==> n in s.sh.dir))
      && (forall n :: n !in h.dirty && n in s.sh.list ==>
            n in h.store.content && Content(s.sh, s.sh.dir[n]) == h.store.content[n])
  {
    var s := Run(listenFd, inputs);
    RunKeeps(listenFd, inputs);
    var h := Replay(s.sh.trace);
    forall n | n !in h.dirty ensures CleanName(s.sh, h, n) {
    }
  }

  // -------- the list --------

  /** List equals history: aborts and overlaps included, the file list has no duplicates, and a name is
      listed exactly when the latest commit or successful DELETE of it is a commit. */
  lemma ListIsHistory(listenFd: nat, inputs: seq<Input>, name: bytes)
    requires Feasible(listenFd, inputs)
    ensures
      var sh := Run(listenFd, inputs).sh;
      Distinct(sh.list) && (name in sh.list <==> LastCommitted(sh.trace, name))
  {
    RunKeeps(listenFd, inputs);
    ReplayedNames(Run(listenFd, inputs).sh.trace, name);
  }

  /** The list is in the order in which its names were listed: over every run, a name is listed exactly if some commit
      of it listed it, and it stands before another exactly if that commit came earlier. Uploading a listed name again
      leaves it where it is; deleting it and uploading it again puts it last. */
  lemma ListInOrder(listenFd: nat, inputs: seq<Input>)
    requires Feasible(listenFd, inputs)
    ensures var sh := Run(listenFd, inputs).sh; Distinct(sh.list) && InOrder(sh.trace, sh.list)
  {
    RunKeeps(listenFd, inputs);
    NamesInOrder(Run(listenFd, inputs).sh.trace);
    ReplayedNames(Run(listenFd, inputs).sh.trace, []);
  }

  /** No unfinished PUT was torn down with its name on disk, and no DELETE of a name succeeded while it was
      being uploaded. */
  ghost predicate NothingLost(t: seq<Event>) {
    forall e :: e in t ==> !e.TornDown? && !(e.Deleted? && e.uploading)
  }

  lemma {:induction false} NoneLost(t: seq<Event>)
    requires NothingLost(t)
    ensures Replay(t).lost == {}
  {
    if t != [] {
      var before := t[..|t| - 1];
      assert t[|t| - 1] in t;
      assert NothingLost(before) by {
        assert forall e :: e in before ==> e in t;
      }
      NoneLost(before);
    }
  }

  /** Listed implies stored, failed uploads and overlapping uploads included, in every run in which nothing
      was lost. */
  lemma ListedImpliesStored(listenFd: nat, inputs: seq<Input>)
    requires Feasible(listenFd, inputs) && NothingLost(Run(listenFd, inputs).sh.trace)
    ensures var sh := Run(listenFd, inputs).sh; forall n :: n in sh.list ==> n in sh.dir
  {
    RunKeeps(listenFd, inputs);
    NoneLost(Run(listenFd, inputs).sh.trace);
  }

  /** The latest event that links or unlinks a file of the name is the open of a PUT. */
  ghost predicate LastOpened(t: seq<Event>, name: bytes) {
    t != [] &&
    var e := t[|t| - 1];
    if e.PutOpened? && e.name == name then true
    else if (e.Deleted? || e.TornDown?) && e.name == name then false
    else LastOpened(t[..|t| - 1], name)
  }

  lemma {:induction false} ReplayedDir(t: seq<Event>, name: bytes)
    ensures name in Replay(t).dir <==> LastOpened(t, name)
  {
    if t != [] {
      ReplayedDir(t[..|t| - 1], name);
    }
  }

  /** Exactly when a name is listed without a file: it was committed, not deleted since, but the file that the
      latest PUT of the name opened has been unlinked, by a DELETE during the upload or by the teardown of an
      unfinished PUT. */
  lemma ListedWithoutFile(listenFd: nat, inputs: seq<Input>, name: bytes)
    requires Feasible(listenFd, inputs)
    ensures
      var sh := Run(listenFd, inputs).sh;
      && (name in sh.dir <==> LastOpened(sh.trace, name))
      && (name in sh.list && name !in sh.dir <==> LastCommitted(sh.trace, name) && !LastOpened(sh.trace, name))
  {
    RunKeeps(listenFd, inputs);
    ListIsHistory(listenFd, inputs, name);
    ReplayedDir(Run(listenFd, inputs).sh.trace, name);
  }

  /** The names of a legal history can be told apart in a list body. */
  lemma {:induction false} StoreListable(t: seq<Event>)
    requires Legal(t)
    ensures forall n :: n in Replay(t).store.names ==> Listable(n)
  {
    if t != [] {
      var before, e := t[..|t| - 1], t[|t| - 1];
      StoreListable(before);
      ReplayedNames(before, []);
      if e.Committed? {
        WithMembers(Replay(before).store.names, e.name);
      } else if e.Deleted? {
        WithoutMembers(Replay(before).store.names, e.name);
      }
    }
  }

  lemma SentListBody(names: seq<bytes>, sent: bytes)
    requires sent == PayloadReply(ListBody(names)) && |ListBody(names)| < SIZE_LIMIT
    requires forall n :: n in names ==> '\n' !in n
    ensures Drop(sent, PREFIX) == ListBody(names)
    ensures Framed(sent, ListBody(names)) && sent[11..] == ListBody(names) && LaidOut(names, sent[11..])
    ensures multiset(sent[11..])['\n'] == if names == [] then 0 else |names| - 1
  {
    PayloadFramed(ListBody(names));
    ListBodyLaidOut(names);
    NewlinesBetween(names);
  }

  /** A finished, successful LIST was sent exactly the file list as it was when the reply was built, without duplicates
      and in the order in which the names were listed: behind "OK" and the length come the names with a newline between
      two of them and none behind the last. Cut at its newlines the payload gives the list back, the empty one
      included. */
  lemma ListPayloadIsList(listenFd: nat, inputs: seq<Input>, i: nat)
    requires Feasible(listenFd, inputs) && i < |Run(listenFd, inputs).gone|
    requires
      var c := Run(listenFd, inputs).gone[i].c;
      c.state == Done && c.status == Success && c.verb == LIST
    ensures
      var s := Run(listenFd, inputs);
      var c, t := s.gone[i].c, s.sh.trace;
      && Placed(c, t) && t[c.op].Listed? && t[c.op].names == Replay(t[..c.op]).store.names
      && Distinct(t[c.op].names) && (forall n :: n in t[c.op].names ==> Listable(n))
      && InOrder(t[..c.op], t[c.op].names)
      && Framed(c.wire.sent, Drop(c.wire.sent, 11)) && LaidOut(t[c.op].names, Drop(c.wire.sent, 11))
      && multiset(Drop(c.wire.sent, 11))['\n'] == (if t[c.op].names == [] then 0 else |t[c.op].names| - 1)
      && |ListBody(t[c.op].names)| < SIZE_LIMIT
      && c.wire.sent == PayloadReply(ListBody(t[c.op].names))
      && SplitBody(Drop(c.wire.sent, PREFIX)) == t[c.op].names
  {
    var s := Run(listenFd, inputs);
    var c, t := s.gone[i].c, s.sh.trace;
    RunKeeps(listenFd, inputs);
    assert EndedOk(s, i);
    LegalAt(t, c.op);
    StoreListable(t[..c.op]);
    ReplayedNames(t[..c.op], []);
    ListReplyIsPayload(t[c.op].names);
    NamesInOrder(t[..c.op]);
    SentListBody(t[c.op].names, c.wire.sent);
    SplitListBody(t[c.op].names);
  }

  // -------- uploads --------

  /** Upload is independent of chunking: however its bytes arrive, the request consumed is the line, eight
      bytes of size and the body so far; the size assembled piece by piece is the one-shot decoding of those
      eight bytes; and the file of a sole writer is the body so far. */
  lemma UploadState(listenFd: nat, inputs: seq<Input>, k: int)
    requires Feasible(listenFd, inputs)
    requires k in Run(listenFd, inputs).clients && Run(listenFd, inputs).clients[k].state == RecvPutData
    ensures
      var s := Run(listenFd, inputs);
      var c := s.clients[k];
      var hl := |c.header|;
      && c.wire.got == hl + SIZE_BYTES + c.transferred <= |c.wire.stream|
      && SizeOf(c.expected) == SizeOf(c.wire.stream[hl..hl + SIZE_BYTES])
      && c.transferred < SizeOf(c.expected) < SIZE_LIMIT
      && Ino(s.sh, c.fileFd) >= 0
      && (Ino(s.sh, c.fileFd) !in Tainted(s.sh) ==>
            Content(s.sh, Ino(s.sh, c.fileFd)) == c.wire.stream[hl + SIZE_BYTES..c.wire.got])
  {
    RunKeeps(listenFd, inputs);
    var s := Run(listenFd, inputs);
    assert EntryOk(s, k);
    SizeOfBound(s.clients[k].expected);
  }

  /** The event opens, lists, deletes or tears down a file of that name. */
  predicate Touches(e: Event, name: bytes) {
    About(e, name) && (e.PutOpened? || e.Committed? || e.Deleted? || e.TornDown?)
  }

  /** The commit at `p` found its file linked under its name and never shared with another PUT, and nothing touched
      the name since. */
  ghost predicate CommittedWhole(t: seq<Event>, p: nat) {
    && p < |t| && t[p].Committed?
    && t[p].name in Replay(t[..p]).dir && Replay(t[..p]).dir[t[p].name] == t[p].file
    && t[p].file !in Replay(t[..p]).tainted
    && forall k :: p < k < |t| ==> !Touches(t[k], t[p].name)
  }

  lemma {:induction false} WholeSince(t: seq<Event>, p: nat)
    requires CommittedWhole(t, p)
    ensures
      var h, name := Replay(t), t[p].name;
      && name !in h.dirty && name in h.store.names && name in h.dir
      && name in h.store.content && h.store.content[name] == t[p].body
  {
    var before, e := t[..|t| - 1], t[|t| - 1];
    if p < |t| - 1 {
      assert before[..p] == t[..p];
      WholeSince(before, p);
      assert !Touches(e, t[p].name);
      ReplayedNames(before, t[p].name);
      if e.Deleted? {
        WithoutMembers(Replay(before).store.names, e.name);
      }
    }
  }

  /** A commit finds its file holding exactly the declared bytes, and they stay until the next PUT, DELETE or
      teardown of the name: whatever happens to other names, the file on disk under the name is the uploaded body,
      and it is listed. */
  lemma CommittedStays(listenFd: nat, inputs: seq<Input>, p: nat)
    requires Feasible(listenFd, inputs) && CommittedWhole(Run(listenFd, inputs).sh.trace, p)
    ensures
      var sh := Run(listenFd, inputs).sh;
      var name := sh.trace[p].name;
      name in sh.list && name in sh.dir && Content(sh, sh.dir[name]) == sh.trace[p].body
  {
    WholeSince(Run(listenFd, inputs).sh.trace, p);
    StateIsStore(listenFd, inputs);
  }
}
