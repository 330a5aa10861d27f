/** The order in which shared effects took place, and the sequential store they amount to. */
module History {
  import opened Bytes
  import opened Protocol
  import opened Calls

  /** One effect on the state the connections share. `id` is the connection it is done for. */
  datatype Event =
    // a PUT opened (and truncated) its file; `held`: some descriptor on that inode was open, `written`:
    // one of another PUT
    | PutOpened(id: nat, name: bytes, ino: nat, written: bool, held: bool)
    // a PUT was complete and its name was added to the file list
    | Committed(id: nat, name: bytes, file: int, body: bytes)
    // a PUT was answered "Bad file size"; `kept` is what its file holds, `file` being -1 if none was opened, and
    // `course` what its calls had come to
    | Rejected(id: nat, name: bytes, file: int, kept: bytes, course: Course)
    // a DELETE unlinked and unlisted a name; `uploading`: a PUT had a file of that name open
    | Deleted(id: nat, name: bytes, uploading: bool)
    // a GET opened its file and took its size; `body` is what the file held, `solid`: no PUT that shares
    // the file with another was writing it
    | Fetched(id: nat, name: bytes, ino: nat, body: bytes, solid: bool)
    // a GET or DELETE was answered "No such file"; `denied` is the call by which the system refused to act
    // on a file that is there
    | Refused(id: nat, verb: Verb, name: bytes, denied: Option<Call>)
    // a LIST reply was built
    | Listed(id: nat, names: seq<bytes>)
    // the connection of an unfinished PUT was torn down and the name was unlinked
    | TornDown(id: nat, name: bytes)

  /** The event concerns the name `n`. */
  predicate About(e: Event, n: bytes) {
    !e.Listed? && e.name == n
  }

  /** The event truncates the file `ino`. */
  predicate Truncates(e: Event, ino: nat) {
    e.PutOpened? && e.ino == ino
  }

  /** From position `from` on the file `ino` was truncated. */
  ghost predicate Cut(t: seq<Event>, from: int, ino: nat) {
    exists j :: 0 <= from <= j < |t| && Truncates(t[j], ino)
  }

  /** Whenever it was, some descriptor on it was open. */
  ghost predicate CutsHeld(t: seq<Event>, from: int, ino: nat) {
    forall j :: 0 <= from <= j < |t| && Truncates(t[j], ino) ==> t[j].held
  }

  /** The file fetched at position `op` was solid then and has not been truncated since. */
  ghost predicate Untouched(t: seq<Event>, op: int) {
    0 <= op < |t| && t[op].Fetched? && t[op].solid && !Cut(t, op, t[op].ino)
  }

  lemma UntouchedBefore(t: seq<Event>, t': seq<Event>, op: int)
    requires Untouched(t', op) && t <= t' && op < |t|
    ensures Untouched(t, op) && !Cut(t', |t|, t[op].ino)
  {
    forall j | op <= j < |t| ensures !Truncates(t[j], t[op].ino) {
      assert t'[j] == t[j] && !Truncates(t'[j], t'[op].ino);
    }
  }

  /** The sequential store: an insertion-ordered map from names to contents. */
  datatype Store = Store(names: seq<bytes>, content: map<bytes, bytes>)

  function Without(names: seq<bytes>, name: bytes): (r: seq<bytes>)
    ensures |r| <= |names|
  {
    if names == [] then []
    else if names[0] == name then names[1..]
    else [names[0]] + Without(names[1..], name)
  }

  function With(names: seq<bytes>, name: bytes): seq<bytes> {
    if name in names then names else names + [name]
  }

  function StorePut(s: Store, name: bytes, body: bytes): Store {
    Store(With(s.names, name), s.content[name := body])
  }

  function StoreDelete(s: Store, name: bytes): Store {
    Store(Without(s.names, name), s.content - {name})
  }

  /** What a history amounts to.
      `store` is the sequential store. `dir` is the directory. `owners` are the files
      created, by the name each was created under.
      `tainted`: inodes truncated by their latest PUT while another PUT had them open.
      `dirty`: names whose file need not be what the store says: an upload has begun and was not
      followed by a commit of that same, untainted, still linked file; or a teardown unlinked it.
      `lost`: names that a teardown, or a DELETE during an upload, may have left listed without a file.
      `settled`: what the files hold whose upload shared them with no other and is over, whether it was
      listed or refused. */
  datatype Ledger = Ledger(
    store: Store,
    dir: map<bytes, nat>,
    owners: seq<bytes>,
    tainted: set<nat>,
    dirty: set<bytes>,
    lost: set<bytes>,
    settled: map<int, bytes>)

  const BLANK := Ledger(Store([], map[]), map[], [], {}, {}, {}, map[])

  /** An upload of `file` is over that left `body` in it. */
  function Settle(h: Ledger, file: int, body: bytes): map<int, bytes> {
    if file >= 0 && file !in h.tainted then h.settled[file := body] else h.settled
  }

  function Apply(h: Ledger, e: Event): Ledger {
    match e
    case PutOpened(_, name, ino, written, _) =>
      h.(dir := h.dir[name := ino],
         owners := if ino < |h.owners| then h.owners else h.owners + [name],
         tainted := if written then h.tainted + {ino} else h.tainted - {ino},
         dirty := h.dirty + {name},
         settled := h.settled - {ino})
    case Committed(_, name, file, body) =>
      h.(store := StorePut(h.store, name, body),
         dirty := if file !in h.tainted && name in h.dir && h.dir[name] == file
                  then h.dirty - {name} else h.dirty + {name},
         lost := if name in h.dir then h.lost - {name} else h.lost,
         settled := Settle(h, file, body))
    case Deleted(_, name, uploading) =>
      h.(store := StoreDelete(h.store, name),
         dir := h.dir - {name},
         dirty := h.dirty - {name},
         lost := if uploading then h.lost + {name} else h.lost)
    case TornDown(_, name) =>
      h.(dir := h.dir - {name}, dirty := h.dirty + {name}, lost := h.lost + {name})
    case Rejected(_, _, file, kept, _) => h.(settled := Settle(h, file, kept))
    case Fetched(_, _, _, _, _) => h
    case Refused(_, _, _, _) => h
    case Listed(_, _) => h
  }

  function Replay(t: seq<Event>): Ledger {
    if t == [] then BLANK else Apply(Replay(t[..|t| - 1]), t[|t| - 1])
  }

  lemma ReplayNext(t: seq<Event>, e: Event)
    ensures Replay(t + [e]) == Apply(Replay(t), e)
  {
    assert (t + [e])[..|t|] == t;
  }

  /** Event `e` is what the sequential store does next. For a clean name this says that a GET
      returned the stored content and that "No such file" was answered only for an absent name; for a
      settled file, whatever its name, that a GET returned what the upload left in it. */
  ghost predicate LegalNext(h: Ledger, e: Event) {
    match e
    case PutOpened(_, name, ino, written, held) =>
      (written ==> held) && (if name in h.dir then ino == h.dir[name] else ino == |h.owners| && !held)
    case Committed(_, name, file, body) => Listable(name) && file !in h.settled
    case Rejected(_, _, file, kept, course) => course.Failed? && file !in h.settled
    case Deleted(_, name, _) => name in h.store.names && name in h.dir
    case Fetched(_, name, ino, body, solid) =>
      name in h.dir && h.dir[name] == ino && (ino !in h.tainted ==> solid) && |body| < SIZE_LIMIT &&
      (ino in h.settled ==> h.settled[ino] == body) &&
      (name !in h.dirty ==>
         name in h.store.names && name in h.store.content && h.store.content[name] == body)
    case Refused(_, verb, name, denied) => (
      match denied
      case Some(call) => Denies(call) && name in h.dir
      case None =>
        (name !in h.dir || (verb == DELETE && name !in h.store.names))
        && (name !in h.dirty ==> name !in h.store.names))
    case Listed(_, names) => names == h.store.names && SIZE_BYTES + |ListBody(names)| < SIZE_LIMIT
    case TornDown(_, name) => name in h.dir
  }

  /** Every event of the history is legal where it stands. */
  ghost predicate Legal(t: seq<Event>) {
    t == [] || (Legal(t[..|t| - 1]) && LegalNext(Replay(t[..|t| - 1]), t[|t| - 1]))
  }

  lemma LegalAppend(t: seq<Event>, e: Event)
    requires Legal(t) && LegalNext(Replay(t), e)
    ensures Legal(t + [e]) && Replay(t + [e]) == Apply(Replay(t), e)
  {
    assert (t + [e])[..|t|] == t;
  }

  /** A legal history is legal at every position. */
  lemma {:induction false} LegalAt(t: seq<Event>, i: nat)
    requires Legal(t) && i < |t|
    ensures Legal(t[..i]) && LegalNext(Replay(t[..i]), t[i])
  {
    if i < |t| - 1 {
      LegalAt(t[..|t| - 1], i);
      assert t[..|t| - 1][..i] == t[..i];
    }
  }

  // -------- facts about the name list --------

  ghost predicate Distinct(names: seq<bytes>) {
    forall i, j :: 0 <= i < j < |names| ==> names[i] != names[j]
  }

  lemma {:induction false} WithoutMembers(names: seq<bytes>, name: bytes)
    requires Distinct(names)
    ensures Distinct(Without(names, name))
    ensures forall n :: n in Without(names, name) <==> n in names && n != name
  {
    if names != [] {
      var rest := names[1..];
      assert names == [names[0]] + rest;
      assert Distinct(rest) by {
        assert forall i, j :: 0 <= i < j < |rest| ==> rest[i] == names[i + 1] && rest[j] == names[j + 1];
      }
      assert names[0] !in rest;
      WithoutMembers(rest, name);
    }
  }

  /** Erasing the position at which a name stands is removing that name. */
  lemma {:induction false} WithoutIndex(names: seq<bytes>, name: bytes, i: nat)
    requires i < |names| && names[i] == name && name !in names[..i]
    ensures Without(names, name) == names[..i] + names[i + 1..]
  {
    if i > 0 {
      assert names[0] == names[..i][0];
      assert names[1..][..i - 1] == names[..i][1..];
      WithoutIndex(names[1..], name, i - 1);
      assert names[..i] == [names[0]] + names[1..][..i - 1];
    }
  }

  /** Removing an absent name changes nothing. */
  lemma {:induction false} WithoutAbsent(names: seq<bytes>, name: bytes)
    requires name !in names
    ensures Without(names, name) == names
  {
    if names != [] {
      assert names[0] in names;
      WithoutAbsent(names[1..], name);
    }
  }

  lemma WithMembers(names: seq<bytes>, name: bytes)
    requires Distinct(names)
    ensures Distinct(With(names, name))
    ensures forall n :: n in With(names, name) <==> n in names || n == name
  {
  }
}
