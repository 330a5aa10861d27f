/** System calls: how the system answers them, the record of what it answered, and what an upload's record
    says about it. */
module Calls {
  import opened Bytes

  /** How the system answers the next call. `Ready(k)`: it succeeds; `k` is the byte count it moves
      at most, or the descriptor number it hands out. `Intr`, `Again` and `Fail` are EINTR, EAGAIN and
      any other error. */
  datatype Answer = Ready(k: nat) | Intr | Again | Fail

  /** The value a call returns: a count (or 0 at end of file), or -1 with errno. */
  datatype IoResult = Count(n: nat) | Error(errno: Errno)
  datatype Errno = EINTR | EAGAIN | EIO

  /** A schedule that has run out answers EAGAIN, so a handler meets finitely many EINTR. */
  function First(sched: seq<Answer>): Answer {
    if sched == [] then Again else sched[0]
  }

  function Rest(sched: seq<Answer>): seq<Answer> {
    if sched == [] then [] else sched[1..]
  }

  /** A call the server made for a connection and what came of it. `present`: the directory had the name.
      `HangUp` is no call: the event loop reported an error. */
  datatype Call =
    | SocketRead(count: nat, r: IoResult)
    | SocketWrite(count: nat, r: IoResult)
    | FileOpen(present: bool, ok: bool)
    | FileStat(ok: bool)
    | FileRead(count: nat, n: nat)
    | FileWrite(count: nat, r: IoResult)
    | FileClose
    | FileUnlink(present: bool, ok: bool)
    | Allocate(ok: bool)
    | HangUp

  // -------- refusals --------

  /** The system would not act on a file that is there. */
  predicate Denies(call: Call) {
    match call
    case FileOpen(present, ok) => present && !ok
    case FileStat(ok) => !ok
    case FileUnlink(present, ok) => present && !ok
    case _ => false
  }

  /** The latest such call. */
  function Denied(calls: seq<Call>): (r: Option<Call>)
    ensures r.Some? ==> r.value in calls && Denies(r.value)
    ensures r.None? ==> forall call :: call in calls ==> !Denies(call)
  {
    if calls == [] then None
    else
      var last := calls[|calls| - 1];
      assert calls == calls[..|calls| - 1] + [last];
      if Denies(last) then Some(last) else Denied(calls[..|calls| - 1])
  }

  // -------- uploads --------

  /** What can go wrong with an upload after its request line. */
  datatype Fault = ReadError | EndOfInput | OpenFailed | WriteFailed | ExtraByte

  /** How far the calls made for an upload got: receiving, probing for an extra byte, or failed. */
  datatype Course = Running | Probing | Failed(fault: Fault)

  function NextCourse(course: Course, call: Call): Course {
    match course
    case Failed(_) => course
    case Probing => (
      match call
      case SocketRead(_, Count(n)) => if n > 0 then Failed(ExtraByte) else Probing
      case _ => Probing)
    case Running =>
      match call
      case SocketRead(_, Error(e)) => if e == EIO then Failed(ReadError) else Running
      case SocketRead(_, Count(n)) => if n == 0 then Failed(EndOfInput) else Running
      case FileOpen(_, ok) => if ok then Running else Failed(OpenFailed)
      case FileWrite(count, r) => if r == Count(count) then Running else Failed(WriteFailed)
      case FileClose => Probing
      case _ => Running
  }

  function CourseOf(calls: seq<Call>): Course {
    if calls == [] then Running else NextCourse(CourseOf(calls[..|calls| - 1]), calls[|calls| - 1])
  }

  lemma CourseNext(calls: seq<Call>, call: Call)
    ensures CourseOf(calls + [call]) == NextCourse(CourseOf(calls), call)
  {
    assert (calls + [call])[..|calls|] == calls;
  }

  /** Nothing that happens afterwards makes a failed upload good. */
  lemma {:induction false} FailedStays(calls: seq<Call>, later: seq<Call>)
    requires CourseOf(calls).Failed? && calls <= later
    ensures CourseOf(later) == CourseOf(calls)
  {
    if later != calls {
      FailedStays(calls, later[..|later| - 1]);
    }
  }

  /** The call at position `i` spoils an upload: before the file is closed a read fails or finds the end of the
      stream, the file cannot be opened, or not all of a chunk is written; after it a byte turns up. */
  predicate Spoils(calls: seq<Call>, i: nat)
    requires i < |calls|
  {
    if FileClose in calls[..i] then calls[i].SocketRead? && calls[i].r.Count? && calls[i].r.n > 0
    else
      match calls[i]
      case SocketRead(_, r) => r == Error(EIO) || r == Count(0)
      case FileOpen(_, ok) => !ok
      case FileWrite(count, r) => r != Count(count)
      case _ => false
  }

  /** An upload fails exactly when some call spoils it. */
  lemma {:induction false} FailedExactly(calls: seq<Call>)
    ensures CourseOf(calls).Failed? <==> exists i :: 0 <= i < |calls| && Spoils(calls, i)
    ensures !CourseOf(calls).Failed? ==> (CourseOf(calls).Probing? <==> FileClose in calls)
  {
    if calls != [] {
      var before := calls[..|calls| - 1];
      FailedExactly(before);
      assert calls == before + [calls[|calls| - 1]];
      forall i | 0 <= i < |before| ensures Spoils(calls, i) <==> Spoils(before, i) {
        assert calls[..i] == before[..i];
      }
      assert Spoils(calls, |before|) || (forall i :: 0 <= i < |calls| && Spoils(calls, i) ==> i < |before|);
    }
  }
}
