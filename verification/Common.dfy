/** The loops of src/common.c over short and interrupted calls on a blocking descriptor. */
module Common {
  import opened Bytes
  import opened Protocol
  import opened Calls

  /** How a blocking call is answered: a schedule that has run out lets every call move all it can. */
  function Next(sched: seq<Answer>, count: nat): Answer {
    if sched == [] then Ready(count) else sched[0]
  }

  /** No call fails; it may be interrupted. */
  predicate Calm(sched: seq<Answer>) {
    forall a :: a in sched ==> a.Ready? || a.Intr?
  }

  /** Every call succeeds at once, moving as much or as little as it likes. */
  predicate Undisturbed(sched: seq<Answer>) {
    forall a :: a in sched ==> a.Ready?
  }

  /** What is left of a schedule. */
  predicate LeftOf(sched: seq<Answer>, before: seq<Answer>) {
    forall a :: a in sched ==> a in before
  }

  /** An open descriptor of the client, a socket or a file: the bytes that can ever be read from it, how many
      have been, and all that was written to it. */
  class Stream {
    const inbound: bytes
    var got: nat
    var sent: bytes
    var sched: seq<Answer>

    ghost predicate Valid()
      reads this
    {
      got <= |inbound|
    }

    constructor (inbound: bytes, sched: seq<Answer>)
      ensures Valid() && this.inbound == inbound && got == 0 && sent == [] && this.sched == sched
    {
      this.inbound, this.got, this.sent, this.sched := inbound, 0, [], sched;
    }

    function Rest(): bytes
      requires got <= |inbound|
      reads this
    {
      inbound[got..]
    }

    /** `read`: it moves at least one byte unless the peer has sent all it will. */
    method Read(count: nat) returns (r: IoResult, data: bytes)
      requires Valid() && count > 0
      modifies this`got, this`sched
      ensures Valid() && got == old(got) + |data| && |data| <= count && data == inbound[old(got)..got]
      ensures sched == Calls.Rest(old(sched))
      ensures r.Count? <==> Next(old(sched), count).Ready?
      ensures r.Count? ==> r.n == |data| && (data == [] ==> old(got) == |inbound|)
      ensures r.Error? ==> data == [] && (r.errno == EINTR <==> Next(old(sched), count) == Intr)
    {
      var answer := Next(sched, count);
      sched := Calls.Rest(sched);
      match answer {
        case Ready(k) =>
          var n := Min(Max(k, 1), Min(count, |inbound| - got));
          data := inbound[got..got + n];
          got := got + n;
          r := Count(n);
        case Intr =>
          r, data := Error(EINTR), [];
        case Again =>
          r, data := Error(EAGAIN), [];
        case Fail =>
          r, data := Error(EIO), [];
      }
    }

    /** `write`: it moves at least one byte. */
    method Write(data: bytes) returns (r: IoResult)
      requires data != []
      modifies this`sent, this`sched
      ensures sched == Calls.Rest(old(sched))
      ensures r.Count? <==> Next(old(sched), |data|).Ready?
      ensures r.Count? ==> 0 < r.n <= |data| && sent == old(sent) + data[..r.n]
      ensures r.Error? ==> sent == old(sent) && (r.errno == EINTR <==> Next(old(sched), |data|) == Intr)
    {
      var answer := Next(sched, |data|);
      sched := Calls.Rest(sched);
      match answer {
        case Ready(k) =>
          var n := Min(Max(k, 1), |data|);
          sent := sent + data[..n];
          r := Count(n);
        case Intr =>
          r := Error(EINTR);
        case Again =>
          r := Error(EAGAIN);
        case Fail =>
          r := Error(EIO);
      }
    }
  }

  /** `read_all_from_socket`: all that was asked for, or all there is; -1 only on an error. */
  method ReadAll(s: Stream, buffer: array<byte>, count: nat) returns (total: int)
    requires s.Valid() && count <= buffer.Length
    modifies s`got, s`sched, buffer
    ensures s.Valid() && -1 <= total <= count
    ensures total >= 0 ==>
      && total == Min(count, |old(s.Rest())|) && s.got == old(s.got) + total
      && buffer[..total] == Take(old(s.Rest()), total)
    ensures Calm(old(s.sched)) ==> total >= 0
    ensures LeftOf(s.sched, old(s.sched))
    ensures old(s.got) <= s.got
  {
    total := 0;
    while total < count
      invariant 0 <= total <= count && s.Valid() && s.got == old(s.got) + total
      invariant buffer[..total] == old(s.Rest())[..total]
      invariant LeftOf(s.sched, old(s.sched))
      decreases count - total, |s.sched|
    {
      var r, data := s.Read(count - total);
      assert old(s.Rest())[..total] + data == old(s.Rest())[..total + |data|];
      match r {
        case Error(e) =>
          if e == EINTR {
            continue;
          }
          return -1;
        case Count(n) =>
          if n == 0 {
            return;
          }
          ghost var before := buffer[..total];
          forall j | 0 <= j < n {
            buffer[total + j] := data[j];
          }
          assert buffer[..total + n] == before + data;
          total := total + n;
      }
    }
  }

  /** `write_all_to_socket`: everything, unless there is an error; then a part of it. */
  method WriteAll(s: Stream, data: bytes) returns (total: int)
    modifies s`sent, s`sched
    ensures total == |data| || total == -1
    ensures total >= 0 ==> s.sent == old(s.sent) + data
    ensures old(s.sent) <= s.sent <= old(s.sent) + data
    ensures Calm(old(s.sched)) ==> total >= 0
    ensures LeftOf(s.sched, old(s.sched))
  {
    total := 0;
    while total < |data|
      invariant 0 <= total <= |data| && s.sent == old(s.sent) + data[..total]
      invariant LeftOf(s.sched, old(s.sched))
      decreases |data| - total, |s.sched|
    {
      var r := s.Write(data[total..]);
      match r {
        case Error(e) =>
          if e == EINTR {
            continue;
          }
          return -1;
        case Count(n) =>
          assert data[..total] + data[total..][..n] == data[..total + n];
          total := total + n;
      }
    }
  }

  /** The first line of `s`, newline included, at most `limit` bytes of it; all of `s` if there is no newline. */
  function FirstLine(s: bytes, limit: nat): (r: bytes)
    ensures r <= s && |r| <= limit
  {
    Take(s, Min(limit, IndexOf(s, '\n') + 1))
  }

  lemma FirstLineMore(s: bytes, k: nat, limit: nat)
    requires k < limit && k < |s| && '\n' !in s[..k]
    ensures s[k] == '\n' ==> FirstLine(s, limit) == s[..k + 1]
    ensures |FirstLine(s, limit)| > k
  {
    forall j | 0 <= j < k ensures s[j] != '\n' {
      assert s[..k][j] == s[j];
    }
    if s[k] == '\n' {
      IndexOfFirst(s, '\n', k);
    }
  }

  /** `read_line_from_socket`: one line and not a byte past its newline. */
  method ReadLine(s: Stream, buffer: array<byte>) returns (total: int)
    requires s.Valid() && buffer.Length > 0
    modifies s`got, s`sched, buffer
    ensures s.Valid() && -1 <= total < buffer.Length
    ensures total >= 0 ==>
      var line := FirstLine(old(s.Rest()), buffer.Length - 1);
      total == |line| && s.got == old(s.got) + |line| && buffer[..total] == line
    ensures total > 0 ==> buffer[total] == '\0'
    ensures Calm(old(s.sched)) ==> total >= 0
    ensures LeftOf(s.sched, old(s.sched))
    ensures old(s.got) <= s.got
  {
    ghost var rest := s.Rest();
    total := 0;
    while total < buffer.Length - 1
      invariant 0 <= total <= buffer.Length - 1 && s.Valid() && s.got == old(s.got) + total
      invariant buffer[..total] == rest[..total] && '\n' !in rest[..total]
      invariant total <= |FirstLine(rest, buffer.Length - 1)|
      invariant LeftOf(s.sched, old(s.sched))
      decreases buffer.Length - total, |s.sched|
    {
      var r, data := s.Read(1);
      match r {
        case Error(e) =>
          if e == EINTR {
            continue;
          }
          return -1;
        case Count(n) =>
          if n == 0 {
            if total == 0 {
              return 0;
            }
            break;
          }
          assert data[0] == rest[total];
          FirstLineMore(rest, total, buffer.Length - 1);
          buffer[total] := data[0];
          total := total + 1;
          if data[0] == '\n' {
            break;
          }
      }
    }
    buffer[total] := '\0';
  }
}
