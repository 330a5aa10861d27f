/** The command handlers of src/client.c, proved against what they make of a whole reply stream. */
module FileClient {
  import opened Bytes
  import opened Protocol
  import opened Calls
  import opened Common

  const LINE_BUFFER: nat := 1024
  const CHUNK: nat := 4096

  /** What the client tells its user. */
  datatype Report =
    | ConnectionClosed
    | InvalidResponse
    | ErrorMessage(text: bytes)
    | TooLittleData
    | TooMuchData
    | Successful
    | LocalFailure

  // -------- what a reply stream amounts to --------

  /** The C string in a buffer that starts with `s`. */
  function CString(s: bytes): bytes {
    Take(s, IndexOf(s, '\0'))
  }

  function WithoutNewline(line: bytes): bytes {
    if line != [] && line[|line| - 1] == '\n' then line[..|line| - 1] else line
  }

  /** The line after an ERROR status. */
  function ErrorReport(rest: bytes): Report {
    var line := FirstLine(rest, LINE_BUFFER - 1);
    if line == [] then InvalidResponse else ErrorMessage(CString(WithoutNewline(line)))
  }

  /** What a reply without a payload amounts to. */
  function StatusReport(reply: bytes): Report {
    var status := FirstLine(reply, LINE_BUFFER - 1);
    if status == [] then ConnectionClosed
    else if status == OK_LINE then Successful
    else if status == ERROR_LINE then ErrorReport(Drop(reply, |status|))
    else InvalidResponse
  }

  /** The size field and what follows it, when there is a whole size field. */
  datatype Payload = Payload(size: nat, body: bytes)

  function PayloadOf(rest: bytes): Option<Payload> {
    if |rest| < SIZE_BYTES then None else Some(Payload(SizeOf(rest[..SIZE_BYTES]), rest[SIZE_BYTES..]))
  }

  /** What a GET makes of its reply: the report, and the local file if it came to be. `writable`: the local file
      could be opened; `probed`: the read for one byte more was not interrupted. */
  function Download(reply: bytes, writable: bool, probed: bool): (Option<Report>, Option<bytes>) {
    if StatusReport(reply) != Successful then (Some(StatusReport(reply)), None)
    else
      match PayloadOf(Drop(reply, |OK_LINE|))
      case None => (Some(TooLittleData), None)
      case Some(Payload(size, body)) =>
        if !writable then (Some(LocalFailure), None)
        else if |body| < size then (Some(TooLittleData), Some(body))
        else (if |body| > size && probed then Some(TooMuchData) else None, Some(body[..size]))
  }

  /** What a LIST makes of its reply: the report and what it prints. */
  function Listing(reply: bytes, memory: bool, probed: bool): (Option<Report>, bytes) {
    if StatusReport(reply) != Successful then (Some(StatusReport(reply)), [])
    else
      match PayloadOf(Drop(reply, |OK_LINE|))
      case None => (Some(TooLittleData), [])
      case Some(Payload(size, body)) =>
        if size == 0 then (None, [])
        else if !memory then (Some(LocalFailure), [])
        else if |body| < size then (Some(TooLittleData), [])
        else (if |body| > size && probed then Some(TooMuchData) else None, body[..size])
  }

  // -------- the handlers --------

  /** Reads the line that explains an ERROR. */
  method ReadError(s: Stream) returns (report: Report)
    requires s.Valid()
    modifies s`got, s`sched
    ensures s.Valid() && report != Successful && LeftOf(s.sched, old(s.sched))
    ensures Calm(old(s.sched)) ==> report == ErrorReport(old(s.Rest()))
  {
    var line := new byte[LINE_BUFFER];
    var len := ReadLine(s, line);
    report := if len <= 0 then InvalidResponse else ErrorMessage(CString(WithoutNewline(line[..len])));
  }

  /** Reads a status line and, if it is not OK, the rest of the reply. */
  method ReadStatus(s: Stream) returns (report: Report)
    requires s.Valid()
    modifies s`got, s`sched
    ensures s.Valid() && LeftOf(s.sched, old(s.sched))
    ensures Calm(old(s.sched)) ==> report == StatusReport(old(s.Rest()))
    ensures report == Successful ==> StatusReport(old(s.Rest())) == Successful && old(s.Rest()) == OK_LINE + s.Rest()
  {
    var buffer := new byte[LINE_BUFFER];
    var len := ReadLine(s, buffer);
    if len <= 0 {
      report := ConnectionClosed;
    } else if buffer[..len] == OK_LINE {
      report := Successful;
    } else if buffer[..len] == ERROR_LINE {
      report := ReadError(s);
    } else {
      report := InvalidResponse;
    }
  }

  /** The loop of `handle_get`: the body goes to the local file chunk by chunk, as far as it comes. */
  method ReceiveBody(s: Stream, local: Stream, size: nat) returns (complete: bool)
    requires s.Valid() && s != local && local.sent == []
    modifies s`got, s`sched, local`sent, local`sched
    ensures s.Valid()
    ensures complete ==> size <= |old(s.Rest())| && s.Rest() == old(s.Rest())[size..]
    ensures Calm(old(local.sched)) ==>
      local.sent <= Take(old(s.Rest()), size) && (complete ==> local.sent == Take(old(s.Rest()), size))
    ensures LeftOf(s.sched, old(s.sched))
    ensures Calm(old(s.sched)) ==> (complete <==> size <= |old(s.Rest())|)
    ensures Calm(old(s.sched)) && Calm(old(local.sched)) ==> local.sent == Take(old(s.Rest()), size)
  {
    var buffer := new byte[CHUNK];
    var total := 0;
    while total < size
      invariant total <= size && s.Valid() && s.got == old(s.got) + total
      invariant LeftOf(s.sched, old(s.sched))
      invariant Calm(old(local.sched)) ==> Calm(local.sched) && local.sent == s.inbound[old(s.got)..s.got]
    {
      var received := ReadAll(s, buffer, Min(CHUNK, size - total));
      if received <= 0 {
        return false;
      }
      var written := WriteAll(local, buffer[..received]);
      total := total + received;
    }
    complete := true;
  }

  /** The body, and a look for a byte more. */
  method FetchBody(s: Stream, local: Stream, size: nat) returns (report: Option<Report>, ghost probed: bool)
    requires s.Valid() && s != local && local.sent == []
    modifies s`got, s`sched, local`sent, local`sched
    ensures Calm(old(local.sched)) ==> local.sent <= old(s.Rest())
    ensures report == None ==> size <= |old(s.Rest())| && (probed ==> size == |old(s.Rest())|)
    ensures report == None && Calm(old(local.sched)) ==> local.sent == Take(old(s.Rest()), size)
    ensures Calm(old(s.sched)) && Calm(old(local.sched)) ==>
      && local.sent == Take(old(s.Rest()), size)
      && report == if |old(s.Rest())| < size then Some(TooLittleData)
                   else if |old(s.Rest())| > size && probed then Some(TooMuchData)
                   else None
    ensures Undisturbed(old(s.sched)) && |old(s.Rest())| >= size ==> probed
  {
    var complete := ReceiveBody(s, local, size);
    if !complete {
      return Some(TooLittleData), false;
    }
    var r, extra := s.Read(1);
    probed := r.Count?;
    report := if r.Count? && r.n > 0 then Some(TooMuchData) else None;
  }

  /** `handle_get`. `writable` and `disk` are how opening the local file and writing to it are answered; `local` is
      that file if it was opened. `probed` tells whether the read for an extra byte was answered. */
  method HandleGet(s: Stream, remote: bytes, writable: bool, disk: seq<Answer>)
    returns (report: Option<Report>, local: Stream?, ghost probed: bool)
    requires s.Valid() && |RequestLine(GET, remote)| < LINE_BUFFER
    modifies s`got, s`sched, s`sent
    ensures old(s.sent) <= s.sent <= old(s.sent) + RequestLine(GET, remote)
    ensures local != null ==> fresh(local)
    ensures local != null && Calm(disk) ==> local.sent <= Drop(old(s.Rest()), |OK_LINE| + SIZE_BYTES)
    ensures Calm(old(s.sched)) && Calm(disk) ==>
      && s.sent == old(s.sent) + RequestLine(GET, remote)
      && (report, if local == null then None else Some(local.sent)) == Download(old(s.Rest()), writable, probed)
    ensures Undisturbed(old(s.sched)) && Calm(disk) ==>
      (report, if local == null then None else Some(local.sent)) == Download(old(s.Rest()), writable, true)
    ensures report == None && Calm(disk) ==>
      local != null && (None, Some(local.sent)) == Download(old(s.Rest()), writable, probed)
  {
    probed := false;
    local := null;
    var requested := WriteAll(s, RequestLine(GET, remote));
    var status := ReadStatus(s);
    if status != Successful {
      return Some(status), null, false;
    }
    ghost var rest := s.Rest();
    var size := new byte[SIZE_BYTES];
    var sizeRead := ReadAll(s, size, SIZE_BYTES);
    if sizeRead != SIZE_BYTES {
      return Some(TooLittleData), null, false;
    }
    if !writable {
      return Some(LocalFailure), null, false;
    }
    local := new Stream([], disk);
    assert size[..] == size[..SIZE_BYTES] == rest[..SIZE_BYTES] && s.Rest() == rest[SIZE_BYTES..];
    report, probed := FetchBody(s, local, SizeOf(size[..]));
  }

  /** `handle_put`; `file` is the local file if it can be opened. */
  method HandlePut(s: Stream, remote: bytes, file: Option<bytes>) returns (report: Report)
    requires s.Valid() && |RequestLine(PUT, remote)| < LINE_BUFFER
    requires file.Some? ==> |file.value| < SIZE_LIMIT
    modifies s`got, s`sched, s`sent
    ensures file.None? ==> report == LocalFailure && s.sent == old(s.sent)
    ensures file.Some? && Calm(old(s.sched)) ==>
      s.sent == old(s.sent) + PutStream(remote, file.value) && report == StatusReport(old(s.Rest()))
    ensures report == Successful ==> StatusReport(old(s.Rest())) == Successful
  {
    if file.None? {
      return LocalFailure;
    }
    var data := file.value;
    var requested := WriteAll(s, RequestLine(PUT, remote));
    var sized := WriteAll(s, SizeBytes(|data|));
    SendFile(s, data);
    Regroup(old(s.sent), RequestLine(PUT, remote), SizeBytes(|data|), data);
    report := ReadStatus(s);
  }

  lemma Regroup(a: bytes, b: bytes, c: bytes, d: bytes)
    ensures a + b + c + d == a + (b + c + d)
  {
  }

  /** The loop of `handle_put` over the local file. */
  method SendFile(s: Stream, data: bytes)
    modifies s`sent, s`sched
    ensures LeftOf(s.sched, old(s.sched))
    ensures Calm(old(s.sched)) ==> s.sent == old(s.sent) + data
  {
    var offset := 0;
    while offset < |data|
      invariant offset <= |data| && LeftOf(s.sched, old(s.sched))
      invariant Calm(old(s.sched)) ==> s.sent == old(s.sent) + data[..offset]
    {
      var chunk := data[offset..Min(offset + CHUNK, |data|)];
      var written := WriteAll(s, chunk);
      assert data[..offset] + chunk == data[..offset + |chunk|];
      offset := offset + |chunk|;
    }
    assert data[..offset] == data;
  }

  /** `handle_delete`. */
  method HandleDelete(s: Stream, remote: bytes) returns (report: Report)
    requires s.Valid() && |RequestLine(DELETE, remote)| < LINE_BUFFER
    modifies s`got, s`sched, s`sent
    ensures old(s.sent) <= s.sent <= old(s.sent) + RequestLine(DELETE, remote)
    ensures Calm(old(s.sched)) ==>
      s.sent == old(s.sent) + RequestLine(DELETE, remote) && report == StatusReport(old(s.Rest()))
    ensures report == Successful ==> StatusReport(old(s.Rest())) == Successful
  {
    var requested := WriteAll(s, RequestLine(DELETE, remote));
    report := ReadStatus(s);
  }

  /** `handle_list`; `out` is the standard output, `memory` says whether the list can be allocated. */
  method HandleList(s: Stream, out: Stream, memory: bool) returns (report: Option<Report>, ghost probed: bool)
    requires s.Valid() && s != out && out.sent == []
    modifies s`got, s`sched, s`sent, out`sent, out`sched
    ensures Calm(old(s.sched)) && Calm(old(out.sched)) ==>
      && s.sent == old(s.sent) + RequestLine(LIST, [])
      && (report, out.sent) == Listing(old(s.Rest()), memory, probed)
    ensures Undisturbed(old(s.sched)) && Calm(old(out.sched)) ==>
      (report, out.sent) == Listing(old(s.Rest()), memory, true)
    ensures report == None && Calm(old(out.sched)) ==> (None, out.sent) == Listing(old(s.Rest()), memory, probed)
  {
    probed := false;
    var requested := WriteAll(s, RequestLine(LIST, []));
    var status := ReadStatus(s);
    if status != Successful {
      return Some(status), false;
    }
    ghost var rest := s.Rest();
    var field := new byte[SIZE_BYTES];
    var sizeRead := ReadAll(s, field, SIZE_BYTES);
    if sizeRead != SIZE_BYTES {
      return Some(TooLittleData), false;
    }
    assert field[..] == field[..SIZE_BYTES] == rest[..SIZE_BYTES] && s.Rest() == rest[SIZE_BYTES..];
    var size := SizeOf(field[..]);
    if size == 0 {
      return None, false;
    }
    if !memory {
      return Some(LocalFailure), false;
    }
    var complete := CopyList(s, out, size);
    if !complete {
      return Some(TooLittleData), false;
    }
    var r, extra := s.Read(1);
    probed := r.Count?;
    report := if r.Count? && r.n > 0 then Some(TooMuchData) else None;
  }

  /** Reads the whole list before printing any of it. */
  method CopyList(s: Stream, out: Stream, size: nat) returns (complete: bool)
    requires s.Valid() && s != out && out.sent == []
    modifies s`got, s`sched, out`sent, out`sched
    ensures s.Valid() && LeftOf(s.sched, old(s.sched))
    ensures complete ==> size <= |old(s.Rest())| && s.Rest() == old(s.Rest())[size..]
    ensures Calm(old(s.sched)) ==> (complete <==> size <= |old(s.Rest())|)
    ensures Calm(old(out.sched)) ==> out.sent == if complete then old(s.Rest())[..size] else []
  {
    var buffer := new byte[size];
    var total := ReadAll(s, buffer, size);
    complete := total == size;
    if complete {
      var printed := WriteAll(out, buffer[..]);
    }
  }

  // -------- what the handlers make of the server's replies --------

  lemma OkStatus(rest: bytes)
    ensures StatusReport(OK_LINE + rest) == Successful && Drop(OK_LINE + rest, |OK_LINE|) == rest
  {
    FirstLineMore(OK_LINE + rest, 2, LINE_BUFFER - 1);
    assert (OK_LINE + rest)[..3] == OK_LINE;
  }

  /** The text of an error: the bytes up to a newline, a NUL or the end of the buffer. */
  predicate TextOf(rest: bytes, text: bytes) {
    && text <= rest && '\n' !in text && '\0' !in text && |text| <= 1023
    && (|text| == 1023 || |text| == |rest| || rest[|text|] == '\n' || rest[|text|] == '\0')
  }

  lemma ErrorTextIs(rest: bytes)
    requires rest != []
    ensures ErrorReport(rest).ErrorMessage? && TextOf(rest, ErrorReport(rest).text)
  {
    var line := FirstLine(rest, LINE_BUFFER - 1);
    var plain := WithoutNewline(line);
    var n := IndexOf(rest, '\n');
    assert plain == Take(rest, Min(n, LINE_BUFFER - 1));
    var text := CString(plain);
    assert text == plain[..IndexOf(plain, '\0')];
    assert forall j :: 0 <= j < |text| ==> text[j] == rest[..n][j];
  }

  /** What the status line comes to, read off the first bytes of the reply: success exactly for "OK", an error message
      exactly for "ERROR" with anything behind it, a closed connection exactly for no reply at all. */
  lemma StatusClassified(reply: bytes)
    ensures StatusReport(reply) == Successful <==> "OK\n" <= reply
    ensures StatusReport(reply) == ConnectionClosed <==> reply == []
    ensures StatusReport(reply).ErrorMessage? <==> "ERROR\n" <= reply && |reply| > 6
    ensures StatusReport(reply).ErrorMessage? ==> TextOf(reply[6..], StatusReport(reply).text)
    ensures StatusReport(reply) in {Successful, ConnectionClosed, InvalidResponse} || StatusReport(reply).ErrorMessage?
  {
    var status := FirstLine(reply, LINE_BUFFER - 1);
    if "OK\n" <= reply {
      OkStatus(reply[3..]);
      assert reply == OK_LINE + reply[3..];
    } else if "ERROR\n" <= reply {
      FirstLineMore(reply, 5, LINE_BUFFER - 1);
      assert reply[..6] == ERROR_LINE;
      if |reply| > 6 {
        ErrorTextIs(reply[6..]);
      }
    } else {
      assert status <= reply;
    }
  }

  /** Whatever is not "OK" is reported as the status says, leaves no local file and prints nothing. */
  lemma NotOk(reply: bytes, able: bool, probed: bool)
    requires !("OK\n" <= reply)
    ensures Download(reply, able, probed) == (Some(StatusReport(reply)), None)
    ensures Listing(reply, able, probed) == (Some(StatusReport(reply)), [])
  {
    StatusClassified(reply);
  }

  /** A size field that is not whole is too little data, before the local file is opened or memory asked for. */
  lemma SizeCutShort(field: bytes, able: bool, probed: bool)
    requires |field| < 8
    ensures Download("OK\n" + field, able, probed) == (Some(TooLittleData), None)
    ensures Listing("OK\n" + field, able, probed) == (Some(TooLittleData), [])
  {
    OkStatus(field);
  }

  /** A whole size field, but the local file cannot be opened, or there is no memory for the list. */
  lemma Unable(n: nat, body: bytes, probed: bool)
    requires 0 < n < SIZE_LIMIT
    ensures Download(OK_LINE + SizeBytes(n) + body, false, probed) == (Some(LocalFailure), None)
    ensures Listing(OK_LINE + SizeBytes(n) + body, false, probed) == (Some(LocalFailure), [])
  {
    WholeField(n, body);
  }

  lemma WholeField(n: nat, body: bytes)
    requires n < SIZE_LIMIT
    ensures
      var reply := OK_LINE + SizeBytes(n) + body;
      StatusReport(reply) == Successful && PayloadOf(Drop(reply, |OK_LINE|)) == Some(Payload(n, body))
  {
    var rest := SizeBytes(n) + body;
    assert OK_LINE + SizeBytes(n) + body == OK_LINE + rest;
    OkStatus(rest);
    SizeRoundTrip(n);
    assert rest[..SIZE_BYTES] == SizeBytes(n) && rest[SIZE_BYTES..] == body;
  }

  /** List classification: nothing is printed of a list cut short, and of any other exactly the first bytes, as many as
      announced; too little data is reported exactly when there is less than announced, too much exactly when there is
      more; nothing announced is an empty list, whatever follows. */
  lemma ListingClassified(n: nat, body: bytes, probed: bool)
    requires n < SIZE_LIMIT
    ensures
      var (report, printed) := Listing(OK_LINE + SizeBytes(n) + body, true, probed);
      && printed == (if |body| < n then [] else body[..n])
      && (report == Some(TooLittleData) <==> |body| < n)
      && (report == Some(TooMuchData) <==> 0 < n < |body| && probed)
      && (report == None <==> n == 0 || |body| == n || (|body| > n && !probed))
  {
    WholeField(n, body);
  }

  /** Download classification: whatever follows the size field, the local file gets the first bytes of it, as many
      as announced or as there are; too little data is reported exactly when there is less than announced, too
      much exactly when there is more. */
  lemma DownloadClassified(n: nat, body: bytes, probed: bool)
    requires n < SIZE_LIMIT
    ensures
      var (report, file) := Download(OK_LINE + SizeBytes(n) + body, true, probed);
      && file == Some(Take(body, n))
      && (report == Some(TooLittleData) <==> |body| < n)
      && (report == Some(TooMuchData) <==> |body| > n && probed)
      && (report == None <==> |body| == n || (|body| > n && !probed))
  {
    WholeField(n, body);
  }

  /** A list reply cut short anywhere is reported, and nothing of it is printed. */
  lemma ListCutShort(names: seq<bytes>, reply: bytes, probed: bool)
    requires |ListBody(names)| < SIZE_LIMIT
    requires reply <= PayloadReply(ListBody(names)) && reply != PayloadReply(ListBody(names))
    ensures
      var (report, printed) := Listing(reply, true, probed);
      report.Some? && report != Some(Successful) && printed == []
  {
    var all := ListBody(names);
    if |reply| < 3 {
      assert reply == OK_LINE[..|reply|];
      NotOk(reply, true, probed);
      StatusClassified(reply);
    } else if |reply| < 11 {
      assert reply == OK_LINE + reply[3..];
      SizeCutShort(reply[3..], true, probed);
    } else {
      assert reply == OK_LINE + SizeBytes(|all|) + reply[11..];
      ListingClassified(|all|, reply[11..], probed);
    }
  }

  /** A reply cut short is never taken for a whole one: what arrived is a part of the file, and the download
      reports a fault. */
  lemma DownloadCutShort(d: bytes, reply: bytes, probed: bool)
    requires |d| < SIZE_LIMIT && reply <= PayloadReply(d) && reply != PayloadReply(d)
    ensures
      var (report, file) := Download(reply, true, probed);
      report.Some? && report != Some(Successful) && (file.Some? ==> file.value <= d)
  {
    if |reply| < |OK_LINE| {
      assert reply == OK_LINE[..|reply|];
      CutStatus(reply);
    } else {
      var rest := reply[|OK_LINE|..];
      assert reply == OK_LINE + rest;
      OkStatus(rest);
      if |rest| >= SIZE_BYTES {
        var body := rest[SIZE_BYTES..];
        assert rest[..SIZE_BYTES] == SizeBytes(|d|);
        assert reply == OK_LINE + SizeBytes(|d|) + body;
        DownloadClassified(|d|, body, probed);
        assert body == d[..|body|];
      }
    }
  }

  lemma CutStatus(reply: bytes)
    requires reply <= OK_LINE && |reply| < |OK_LINE|
    ensures StatusReport(reply) == ConnectionClosed || StatusReport(reply) == InvalidResponse
  {
    assert FirstLine(reply, LINE_BUFFER - 1) <= reply;
  }

  /** The text of an error line, its newline excluded. */
  function Plain(m: Message): bytes {
    match m
    case BadRequest => "Bad request"
    case BadFileSize => "Bad file size"
    case NoSuchFile => "No such file"
  }

  lemma PlainText(m: Message)
    ensures Text(m) == Plain(m) + "\n"
  {
  }

  lemma PlainFacts(m: Message)
    ensures Text(m) == Plain(m) + "\n"
    ensures '\n' !in Plain(m) && '\0' !in Plain(m) && |Plain(m)| < LINE_BUFFER - 1
  {
    PlainText(m);
  }

  lemma ErrorLine(text: bytes)
    requires '\n' !in text && '\0' !in text && |text| < LINE_BUFFER - 1
    ensures ErrorReport(text + "\n" + "\n") == ErrorMessage(text)
  {
    var rest := text + "\n" + "\n";
    assert rest[..|text|] == text && rest[..|text| + 1] == text + "\n";
    FirstLineMore(rest, |text|, LINE_BUFFER - 1);
    IndexOfFirst(text, '\0', |text|);
  }

  /** An error reply is reported with its text, and leaves no local file. */
  lemma ErrorReported(m: Message, writable: bool, probed: bool)
    ensures StatusReport(ErrorReply(m)) == ErrorMessage(Plain(m))
    ensures Download(ErrorReply(m), writable, probed) == (Some(ErrorMessage(Plain(m))), None)
    ensures Listing(ErrorReply(m), writable, probed) == (Some(ErrorMessage(Plain(m))), [])
  {
    PlainFacts(m);
    var rest := Plain(m) + "\n" + "\n";
    var reply := ErrorReply(m);
    assert reply == ERROR_LINE + rest;
    FirstLineMore(reply, 5, LINE_BUFFER - 1);
    assert reply[..6] == ERROR_LINE && Drop(reply, 6) == rest;
    ErrorLine(Plain(m));
  }

  /** A LIST prints the names the server sent, and they can be read off what is printed. */
  lemma ListPrinted(names: seq<bytes>, probed: bool)
    requires (forall n :: n in names ==> Listable(n)) && |ListBody(names)| < SIZE_LIMIT
    ensures
      var (report, printed) := Listing(PayloadReply(ListBody(names)), true, probed);
      report == None && printed == ListBody(names) && SplitBody(printed) == names
  {
    var body := ListBody(names);
    var rest := SizeBytes(|body|) + body;
    assert PayloadReply(body) == OK_LINE + rest;
    OkStatus(rest);
    SizeRoundTrip(|body|);
    assert rest[..SIZE_BYTES] == SizeBytes(|body|) && rest[SIZE_BYTES..] == body;
    SplitListBody(names);
  }
}
