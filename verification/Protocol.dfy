/** The wire protocol both programs speak: request lines, replies and the list body. */
module Protocol {
  import opened Bytes

  // -------- requests --------

  datatype Verb = GET | PUT | DELETE | LIST | UNKNOWN

  /** What a request line asks for; `name` is absent when the line has no space. */
  datatype Request = Request(verb: Verb, name: Option<bytes>)

  const NAME_MAX: nat := 255
  const HEADER_MAX: nat := 1024

  function Word(v: Verb): bytes {
    match v
    case GET => "GET"
    case PUT => "PUT"
    case DELETE => "DELETE"
    case LIST => "LIST"
    case UNKNOWN => "?"
  }

  function VerbOf(word: bytes): Verb {
    if word == "LIST" then LIST
    else if word == "DELETE" then DELETE
    else if word == "GET" then GET
    else if word == "PUT" then PUT
    else UNKNOWN
  }

  /** Reads a request line, newline excluded, the way the server splits it at the first space. */
  function ParseLine(line: bytes): Request {
    var space := StrChr(line, ' ');
    if space < 0 then Request(VerbOf(line), None)
    else Request(VerbOf(line[..space]), Some(line[space + 1..]))
  }

  /** The line the client prints for a request. */
  function RequestLine(v: Verb, name: bytes): bytes {
    if v == LIST then "LIST\n" else Word(v) + " " + name + "\n"
  }

  /** The request such a line stands for. */
  function Meant(v: Verb, name: bytes): Request {
    Request(v, if v == LIST then None else Some(name))
  }

  /** Everything a client sends to upload `data` under `name`. */
  function PutStream(name: bytes, data: bytes): bytes {
    RequestLine(PUT, name) + SizeBytes(|data|) + data
  }

  /** A name a request line can carry. */
  predicate Printable(name: bytes) {
    '\n' !in name && '\0' !in name
  }

  /** `strncpy` into a zeroed 256-byte field. */
  function StoredName(name: bytes): (r: bytes)
    ensures |r| <= NAME_MAX && r <= name
    ensures |name| <= NAME_MAX ==> r == name
  {
    Take(name, NAME_MAX)
  }

  lemma WordFacts(v: Verb)
    requires v != UNKNOWN
    ensures VerbOf(Word(v)) == v && Printable(Word(v)) && ' ' !in Word(v) && 3 <= |Word(v)| <= 6
  {
  }

  /** Printing a request and reading it back gives the same verb and name, whatever follows the line. */
  lemma ParsePrint(v: Verb, name: bytes, rest: bytes)
    requires v != UNKNOWN && Printable(name)
    ensures
      var line := RequestLine(v, name);
      var newline := |line| - 1;
      && StrChr(line + rest, '\n') == newline
      && ParseLine(line[..newline]) == Meant(v, name)
  {
    var line := RequestLine(v, name);
    var newline := |line| - 1;
    WordFacts(v);
    var body := line[..newline];
    assert (line + rest)[..newline] == body;
    if v == LIST {
      assert body == "LIST";
      StrChrFinds(line + rest, '\n', newline);
      StrChrMisses(body, ' ');
    } else {
      assert body == Word(v) + " " + name;
      assert line[newline] == '\n';
      StrChrFinds(line + rest, '\n', newline);
      assert body[..|Word(v)|] == Word(v);
      assert body[|Word(v)|] == ' ';
      StrChrFinds(body, ' ', |Word(v)|);
      assert body[|Word(v)| + 1..] == name;
    }
  }

  /** A name read from a request line contains no newline and no NUL. */
  lemma ParsedNamePrintable(header: bytes, newline: nat)
    requires StrChr(header, '\n') == newline
    ensures ParseLine(header[..newline]).name.Some? ==> Printable(ParseLine(header[..newline]).name.value)
  {
  }

  // -------- replies --------

  datatype Message = BadRequest | BadFileSize | NoSuchFile

  /** The error texts end with a newline of their own. */
  function Text(m: Message): bytes {
    match m
    case BadRequest => "Bad request\n"
    case BadFileSize => "Bad file size\n"
    case NoSuchFile => "No such file\n"
  }

  const OK_LINE: bytes := "OK\n"
  const ERROR_LINE: bytes := "ERROR\n"

  function ErrorReply(m: Message): bytes {
    ERROR_LINE + Text(m) + "\n"
  }

  /** A success reply with a payload: status line, raw size, then the payload. */
  function PayloadReply(body: bytes): bytes {
    OK_LINE + SizeBytes(|body|) + body
  }

  /** A reply with a payload, byte for byte: "OK", the length in eight bytes, the payload. */
  predicate Framed(reply: bytes, payload: bytes) {
    |reply| == 11 + |payload| && reply[..3] == "OK\n" && SizeOf(reply[3..11]) == |payload| && reply[11..] == payload
  }

  lemma PayloadFramed(body: bytes)
    requires |body| < SIZE_LIMIT
    ensures Framed(PayloadReply(body), body)
  {
    SizeRoundTrip(|body|);
    assert PayloadReply(body)[3..11] == SizeBytes(|body|);
  }

  lemma ErrorsSpelled()
    ensures ErrorReply(BadRequest) == "ERROR\nBad request\n\n"
    ensures ErrorReply(BadFileSize) == "ERROR\nBad file size\n\n"
    ensures ErrorReply(NoSuchFile) == "ERROR\nNo such file\n\n"
  {
  }

  // -------- the list body --------

  /** The names of the list, separated by newlines. */
  function ListBody(names: seq<bytes>): bytes {
    if names == [] then []
    else if |names| == 1 then names[0]
    else names[0] + "\n" + ListBody(names[1..])
  }

  function IndexOf(s: bytes, ch: byte): (r: nat)
    ensures r <= |s|
    ensures ch !in s[..r]
    ensures r < |s| ==> s[r] == ch
  {
    if s == [] || s[0] == ch then 0
    else
      var r := IndexOf(s[1..], ch) + 1;
      assert s[..r] == [s[0]] + s[1..][..r - 1];
      r
  }

  /** The non-empty body cut at its newlines; an empty body is an empty list. */
  function SplitBody(body: bytes): seq<bytes>
    decreases |body|
  {
    if body == [] then []
    else
      var i := IndexOf(body, '\n');
      if i == |body| then [body] else [body[..i]] + SplitBody(body[i + 1..])
  }

  /** A name the server lists: not empty, short enough for its field, free of newlines. */
  predicate Listable(name: bytes) {
    name != [] && |name| <= NAME_MAX && Printable(name)
  }

  lemma ListBodyEmpty(names: seq<bytes>)
    requires forall n :: n in names ==> Listable(n)
    ensures ListBody(names) == [] <==> names == []
  {
    if names != [] {
      assert Listable(names[0]);
    }
  }

  lemma {:induction false} IndexOfFirst(s: bytes, ch: byte, i: nat)
    requires i <= |s| && ch !in s[..i] && (i < |s| ==> s[i] == ch)
    ensures IndexOf(s, ch) == i
  {
    if i > 0 {
      assert s[0] == s[..i][0];
      assert s[1..][..i - 1] == s[..i][1..];
      IndexOfFirst(s[1..], ch, i - 1);
    }
  }

  /** Cutting the body of a LIST reply at its newlines gives back the list, empty list included. */
  lemma {:induction false} SplitListBody(names: seq<bytes>)
    requires forall n :: n in names ==> Listable(n)
    ensures SplitBody(ListBody(names)) == names
  {
    if names != [] {
      var body := ListBody(names);
      var first := names[0];
      assert Listable(first);
      assert body[..|first|] == first;
      IndexOfFirst(body, '\n', |first|);
      if |names| == 1 {
        assert names == [first];
      } else {
        assert forall n :: n in names[1..] ==> n in names;
        SplitListBody(names[1..]);
        assert body[|first| + 1..] == ListBody(names[1..]);
        ListBodyEmpty(names[1..]);
        assert names == [first] + names[1..];
      }
    }
  }

  function TotalLength(names: seq<bytes>): nat {
    if names == [] then 0 else |names[0]| + TotalLength(names[1..])
  }

  /** Where the name at position `i` stands in a list body: behind the names before it and a newline for each. */
  function Offset(names: seq<bytes>, i: nat): nat
    requires i <= |names|
  {
    TotalLength(names[..i]) + i
  }

  /** The name at position `i` is at its place, with a newline behind it if it is not the last. */
  ghost predicate LaidOutAt(names: seq<bytes>, body: bytes, i: nat)
    requires i < |names|
  {
    && Offset(names, i) + |names[i]| <= |body|
    && body[Offset(names, i)..Offset(names, i) + |names[i]|] == names[i]
    && if i == |names| - 1 then Offset(names, i) + |names[i]| == |body|
       else Offset(names, i) + |names[i]| < |body| && body[Offset(names, i) + |names[i]|] == '\n'
  }

  /** Byte for byte: every name at its place, a newline between two names, and nothing behind the last. */
  ghost predicate LaidOut(names: seq<bytes>, body: bytes) {
    && |body| == (if names == [] then 0 else TotalLength(names) + |names| - 1)
    && forall i :: 0 <= i < |names| ==> LaidOutAt(names, body, i)
  }

  lemma OffsetTail(names: seq<bytes>, i: nat)
    requires 0 < i <= |names|
    ensures Offset(names, i) == |names[0]| + 1 + Offset(names[1..], i - 1)
  {
    assert names[..i][1..] == names[1..][..i - 1];
  }

  lemma LaidOutNext(names: seq<bytes>, body: bytes, i: nat)
    requires 0 < i < |names| && |names[0]| + 1 <= |body| && LaidOutAt(names[1..], body[|names[0]| + 1..], i - 1)
    ensures LaidOutAt(names, body, i)
  {
    OffsetTail(names, i);
    var first, from := |names[0]| + 1, Offset(names[1..], i - 1);
    assert body[first + from..first + from + |names[i]|] == body[first..][from..from + |names[i]|];
  }

  /** The body of a LIST reply is laid out that way. */
  lemma {:induction false} ListBodyLaidOut(names: seq<bytes>)
    ensures LaidOut(names, ListBody(names))
  {
    if |names| > 1 {
      var body := ListBody(names);
      ListBodyLaidOut(names[1..]);
      assert body[|names[0]| + 1..] == ListBody(names[1..]);
      assert LaidOutAt(names, body, 0);
      forall i | 0 < i < |names| ensures LaidOutAt(names, body, i) {
        LaidOutNext(names, body, i);
      }
    }
  }

  /** It has one newline fewer than there are names. */
  lemma {:induction false} NewlinesBetween(names: seq<bytes>)
    requires forall n :: n in names ==> '\n' !in n
    ensures multiset(ListBody(names))['\n'] == if names == [] then 0 else |names| - 1
  {
    if |names| == 1 {
      assert names[0] in names;
    } else if |names| > 1 {
      assert names[0] in names;
      assert forall n :: n in names[1..] ==> n in names;
      NewlinesBetween(names[1..]);
    }
  }

  /** The first `k` iterations of the loop that fills the list buffer. */
  function Filled(names: seq<bytes>, k: nat): bytes
    requires k <= |names|
  {
    if k == 0 then []
    else Filled(names, k - 1) + names[k - 1] + (if k - 1 < |names| - 1 then "\n" else [])
  }

  /** The loop leaves the body, and at every step what it has written is a part of it. */
  lemma {:induction false} FilledThenRest(names: seq<bytes>, k: nat)
    requires k <= |names|
    ensures Filled(names, k) + ListBody(names[k..]) == ListBody(names)
  {
    if k == 0 {
      assert names[0..] == names;
    } else {
      FilledThenRest(names, k - 1);
      var rest := names[k - 1..];
      assert rest[0] == names[k - 1] && rest[1..] == names[k..];
    }
  }
}
