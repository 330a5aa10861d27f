/** Bytes, C strings and the 8-byte little-endian image of a size_t. */
module Bytes {

  type byte = c: char | c as int < 256 witness '\0'
  type bytes = seq<byte>

  datatype Option<+T> = None | Some(value: T) {
    function GetOr(default: T): T { if Some? then value else default }
  }

  const SIZE_BYTES: nat := 8
  const SIZE_LIMIT: nat := 0x1_0000_0000_0000_0000

  function Min(a: int, b: int): int { if a < b then a else b }

  function Max(a: int, b: int): int { if a < b then b else a }

  /** The bytes of `s` from offset `n` on, nothing when `n` is past the end. */
  function Drop(s: bytes, n: int): bytes {
    if 0 <= n <= |s| then s[n..] else []
  }

  /** At most the first `n` bytes of `s`. */
  function Take(s: bytes, n: nat): bytes {
    if n <= |s| then s[..n] else s
  }

  function Zeros(n: nat): (r: bytes) {
    seq(n, _ => '\0')
  }

  /** `s` with `d` written at offset `off`; a gap before `off` reads as zeros, as in a sparse file. */
  function Overlay(s: bytes, off: nat, d: bytes): bytes {
    if d == [] then s
    else Take(s, off) + Zeros(Max(0, off - |s|)) + d + Drop(s, off + |d|)
  }

  lemma OverlayAppends(s: bytes, d: bytes)
    ensures Overlay(s, |s|, d) == s + d
  {
  }

  lemma OverlayLength(s: bytes, off: nat, d: bytes)
    ensures |Overlay(s, off, d)| == if d == [] then |s| else Max(|s|, off + |d|)
  {
  }

  /** Byte for byte: what was written, what was there before, and zeros between them. */
  lemma OverlayAt(s: bytes, off: nat, d: bytes, i: nat)
    requires d != [] && i < |Overlay(s, off, d)|
    ensures Overlay(s, off, d)[i] ==
      if off <= i < off + |d| then d[i - off] else if i < |s| then s[i] else '\0'
  {
  }

  /** Two writes, the second where the first left off, are one. */
  lemma OverlayTwice(s: bytes, off: nat, d: bytes, e: bytes)
    ensures Overlay(Overlay(s, off, d), off + |d|, e) == Overlay(s, off, d + e)
  {
    if d == [] {
      assert d + e == e;
    } else if e == [] {
      assert d + e == d;
    } else {
      var once, twice := Overlay(s, off, d + e), Overlay(Overlay(s, off, d), off + |d|, e);
      OverlayLength(s, off, d);
      OverlayLength(s, off, d + e);
      OverlayLength(Overlay(s, off, d), off + |d|, e);
      forall i | 0 <= i < |once| ensures twice[i] == once[i] {
        OverlayAt(s, off, d + e, i);
        OverlayAt(Overlay(s, off, d), off + |d|, e, i);
        if i < |Overlay(s, off, d)| {
          OverlayAt(s, off, d, i);
        }
      }
    }
  }

  /** Writing inside a fixed-size memory keeps its size and extends the written prefix. */
  lemma OverlayPrefix(s: bytes, off: nat, d: bytes)
    requires off + |d| <= |s|
    ensures |Overlay(s, off, d)| == |s|
    ensures Overlay(s, off, d)[..off + |d|] == s[..off] + d
  {
  }

  // -------- C strings --------

  /** `strchr` for a character other than NUL: the index of the first `ch` before any NUL, or -1.
      The end of the sequence plays the part of the terminating NUL. */
  function StrChr(s: bytes, ch: byte): (r: int)
    ensures -1 <= r < |s|
    ensures r >= 0 ==> s[r] == ch && '\0' !in s[..r] && ch !in s[..r]
  {
    if s == [] || s[0] == '\0' then -1
    else if s[0] == ch then 0
    else
      var r := StrChr(s[1..], ch);
      assert r >= 0 ==> s[..r + 1] == [s[0]] + s[1..][..r];
      if r < 0 then -1 else r + 1
  }

  /** `StrChr` answers -1 exactly when no `ch` stands before the first NUL. */
  lemma {:induction false} StrChrFinds(s: bytes, ch: byte, i: nat)
    requires i < |s| && s[i] == ch && ch != '\0'
    requires '\0' !in s[..i] && ch !in s[..i]
    ensures StrChr(s, ch) == i
  {
    if i > 0 {
      assert s[0] == s[..i][0];
      assert s[1..][..i - 1] == s[..i][1..];
      StrChrFinds(s[1..], ch, i - 1);
    }
  }

  lemma {:induction false} StrChrMisses(s: bytes, ch: byte)
    requires ch !in s
    ensures StrChr(s, ch) == -1
  {
    if s != [] && s[0] != '\0' {
      StrChrMisses(s[1..], ch);
    }
  }

  /** A string ends at its first NUL. */
  lemma {:induction false} StrChrEnds(s: bytes, ch: byte, i: nat)
    requires i < |s| && s[i] == '\0' && ch != '\0' && ch !in s[..i]
    ensures StrChr(s, ch) == -1
  {
    if i > 0 {
      assert s[0] == s[..i][0];
      assert s[1..][..i - 1] == s[..i][1..];
      StrChrEnds(s[1..], ch, i - 1);
    }
  }

  /** What follows a NUL does not matter. */
  lemma {:induction false} StrChrTerminated(s: bytes, ch: byte, n: nat)
    requires n < |s| && s[n] == '\0'
    ensures StrChr(s, ch) == StrChr(s[..n], ch)
  {
    if n > 0 {
      assert s[..n][1..] == s[1..][..n - 1];
      StrChrTerminated(s[1..], ch, n - 1);
    }
  }

  // -------- size_t on the wire --------

  function EncodeLE(n: nat, width: nat): (r: bytes)
    ensures |r| == width
  {
    if width == 0 then [] else [(n % 256) as char] + EncodeLE(n / 256, width - 1)
  }

  function DecodeLE(b: bytes): nat {
    if b == [] then 0 else b[0] as int + 256 * DecodeLE(b[1..])
  }

  function Pow256(k: nat): (r: nat)
    ensures r > 0
  {
    if k == 0 then 1 else 256 * Pow256(k - 1)
  }

  lemma {:induction false} DecodeEncodeLE(n: nat, width: nat)
    requires n < Pow256(width)
    ensures DecodeLE(EncodeLE(n, width)) == n
  {
    if width > 0 {
      DecodeEncodeLE(n / 256, width - 1);
      assert EncodeLE(n, width)[1..] == EncodeLE(n / 256, width - 1);
    }
  }

  lemma {:induction false} DecodeBound(b: bytes)
    ensures DecodeLE(b) < Pow256(|b|)
  {
    if b != [] {
      DecodeBound(b[1..]);
    }
  }

  lemma {:induction false} EncodeDecodeLE(b: bytes)
    ensures EncodeLE(DecodeLE(b), |b|) == b
  {
    if b != [] {
      EncodeDecodeLE(b[1..]);
      assert DecodeLE(b) % 256 == b[0] as int;
      assert DecodeLE(b) / 256 == DecodeLE(b[1..]);
      assert b == [b[0]] + b[1..];
    }
  }

  lemma SizeLimitIsPow()
    ensures Pow256(SIZE_BYTES) == SIZE_LIMIT
  {
    assert Pow256(2) == 0x1_0000;
    assert Pow256(4) == 0x1_0000_0000;
    assert Pow256(6) == 0x1_0000_0000_0000;
  }

  /** The bytes of a size_t variable holding `n`. */
  function SizeBytes(n: nat): (r: bytes)
    ensures |r| == SIZE_BYTES
  {
    EncodeLE(n, SIZE_BYTES)
  }

  /** The size_t whose memory is `b`. */
  function SizeOf(b: bytes): nat {
    DecodeLE(b)
  }

  lemma DecodeNext(b: bytes, i: nat)
    requires i < |b|
    ensures DecodeLE(b[i..]) == b[i] as int + 256 * DecodeLE(b[i + 1..])
  {
    assert b[i..][1..] == b[i + 1..];
  }

  /** The first byte counts least. */
  lemma LittleEndian(b: bytes)
    requires |b| == SIZE_BYTES
    ensures SizeOf(b) ==
      b[0] as int + 0x100 * b[1] as int + 0x1_0000 * b[2] as int + 0x100_0000 * b[3] as int
      + 0x1_0000_0000 * b[4] as int + 0x100_0000_0000 * b[5] as int
      + 0x1_0000_0000_0000 * b[6] as int + 0x100_0000_0000_0000 * b[7] as int
  {
    DecodeNext(b, 7);
    DecodeNext(b, 6);
    DecodeNext(b, 5);
    DecodeNext(b, 4);
    DecodeNext(b, 3);
    DecodeNext(b, 2);
    DecodeNext(b, 1);
    DecodeNext(b, 0);
    assert b[0..] == b && b[8..] == [];
  }

  /** A small size is its own first byte, and seven zeros follow. */
  lemma SmallSize(n: nat)
    requires n < 256
    ensures SizeBytes(n) == [n as char] + Zeros(7)
  {
    assert EncodeLE(0, 1) == Zeros(1);
    assert EncodeLE(0, 2) == Zeros(2);
    assert EncodeLE(0, 3) == Zeros(3);
    assert EncodeLE(0, 4) == Zeros(4);
    assert EncodeLE(0, 5) == Zeros(5);
    assert EncodeLE(0, 6) == Zeros(6);
    assert EncodeLE(0, 7) == Zeros(7);
  }

  lemma SizeRoundTrip(n: nat)
    requires n < SIZE_LIMIT
    ensures SizeOf(SizeBytes(n)) == n
  {
    SizeLimitIsPow();
    DecodeEncodeLE(n, SIZE_BYTES);
  }

  lemma SizeOfBound(b: bytes)
    requires |b| == SIZE_BYTES
    ensures SizeOf(b) < SIZE_LIMIT
    ensures SizeBytes(SizeOf(b)) == b
  {
    SizeLimitIsPow();
    DecodeBound(b);
    EncodeDecodeLE(b);
  }
}
