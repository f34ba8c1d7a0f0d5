/** Bytes as integers in [0, 256), Python's clamping slice and well-formed UTF-8. */
module Bytes {

  type byte = x: int | 0 <= x < 256

  function Min(a: int, b: int): int { if a <= b then a else b }

  /** `s[a:b]` in Python for 0 <= a, b: both bounds are clamped to the length, so it never raises. */
  function PySlice<T>(s: seq<T>, a: nat, b: nat): (r: seq<T>)
    ensures a <= b <= |s| ==> r == s[a..b]
    ensures |r| == if Min(a, |s|) <= Min(b, |s|) then Min(b, |s|) - Min(a, |s|) else 0
  {
    var lo := Min(a, |s|);
    var hi := Min(b, |s|);
    if lo <= hi then s[lo..hi] else []
  }

  /** A big-endian unsigned 16-bit field (`struct.pack(">H", n)`). */
  function BeU16(n: nat): (r: seq<byte>)
    requires n < 0x1_0000
    ensures |r| == 2
  {
    [n / 256, n % 256]
  }

  /** `struct.unpack(">H", b)` on exactly two bytes. */
  function BeU16Value(b: seq<byte>): nat
    requires |b| == 2
  {
    (b[0] as int) * 256 + (b[1] as int)
  }

  lemma BeU16RoundTrip(n: nat)
    requires n < 0x1_0000
    ensures BeU16Value(BeU16(n)) == n
  {
  }

  /** A UTF-8 continuation byte, 10xxxxxx. */
  predicate Cont(b: byte) { 0x80 <= b <= 0xBF }

  /** The length of the well-formed UTF-8 character at offset `i` of `t`, or 0 when there is
      none. The byte ranges are the UTF8-char rule of section 4 of RFC 3629, which is what
      Python's strict "utf-8" codec accepts: no overlong forms, no surrogates
      U+D800..U+DFFF, nothing above U+10FFFF, and no character cut short by the end. */
  function Utf8CharLen(t: seq<byte>, i: nat): (n: nat)
    requires i < |t|
    ensures n <= |t| - i
    ensures t[i] < 0x80 ==> n == 1
  {
    var b := t[i];
    var left := |t| - i;
    if b < 0x80 then 1
    else if 0xC2 <= b <= 0xDF && left >= 2 && Cont(t[i + 1]) then 2
    else if b == 0xE0 && left >= 3 && 0xA0 <= t[i + 1] <= 0xBF && Cont(t[i + 2]) then 3
    else if (0xE1 <= b <= 0xEC || 0xEE <= b <= 0xEF) && left >= 3 && Cont(t[i + 1]) && Cont(t[i + 2]) then 3
    else if b == 0xED && left >= 3 && 0x80 <= t[i + 1] <= 0x9F && Cont(t[i + 2]) then 3
    else if b == 0xF0 && left >= 4 && 0x90 <= t[i + 1] <= 0xBF && Cont(t[i + 2]) && Cont(t[i + 3]) then 4
    else if 0xF1 <= b <= 0xF3 && left >= 4 && Cont(t[i + 1]) && Cont(t[i + 2]) && Cont(t[i + 3]) then 4
    else if b == 0xF4 && left >= 4 && 0x80 <= t[i + 1] <= 0x8F && Cont(t[i + 2]) && Cont(t[i + 3]) then 4
    else 0
  }

  /** From offset `i` on, `t` is a sequence of well-formed UTF-8 characters. */
  predicate Utf8From(t: seq<byte>, i: nat)
    requires i <= |t|
    decreases |t| - i
  {
    i == |t| || (Utf8CharLen(t, i) > 0 && Utf8From(t, i + Utf8CharLen(t, i)))
  }

  /** `t.decode("utf-8")` succeeds: `t` is a sequence of well-formed UTF-8 characters. */
  predicate WellFormedUtf8(t: seq<byte>)
  {
    Utf8From(t, 0)
  }

  /** ASCII bytes are well-formed UTF-8, one character each. */
  lemma AsciiUtf8(t: seq<byte>)
    requires forall i :: 0 <= i < |t| ==> t[i] < 0x80
    ensures WellFormedUtf8(t)
  {
    AsciiFrom(t, |t|);
  }

  lemma {:induction false} AsciiFrom(t: seq<byte>, i: nat)
    requires i <= |t|
    requires forall k :: 0 <= k < |t| ==> t[k] < 0x80
    ensures Utf8From(t, |t| - i)
    decreases i
  {
    if i > 0 {
      AsciiFrom(t, i - 1);
    }
  }
}
