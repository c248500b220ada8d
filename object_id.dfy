/**
 * The creation time carried by a MongoDB ObjectId: its first eight hex digits
 * are the creation time in seconds since 1970, written big-endian in lower-case
 * hexadecimal. The admin page decodes them with JavaScript's parseInt(s, 16),
 * which is modelled here as the ECMAScript parseInt algorithm fixed to radix 16
 * (None standing for NaN).
 */
module ObjectId {
  import opened Wrappers

  /** 16^8: one more than the largest value eight hex digits can write. */
  const Hex8Limit: nat := 0x1_0000_0000

  /** ECMAScript's StrWhiteSpaceChar: the WhiteSpace and LineTerminator code points. */
  predicate IsJsWhiteSpace(c: char)
  {
    c == '\t' || c == '\n' || c == '\U{000B}' || c == '\U{000C}' || c == '\r' || c == ' '
    || c == '\U{00A0}' || c == '\U{1680}' || ('\U{2000}' <= c <= '\U{200A}')
    || c == '\U{2028}' || c == '\U{2029}' || c == '\U{202F}' || c == '\U{205F}'
    || c == '\U{3000}' || c == '\U{FEFF}'
  }

  predicate IsHexDigit(c: char)
  {
    ('0' <= c <= '9') || ('a' <= c <= 'f') || ('A' <= c <= 'F')
  }

  predicate AllHex(s: string)
  {
    forall i :: 0 <= i < |s| ==> IsHexDigit(s[i])
  }

  function DigitValue(c: char): (v: nat)
    requires IsHexDigit(c)
    ensures v < 16
  {
    if '0' <= c <= '9' then c as int - '0' as int
    else if 'a' <= c <= 'f' then c as int - 'a' as int + 10
    else c as int - 'A' as int + 10
  }

  /** The lower-case digit for v, as MongoDB writes ObjectIds. */
  function HexChar(v: nat): (c: char)
    requires v < 16
    ensures IsHexDigit(c) && DigitValue(c) == v
  {
    "0123456789abcdef"[v]
  }

  function Pow16(n: nat): (p: nat)
    ensures p >= 1
  {
    if n == 0 then 1 else 16 * Pow16(n - 1)
  }

  /** The number written by a string of hex digits, most significant first. */
  function HexValue(s: string): (v: nat)
    requires AllHex(s)
    ensures v < Pow16(|s|)
  {
    if s == [] then 0 else HexValue(s[..|s| - 1]) * 16 + DigitValue(s[|s| - 1])
  }

  /** Length of the longest prefix of s made of hex digits. */
  function HexRunLength(s: string): (k: nat)
    ensures k <= |s| && AllHex(s[..k])
    ensures k < |s| ==> !IsHexDigit(s[k])
  {
    if s == [] || !IsHexDigit(s[0]) then 0
    else
      var k := 1 + HexRunLength(s[1..]);
      assert s[..k] == [s[0]] + s[1..][..k - 1];
      k
  }

  /** s without its leading white space. */
  function TrimStart(s: string): (t: string)
    ensures |t| <= |s| && t == s[|s| - |t|..]
    ensures t == [] || !IsJsWhiteSpace(t[0])
  {
    if s != [] && IsJsWhiteSpace(s[0]) then TrimStart(s[1..]) else s
  }

  /** s without one leading '+' or '-'. */
  function DropSign(t: string): (u: string)
    ensures |u| <= |t|
  {
    if |t| > 0 && (t[0] == '-' || t[0] == '+') then t[1..] else t
  }

  /** s without a leading "0x" or "0X". */
  function DropRadixPrefix(u: string): (v: string)
    ensures |v| <= |u|
  {
    if |u| >= 2 && u[0] == '0' && (u[1] == 'x' || u[1] == 'X') then u[2..] else u
  }

  /**
   * parseInt(s, 16): skip leading white space, take one optional sign, then an
   * optional "0x"/"0X" prefix, then the longest run of hex digits; no digits is NaN.
   */
  function ParseIntHex(s: string): (r: Option<int>)
    ensures r.Some? ==> -(Pow16(|s|) as int) < r.value < Pow16(|s|)
  {
    var t := TrimStart(s);
    var v := DropRadixPrefix(DropSign(t));
    var k := HexRunLength(v);
    if k == 0 then None
    else
      PowMonotone(k, |s|);
      var n: int := HexValue(v[..k]);
      Some(if |t| > 0 && t[0] == '-' then -n else n)
  }

  lemma {:induction false} PowMonotone(k: nat, n: nat)
    requires k <= n
    ensures Pow16(k) <= Pow16(n)
  {
    if k < n {
      PowMonotone(k, n - 1);
    }
  }

  /** A string of hex digits that parseInt reads whole. */
  lemma ParseAllHex(s: string)
    requires |s| > 0 && AllHex(s)
    ensures ParseIntHex(s) == Some(HexValue(s))
  {
    assert IsHexDigit(s[0]);
    HexIsNotSpace(s[0]);
    assert TrimStart(s) == s;
    assert DropSign(s) == s;
    assert DropRadixPrefix(s) == s by {
      if |s| >= 2 { assert IsHexDigit(s[1]); }
    }
    HexRunWhole(s);
    assert s[..|s|] == s;
  }

  lemma HexIsNotSpace(c: char)
    requires IsHexDigit(c)
    ensures !IsJsWhiteSpace(c)
  {
  }

  lemma {:induction false} HexRunWhole(s: string)
    requires AllHex(s)
    ensures HexRunLength(s) == |s|
  {
    if s != [] {
      HexRunWhole(s[1..]);
    }
  }

  /** The fixed-width lower-case hex spelling of t (the low `width` digits). */
  function ToHex(t: nat, width: nat): (s: string)
    ensures |s| == width && AllHex(s)
    ensures t < Pow16(width) ==> HexValue(s) == t
  {
    if width == 0 then ""
    else
      var s := ToHex(t / 16, width - 1) + [HexChar(t % 16)];
      assert s[..|s| - 1] == ToHex(t / 16, width - 1);
      s
  }

  /** The creation time in milliseconds read from an ObjectId, as the admin page reads it. */
  function TimestampMs(id: string): (r: Option<int>)
    ensures r.Some? ==> r.value % 1000 == 0
  {
    match ParseIntHex(id[..if |id| < 8 then |id| else 8])
    case Some(n) => Some(n * 1000)
    case None => None
  }

  /** Eight hex digits decode to a multiple of 1000 in [0, (16^8 - 1) * 1000]. */
  lemma TimestampBounds(id: string)
    requires |id| >= 8 && AllHex(id[..8])
    ensures TimestampMs(id).Some?
    ensures 0 <= TimestampMs(id).value <= (Hex8Limit - 1) * 1000
    ensures TimestampMs(id).value % 1000 == 0
  {
    ParseAllHex(id[..8]);
    assert Pow16(8) == Hex8Limit;
  }

  /** Decoding the id of a document created at second t gives back t * 1000. */
  lemma TimestampRoundTrip(t: nat, rest: string)
    requires t < Hex8Limit
    ensures TimestampMs(ToHex(t, 8) + rest) == Some(t * 1000)
  {
    var id := ToHex(t, 8) + rest;
    assert Pow16(8) == Hex8Limit;
    assert id[..8] == ToHex(t, 8);
    ParseAllHex(ToHex(t, 8));
  }
}
