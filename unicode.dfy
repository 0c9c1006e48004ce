/**
 * Well-formedness of UTF-8 byte sequences, as section 4 of RFC 3629 defines
 * it. A decoder that reports malformed input (rather than substituting) accepts
 * exactly these sequences: no overlong forms, no surrogates, nothing above
 * U+10FFFF, no truncated character at the end.
 */
module Unicode {
  type byte = bv8

  /** UTF8-tail = %x80-BF */
  predicate IsTail(b: byte) {
    0x80 <= b <= 0xBF
  }

  /** The range the second byte must lie in after a three- or four-byte lead. */
  predicate SecondByteFits(lead: byte, b: byte) {
    if lead == 0xE0 then 0xA0 <= b <= 0xBF
    else if lead == 0xED then 0x80 <= b <= 0x9F
    else if lead == 0xF0 then 0x90 <= b <= 0xBF
    else if lead == 0xF4 then 0x80 <= b <= 0x8F
    else IsTail(b)
  }

  /**
   * Length of the well-formed character (UTF8-char) that `s` starts with,
   * or 0 when `s` does not start with one.
   */
  function CharLength(s: seq<byte>): (n: nat)
    ensures n <= 4 && n <= |s|
    ensures n > 0 ==> s[0] < 0x80 || 0xC2 <= s[0] <= 0xF4
    ensures n > 0 ==> forall i :: 0 < i < n ==> IsTail(s[i])
  {
    if |s| == 0 then 0
    else if s[0] <= 0x7F then 1
    else if 0xC2 <= s[0] <= 0xDF then
      if |s| >= 2 && IsTail(s[1]) then 2 else 0
    else if 0xE0 <= s[0] <= 0xEF then
      if |s| >= 3 && SecondByteFits(s[0], s[1]) && IsTail(s[2]) then 3 else 0
    else if 0xF0 <= s[0] <= 0xF4 then
      if |s| >= 4 && SecondByteFits(s[0], s[1]) && IsTail(s[2]) && IsTail(s[3]) then 4 else 0
    else 0
  }

  /** UTF8-octets = *( UTF8-char ): the strict decode probe succeeds. */
  predicate IsStrictUtf8(s: seq<byte>)
    decreases |s|
  {
    s == [] || (CharLength(s) > 0 && IsStrictUtf8(s[CharLength(s)..]))
  }

  /** The first character's length depends only on the bytes it covers. */
  lemma CharLengthOfPrefix(a: seq<byte>, b: seq<byte>)
    requires CharLength(a) > 0
    ensures CharLength(a + b) == CharLength(a)
  {
  }

  /** Every 7-bit ASCII byte sequence passes the strict UTF-8 probe. */
  lemma {:induction false} AsciiIsStrictUtf8(s: seq<byte>)
    requires forall i :: 0 <= i < |s| ==> s[i] < 0x80
    ensures IsStrictUtf8(s)
  {
    if s != [] {
      assert CharLength(s) == 1;
      AsciiIsStrictUtf8(s[1..]);
    }
  }

  /** Well-formed sequences stay well-formed when concatenated. */
  lemma {:induction false} ConcatIsStrictUtf8(a: seq<byte>, b: seq<byte>)
    requires IsStrictUtf8(a) && IsStrictUtf8(b)
    ensures IsStrictUtf8(a + b)
  {
    if a == [] {
      assert a + b == b;
    } else {
      var n := CharLength(a);
      var ab := a + b;
      CharLengthOfPrefix(a, b);
      assert ab[n..] == a[n..] + b;
      ConcatIsStrictUtf8(a[n..], b);
      assert IsStrictUtf8(ab[CharLength(ab)..]);
    }
  }

  /**
   * A byte that can never occur in UTF-8 (0xC0, 0xC1, 0xF5 to 0xFF) anywhere
   * in the input makes the probe fail.
   */
  lemma {:induction false} ForbiddenByteIsNotStrictUtf8(s: seq<byte>, k: nat)
    requires k < |s|
    requires s[k] == 0xC0 || s[k] == 0xC1 || s[k] >= 0xF5
    ensures !IsStrictUtf8(s)
  {
    var n := CharLength(s);
    if n > 0 && k >= n {
      ForbiddenByteIsNotStrictUtf8(s[n..], k - n);
    }
  }
}
