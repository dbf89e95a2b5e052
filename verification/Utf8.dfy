/** Truncating text to a byte limit without cutting a character. Well-formedness follows the
    syntax of section 4 of RFC 3629, and is shown to be the same as being the encoding of
    some scalar values by section 3. */
module Utf8 {
  newtype Byte = b: int | 0 <= b < 256

  // ----- section 4: the syntax of byte sequences --------------------------------------

  predicate Tail(b: Byte) { 0x80 <= b <= 0xBF }

  /** The length of the well-formed character at the front, 0 if there is none. */
  function CharLen(s: seq<Byte>): (n: nat)
    ensures n <= 4 && n <= |s|
  {
    if s == [] then 0
    else if s[0] <= 0x7F then 1
    else if |s| >= 2 && 0xC2 <= s[0] <= 0xDF && Tail(s[1]) then 2
    else if |s| >= 3 && Start3(s[0], s[1]) && Tail(s[2]) then 3
    else if |s| >= 4 && Start4(s[0], s[1]) && Tail(s[2]) && Tail(s[3]) then 4
    else 0
  }

  predicate Start3(a: Byte, b: Byte) {
    || (a == 0xE0 && 0xA0 <= b <= 0xBF)
    || (0xE1 <= a <= 0xEC && Tail(b))
    || (a == 0xED && 0x80 <= b <= 0x9F)
    || (0xEE <= a <= 0xEF && Tail(b))
  }

  predicate Start4(a: Byte, b: Byte) {
    || (a == 0xF0 && 0x90 <= b <= 0xBF)
    || (0xF1 <= a <= 0xF3 && Tail(b))
    || (a == 0xF4 && 0x80 <= b <= 0x8F)
  }

  predicate Valid(s: seq<Byte>) {
    s == [] || (CharLen(s) > 0 && Valid(s[CharLen(s)..]))
  }

  // ----- section 3: encoding scalar values -----------------------------------------------

  predicate Scalar(u: int) { 0 <= u < 0xD800 || 0xDFFF < u <= 0x10FFFF }

  /** The lowest six bits as a tail byte. */
  function TailByte(u: nat): Byte { (0x80 + u % 64) as Byte }

  function Encode(u: int): (s: seq<Byte>)
    requires Scalar(u)
    ensures 1 <= |s| <= 4
  {
    if u < 0x80 then [u as Byte]
    else if u < 0x800 then [(0xC0 + u / 64) as Byte, TailByte(u)]
    else if u < 0x1_0000 then [(0xE0 + u / 64 / 64) as Byte, TailByte(u / 64), TailByte(u)]
    else [(0xF0 + u / 64 / 64 / 64) as Byte, TailByte(u / 64 / 64), TailByte(u / 64), TailByte(u)]
  }

  function EncodeAll(text: seq<int>): seq<Byte>
    requires forall u | u in text :: Scalar(u)
  {
    if text == [] then [] else Encode(text[0]) + EncodeAll(text[1..])
  }

  /** Appends six bits from a tail byte. */
  function Push(u: int, tail: Byte): int { u * 64 + (tail as int - 0x80) }

  /** The scalar value of the character at the front. */
  function Decode(s: seq<Byte>): (u: int)
    requires CharLen(s) > 0
    ensures Scalar(u) && CharLen(s) == if u < 0x80 then 1 else if u < 0x800 then 2 else if u < 0x1_0000 then 3 else 4
  {
    var n := CharLen(s);
    if n == 1 then s[0] as int
    else if n == 2 then Push(s[0] as int - 0xC0, s[1])
    else if n == 3 then Push(Push(s[0] as int - 0xE0, s[1]), s[2])
    else Push(Push(Push(s[0] as int - 0xF0, s[1]), s[2]), s[3])
  }

  lemma PushInverts(u: nat, tail: Byte)
    requires Tail(tail)
    ensures var v := Push(u, tail); v >= 0 && v / 64 == u && TailByte(v) == tail
  {
  }

  lemma DecodeInverts(s: seq<Byte>)
    requires CharLen(s) > 0
    ensures Encode(Decode(s)) == s[..CharLen(s)]
  {
    hide TailByte, Push, Scalar;
    var n := CharLen(s);
    if n == 2 {
      PushInverts(s[0] as int - 0xC0, s[1]);
    } else if n == 3 {
      PushInverts(s[0] as int - 0xE0, s[1]);
      PushInverts(Push(s[0] as int - 0xE0, s[1]), s[2]);
    } else if n == 4 {
      PushInverts(s[0] as int - 0xF0, s[1]);
      PushInverts(Push(s[0] as int - 0xF0, s[1]), s[2]);
      PushInverts(Push(Push(s[0] as int - 0xF0, s[1]), s[2]), s[3]);
    }
  }

  lemma EncodedIsOneChar(u: int, rest: seq<Byte>)
    requires Scalar(u)
    ensures CharLen(Encode(u) + rest) == |Encode(u)|
  {
  }

  lemma {:induction false} EncodedIsValid(text: seq<int>)
    requires forall u | u in text :: Scalar(u)
    ensures Valid(EncodeAll(text))
  {
    if text != [] {
      EncodedIsValid(text[1..]);
      EncodedIsOneChar(text[0], EncodeAll(text[1..]));
      assert EncodeAll(text)[|Encode(text[0])|..] == EncodeAll(text[1..]);
    }
  }

  function DecodeAll(s: seq<Byte>): (text: seq<int>)
    requires Valid(s)
    ensures forall u | u in text :: Scalar(u)
  {
    if s == [] then [] else [Decode(s)] + DecodeAll(s[CharLen(s)..])
  }

  /** The syntax accepts exactly the encodings: decoding a valid sequence gives scalar values
      that encode back to it. */
  lemma {:induction false} ValidIsEncoded(s: seq<Byte>)
    requires Valid(s)
    ensures EncodeAll(DecodeAll(s)) == s
  {
    hide Encode, Decode, CharLen;
    if s != [] {
      var n := CharLen(s);
      var rest := DecodeAll(s[n..]);
      ValidIsEncoded(s[n..]);
      DecodeInverts(s);
      assert DecodeAll(s) == [Decode(s)] + rest;
      EncodeAllCons(Decode(s), rest);
      assert s == s[..n] + s[n..];
    }
  }

  lemma EncodeAllCons(u: int, rest: seq<int>)
    requires Scalar(u) && forall v | v in rest :: Scalar(v)
    ensures EncodeAll([u] + rest) == Encode(u) + EncodeAll(rest)
  {
    hide Encode;
    assert ([u] + rest)[1..] == rest;
  }

  // ----- prefixes ----------------------------------------------------------------------------

  /** A character does not depend on what follows it. */
  lemma CharLenOfPrefix(s: seq<Byte>, k: nat)
    requires CharLen(s) <= k <= |s| && CharLen(s) > 0
    ensures CharLen(s[..k]) == CharLen(s)
  {
  }

  /** A valid sequence has a character boundary within 3 bytes below any position. */
  lemma {:induction false} BoundaryBelow(s: seq<Byte>, m: nat) returns (k: nat)
    requires Valid(s) && m <= |s|
    ensures m <= k + 3 && k <= m && Valid(s[..k])
  {
    var n := CharLen(s);
    if m < n || s == [] {
      k := 0;
    } else {
      var rest := BoundaryBelow(s[n..], m - n);
      k := n + rest;
      CharLenOfPrefix(s, k);
      assert s[..k][n..] == s[n..][..rest];
    }
  }

  /** The length of the longest valid prefix of at most `n` bytes. */
  function LongestValid(s: seq<Byte>, n: nat): (k: nat)
    requires n <= |s|
    ensures k <= n && Valid(s[..k])
    ensures forall j | k < j <= n :: !Valid(s[..j])
  {
    if Valid(s[..n]) then n else LongestValid(s, n - 1)
  }

  function Truncated(s: seq<Byte>, maxBytes: int): seq<Byte> {
    if maxBytes <= 0 || |s| <= maxBytes then s else s[..LongestValid(s, maxBytes)]
  }

  /** The truncated text is the longest valid prefix within the limit; a valid text loses at
      most 3 bytes below the limit. */
  lemma TruncatedIsLongestValidPrefix(s: seq<Byte>, maxBytes: int)
    requires 0 < maxBytes < |s|
    ensures var r := Truncated(s, maxBytes);
            && r <= s && |r| <= maxBytes && Valid(r)
            && (forall j | |r| < j <= maxBytes :: !Valid(s[..j]))
            && (Valid(s) ==> |r| >= maxBytes - 3)
  {
    if Valid(s) {
      var k := BoundaryBelow(s, maxBytes);
    }
  }

  /** Truncating again, or a text that fits, or without a limit, changes nothing. */
  lemma TruncationIsIdempotent(s: seq<Byte>, maxBytes: int)
    ensures maxBytes <= 0 || |s| <= maxBytes ==> Truncated(s, maxBytes) == s
    ensures Truncated(Truncated(s, maxBytes), maxBytes) == Truncated(s, maxBytes)
    ensures maxBytes > 0 ==> |Truncated(s, maxBytes)| <= maxBytes
    ensures Valid(s) ==> Valid(Truncated(s, maxBytes))
  {
  }

  // ----- the two implementations -------------------------------------------------------------

  /** The one that shrinks a slice and reports whether it cut. */
  method TruncateUTF8BytesWithFlag(value: seq<Byte>, maxBytes: int) returns (truncated: seq<Byte>, cut: bool)
    ensures truncated == Truncated(value, maxBytes)
    ensures cut <==> 0 < maxBytes < |value|
  {
    if maxBytes <= 0 || |value| <= maxBytes { return value, false; }
    truncated := value[..maxBytes];
    while !Valid(truncated) && |truncated| > 0
      invariant |truncated| <= maxBytes && truncated == value[..|truncated|]
      invariant LongestValid(value, |truncated|) == LongestValid(value, maxBytes)
      decreases |truncated|
    {
      truncated := truncated[..|truncated| - 1];
    }
    cut := true;
  }

  /** The one that lowers the limit. Both agree on every input. */
  method TruncateUTF8Bytes(value: seq<Byte>, limit: int) returns (truncated: seq<Byte>)
    ensures truncated == Truncated(value, limit)
  {
    if limit <= 0 || |value| <= limit { return value; }
    var maxBytes := limit;
    while maxBytes > 0 && !Valid(value[..maxBytes])
      invariant 0 <= maxBytes <= limit && LongestValid(value, maxBytes) == LongestValid(value, limit)
    {
      maxBytes := maxBytes - 1;
    }
    if maxBytes <= 0 { return []; }
    truncated := value[..maxBytes];
  }
}
