/**
  UTF-8 (section 3 of RFC 3629) and the byte bounds put on text. A text is a sequence of
  Unicode scalar values, that is, a well-formed string.
 */
module Utf8 {
  import opened Wrappers

  type Byte = x: int | 0 <= x < 256

  const REPLACEMENT := '\U{FFFD}'

  // ---- Encoding ----------------------------------------------------------------------

  function EncodeChar(c: char): (r: seq<Byte>)
    ensures 1 <= |r| <= 4
  {
    var x := c as int;
    if x < 0x80 then [x]
    else if x < 0x800 then [0xC0 + x / 64, 0x80 + x % 64]
    else if x < 0x1_0000 then [0xE0 + x / 4096, 0x80 + x / 64 % 64, 0x80 + x % 64]
    else [0xF0 + x / 262144, 0x80 + x / 4096 % 64, 0x80 + x / 64 % 64, 0x80 + x % 64]
  }

  function Encode(s: string): seq<Byte> {
    if s == "" then [] else EncodeChar(s[0]) + Encode(s[1..])
  }

  function ByteLength(s: string): nat {
    |Encode(s)|
  }

  // ---- Decoding with replacement -----------------------------------------------------

  predicate Continuation(b: Byte) {
    0x80 <= b <= 0xBF
  }

  // How many bytes follow a lead byte; 0 for a byte that leads nothing.
  function Following(lead: Byte): (n: nat)
    ensures n <= 3
  {
    if 0xC2 <= lead <= 0xDF then 1
    else if 0xE0 <= lead <= 0xEF then 2
    else if 0xF0 <= lead <= 0xF4 then 3
    else 0
  }

  // May `b` follow `lead`? This keeps out overlong forms, surrogates and values past U+10FFFF.
  predicate Second(lead: Byte, b: Byte) {
    Continuation(b)
    && (lead == 0xE0 ==> b >= 0xA0) && (lead == 0xED ==> b <= 0x9F)
    && (lead == 0xF0 ==> b >= 0x90) && (lead == 0xF4 ==> b <= 0x8F)
  }

  // Length of the longest start of `b` that could begin a scalar value.
  function Reach(b: seq<Byte>): (n: nat)
    requires b != []
    ensures 1 <= n <= |b| && n <= 4
  {
    var need := Following(b[0]);
    if need < 1 || |b| < 2 || !Second(b[0], b[1]) then 1
    else if need < 2 || |b| < 3 || !Continuation(b[2]) then 2
    else if need < 3 || |b| < 4 || !Continuation(b[3]) then 3
    else 4
  }

  // The first scalar value and the bytes it takes: a maximal part that is not a whole
  // scalar value becomes one replacement character.
  function DecodeFirst(b: seq<Byte>): (r: (char, nat))
    requires b != []
    ensures 1 <= r.1 <= |b|
  {
    var n := Reach(b);
    if b[0] < 0x80 then (b[0] as char, 1)
    else if n != Following(b[0]) + 1 || n == 1 then (REPLACEMENT, n)
    else if n == 2 then (Two(b[0], b[1]) as char, 2)
    else if n == 3 then (Three(b[0], b[1], b[2]) as char, 3)
    else (Four(b[0], b[1], b[2], b[3]) as char, 4)
  }

  function Two(a: int, b: int): int { (a - 0xC0) * 64 + (b - 0x80) }
  function Three(a: int, b: int, c: int): int { (a - 0xE0) * 4096 + (b - 0x80) * 64 + (c - 0x80) }
  function Four(a: int, b: int, c: int, d: int): int { (a - 0xF0) * 262144 + (b - 0x80) * 4096 + (c - 0x80) * 64 + (d - 0x80) }

  function Decode(b: seq<Byte>): string {
    if b == [] then ""
    else
      var first := DecodeFirst(b);
      [first.0] + Decode(b[first.1..])
  }

  lemma DecodesWhole(c: char, rest: seq<Byte>)
    ensures DecodeFirst(EncodeChar(c) + rest) == (c, |EncodeChar(c)|)
  {
    var x := c as int;
    var b := EncodeChar(c) + rest;
    if x < 0x80 {
    } else if x < 0x800 {
      assert b[0] == 0xC0 + x / 64 && b[1] == 0x80 + x % 64;
    } else if x < 0x1_0000 {
      assert b[0] == 0xE0 + x / 4096 && b[1] == 0x80 + x / 64 % 64 && b[2] == 0x80 + x % 64;
      ThreeDigits(x);
    } else {
      assert b[0] == 0xF0 + x / 262144 && b[1] == 0x80 + x / 4096 % 64 && b[2] == 0x80 + x / 64 % 64 && b[3] == 0x80 + x % 64;
      FourDigits(x);
    }
  }

  lemma ThreeDigits(x: int)
    requires 0x800 <= x < 0xD800 || 0xE000 <= x < 0x1_0000
    ensures Three(0xE0 + x / 4096, 0x80 + x / 64 % 64, 0x80 + x % 64) == x
    ensures 0xE0 <= 0xE0 + x / 4096 <= 0xEF
    ensures x / 4096 == 0 ==> x / 64 % 64 >= 0x20
    ensures x / 4096 == 13 ==> x / 64 % 64 <= 0x1F
  {
    assert x / 64 == x / 4096 * 64 + x / 64 % 64;
  }

  lemma FourDigits(x: int)
    requires 0x1_0000 <= x < 0x11_0000
    ensures Four(0xF0 + x / 262144, 0x80 + x / 4096 % 64, 0x80 + x / 64 % 64, 0x80 + x % 64) == x
    ensures 0xF0 <= 0xF0 + x / 262144 <= 0xF4
    ensures x / 262144 == 0 ==> x / 4096 % 64 >= 0x10
    ensures x / 262144 == 4 ==> x / 4096 % 64 <= 0x0F
  {
    assert x / 64 == x / 4096 * 64 + x / 64 % 64;
    assert x / 4096 == x / 262144 * 64 + x / 4096 % 64;
  }

  // The table of the RFC: how many bytes a scalar value takes, and that the bits of the bytes,
  // read together, are the value.
  lemma EncodesByRange(c: char)
    ensures |EncodeChar(c)| == if c as int <= 0x7F then 1 else if c as int <= 0x7FF then 2 else if c as int <= 0xFFFF then 3 else 4
    ensures BitsOf(EncodeChar(c)) == c as int
    ensures |EncodeChar(c)| > 1 ==> forall i :: 1 <= i < |EncodeChar(c)| ==> 0x80 <= EncodeChar(c)[i] <= 0xBF
  {
    var x := c as int;
    if 0x800 <= x < 0x1_0000 {
      ThreeDigits(x);
    } else if x >= 0x1_0000 {
      FourDigits(x);
    }
  }

  // Below its marker, each leading byte carries the high bits and each further one six more.
  function BitsOf(b: seq<int>): int
    requires 1 <= |b| <= 4
  {
    if |b| == 1 then b[0]
    else if |b| == 2 then Two(b[0], b[1])
    else if |b| == 3 then Three(b[0], b[1], b[2])
    else Four(b[0], b[1], b[2], b[3])
  }

  // A scalar value cut short decodes to one replacement character.
  lemma DecodesCut(c: char, n: nat)
    requires 0 < n < |EncodeChar(c)|
    ensures DecodeFirst(EncodeChar(c)[..n]) == (REPLACEMENT, n)
  {
    CutReaches(c, n);
    hide Reach, EncodeChar;
  }

  lemma CutReaches(c: char, n: nat)
    requires 0 < n < |EncodeChar(c)|
    ensures Reach(EncodeChar(c)[..n]) == n
    ensures Following(EncodeChar(c)[0]) == |EncodeChar(c)| - 1 && EncodeChar(c)[0] >= 0x80
  {
    var x := c as int;
    var b := EncodeChar(c);
    if x < 0x800 {
    } else if x < 0x1_0000 {
      ThreeDigits(x);
      assert Following(b[0]) == 2 && (n > 1 ==> Second(b[0], b[1]));
    } else {
      FourDigits(x);
      assert Following(b[0]) == 3 && (n > 1 ==> Second(b[0], b[1])) && (n > 2 ==> Continuation(b[2]));
    }
  }

  lemma {:induction false} RoundTrip(s: string)
    ensures Decode(Encode(s)) == s
  {
    if s != "" {
      DecodesWhole(s[0], Encode(s[1..]));
      assert (EncodeChar(s[0]) + Encode(s[1..]))[|EncodeChar(s[0])|..] == Encode(s[1..]);
      RoundTrip(s[1..]);
    }
  }

  // ---- Truncation --------------------------------------------------------------------

  function Cut(b: seq<Byte>, maxBytes: nat): seq<Byte> {
    if maxBytes < |b| then b[..maxBytes] else b
  }

  function TruncateUtf8(text: string, maxBytes: int): string {
    if maxBytes <= 0 then ""
    else
      var truncated := Decode(Cut(Encode(text), maxBytes));
      if truncated != "" && truncated[|truncated| - 1] == REPLACEMENT then truncated[..|truncated| - 1] else truncated
  }

  // `k` scalar values of `s` are as many as fit in `maxBytes`.
  ghost predicate LongestFitting(s: string, maxBytes: int, k: nat) {
    && k <= |s| && ByteLength(s[..k]) <= maxBytes
    && (k < |s| ==> ByteLength(s[..k + 1]) > maxBytes)
  }

  lemma {:induction false} ByteLengthAdds(s: string, t: string)
    ensures Encode(s + t) == Encode(s) + Encode(t)
  {
    if s == "" {
      assert s + t == t;
    } else {
      assert (s + t)[1..] == s[1..] + t;
      ByteLengthAdds(s[1..], t);
    }
  }

  // Decoding the first bytes of a text gives its whole scalar values, and one replacement
  // character for the one cut through, if any.
  lemma {:induction false} DecodesCutText(s: string, m: nat) returns (k: nat)
    requires m <= ByteLength(s)
    ensures LongestFitting(s, m, k)
    ensures Decode(Encode(s)[..m]) == s[..k] + (if ByteLength(s[..k]) == m then "" else [REPLACEMENT])
  {
    hide Decode, EncodeChar;
    if m == 0 || m < |EncodeChar(s[0])| {
      k := 0;
      DecodesNothing(s, m);
    } else {
      k := DecodesCutText(s[1..], m - |EncodeChar(s[0])|);
      hide Encode, ByteLength;
      DecodesNext(s, m);
      FittingNext(s, m, k);
      assert s[..k + 1] == [s[0]] + s[1..][..k];
      PrefixLength(s, k);
      k := k + 1;
    }
  }

  lemma DecodesNothing(s: string, m: nat)
    requires m <= ByteLength(s) && (m == 0 || (s != "" && m < |EncodeChar(s[0])|))
    ensures LongestFitting(s, m, 0)
    ensures Decode(Encode(s)[..m]) == s[..0] + (if ByteLength(s[..0]) == m then "" else [REPLACEMENT])
  {
    if s != "" {
      PrefixLength(s, 0);
    }
    if m > 0 {
      DecodesFirstCut(s, m);
    }
  }

  lemma DecodesFirstCut(s: string, m: nat)
    requires s != "" && 0 < m < |EncodeChar(s[0])|
    ensures m <= ByteLength(s) && Decode(Encode(s)[..m]) == [REPLACEMENT]
  {
    hide EncodeChar, DecodeFirst;
    assert Encode(s)[..m] == EncodeChar(s[0])[..m];
    DecodesCut(s[0], m);
    assert EncodeChar(s[0])[..m][m..] == [];
  }

  lemma DecodesNext(s: string, m: nat)
    requires s != "" && |EncodeChar(s[0])| <= m <= ByteLength(s)
    ensures m - |EncodeChar(s[0])| <= ByteLength(s[1..])
    ensures Decode(Encode(s)[..m]) == [s[0]] + Decode(Encode(s[1..])[..m - |EncodeChar(s[0])|])
  {
    hide DecodeFirst, EncodeChar;
    var first := EncodeChar(s[0]);
    var rest := Encode(s[1..])[..m - |first|];
    assert Encode(s)[..m] == first + rest;
    DecodesWhole(s[0], rest);
    assert (first + rest)[|first|..] == rest;
  }

  lemma FittingNext(s: string, m: nat, k: nat)
    requires s != "" && LongestFitting(s[1..], m - |EncodeChar(s[0])|, k)
    ensures LongestFitting(s, m, k + 1)
  {
    hide Encode, EncodeChar, ByteLength;
    PrefixLength(s, k);
    if k + 1 < |s| {
      PrefixLength(s, k + 1);
    }
  }

  lemma PrefixLength(s: string, k: nat)
    requires k + 1 <= |s|
    ensures ByteLength(s[..k + 1]) == |EncodeChar(s[0])| + ByteLength(s[1..][..k])
  {
    assert s[..k + 1][1..] == s[1..][..k];
  }

  lemma LongestFittingIsUnique(s: string, m: int, j: nat, k: nat)
    requires LongestFitting(s, m, j) && LongestFitting(s, m, k)
    ensures j == k
  {
    if j < k {
      PrefixesGrow(s, j + 1, k);
    } else if k < j {
      PrefixesGrow(s, k + 1, j);
    }
  }

  lemma PrefixesGrow(s: string, j: nat, k: nat)
    requires j <= k <= |s|
    ensures ByteLength(s[..j]) <= ByteLength(s[..k])
  {
    assert s[..k] == s[..j] + s[j..k];
    ByteLengthAdds(s[..j], s[j..k]);
  }

  // Truncation keeps the longest prefix of whole scalar values that fits, except that a cut
  // falling exactly behind a real U+FFFD loses that one character.
  lemma TruncationIsLongestPrefix(text: string, maxBytes: int, k: nat)
    requires LongestFitting(text, maxBytes, k)
    ensures TruncateUtf8(text, maxBytes) ==
              if k > 0 && text[k - 1] == REPLACEMENT && (ByteLength(text[..k]) == maxBytes || k == |text|)
              then text[..k - 1] else text[..k]
  {
    hide Decode, Encode, Cut, LongestFitting, ByteLength;
    if maxBytes > 0 {
      DecodesCutAt(text, maxBytes, k);
      assert (text[..k] + [REPLACEMENT])[..k] == text[..k];
    } else {
      NothingFits(text, maxBytes, k);
    }
  }

  lemma DecodesCutAt(text: string, maxBytes: nat, k: nat)
    requires LongestFitting(text, maxBytes, k)
    ensures k <= |text|
    ensures Decode(Cut(Encode(text), maxBytes)) ==
              text[..k] + (if ByteLength(text[..k]) == maxBytes || k == |text| then "" else [REPLACEMENT])
  {
    hide Decode, Encode;
    assert text[..|text|] == text;
    if maxBytes < ByteLength(text) {
      var j := DecodesCutText(text, maxBytes);
      LongestFittingIsUnique(text, maxBytes, j, k);
    } else {
      RoundTrip(text);
      LongestFittingIsUnique(text, maxBytes, k, |text|);
    }
  }

  lemma NothingFits(text: string, m: int, k: nat)
    requires LongestFitting(text, m, k) && m <= 0
    ensures k == 0
  {
    hide Encode, ByteLength;
    if k > 0 {
      PrefixLength(text, k - 1);
    }
  }

  lemma FittingExists(text: string, maxBytes: nat) returns (k: nat)
    ensures LongestFitting(text, maxBytes, k)
  {
    if maxBytes < ByteLength(text) {
      k := DecodesCutText(text, maxBytes);
    } else {
      k := |text|;
      assert text[..k] == text;
    }
  }

  lemma TruncationFits(text: string, maxBytes: int)
    ensures maxBytes >= 0 ==> ByteLength(TruncateUtf8(text, maxBytes)) <= maxBytes
    ensures TruncateUtf8(text, maxBytes) <= text
  {
    if maxBytes > 0 {
      var k := FittingExists(text, maxBytes);
      TruncationIsLongestPrefix(text, maxBytes, k);
      if k > 0 {
        PrefixesGrow(text, k - 1, k);
      }
    }
  }

  // ---- Bounded text ------------------------------------------------------------------

  const SUFFIX := "\n[output truncated by Agent Runtime]"

  function BoundText(text: string, maxBytes: Option<nat>): string {
    if maxBytes.None? || maxBytes.value == 0 || ByteLength(text) <= maxBytes.value then text
    else
      var suffixBytes := ByteLength(SUFFIX);
      if maxBytes.value <= suffixBytes then TruncateUtf8(text, maxBytes.value)
      else TruncateUtf8(text, maxBytes.value - suffixBytes) + SUFFIX
  }

  predicate IsTextOverLimit(text: string, maxBytes: Option<nat>) {
    maxBytes.Some? && maxBytes.value > 0 && ByteLength(text) > maxBytes.value
  }

  // Bounded text keeps to its limit, and differs from the text exactly when that is over it.
  lemma BoundTextFits(text: string, maxBytes: Option<nat>)
    ensures maxBytes.Some? && maxBytes.value > 0 ==> ByteLength(BoundText(text, maxBytes)) <= maxBytes.value
    ensures BoundText(text, maxBytes) != text <==> IsTextOverLimit(text, maxBytes)
    ensures BoundText(text, maxBytes) != text <==> maxBytes.Some? && maxBytes.value != 0 && ByteLength(text) > maxBytes.value
  {
    hide TruncateUtf8, Encode;
    if maxBytes.Some? {
      var room := maxBytes.value - ByteLength(SUFFIX);
      TruncationFits(text, maxBytes.value);
      TruncationFits(text, room);
      ByteLengthAdds(TruncateUtf8(text, room), SUFFIX);
    }
  }

  // Where not even the notice has room, the text is cut without one.
  lemma BoundTextWithoutNotice(text: string, maxBytes: nat, k: nat)
    requires 0 < maxBytes < ByteLength(text) && maxBytes <= 36 && LongestFitting(text, maxBytes, k)
    ensures k < |text|
    ensures BoundText(text, Some(maxBytes)) ==
              if k > 0 && text[k - 1] == REPLACEMENT && ByteLength(text[..k]) == maxBytes then text[..k - 1] else text[..k]
  {
    SuffixLength();
    hide TruncateUtf8, ByteLength;
    assert text[..|text|] == text;
    TruncationIsLongestPrefix(text, maxBytes, k);
  }

  lemma SuffixLength()
    ensures ByteLength("\n[output truncated by Agent Runtime]") == 36
  {
    AsciiLength("\n[output truncated by Agent Runtime]");
  }

  lemma {:induction false} AsciiLength(s: string)
    requires forall i :: 0 <= i < |s| ==> s[i] as int < 0x80
    ensures ByteLength(s) == |s|
  {
    if s != "" {
      AsciiLength(s[1..]);
    }
  }

  // With room for the notice, an over-long text keeps its longest prefix that fits in front of
  // it, less one real U+FFFD exactly when the cut falls behind that.
  lemma BoundTextKeepsPrefix(text: string, maxBytes: nat, k: nat)
    requires IsTextOverLimit(text, Some(maxBytes)) && maxBytes > ByteLength(SUFFIX)
    requires LongestFitting(text, maxBytes - ByteLength(SUFFIX), k)
    ensures k < |text|
    ensures BoundText(text, Some(maxBytes)) ==
              (if k > 0 && text[k - 1] == REPLACEMENT && ByteLength(text[..k]) == maxBytes - ByteLength(SUFFIX)
               then text[..k - 1] else text[..k]) + "\n[output truncated by Agent Runtime]"
  {
    hide TruncateUtf8, ByteLength;
    assert text[..|text|] == text;
    TruncationIsLongestPrefix(text, maxBytes - ByteLength(SUFFIX), k);
  }
}
