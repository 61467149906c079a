/** Random UUIDs: 16 bytes from an entropy source, six bits overwritten in place, printed
    as lower-case hex (sections 3, 4.1.1, 4.1.3 and 4.4 of RFC 4122). */
module Uuid {
  import opened Wrappers

  type Byte = bv8

  function HexDigit(n: Byte): char {
    match n
    case 0 => '0' case 1 => '1' case 2 => '2' case 3 => '3' case 4 => '4' case 5 => '5' case 6 => '6' case 7 => '7'
    case 8 => '8' case 9 => '9' case 10 => 'a' case 11 => 'b' case 12 => 'c' case 13 => 'd' case 14 => 'e' case _ => 'f'
  }

  function HexValue(c: char): Byte {
    match c
    case '0' => 0 case '1' => 1 case '2' => 2 case '3' => 3 case '4' => 4 case '5' => 5 case '6' => 6 case '7' => 7
    case '8' => 8 case '9' => 9 case 'a' => 10 case 'b' => 11 case 'c' => 12 case 'd' => 13 case 'e' => 14 case _ => 15
  }

  predicate IsLowerHex(c: char) {
    '0' <= c <= '9' || 'a' <= c <= 'f'
  }

  function Hex(bytes: seq<Byte>): (s: string)
    ensures |s| == 2 * |bytes|
  {
    if bytes == [] then "" else [HexDigit(bytes[0] >> 4), HexDigit(bytes[0] & 0x0f)] + Hex(bytes[1..])
  }

  function Unhex(s: string): (bytes: seq<Byte>)
    requires |s| % 2 == 0
    ensures |bytes| == |s| / 2
  {
    if s == "" then [] else [(HexValue(s[0]) << 4) | HexValue(s[1])] + Unhex(s[2..])
  }

  function Print(b: seq<Byte>): string
    requires |b| == 16
  {
    Hex(b[..4]) + "-" + Hex(b[4..6]) + "-" + Hex(b[6..8]) + "-" + Hex(b[8..10]) + "-" + Hex(b[10..])
  }

  function Parse(s: string): seq<Byte>
    requires |s| == 36
  {
    Unhex(s[..8]) + Unhex(s[9..13]) + Unhex(s[14..18]) + Unhex(s[19..23]) + Unhex(s[24..])
  }

  function Version(x: Byte): Byte {
    (x & 0x0f) | 0x40
  }

  function Variant(x: Byte): Byte {
    (x & 0x3f) | 0x80
  }

  /** The two fields the RFC fixes: four version bits and two variant bits. */
  function Stamp(b: seq<Byte>): (r: seq<Byte>)
    requires |b| == 16
    ensures |r| == 16
  {
    b[8 := Variant(b[8])][6 := Version(b[6])]
  }

  /** `entropy` is what the reader yields before it ends or fails. */
  method New(entropy: seq<Byte>) returns (r: Option<string>)
    ensures r.Some? <==> |entropy| >= 16
    ensures r.Some? ==> r.value == Print(Stamp(entropy[..16]))
  {
    if |entropy| < 16 {
      return None;
    }
    var uuid := new Byte[16](i requires 0 <= i < 16 => entropy[i]);
    uuid[8] := (uuid[8] & !0xc0) | 0x80;
    uuid[6] := (uuid[6] & !0xf0) | 0x40;
    assert uuid[..] == Stamp(entropy[..16]);
    r := Some(Hex(uuid[..4]) + "-" + Hex(uuid[4..6]) + "-" + Hex(uuid[6..8]) + "-" + Hex(uuid[8..10])
              + "-" + Hex(uuid[10..]));
    assert uuid[..][..4] == uuid[..4] && uuid[..][4..6] == uuid[4..6] && uuid[..][6..8] == uuid[6..8];
    assert uuid[..][8..10] == uuid[8..10] && uuid[..][10..] == uuid[10..];
  }

  lemma DigitRoundTrip(n: Byte)
    requires n < 16
    ensures HexValue(HexDigit(n)) == n && IsLowerHex(HexDigit(n))
  {
  }

  lemma ByteRoundTrip(b: Byte)
    ensures (HexValue(HexDigit(b >> 4)) << 4) | HexValue(HexDigit(b & 0x0f)) == b
    ensures IsLowerHex(HexDigit(b >> 4)) && IsLowerHex(HexDigit(b & 0x0f))
  {
    DigitRoundTrip(b >> 4);
    DigitRoundTrip(b & 0x0f);
  }

  lemma {:induction false} HexRoundTrip(bytes: seq<Byte>)
    ensures Unhex(Hex(bytes)) == bytes
    ensures forall c :: c in Hex(bytes) ==> IsLowerHex(c)
  {
    if bytes != [] {
      HexRoundTrip(bytes[1..]);
      ByteRoundTrip(bytes[0]);
      assert Hex(bytes)[2..] == Hex(bytes[1..]);
    }
  }

  predicate IsUuidChar(c: char) {
    IsLowerHex(c) || c == '-'
  }

  /** Where the five groups of a printed UUID lie. */
  lemma Layout(p: string, q: string, r: string, t: string, u: string)
    requires |p| == 8 && |q| == |r| == |t| == 4 && |u| == 12
    ensures var s := p + "-" + q + "-" + r + "-" + t + "-" + u;
            && |s| == 36 && s[8] == s[13] == s[18] == s[23] == '-'
            && s[..8] == p && s[9..13] == q && s[14..18] == r && s[19..23] == t && s[24..] == u
            && s[14] == r[0] && s[19] == t[0] && s[35] == u[11]
  {
  }

  lemma GroupChars(p: string, q: string, r: string, t: string, u: string)
    requires forall c :: c in p || c in q || c in r || c in t || c in u ==> IsLowerHex(c)
    ensures forall c :: c in p + "-" + q + "-" + r + "-" + t + "-" + u ==> IsUuidChar(c)
  {
  }

  lemma Regroup(b: seq<Byte>)
    requires |b| == 16
    ensures b[..4] + b[4..6] + b[6..8] + b[8..10] + b[10..] == b
    ensures b[6..8] == [b[6], b[7]] && b[8..10] == [b[8], b[9]]
  {
  }

  lemma PrintParse(b: seq<Byte>)
    requires |b| == 16
    ensures var s := Print(b);
            && |s| == 36
            && s[8] == s[13] == s[18] == s[23] == '-'
            && (forall c :: c in s ==> IsUuidChar(c))
            && Parse(s) == b
  {
    HexRoundTrip(b[..4]);
    HexRoundTrip(b[4..6]);
    HexRoundTrip(b[6..8]);
    HexRoundTrip(b[8..10]);
    HexRoundTrip(b[10..]);
    Layout(Hex(b[..4]), Hex(b[4..6]), Hex(b[6..8]), Hex(b[8..10]), Hex(b[10..]));
    GroupChars(Hex(b[..4]), Hex(b[4..6]), Hex(b[6..8]), Hex(b[8..10]), Hex(b[10..]));
    Regroup(b);
  }

  /** The digits that show version and variant, and the last one. */
  lemma TellingDigits(b: seq<Byte>)
    requires |b| == 16
    ensures var s := Print(b);
            |s| == 36 && s[14] == HexDigit(b[6] >> 4) && s[19] == HexDigit(b[8] >> 4) && IsLowerHex(s[35])
  {
    HexRoundTrip(b[10..]);
    Layout(Hex(b[..4]), Hex(b[4..6]), Hex(b[6..8]), Hex(b[8..10]), Hex(b[10..]));
    Regroup(b);
    assert Hex(b[10..])[11] in Hex(b[10..]);
  }

  /** The 122 bits the generator keeps. */
  ghost predicate SameFreeBits(a: seq<Byte>, b: seq<Byte>)
    requires |a| == |b| == 16
  {
    && (forall i :: 0 <= i < 16 && i != 6 && i != 8 ==> a[i] == b[i])
    && a[6] & 0x0f == b[6] & 0x0f
    && a[8] & 0x3f == b[8] & 0x3f
  }

  lemma MaskedBytes(x: Byte, y: Byte)
    ensures Version(x) == Version(y) <==> x & 0x0f == y & 0x0f
    ensures Variant(x) == Variant(y) <==> x & 0x3f == y & 0x3f
    ensures Version(x) >> 4 == 4 && 8 <= Variant(x) >> 4 <= 11
  {
  }

  /** Every printed UUID is a 36-character lower-case version 4 UUID of the RFC variant; it
      parses back to the stamped bytes. */
  lemma VersionFour(b: seq<Byte>)
    requires |b| == 16
    ensures var s := Print(Stamp(b));
            && |s| == 36 && Parse(s) == Stamp(b)
            && s[8] == s[13] == s[18] == s[23] == '-'
            && (forall c :: c in s ==> IsUuidChar(c))
            && s[14] == '4' && s[19] in "89ab"
  {
    PrintParse(Stamp(b));
    TellingDigits(Stamp(b));
    MaskedBytes(b[6], b[6]);
    MaskedBytes(b[8], b[8]);
    assert Stamp(b)[6] == Version(b[6]) && Stamp(b)[8] == Variant(b[8]);
  }

  lemma PatchesEqualIff(a: seq<Byte>, b: seq<Byte>, a6: Byte, a8: Byte, b6: Byte, b8: Byte)
    requires |a| == |b| == 16
    ensures a[8 := a8][6 := a6] == b[8 := b8][6 := b6] <==>
            (forall i :: 0 <= i < 16 && i != 6 && i != 8 ==> a[i] == b[i]) && a6 == b6 && a8 == b8
  {
    var x, y := a[8 := a8][6 := a6], b[8 := b8][6 := b6];
    assert forall i :: 0 <= i < 16 && i != 6 && i != 8 ==> x[i] == a[i] && y[i] == b[i];
    assert x[6] == a6 && x[8] == a8 && y[6] == b6 && y[8] == b8;
  }

  lemma StampsEqualIff(a: seq<Byte>, b: seq<Byte>)
    requires |a| == |b| == 16
    ensures Stamp(a) == Stamp(b) <==> SameFreeBits(a, b)
  {
    MaskedBytes(a[6], b[6]);
    MaskedBytes(a[8], b[8]);
    PatchesEqualIff(a, b, Version(a[6]), Variant(a[8]), Version(b[6]), Variant(b[8]));
  }

  /** Two draws print alike exactly when they agree on the 122 free bits. */
  lemma CollidesIff(a: seq<Byte>, b: seq<Byte>)
    requires |a| == |b| == 16
    ensures Print(Stamp(a)) == Print(Stamp(b)) <==> SameFreeBits(a, b)
  {
    PrintParse(Stamp(a));
    PrintParse(Stamp(b));
    StampsEqualIff(a, b);
  }

  const AUTO_BUCKET_PREFIX := "tmp-s3fs-"

  /** Generated bucket names are 45 characters of lower-case letters, digits and hyphens,
      starting with a letter and ending with neither a hyphen nor a dot. */
  lemma GeneratedBucketName(b: seq<Byte>)
    requires |b| == 16
    ensures var name := AUTO_BUCKET_PREFIX + Print(Stamp(b));
            && |name| == 45
            && (forall c :: c in name ==> 'a' <= c <= 'z' || '0' <= c <= '9' || c == '-')
            && 'a' <= name[0] <= 'z' && IsLowerHex(name[44])
  {
    PrintParse(Stamp(b));
    TellingDigits(Stamp(b));
  }
}
