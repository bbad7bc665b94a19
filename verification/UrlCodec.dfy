/** ToHex and UrlEncode (includes/HttpConnection.h) on byte strings, with isalnum as in the
    "C" locale, and a decoder for form-encoded text to measure them against. */
module UrlCodec {
  import opened Options

  type Byte = bv8

  type Bytes = seq<Byte>

  const SPACE: Byte := 32
  const PERCENT: Byte := 37
  const PLUS: Byte := 43

  function ToHex(x: Byte): Byte { if x > 9 then x + 55 else x + 48 }

  predicate IsAlnum(b: Byte) { 48 <= b <= 57 || 65 <= b <= 90 || 97 <= b <= 122 }

  /** The unreserved characters of section 2.3 of RFC 3986: letters, digits, - _ . ~ */
  predicate Unreserved(b: Byte) { IsAlnum(b) || b == 45 || b == 95 || b == 46 || b == 126 }

  /** What one input byte adds to the output. */
  function EncodeByte(b: Byte): Bytes {
    if Unreserved(b) then [b]
    else if b == SPACE then [PLUS]
    else [PERCENT, ToHex(b >> 4), ToHex(b & 0x0F)]
  }

  function Encode(s: Bytes): Bytes {
    if s == [] then [] else EncodeByte(s[0]) + Encode(s[1..])
  }

  /** The bytes of ABCDEFGHIJKLMNOPQRSTUVWXYZ abcdefghijklmnopqrstuvwxyz 0123456789 - . _ ~ */
  predicate Listed(b: Byte) {
    b in {
      65, 66, 67, 68, 69, 70, 71, 72, 73, 74, 75, 76, 77, 78, 79, 80, 81, 82, 83, 84, 85, 86, 87, 88, 89, 90,
      97, 98, 99, 100, 101, 102, 103, 104, 105, 106, 107, 108, 109, 110, 111, 112, 113, 114, 115, 116, 117, 118,
      119, 120, 121, 122, 48, 49, 50, 51, 52, 53, 54, 55, 56, 57, 45, 46, 95, 126}
  }

  /** The bytes of 0123456789ABCDEF */
  const HEX_DIGITS: Bytes := [48, 49, 50, 51, 52, 53, 54, 55, 56, 57, 65, 66, 67, 68, 69, 70]

  /** The code of every byte, read off two tables: itself, a plus sign, or a triplet. */
  lemma CodesAre(b: Byte)
    ensures Unreserved(b) <==> Listed(b)
    ensures Listed(b) ==> Encode([b]) == [b]
    ensures Encode([32]) == [43]
    ensures !Listed(b) && b != 32 ==>
      Encode([b]) == [37, HEX_DIGITS[(b >> 4) as int], HEX_DIGITS[(b & 0x0F) as int]]
  {
    OneByte(32);
    OneByte(b);
    ListedIffUnreserved(b);
    if !Unreserved(b) {
      DigitOf(b >> 4);
      DigitOf(b & 0x0F);
    }
  }

  lemma OneByte(b: Byte)
    ensures Encode([b]) == EncodeByte(b)
  {
    assert [b][1..] == [] && EncodeByte(b) + [] == EncodeByte(b);
  }

  lemma DigitOf(x: Byte)
    requires x < 16
    ensures ToHex(x) == HEX_DIGITS[x as int]
  {
  }

  lemma ListedIffUnreserved(b: Byte)
    ensures Unreserved(b) <==> Listed(b)
  {
  }

  lemma {:induction false} EncodeAppend(s: Bytes, b: Byte)
    ensures Encode(s + [b]) == Encode(s) + EncodeByte(b)
  {
    if s == [] {
      assert (s + [b])[1..] == [];
    } else {
      assert (s + [b])[1..] == s[1..] + [b];
      EncodeAppend(s[1..], b);
    }
  }

  /** The index loop of the source, appending to strTemp. */
  method UrlEncode(str: Bytes) returns (strTemp: Bytes)
    ensures strTemp == Encode(str)
  {
    strTemp := [];
    var length := |str|;
    var i := 0;
    while i < length
      invariant 0 <= i <= length
      invariant strTemp == Encode(str[..i])
    {
      var c := str[i];
      ghost var before := strTemp;
      if IsAlnum(c) || c == 45 || c == 95 || c == 46 || c == 126 {
        strTemp := strTemp + [c];
      } else if c == SPACE {
        strTemp := strTemp + [PLUS];
      } else {
        strTemp := strTemp + [PERCENT];
        strTemp := strTemp + [ToHex(c >> 4)];
        strTemp := strTemp + [ToHex(c & 0x0F)];
      }
      assert strTemp == before + EncodeByte(c);
      assert strTemp == Encode(str[..i + 1]) by {
        EncodeAppend(str[..i], c);
        assert str[..i + 1] == str[..i] + [c];
      }
      i := i + 1;
    }
    assert str[..length] == str;
  }

  // ----- the reference decoder -----

  /** The value of a hexadecimal digit, in either case. */
  function HexValue(b: Byte): Option<Byte> {
    if 48 <= b <= 57 then Some(b - 48)
    else if 65 <= b <= 70 then Some(b - 55)
    else if 97 <= b <= 102 then Some(b - 87)
    else None
  }

  function Decode(t: Bytes): Option<Bytes> {
    if t == [] then Some([])
    else if t[0] == PERCENT then
      if |t| < 3 then None
      else match (HexValue(t[1]), HexValue(t[2]))
           case (Some(h), Some(l)) => Prepend((h << 4) | l, Decode(t[3..]))
           case _ => None
    else Prepend(if t[0] == PLUS then SPACE else t[0], Decode(t[1..]))
  }

  function Prepend(b: Byte, rest: Option<Bytes>): Option<Bytes> {
    match rest
    case Some(s) => Some([b] + s)
    case None => None
  }

  lemma HexOfNibble(x: Byte)
    requires x < 16
    ensures HexValue(ToHex(x)) == Some(x)
    ensures 48 <= ToHex(x) <= 57 || 65 <= ToHex(x) <= 70
  {
  }

  /** Decoding reads back one encoded byte and goes on with the rest. */
  lemma DecodeOne(b: Byte, rest: Bytes)
    ensures Decode(EncodeByte(b) + rest) == Prepend(b, Decode(rest))
  {
    var t := EncodeByte(b) + rest;
    if Unreserved(b) || b == SPACE {
      assert t[1..] == rest;
    } else {
      HexOfNibble(b >> 4);
      HexOfNibble(b & 0x0F);
      assert t[3..] == rest;
    }
  }

  /** The encoding can be undone, for every byte string. */
  lemma {:induction false} DecodeEncode(s: Bytes)
    ensures Decode(Encode(s)) == Some(s)
  {
    if s != [] {
      DecodeEncode(s[1..]);
      DecodeOne(s[0], Encode(s[1..]));
      assert [s[0]] + s[1..] == s;
    }
  }

  /** So two different strings never encode to the same text. */
  lemma EncodeInjective(s: Bytes, t: Bytes)
    ensures Encode(s) == Encode(t) <==> s == t
  {
    DecodeEncode(s);
    DecodeEncode(t);
  }

  /** No byte's code begins another byte's code. */
  lemma CodesPrefixFree(a: Byte, b: Byte)
    ensures EncodeByte(a) <= EncodeByte(b) <==> a == b
  {
    if EncodeByte(a) <= EncodeByte(b) {
      var rest := EncodeByte(b)[|EncodeByte(a)|..];
      assert EncodeByte(b) == EncodeByte(a) + rest;
      DecodeOne(a, rest);
      DecodeOne(b, []);
      assert EncodeByte(b) + [] == EncodeByte(b);
    }
  }

  predicate UpperHex(b: Byte) { 48 <= b <= 57 || 65 <= b <= 70 }

  /** The texts UrlEncode may write: unreserved bytes, plus signs, and triplets of section
      2.1 of RFC 3986 with upper-case digits, used only for bytes that need one. */
  predicate Canonical(t: Bytes) {
    if t == [] then true
    else if t[0] == PERCENT then
      |t| >= 3 && UpperHex(t[1]) && UpperHex(t[2])
      && (var b := (HexValue(t[1]).value << 4) | HexValue(t[2]).value; !Unreserved(b) && b != SPACE)
      && Canonical(t[3..])
    else (Unreserved(t[0]) || t[0] == PLUS) && Canonical(t[1..])
  }

  lemma CanonicalOne(b: Byte, rest: Bytes)
    ensures Canonical(EncodeByte(b) + rest) == Canonical(rest)
  {
    var t := EncodeByte(b) + rest;
    if Unreserved(b) || b == SPACE {
      assert t[1..] == rest;
    } else {
      HexOfNibble(b >> 4);
      HexOfNibble(b & 0x0F);
      assert t[3..] == rest;
    }
  }

  lemma {:induction false} EncodeIsCanonical(s: Bytes)
    ensures Canonical(Encode(s))
  {
    if s != [] {
      EncodeIsCanonical(s[1..]);
      CanonicalOne(s[0], Encode(s[1..]));
    }
  }

  /** A canonical text begins with the code of one byte. */
  lemma CanonicalHead(t: Bytes) returns (b: Byte, rest: Bytes)
    requires t != [] && Canonical(t)
    ensures t == EncodeByte(b) + rest && |rest| < |t|
  {
    if t[0] == PERCENT {
      b := TripletHead(t);
      rest := t[3..];
    } else {
      b, rest := if t[0] == PLUS then SPACE else t[0], t[1..];
      assert EncodeByte(b) == [t[0]];
      assert t == [t[0]] + rest;
    }
  }

  lemma TripletHead(t: Bytes) returns (b: Byte)
    requires t != [] && t[0] == PERCENT && Canonical(t)
    ensures t == EncodeByte(b) + t[3..]
  {
    b := (HexValue(t[1]).value << 4) | HexValue(t[2]).value;
    HexPair(t[1], t[2]);
    assert t == [t[0], t[1], t[2]] + t[3..];
  }

  lemma HexPair(h: Byte, l: Byte)
    requires UpperHex(h) && UpperHex(l)
    ensures var b := (HexValue(h).value << 4) | HexValue(l).value; ToHex(b >> 4) == h && ToHex(b & 0x0F) == l
  {
  }

  /** A canonical text is the encoding of what it decodes to. */
  lemma {:induction false} CanonicalIsEncoded(t: Bytes)
    requires Canonical(t)
    ensures exists s :: Encode(s) == t
    decreases |t|
  {
    if t == [] {
      assert Encode([]) == t;
    } else {
      var b, rest := CanonicalHead(t);
      CanonicalOne(b, rest);
      CanonicalIsEncoded(rest);
      var s :| Encode(s) == rest;
      assert ([b] + s)[1..] == s;
      assert Encode([b] + s) == t;
    }
  }

  /** UrlEncode writes exactly the canonical texts. */
  lemma EncodeImage(t: Bytes)
    ensures Canonical(t) <==> exists s :: Encode(s) == t
  {
    if Canonical(t) {
      CanonicalIsEncoded(t);
    }
    if s :| Encode(s) == t {
      EncodeIsCanonical(s);
    }
  }

  /** How many bytes of `s` are written as triplets. */
  function Escaped(s: Bytes): nat {
    if s == [] then 0 else (if Unreserved(s[0]) || s[0] == SPACE then 0 else 1) + Escaped(s[1..])
  }

  lemma {:induction false} EncodeLength(s: Bytes)
    ensures |Encode(s)| == |s| + 2 * Escaped(s)
  {
    if s != [] {
      EncodeLength(s[1..]);
    }
  }

  /** The text is left as it is exactly when every byte is unreserved. */
  lemma {:induction false} EncodeFixed(s: Bytes)
    ensures Encode(s) == s <==> forall i :: 0 <= i < |s| ==> Unreserved(s[i])
  {
    if s != [] {
      EncodeFixed(s[1..]);
      EncodeLength(s[1..]);
      if Unreserved(s[0]) {
        assert Encode(s)[1..] == Encode(s[1..]);
        assert Encode(s) == s <==> Encode(s[1..]) == s[1..];
        assert forall i :: 1 <= i < |s| ==> s[i] == s[1..][i - 1];
      } else {
        assert Encode(s)[0] != s[0] || |Encode(s)| > |s|;
      }
    }
  }

  predicate AllUnreserved(s: Bytes) { forall i :: 0 <= i < |s| ==> Unreserved(s[i]) }

  lemma {:induction false} DecodeNeverGrows(t: Bytes)
    ensures Decode(t).Some? ==> |Decode(t).value| <= |t|
    ensures Decode(t).Some? && t != [] && t[0] == PERCENT ==> |Decode(t).value| < |t|
    decreases |t|
  {
    if t != [] {
      if t[0] == PERCENT && |t| >= 3 {
        DecodeNeverGrows(t[3..]);
      } else {
        DecodeNeverGrows(t[1..]);
      }
    }
  }

  /** The parser's comment speaks of decoding, its code encodes. The two agree on a raw key
      or value exactly when every byte of it is unreserved. */
  lemma {:induction false} EncodingIsDecodingIff(v: Bytes)
    ensures Decode(v) == Some(Encode(v)) <==> AllUnreserved(v)
  {
    if v != [] {
      EncodingIsDecodingIff(v[1..]);
      assert AllUnreserved(v) <==> Unreserved(v[0]) && AllUnreserved(v[1..]) by {
        assert forall i :: 1 <= i < |v| ==> v[i] == v[1..][i - 1];
      }
      if Unreserved(v[0]) {
        assert Encode(v)[1..] == Encode(v[1..]);
        if Decode(v[1..]).Some? {
          assert Decode(v).value[1..] == Decode(v[1..]).value;
        }
      } else if v[0] == PERCENT {
        DecodeNeverGrows(v);
        EncodeLength(v);
      } else if Decode(v).Some? {
        assert Decode(v).value[0] != Encode(v)[0];
      }
    }
  }
}
