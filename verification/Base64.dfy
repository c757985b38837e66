/**
 The base 64 encoding of section 4 of RFC 4648, as the sync control protocol carries envelopes,
 manifests and lifecycle documents. Unused trailing bits are dropped on decoding, so two texts
 may denote one payload; `Encode` gives the canonical text.
 */
module Base64 {
  import opened Prelude

  type Sextet = v: int | 0 <= v < 64

  function ToChar(v: Sextet): char {
    if v < 26 then (65 + v) as char
    else if v < 52 then (71 + v) as char
    else if v < 62 then (v - 4) as char
    else if v == 62 then '+'
    else '/'
  }

  function ToSextet(c: char): (v: Option<int>)
    ensures v.Some? ==> 0 <= v.value < 64
  {
    if 'A' <= c <= 'Z' then Some((c as int) - 65)
    else if 'a' <= c <= 'z' then Some((c as int) - 71)
    else if '0' <= c <= '9' then Some((c as int) + 4)
    else if c == '+' then Some(62)
    else if c == '/' then Some(63)
    else None
  }

  lemma CharRoundTrip(v: Sextet)
    ensures ToSextet(ToChar(v)) == Some(v) && ToChar(v) != '='
  {
  }

  // The four sextets of three octets, and the three octets of four sextets.
  function S0(x: Byte): Sextet { x / 4 }
  function S1(x: Byte, y: Byte): Sextet { x % 4 * 16 + y / 16 }
  function S2(y: Byte, z: Byte): Sextet { y % 16 * 4 + z / 64 }
  function S3(z: Byte): Sextet { z % 64 }
  function B0(p: Sextet, q: Sextet): Byte { (p as int) * 4 + (q as int) / 16 }
  function B1(q: Sextet, r: Sextet): Byte { (q as int) % 16 * 16 + (r as int) / 4 }
  function B2(r: Sextet, s: Sextet): Byte { (r as int) % 4 * 64 + (s as int) }

  lemma OctetsOfSextets(x: Byte, y: Byte, z: Byte)
    ensures B0(S0(x), S1(x, y)) == x
    ensures B1(S1(x, y), S2(y, z)) == y
    ensures B2(S2(y, z), S3(z)) == z
  {
  }

  function Encode(b: seq<Byte>): string {
    if b == [] then []
    else if |b| == 1 then [ToChar(S0(b[0])), ToChar(S1(b[0], 0)), '=', '=']
    else if |b| == 2 then [ToChar(S0(b[0])), ToChar(S1(b[0], b[1])), ToChar(S2(b[1], 0)), '=']
    else
      [ToChar(S0(b[0])), ToChar(S1(b[0], b[1])), ToChar(S2(b[1], b[2])), ToChar(S3(b[2]))]
      + Encode(b[3..])
  }

  function DecodeQuad(p: char, q: char, r: char, s: char, last: bool): Option<seq<Byte>> {
    match (ToSextet(p), ToSextet(q), ToSextet(r), ToSextet(s))
    case (Some(x), Some(y), Some(z), Some(w)) => Some([B0(x, y), B1(y, z), B2(z, w)])
    case (Some(x), Some(y), Some(z), None) => if last && s == '=' then Some([B0(x, y), B1(y, z)]) else None
    case (Some(x), Some(y), None, None) => if last && r == '=' && s == '=' then Some([B0(x, y)]) else None
    case _ => None
  }

  function Decode(s: string): Option<seq<Byte>> {
    if s == [] then Some([])
    else if |s| < 4 then None
    else
      match DecodeQuad(s[0], s[1], s[2], s[3], |s| == 4)
      case None => None
      case Some(head) =>
        match Decode(s[4..])
        case None => None
        case Some(rest) => Some(head + rest)
  }

  lemma QuadRoundTrip(x: Byte, y: Byte, z: Byte, last: bool)
    ensures DecodeQuad(ToChar(S0(x)), ToChar(S1(x, y)), ToChar(S2(y, z)), ToChar(S3(z)), last) == Some([x, y, z])
    ensures last && z == 0 ==>
      DecodeQuad(ToChar(S0(x)), ToChar(S1(x, y)), ToChar(S2(y, z)), '=', last) == Some([x, y])
    ensures last && y == 0 ==> DecodeQuad(ToChar(S0(x)), ToChar(S1(x, y)), '=', '=', last) == Some([x])
  {
    OctetsOfSextets(x, y, z);
    CharRoundTrip(S0(x));
    CharRoundTrip(S1(x, y));
    CharRoundTrip(S2(y, z));
    CharRoundTrip(S3(z));
  }

  lemma DecodeStep(s: string, head: seq<Byte>, rest: seq<Byte>)
    requires |s| >= 4
    requires DecodeQuad(s[0], s[1], s[2], s[3], |s| == 4) == Some(head)
    requires Decode(s[4..]) == Some(rest)
    ensures Decode(s) == Some(head + rest)
  {
  }

  predicate FirstQuadDecodes(b: seq<Byte>, n: nat)
    requires b != [] && n <= |b|
  {
    var s := Encode(b);
    && |s| >= 4 && s[4..] == Encode(b[n..])
    && DecodeQuad(s[0], s[1], s[2], s[3], |s| == 4) == Some(b[..n])
  }

  lemma FirstQuadOne(b: seq<Byte>)
    requires |b| == 1
    ensures FirstQuadDecodes(b, 1)
  {
    QuadRoundTrip(b[0], 0, 0, true);
    assert b[..1] == [b[0]];
  }

  lemma FirstQuadTwo(b: seq<Byte>)
    requires |b| == 2
    ensures FirstQuadDecodes(b, 2)
  {
    QuadRoundTrip(b[0], b[1], 0, true);
    assert b[..2] == [b[0], b[1]];
  }

  lemma FirstQuadThree(b: seq<Byte>)
    requires |b| >= 3
    ensures FirstQuadDecodes(b, 3)
  {
    QuadRoundTrip(b[0], b[1], b[2], |Encode(b)| == 4);
    assert b[..3] == [b[0], b[1], b[2]];
  }

  /** Encoding is lossless: decoding the canonical text gives back the payload. */
  lemma {:induction false} RoundTrip(b: seq<Byte>)
    ensures Decode(Encode(b)) == Some(b)
  {
    if b != [] {
      var n := if |b| < 3 then |b| else 3;
      if n == 1 {
        FirstQuadOne(b);
      } else if n == 2 {
        FirstQuadTwo(b);
      } else {
        FirstQuadThree(b);
      }
      RoundTrip(b[n..]);
      DecodeStep(Encode(b), b[..n], b[n..]);
      assert b == b[..n] + b[n..];
    }
  }

  // ----- which texts are encodings -----

  ghost predicate Letter(c: char) {
    'A' <= c <= 'Z' || 'a' <= c <= 'z' || '0' <= c <= '9' || c == '+' || c == '/'
  }

  /** The alphabet: capitals, small letters, digits, then the two signs. */
  lemma Alphabet(v: Sextet)
    ensures Letter(ToChar(v))
    ensures ToChar(0) == 'A' && ToChar(26) == 'a' && ToChar(52) == '0' && ToChar(62) == '+' && ToChar(63) == '/'
    ensures v != 0 && v != 26 && v != 52 && v < 62 ==> ToChar(v) as int == ToChar(v - 1) as int + 1
  {
  }

  lemma InAlphabet(c: char)
    ensures ToSextet(c).Some? <==> Letter(c)
  {
  }

  /** Characters of the alphabet, then `pad` signs that fill the last group of four. */
  ghost predicate Padded(s: string, pad: nat) {
    && |s| % 4 == 0 && pad <= 2 && pad <= |s|
    && (forall i :: 0 <= i < |s| - pad ==> Letter(s[i])) && (forall i :: |s| - pad <= i < |s| ==> s[i] == '=')
  }

  lemma QuadIff(p: char, q: char, r: char, s: char, last: bool)
    ensures var d := DecodeQuad(p, q, r, s, last);
      var text := [p, q, r, s];
      && (d.Some? <==> Padded(text, 0) || (last && (Padded(text, 1) || Padded(text, 2))))
      && (d.Some? ==> |d.value| == if Padded(text, 0) then 3 else if Padded(text, 1) then 2 else 1)
  {
    var text := [p, q, r, s];
    InAlphabet(p);
    InAlphabet(q);
    InAlphabet(r);
    InAlphabet(s);
    assert ToSextet('=').None?;
    assert text[0] == p && text[1] == q && text[2] == r && text[3] == s;
  }

  lemma PaddedQuads(s: string, pad: nat)
    requires |s| > 4
    ensures Padded(s, pad) <==> Padded(s[..4], 0) && Padded(s[4..], pad)
  {
    var rest := s[4..];
    if |s| % 4 == 0 {
      forall i | 0 <= i < |rest| ensures rest[i] == s[i + 4] {
      }
      if Padded(s[..4], 0) && Padded(rest, pad) {
        forall i | 0 <= i < |s| - pad ensures Letter(s[i]) {
          if i < 4 {
            assert s[i] == s[..4][i];
          } else {
            assert s[i] == rest[i - 4];
          }
        }
        forall i | |s| - pad <= i < |s| ensures s[i] == '=' {
          assert s[i] == rest[i - 4];
        }
      }
    }
  }

  /** Properly padded, with a payload of as many octets as the padding leaves. */
  ghost predicate Fills(s: string, n: nat) {
    exists pad :: Padded(s, pad) && n == |s| / 4 * 3 - pad
  }

  /** A text decodes exactly when it is properly padded, and its padding gives the length of the payload. */
  lemma {:induction false} DecodableIff(s: string)
    ensures Decode(s).Some? <==> exists pad :: Padded(s, pad)
    ensures Decode(s).Some? ==> Fills(s, |Decode(s).value|)
  {
    if s == [] {
      assert Padded(s, 0);
    } else if |s| >= 4 {
      QuadIff(s[0], s[1], s[2], s[3], |s| == 4);
      assert s[..4] == [s[0], s[1], s[2], s[3]];
      if |s| == 4 {
        assert s == s[..4] && Decode(s[4..]) == Some([]);
      } else {
        DecodableIff(s[4..]);
        LongDecodable(s);
      }
    }
  }

  lemma LongDecodable(s: string)
    requires |s| > 4
    requires DecodeQuad(s[0], s[1], s[2], s[3], false).Some? <==> Padded(s[..4], 0)
    requires DecodeQuad(s[0], s[1], s[2], s[3], false).Some? ==> |DecodeQuad(s[0], s[1], s[2], s[3], false).value| == 3
    requires Decode(s[4..]).Some? <==> exists pad :: Padded(s[4..], pad)
    requires Decode(s[4..]).Some? ==> Fills(s[4..], |Decode(s[4..]).value|)
    ensures Decode(s).Some? <==> exists pad :: Padded(s, pad)
    ensures Decode(s).Some? ==> Fills(s, |Decode(s).value|)
  {
    if pad :| Padded(s, pad) {
      PaddedQuads(s, pad);
    }
    if Decode(s).Some? {
      var rest := s[4..];
      var pad :| Padded(rest, pad) && |Decode(rest).value| == |rest| / 4 * 3 - pad;
      PaddedQuads(s, pad);
    }
  }
}
