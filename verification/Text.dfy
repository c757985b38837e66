/**
 Identifier text: the UUID form of section 4 of RFC 9562, hexadecimal digests, decimal
 generation numbers, ASCII case folding and the lexicographic order of names.
 */
module Text {
  import opened Prelude
  import opened Order

  // ----- order -----

  predicate LexLess(a: string, b: string) {
    if b == [] then false
    else if a == [] then true
    else if a[0] != b[0] then a[0] < b[0]
    else LexLess(a[1..], b[1..])
  }

  lemma {:induction false} LexTotal(a: string, b: string)
    ensures LexLess(a, b) || LexLess(b, a) || a == b
    ensures !(LexLess(a, b) && LexLess(b, a))
  {
    if a != [] && b != [] && a[0] == b[0] {
      LexTotal(a[1..], b[1..]);
      assert a == [a[0]] + a[1..] && b == [b[0]] + b[1..];
    }
  }

  lemma {:induction false} LexTransitive(a: string, b: string, c: string)
    requires LexLess(a, b) && LexLess(b, c)
    ensures LexLess(a, c)
  {
    if a != [] && a[0] == b[0] && b[0] == c[0] {
      LexTransitive(a[1..], b[1..], c[1..]);
    }
  }

  lemma LexIsStrictWeak()
    ensures StrictWeak(LexLess)
  {
    forall x: string ensures !LexLess(x, x) {
      LexTotal(x, x);
    }
    forall x: string, y: string, z: string | LexLess(x, y) && LexLess(y, z) ensures LexLess(x, z) {
      LexTransitive(x, y, z);
    }
    forall x: string, y: string, z: string | LexLess(x, z) ensures LexLess(x, y) || LexLess(y, z) {
      LexTotal(x, y);
      if LexLess(y, x) {
        LexTransitive(y, x, z);
      }
    }
  }

  predicate HasPrefix(s: string, prefix: string) {
    |prefix| <= |s| && s[..|prefix|] == prefix
  }

  // ----- case folding and UUIDs -----

  function LowerChar(c: char): char {
    if 'A' <= c <= 'Z' then ((c as int) + 32) as char else c
  }

  function Lower(s: string): (r: string)
    ensures |r| == |s|
  {
    seq(|s|, i requires 0 <= i < |s| => LowerChar(s[i]))
  }

  predicate HexDigit(c: char) {
    '0' <= c <= '9' || 'a' <= c <= 'f' || 'A' <= c <= 'F'
  }

  predicate LowerHexDigit(c: char) {
    '0' <= c <= '9' || 'a' <= c <= 'f'
  }

  predicate DashPosition(i: int) {
    i == 8 || i == 13 || i == 18 || i == 23
  }

  predicate IsUuid(s: string) {
    && |s| == 36
    && forall i :: 0 <= i < 36 ==> if DashPosition(i) then s[i] == '-' else HexDigit(s[i])
  }

  predicate IsDigest(s: string) {
    && |s| == 64
    && forall i :: 0 <= i < 64 ==> LowerHexDigit(s[i])
  }

  /** Folding is idempotent and keeps a UUID a UUID, so one folded spelling names each UUID. */
  lemma LowerUuid(s: string)
    requires IsUuid(s)
    ensures IsUuid(Lower(s)) && Lower(Lower(s)) == Lower(s)
  {
    forall i | 0 <= i < 36
      ensures if DashPosition(i) then Lower(s)[i] == '-' else HexDigit(Lower(s)[i])
    {
      assert if DashPosition(i) then s[i] == '-' else HexDigit(s[i]);
    }
  }

  // ----- decimal numbers -----

  function DigitChar(d: nat): char
    requires d < 10
  {
    (('0' as int) + d) as char
  }

  function Decimal(n: nat): (s: string)
    ensures s != [] && forall i :: 0 <= i < |s| ==> '0' <= s[i] <= '9'
  {
    if n < 10 then [DigitChar(n)] else Decimal(n / 10) + [DigitChar(n % 10)]
  }

  function ParseDecimal(s: string): (n: nat)
    requires forall i :: 0 <= i < |s| ==> '0' <= s[i] <= '9'
  {
    if s == [] then 0
    else 10 * ParseDecimal(s[..|s| - 1]) + ((s[|s| - 1] as int) - ('0' as int))
  }

  lemma {:induction false} DecimalRoundTrip(n: nat)
    ensures ParseDecimal(Decimal(n)) == n
  {
    if n >= 10 {
      DecimalRoundTrip(n / 10);
      var s := Decimal(n);
      assert s[..|s| - 1] == Decimal(n / 10);
    } else {
      assert Decimal(n)[..0] == [];
    }
  }

  lemma DecimalInjective(m: nat, n: nat)
    requires Decimal(m) == Decimal(n)
    ensures m == n
  {
    DecimalRoundTrip(m);
    DecimalRoundTrip(n);
  }

  /** The number a canonical decimal spelling denotes: no sign, no leading zero. */
  function CanonicalDecimal(s: string): (r: Option<nat>)
    ensures r.Some? ==> Decimal(r.value) == s
  {
    if s != [] && (forall i :: 0 <= i < |s| ==> '0' <= s[i] <= '9') && Decimal(ParseDecimal(s)) == s
    then Some(ParseDecimal(s))
    else None
  }
}
