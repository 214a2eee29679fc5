/**
 Unpadded base64url (RFC 4648, section 5) as stored fields carry it: a bounded field names no length,
 so its reader tries the few octet lengths its text could have.
 */
module Base64 {
  import opened Prelude

  type Octet = x: int | 0 <= x < 256
  type Sextet = x: int | 0 <= x < 64

  predicate InAlphabet(c: char) {
    'A' <= c <= 'Z' || 'a' <= c <= 'z' || '0' <= c <= '9' || c == '-' || c == '_'
  }

  function Char(v: Sextet): (c: char)
    ensures InAlphabet(c) && Value(c) == v
  {
    if v < 26 then 'A' + v as char
    else if v < 52 then 'a' + (v - 26) as char
    else if v < 62 then '0' + (v - 52) as char
    else if v == 62 then '-' else '_'
  }

  function Value(c: char): Sextet
    requires InAlphabet(c)
  {
    if 'A' <= c <= 'Z' then c as int - 'A' as int
    else if 'a' <= c <= 'z' then c as int - 'a' as int + 26
    else if '0' <= c <= '9' then c as int - '0' as int + 52
    else if c == '-' then 62 else 63
  }

  /** The alphabet of RFC 4648, table 2: three runs of consecutive characters, then the two of their own. */
  lemma AlphabetIs(v: Sextet, c: char)
    ensures Char(0) == 'A' && Char(25) == 'Z' && Char(26) == 'a' && Char(51) == 'z' && Char(52) == '0'
      && Char(61) == '9' && Char(62) == '-' && Char(63) == '_'
    ensures v !in {25, 51, 61, 62, 63} ==> Char(v + 1) as int == Char(v) as int + 1
    ensures InAlphabet(c) <==> exists w: Sextet :: Char(w) == c
  {
    if InAlphabet(c) { assert Char(Value(c)) == c; }
  }

  predicate Spelled(text: string) {
    forall i :: 0 <= i < |text| ==> InAlphabet(text[i])
  }

  function Spell(v: seq<Sextet>): (text: string)
    ensures |text| == |v| && Spelled(text)
  {
    seq(|v|, i requires 0 <= i < |v| => Char(v[i]))
  }

  function Values(text: string): (v: seq<Sextet>)
    requires Spelled(text)
    ensures |v| == |text|
  {
    seq(|text|, i requires 0 <= i < |text| => Value(text[i]))
  }

  lemma ValuesInvert(v: seq<Sextet>)
    ensures Values(Spell(v)) == v
  {}

  /** Six bits at a time; a left-over of one or two octets is filled up with zero bits. */
  function Sextets(b: seq<Octet>): seq<Sextet> {
    if |b| == 0 then []
    else if |b| == 1 then [b[0] / 4, b[0] % 4 * 16]
    else if |b| == 2 then [b[0] / 4, b[0] % 4 * 16 + b[1] / 16, b[1] % 16 * 4]
    else [b[0] / 4, b[0] % 4 * 16 + b[1] / 16, b[1] % 16 * 4 + b[2] / 64, b[2] % 64] + Sextets(b[3..])
  }

  /** Most significant bits first: each group of sextets is the number its octets are, filled up with zero bits. */
  lemma GroupsAreNumbers(a: Octet, b: Octet, c: Octet, rest: seq<Octet>)
    ensures var v: seq<int> := Sextets([a]); |v| == 2 && a * 0x10 == v[0] * 0x40 + v[1]
    ensures var v: seq<int> := Sextets([a, b]); |v| == 3 && (a * 0x100 + b) * 4 == v[0] * 0x1000 + v[1] * 0x40 + v[2]
    ensures var v: seq<int> := Sextets([a, b, c]);
      |v| == 4 && a * 0x1_0000 + b * 0x100 + c == v[0] * 0x4_0000 + v[1] * 0x1000 + v[2] * 0x40 + v[3]
    ensures Sextets([a, b, c] + rest) == Sextets([a, b, c]) + Sextets(rest)
  {
    assert ([a, b, c] + rest)[3..] == rest && [a, b, c][3..] == [];
  }

  /** Eight bits at a time; a single left-over sextet carries none. */
  function Octets(v: seq<Sextet>): Option<seq<Octet>> {
    if |v| == 0 then Some([])
    else if |v| == 1 then None
    else
      var p: int, q: int := v[0], v[1];
      if |v| == 2 then Some([p * 4 + q / 16])
      else
        var s: int := v[2];
        if |v| == 3 then Some([p * 4 + q / 16, q % 16 * 16 + s / 4])
        else
          match Octets(v[4..])
          case None => None
          case Some(rest) => Some([p * 4 + q / 16, q % 16 * 16 + s / 4, s % 4 * 64 + v[3]] + rest)
  }

  function Encode(b: seq<Octet>): string {
    Spell(Sextets(b))
  }

  function Decode(text: string): Option<seq<Octet>>
    requires Spelled(text)
  {
    Octets(Values(text))
  }

  /** `b64url_len`: round the groups of three up, then drop the missing characters. */
  function EncodedLength(n: nat): int {
    (n + 2) / 3 * 4 - (3 - n % 3) % 3
  }

  lemma LengthStep(n: nat)
    requires n >= 3
    ensures EncodedLength(n) == 4 + EncodedLength(n - 3)
  {
    assert (n + 2) / 3 == (n - 1) / 3 + 1 && n % 3 == (n - 3) % 3;
  }

  lemma {:induction false} EncodedShape(b: seq<Octet>)
    ensures |Sextets(b)| == |Encode(b)| == EncodedLength(|b|)
    decreases |b|
  {
    if |b| >= 3 {
      EncodedShape(b[3..]);
      LengthStep(|b|);
    }
  }

  /** The sextets of three octets hold all their bits. */
  lemma SextetsHold(a: Octet, b: Octet, c: Octet)
    ensures a / 4 * 4 + (a % 4 * 16 + b / 16) / 16 == a
    ensures (a % 4 * 16 + b / 16) % 16 * 16 + (b % 16 * 4 + c / 64) / 4 == b
    ensures (b % 16 * 4 + c / 64) % 4 * 64 + c % 64 == c
  {}

  /** Four sextets of a group give back its three octets. */
  lemma OctetsOfGroup(p: Sextet, q: Sextet, s: Sextet, t: Sextet, v: seq<Sextet>, rest: seq<Octet>)
    requires Octets(v) == Some(rest)
    ensures Octets([p, q, s, t] + v) == Some([p * 4 + q / 16, q % 16 * 16 + s / 4, s % 4 * 64 + t] + rest)
  {
    assert ([p, q, s, t] + v)[4..] == v;
  }

  lemma InvertOne(a: Octet)
    ensures Octets(Sextets([a])) == Some([a])
  {
    SextetsHold(a, 0, 0);
    assert Sextets([a]) == [a / 4, a % 4 * 16];
  }

  lemma InvertTwo(a: Octet, b: Octet)
    ensures Octets(Sextets([a, b])) == Some([a, b])
  {
    SextetsHold(a, b, 0);
    assert Sextets([a, b]) == [a / 4, a % 4 * 16 + b / 16, b % 16 * 4];
  }

  lemma InvertGroup(a: Octet, b: Octet, c: Octet, rest: seq<Octet>)
    requires Octets(Sextets(rest)) == Some(rest)
    ensures Octets(Sextets([a, b, c] + rest)) == Some([a, b, c] + rest)
  {
    var all := [a, b, c] + rest;
    assert all[3..] == rest;
    assert Sextets(all) == [a / 4, a % 4 * 16 + b / 16, b % 16 * 4 + c / 64, c % 64] + Sextets(rest);
    OctetsOfGroup(a / 4, a % 4 * 16 + b / 16, b % 16 * 4 + c / 64, c % 64, Sextets(rest), rest);
    SextetsHold(a, b, c);
  }

  lemma {:induction false} OctetsInvert(b: seq<Octet>)
    ensures Octets(Sextets(b)) == Some(b)
    decreases |b|
  {
    if |b| == 1 {
      assert b == [b[0]];
      InvertOne(b[0]);
    } else if |b| == 2 {
      assert b == [b[0], b[1]];
      InvertTwo(b[0], b[1]);
    } else if |b| >= 3 {
      assert b == [b[0], b[1], b[2]] + b[3..];
      OctetsInvert(b[3..]);
      InvertGroup(b[0], b[1], b[2], b[3..]);
    }
  }

  lemma DecodeInverts(b: seq<Octet>)
    ensures Decode(Encode(b)) == Some(b)
  {
    OctetsInvert(b);
    ValuesInvert(Sextets(b));
  }

  /** A text's length names its octet length outright: three quarters of it, rounded down. */
  lemma LengthNamesOctets(n: nat)
    ensures EncodedLength(n) >= 0 && EncodedLength(n) * 3 / 4 == n
  {
    var k, r := n / 3, n % 3;
    assert n == 3 * k + r;
    assert EncodedLength(n) == 4 * k + (if r == 0 then 0 else r + 1);
  }

  lemma LengthMonotone(m: nat, n: nat)
    requires m <= n
    ensures EncodedLength(m) <= EncodedLength(n)
  {
    var k, r, l, s := m / 3, m % 3, n / 3, n % 3;
    assert EncodedLength(m) == 4 * k + (if r == 0 then 0 else r + 1);
    assert EncodedLength(n) == 4 * l + (if s == 0 then 0 else s + 1);
  }

  /** `decode_b64url_exact`: length, alphabet, decode, decoded length, re-encoding. */
  function DecodeExact(text: string, n: nat): Result<seq<Octet>> {
    if |text| != EncodedLength(n) || !Spelled(text) then Err(CheckpointRefused)
    else match Decode(text)
      case None => Err(CheckpointRefused)
      case Some(b) => if |b| == n && Encode(b) == text then Ok(b) else Err(CheckpointRefused)
  }

  /** It accepts exactly the encodings of that many octets, and nothing else spells the same octets. */
  lemma ExactlyEncodings(text: string, n: nat, b: seq<Octet>)
    ensures DecodeExact(text, n) == Ok(b) <==> text == Encode(b) && |b| == n
  {
    EncodedShape(b);
    DecodeInverts(b);
  }

  /** At most one candidate length of any window can succeed. */
  lemma OneCandidate(text: string, m: nat, n: nat)
    requires DecodeExact(text, m).Ok? && DecodeExact(text, n).Ok?
    ensures m == n == |text| * 3 / 4
  {
    LengthNamesOctets(m);
    LengthNamesOctets(n);
  }

  /** `decode_bounded` inverts the encoding of every byte string within the bound and refuses every other text. */
  method DecodeBounded(text: string, maximum: nat) returns (r: Result<seq<Octet>>)
    ensures forall b: seq<Octet> :: |b| <= maximum && text == Encode(b) ==> r == Ok(b)
    ensures r.Ok? ==> |r.value| <= maximum && text == Encode(r.value)
    ensures r.Err? ==> r.error == CheckpointRefused
  {
    forall b: seq<Octet> | text == Encode(b) ensures |text| == EncodedLength(|b|) && |b| == |text| * 3 / 4 {
      EncodedShape(b);
      LengthNamesOctets(|b|);
      if |b| <= maximum { LengthMonotone(|b|, maximum); }
    }
    forall b: seq<Octet> | text == Encode(b) && |b| <= maximum ensures |text| <= EncodedLength(maximum) {
      LengthMonotone(|b|, maximum);
    }
    if |text| > EncodedLength(maximum) { return Err(CheckpointRefused); }
    var expected := |text| * 3 / 4;
    var last := if expected + 2 <= maximum then expected + 2 else maximum;
    var length := if expected >= 2 then expected - 2 else 0;
    while length <= last
      invariant length >= 0
      invariant forall b: seq<Octet> :: |b| <= maximum && text == Encode(b) ==> length <= |b| <= last
    {
      var decoded := DecodeExact(text, length);
      if decoded.Ok? {
        ExactlyEncodings(text, length, decoded.value);
        forall b: seq<Octet> | text == Encode(b) ensures b == decoded.value {
          DecodeInverts(b);
          DecodeInverts(decoded.value);
        }
        return decoded;
      }
      forall b: seq<Octet> | text == Encode(b) ensures |b| != length { ExactlyEncodings(text, length, b); }
      length := length + 1;
    }
    return Err(CheckpointRefused);
  }
}
