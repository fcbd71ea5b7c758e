/** rtw_base64.c: base64 as in section 4 of RFC 4648, with a decoder that skips white space. */
module Base64 {
  import opened Sequences

  type sextet = v: int | 0 <= v < 64

  /** Value of a character of the alphabet, -1 for any other. */
  function DecVal(c: char): (v: int)
    ensures -1 <= v < 64
  {
    if 'A' <= c <= 'Z' then c as int - 'A' as int
    else if 'a' <= c <= 'z' then c as int - 'a' as int + 26
    else if '0' <= c <= '9' then c as int - '0' as int + 52
    else if c == '+' then 62
    else if c == '/' then 63
    else -1
  }

  predicate IsSpace(c: char) {
    c == ' ' || c == '\n' || c == '\r' || c == '\t'
  }

  /** The alphabet: A to Z, a to z, 0 to 9, plus, slash. */
  function Enc(v: sextet): (c: char) {
    if v < 26 then 'A' + v as char
    else if v < 52 then 'a' + (v - 26) as char
    else if v < 62 then '0' + (v - 52) as char
    else if v == 62 then '+' else '/'
  }

  /** The alphabet and the value function are inverse, and the alphabet avoids padding and white space. */
  lemma AlphabetInverse(v: sextet)
    ensures DecVal(Enc(v)) == v && Enc(v) != '=' && !IsSpace(Enc(v))
  {}

  const UPPER := "ABCDEFGHIJKLMNOPQRSTUVWXYZ"
  const LOWER := "abcdefghijklmnopqrstuvwxyz"
  const NUMERALS := "0123456789"
  const ALPHABET := UPPER + LOWER + NUMERALS + "+/"

  lemma {:induction false} UpperCase(v: sextet)
    requires v < 26
    ensures |UPPER| == 26 && UPPER[v] == 'A' + v as char
  {}

  lemma {:induction false} LowerCase(v: sextet)
    requires v < 26
    ensures |LOWER| == 26 && LOWER[v] == 'a' + v as char
  {}

  lemma {:induction false} Numerals(v: sextet)
    requires v < 10
    ensures |NUMERALS| == 10 && NUMERALS[v] == '0' + v as char
  {}

  /** The alphabet as RFC 4648 lists it. */
  lemma {:induction false} AlphabetIs(v: sextet)
    ensures |ALPHABET| == 64 && Enc(v) == ALPHABET[v] && DecVal(ALPHABET[v]) == v
  {
    UpperCase(if v < 26 then v else 0);
    LowerCase(if 26 <= v < 52 then v - 26 else 0);
    Numerals(if 52 <= v < 62 then v - 52 else 0);
    AlphabetInverse(v);
  }

  /** A character has a value if and only if it stands in the alphabet, and the value is its place there. */
  lemma {:induction false} ValueIff(c: char)
    ensures DecVal(c) >= 0 <==> c in ALPHABET
    ensures DecVal(c) >= 0 ==> ALPHABET[DecVal(c)] == c
  {
    if DecVal(c) >= 0 {
      AlphabetIs(DecVal(c));
      assert Enc(DecVal(c)) == c;
    } else if c in ALPHABET {
      var v :| 0 <= v < |ALPHABET| && ALPHABET[v] == c;
      AlphabetIs(v);
      assert false;
    }
  }

  /** Four six-bit values as one 24-bit number. */
  function Join(a: int, b: int, c: int, d: int): (n: int) {
    a * 0x4_0000 + b * 0x1000 + c * 64 + d
  }

  // ------------------------------------------------------------------------------------------
  // Encoding
  // ------------------------------------------------------------------------------------------

  function EncodedLen(n: nat): (r: nat) {
    4 * ((n + 2) / 3) + 1
  }

  function Group(a: byte, b: byte, c: byte): (n: nat)
    ensures n < 0x100_0000
  {
    a * 0x1_0000 + b * 0x100 + c
  }

  function Sextets(n: nat): (r: seq<sextet>)
    requires n < 0x100_0000
    ensures |r| == 4
  {
    [n / 0x4_0000, n / 0x1000 % 64, n / 64 % 64, n % 64]
  }

  /** One to three bytes, zero-extended to three. */
  function GroupOf(x: seq<byte>): (n: nat)
    requires 0 < |x| <= 3
    ensures n < 0x100_0000
  {
    Group(x[0], if |x| > 1 then x[1] else 0, if |x| > 2 then x[2] else 0)
  }

  function EncodeGroup(x: seq<byte>): (r: string)
    requires 0 < |x| <= 3
    ensures |r| == 4
  {
    var q := Sextets(GroupOf(x));
    [Enc(q[0]), Enc(q[1]), if |x| > 1 then Enc(q[2]) else '=', if |x| > 2 then Enc(q[3]) else '=']
  }

  function Encode(x: seq<byte>): (r: string)
    ensures |r| == 4 * ((|x| + 2) / 3)
  {
    if x == [] then []
    else
      var k := Min(3, |x|);
      assert (|x[k..]| + 2) / 3 + 1 == (|x| + 2) / 3;
      EncodeGroup(x[..k]) + Encode(x[k..])
  }

  // ------------------------------------------------------------------------------------------
  // Decoding
  // ------------------------------------------------------------------------------------------

  datatype Quad = Bad | Quad(vals: seq<sextet>, pad: nat, rest: string)

  /** Up to four significant characters: letters of the alphabet, or '=' counted as padding. */
  function ReadQuad(s: string, vals: seq<sextet>, pad: nat): (r: Quad)
    requires pad <= |vals| <= 4
    ensures r.Quad? ==> r.pad <= |r.vals| <= 4 && |r.rest| + |r.vals| <= |s| + |vals|
    ensures r.Quad? && |r.vals| < 4 ==> r.rest == []
    decreases |s|
  {
    if |vals| == 4 || s == [] then Quad(vals, pad, s)
    else if IsSpace(s[0]) then ReadQuad(s[1..], vals, pad)
    else if s[0] == '=' then ReadQuad(s[1..], vals + [0], pad + 1)
    else if DecVal(s[0]) < 0 then Bad
    else ReadQuad(s[1..], vals + [DecVal(s[0])], pad)
  }

  function BytesOf(n: int, pad: nat): (r: seq<byte>)
    ensures |r| == if pad < 1 then 3 else if pad < 2 then 2 else 1
  {
    [n / 0x1_0000 % 256] + (if pad < 2 then [n / 0x100 % 256] else []) + (if pad < 1 then [n % 256] else [])
  }

  function QuadBytes(vals: seq<sextet>, pad: nat): (r: seq<byte>)
    requires |vals| == 4
    ensures |r| == if pad < 1 then 3 else if pad < 2 then 2 else 1
  {
    BytesOf(Join(vals[0], vals[1], vals[2], vals[3]), pad)
  }

  /** The capacity test, in unsigned arithmetic: with four padding characters the count wraps below zero. */
  predicate OverCapacity(used: nat, pad: nat, cap: nat) {
    if pad <= 3 then used + 3 - pad > cap else used == 0 || used - 1 > cap
  }

  /** `written` is everything stored in the output, whether or not the call then succeeds. */
  datatype Decoded = Decoded(ok: bool, written: seq<byte>)

  function DecodeFrom(s: string, out: seq<byte>, cap: nat): (r: Decoded)
    ensures out <= r.written
    decreases |s|
  {
    if s == [] then Decoded(true, out)
    else
      match ReadQuad(s, [], 0)
      case Bad => Decoded(false, out)
      case Quad(vals, pad, rest) =>
        if |vals| == 0 then Decoded(true, out)
        else if |vals| != 4 || OverCapacity(|out|, pad, cap) then Decoded(false, out)
        else DecodeFrom(rest, out + QuadBytes(vals, pad), cap)
  }

  function Decode(s: string, cap: nat): (r: Decoded) {
    DecodeFrom(s, [], cap)
  }

  /** Four characters give at most three bytes. */
  lemma {:induction false} DecodedLength(s: string, out: seq<byte>, cap: nat)
    ensures |DecodeFrom(s, out, cap).written| <= |out| + |s| / 4 * 3
    decreases |s|
  {
    if s != [] {
      var q := ReadQuad(s, [], 0);
      if q.Quad? && |q.vals| == 4 && !OverCapacity(|out|, q.pad, cap) {
        DecodedLength(q.rest, out + QuadBytes(q.vals, q.pad), cap);
        assert |q.rest| / 4 + 1 <= |s| / 4;
      }
    }
  }

  lemma {:induction false} QuadStep(s: string, q: Quad, out: seq<byte>, cap: nat)
    requires s != [] && q == ReadQuad(s, [], 0)
    ensures q.Bad? ==> DecodeFrom(s, out, cap) == Decoded(false, out)
    ensures q.Quad? && |q.vals| == 0 ==> DecodeFrom(s, out, cap) == Decoded(true, out)
    ensures q.Quad? && (0 < |q.vals| < 4 || (|q.vals| == 4 && OverCapacity(|out|, q.pad, cap))) ==>
              DecodeFrom(s, out, cap) == Decoded(false, out)
    ensures q.Quad? && |q.vals| == 4 && !OverCapacity(|out|, q.pad, cap) ==>
              && DecodeFrom(s, out, cap) == DecodeFrom(q.rest, out + QuadBytes(q.vals, q.pad), cap)
              && |out| + |QuadBytes(q.vals, q.pad)| <= |DecodeFrom(s, out, cap).written|
  {}

  // ------------------------------------------------------------------------------------------
  // Round trip
  // ------------------------------------------------------------------------------------------

  lemma SextetsRegroup(n: nat)
    requires n < 0x100_0000
    ensures var q := Sextets(n); Join(q[0], q[1], q[2], q[3]) == n
  {
    var n1 := n / 64;
    var n2 := n1 / 64;
    assert n == 64 * n1 + n % 64 && n1 == 64 * n2 + n1 % 64 && n2 == 64 * (n2 / 64) + n2 % 64;
    assert n / 0x1000 == n2 && n / 0x4_0000 == n2 / 64;
  }

  lemma GroupBytes(a: byte, b: byte, c: byte)
    ensures var n := Group(a, b, c); n / 0x1_0000 == a && n / 0x100 % 256 == b && n % 256 == c
  {
    var n := Group(a, b, c);
    var high := a * 256 + b;
    assert n == 256 * high + c;
    assert n / 256 == high;
    assert high / 256 == a && high % 256 == b;
  }

  lemma MultipleOf64(n: nat, k: nat)
    requires n == 64 * k
    ensures n % 64 == 0 && n / 64 == k
  {}

  /** A padded group loses nothing: the bits of the dropped sextets are zero. */
  lemma PaddedSextets(x: seq<byte>)
    requires 0 < |x| <= 3
    ensures var q := Sextets(GroupOf(x));
            (|x| < 3 ==> q[3] == 0) && (|x| < 2 ==> q[2] == 0)
  {
    var n := GroupOf(x);
    var a: int := x[0];
    if |x| == 2 {
      var b: int := x[1];
      MultipleOf64(n, a * 1024 + b * 4);
    } else if |x| == 1 {
      MultipleOf64(n, a * 1024);
      MultipleOf64(n / 64, a * 16);
    }
  }

  lemma {:induction false} ReadLetter(v: sextet, tail: string, vals: seq<sextet>, pad: nat)
    requires pad <= |vals| < 4
    ensures ReadQuad([Enc(v)] + tail, vals, pad) == ReadQuad(tail, vals + [v], pad)
  {
    AlphabetInverse(v);
    assert ([Enc(v)] + tail)[1..] == tail;
  }

  lemma {:induction false} ReadPad(tail: string, vals: seq<sextet>, pad: nat)
    requires pad <= |vals| < 4
    ensures ReadQuad(['='] + tail, vals, pad) == ReadQuad(tail, vals + [0], pad + 1)
  {
    assert (['='] + tail)[1..] == tail;
  }

  lemma {:induction false} BytesBack(x: seq<byte>)
    requires 0 < |x| <= 3
    ensures BytesOf(GroupOf(x), 3 - |x|) == x
  {
    GroupBytes(x[0], if |x| > 1 then x[1] else 0, if |x| > 2 then x[2] else 0);
  }

  /** The bytes of a quad that carries the sextets of a group. */
  lemma {:induction false} SextetsBack(x: seq<byte>)
    requires 0 < |x| <= 3
    ensures QuadBytes(Sextets(GroupOf(x)), 3 - |x|) == x
  {
    SextetsRegroup(GroupOf(x));
    BytesBack(x);
  }

  lemma {:induction false} ReadFour(c: string, v: seq<sextet>, pads: nat, tail: string)
    requires |c| == |v| == 4 && pads <= 2
    requires forall i :: 0 <= i < 4 - pads ==> c[i] == Enc(v[i])
    requires forall i :: 4 - pads <= i < 4 ==> c[i] == '=' && v[i] == 0
    ensures ReadQuad(c + tail, [], 0) == Quad(v, pads, tail)
  {
    var t3 := [c[3]] + tail;
    var t2 := [c[2]] + t3;
    var t1 := [c[1]] + t2;
    assert c + tail == [c[0]] + t1;
    ReadLetter(v[0], t1, [], 0);
    assert [] + [v[0]] == v[..1];
    ReadLetter(v[1], t2, v[..1], 0);
    assert v[..1] + [v[1]] == v[..2];
    if pads < 2 { ReadLetter(v[2], t3, v[..2], 0); } else { ReadPad(t3, v[..2], 0); }
    assert v[..2] + [v[2]] == v[..3];
    if pads < 1 { ReadLetter(v[3], tail, v[..3], 0); } else { ReadPad(tail, v[..3], pads - 1); }
    assert v[..3] + [v[3]] == v;
  }

  /** The decoder reads an encoded group as one quad that stands for the same bytes. */
  lemma {:induction false} GroupRoundTrip(x: seq<byte>, tail: string)
    requires 0 < |x| <= 3
    ensures ReadQuad(EncodeGroup(x) + tail, [], 0) == Quad(Sextets(GroupOf(x)), 3 - |x|, tail)
  {
    PaddedSextets(x);
    ReadFour(EncodeGroup(x), Sextets(GroupOf(x)), 3 - |x|, tail);
  }

  /** One encoded group decoded. */
  lemma {:induction false} GroupStep(x: seq<byte>, tail: string, out: seq<byte>, cap: nat)
    requires 0 < |x| <= 3
    ensures var s := EncodeGroup(x) + tail;
            DecodeFrom(s, out, cap)
              == if OverCapacity(|out|, 3 - |x|, cap) then Decoded(false, out) else DecodeFrom(tail, out + x, cap)
  {
    GroupRoundTrip(x, tail);
    SextetsBack(x);
    QuadStep(EncodeGroup(x) + tail, Quad(Sextets(GroupOf(x)), 3 - |x|, tail), out, cap);
  }

  lemma {:induction false} RoundTripFrom(x: seq<byte>, out: seq<byte>, cap: nat)
    ensures |out| + |x| <= cap ==> DecodeFrom(Encode(x), out, cap) == Decoded(true, out + x)
    ensures |out| <= cap < |out| + |x| ==> !DecodeFrom(Encode(x), out, cap).ok
    decreases |x|
  {
    if x == [] {
      assert out + x == out;
    } else {
      var k := Min(3, |x|);
      var head, rest := x[..k], x[k..];
      GroupStep(head, Encode(rest), out, cap);
      Cut(x, k);
      Associate(out, head, rest);
      if |out| + k <= cap {
        RoundTripFrom(rest, out + head, cap);
      }
    }
  }

  /** Decoding undoes encoding, and succeeds exactly when the bytes fit. */
  lemma RoundTrip(x: seq<byte>, cap: nat)
    ensures Decode(Encode(x), cap).ok <==> |x| <= cap
    ensures |x| <= cap ==> Decode(Encode(x), cap).written == x
  {
    RoundTripFrom(x, [], cap);
    assert [] + x == x;
  }

  // ------------------------------------------------------------------------------------------
  // The code, character by character
  // ------------------------------------------------------------------------------------------

  lemma {:induction false} GroupSextets(a: byte, b: byte, c: byte)
    ensures var q := Sextets(Group(a, b, c));
            q[0] == a / 4 && q[1] == a % 4 * 16 + b / 16 && q[2] == b % 16 * 4 + c / 64 && q[3] == c % 64
  {
    var n := Group(a, b, c);
    var high: int := a * 256 + b;
    var n1, n2 := 4 * high + c / 64, 16 * a + b / 16;
    Split64(n, n1, c % 64);
    Split64(n1, n2, 4 * (b % 16) + c / 64);
    Split64(n2, a / 4, 16 * (a % 4) + b / 16);
    assert n / 0x1000 == n / 64 / 64 && n / 0x4_0000 == n / 64 / 64 / 64;
  }

  lemma Split64(n: int, high: int, low: int)
    requires n == 64 * high + low && 0 <= low < 64
    ensures n / 64 == high && n % 64 == low
  {}

  /** Three bytes as four characters of the alphabet, highest bits first. */
  function Letters(a: byte, b: byte, c: byte): (r: string)
    ensures |r| == 4
  {
    [ALPHABET[a / 4], ALPHABET[a % 4 * 16 + b / 16], ALPHABET[b % 16 * 4 + c / 64], ALPHABET[c % 64]]
  }

  lemma {:induction false} LettersOf(q: seq<sextet>, a: byte, b: byte, c: byte)
    requires |q| == 4 && q[0] == a / 4 && q[1] == a % 4 * 16 + b / 16 && q[2] == b % 16 * 4 + c / 64 && q[3] == c % 64
    ensures Letters(a, b, c) == [Enc(q[0]), Enc(q[1]), Enc(q[2]), Enc(q[3])]
  {
    AlphabetIs(q[0]);
    AlphabetIs(q[1]);
    AlphabetIs(q[2]);
    AlphabetIs(q[3]);
  }

  lemma {:induction false} GroupIs(x: seq<byte>)
    requires 0 < |x| <= 3
    ensures var w := Letters(x[0], if |x| > 1 then x[1] else 0, if |x| > 2 then x[2] else 0);
            EncodeGroup(x) == w[..|x| + 1] + seq(3 - |x|, _ => '=')
  {
    var a, b, c := x[0], if |x| > 1 then x[1] else 0, if |x| > 2 then x[2] else 0;
    GroupSextets(a, b, c);
    LettersOf(Sextets(GroupOf(x)), a, b, c);
  }

  lemma {:induction false} EncodeWhole(x: seq<byte>)
    requires |x| >= 3
    ensures Encode(x) == Letters(x[0], x[1], x[2]) + Encode(x[3..])
  {
    GroupIs(x[..3]);
    assert Letters(x[0], x[1], x[2])[..4] + seq(0, _ => '=') == Letters(x[0], x[1], x[2]);
  }

  lemma {:induction false} EncodeLast(x: seq<byte>)
    requires 0 < |x| < 3
    ensures Encode(x) == Letters(x[0], if |x| > 1 then x[1] else 0, 0)[..|x| + 1] + seq(3 - |x|, _ => '=')
  {
    GroupIs(x);
    var k := Min(3, |x|);
    assert x[..k] == x && x[k..] == [];
    assert EncodeGroup(x) + Encode([]) == EncodeGroup(x);
  }

  /** Every encoding: whole groups of three bytes, then one or two bytes extended by zeros and marked by padding. */
  lemma {:induction false} EncodeIs(x: seq<byte>)
    ensures |x| == 0 ==> Encode(x) == ""
    ensures |x| == 1 ==> Encode(x) == Letters(x[0], 0, 0)[..2] + "=="
    ensures |x| == 2 ==> Encode(x) == Letters(x[0], x[1], 0)[..3] + "="
    ensures |x| >= 3 ==> Encode(x) == Letters(x[0], x[1], x[2]) + Encode(x[3..])
  {
    if |x| >= 3 {
      EncodeWhole(x);
    } else if |x| > 0 {
      EncodeLast(x);
      assert seq(2, _ => '=') == "==" && seq(1, _ => '=') == "=";
    }
  }

  /** What four values become: three bytes, or fewer behind padding. */
  lemma {:induction false} QuadIs(v: seq<sextet>, pad: nat)
    requires |v| == 4
    ensures QuadBytes(v, pad) == ThreeBytes(v[0], v[1], v[2], v[3])[..if pad < 1 then 3 else if pad < 2 then 2 else 1]
  {
    JoinIs(v[0], v[1], v[2], v[3]);
  }

  function ThreeBytes(a: int, b: int, c: int, d: int): (r: seq<int>)
    ensures |r| == 3
  {
    [a * 4 + b / 16, b % 16 * 16 + c / 4, c % 4 * 64 + d]
  }

  lemma {:induction false} JoinIs(a: int, b: int, c: int, d: int)
    requires 0 <= a < 64 && 0 <= b < 64 && 0 <= c < 64 && 0 <= d < 64
    ensures var n := Join(a, b, c, d);
            [n / 0x1_0000 % 256, n / 0x100 % 256, n % 256] == ThreeBytes(a, b, c, d)
  {
    JoinParts(Join(a, b, c, d), a * 4 + b / 16, b % 16 * 16 + c / 4, c % 4 * 64 + d);
  }

  lemma {:induction false} JoinParts(n: int, x: int, y: int, z: int)
    requires n == 65536 * x + 256 * y + z && 0 <= x < 256 && 0 <= y < 256 && 0 <= z < 256
    ensures n / 0x1_0000 % 256 == x && n / 0x100 % 256 == y && n % 256 == z
  {
    Split256(n, 256 * x + y, z);
    Split256(256 * x + y, x, y);
    assert n / 0x1_0000 == n / 256 / 256;
  }

  lemma Split256(n: int, high: int, low: int)
    requires n == 256 * high + low && 0 <= low < 256
    ensures n / 256 == high && n % 256 == low
  {}

  // ------------------------------------------------------------------------------------------
  // White space
  // ------------------------------------------------------------------------------------------

  function Strip(s: string): (r: string) {
    if s == [] then [] else if IsSpace(s[0]) then Strip(s[1..]) else [s[0]] + Strip(s[1..])
  }

  lemma {:induction false} ReadQuadStripped(s: string, vals: seq<sextet>, pad: nat)
    requires pad <= |vals| <= 4
    ensures var q := ReadQuad(s, vals, pad);
            ReadQuad(Strip(s), vals, pad) == if q.Quad? then Quad(q.vals, q.pad, Strip(q.rest)) else Bad
    decreases |s|
  {
    if |vals| < 4 && s != [] {
      if IsSpace(s[0]) {
        ReadQuadStripped(s[1..], vals, pad);
      } else {
        var t := Strip(s);
        assert t[0] == s[0] && t[1..] == Strip(s[1..]);
        if s[0] == '=' {
          ReadQuadStripped(s[1..], vals + [0], pad + 1);
        } else if DecVal(s[0]) >= 0 {
          ReadQuadStripped(s[1..], vals + [DecVal(s[0])], pad);
        }
      }
    }
  }

  lemma {:induction false} WhiteSpaceIgnoredFrom(s: string, out: seq<byte>, cap: nat)
    ensures DecodeFrom(s, out, cap) == DecodeFrom(Strip(s), out, cap)
    decreases |s|
  {
    if s != [] {
      ReadQuadStripped(s, [], 0);
      var q := ReadQuad(s, [], 0);
      if q.Quad? && |q.vals| == 4 {
        WhiteSpaceIgnoredFrom(q.rest, out + QuadBytes(q.vals, q.pad), cap);
      }
      if Strip(s) == [] {
        assert ReadQuad(Strip(s), [], 0) == Quad([], 0, []);
      }
    }
  }

  /** Decoding any string, failures included, equals decoding it with its white space removed. */
  lemma WhiteSpaceIgnored(s: string, cap: nat)
    ensures Decode(s, cap) == Decode(Strip(s), cap)
  {
    WhiteSpaceIgnoredFrom(s, [], cap);
  }

  // ------------------------------------------------------------------------------------------
  // Which texts are accepted
  // ------------------------------------------------------------------------------------------

  /** Nothing but letters of the alphabet, padding, blanks, tabs, carriage returns and line feeds. */
  predicate Clean(s: string) {
    forall i :: 0 <= i < |s| ==> Plain(s[i])
  }

  predicate Plain(c: char) {
    c in ALPHABET || c in "= \t\r\n"
  }

  lemma {:induction false} PlainIff(c: char)
    ensures Plain(c) <==> DecVal(c) >= 0 || c == '=' || IsSpace(c)
  {
    ValueIff(c);
    assert c in "= \t\r\n" <==> c == '=' || IsSpace(c);
  }

  predicate Packed(s: string) {
    forall i :: 0 <= i < |s| ==> !IsSpace(s[i])
  }

  lemma {:induction false} StripPacks(s: string)
    ensures Packed(Strip(s)) && (Clean(Strip(s)) <==> Clean(s))
    decreases |s|
  {
    if s != [] {
      StripPacks(s[1..]);
      PlainIff(s[0]);
      CleanMore(s[0], s[1..]);
      assert s == [s[0]] + s[1..];
      if !IsSpace(s[0]) {
        CleanMore(s[0], Strip(s[1..]));
        PackedMore(s[0], Strip(s[1..]));
      }
    }
  }

  lemma CleanMore(c: char, rest: string)
    ensures Clean([c] + rest) <==> Plain(c) && Clean(rest)
  {
    var s := [c] + rest;
    assert s[0] == c && s[1..] == rest;
    assert forall i :: 0 <= i < |rest| ==> s[i + 1] == rest[i];
    if Clean(s) {
      forall i | 0 <= i < |rest| ensures Plain(rest[i]) {
        assert s[i + 1] == rest[i];
      }
    }
  }

  lemma PackedMore(c: char, rest: string)
    requires !IsSpace(c) && Packed(rest)
    ensures Packed([c] + rest)
  {}

  function Pads(s: string): (n: nat)
    ensures n <= |s|
  {
    if s == [] then 0 else (if s[0] == '=' then 1 else 0) + Pads(s[1..])
  }

  lemma {:induction false} PadsOnly(s: string)
    ensures Pads(s) == |s| <==> forall i :: 0 <= i < |s| ==> s[i] == '='
    decreases |s|
  {
    if s != [] {
      PadsOnly(s[1..]);
      if Pads(s) == |s| {
        forall i | 0 <= i < |s| ensures s[i] == '=' {
          if i > 0 { assert s[i] == s[1..][i - 1]; }
        }
      }
    }
  }

  /** Without white space a quad is the next four characters, or all that are left. */
  lemma {:induction false} ReadPacked(s: string, vals: seq<sextet>, pad: nat)
    requires pad <= |vals| <= 4 && Packed(s)
    ensures ReadAs(s, |vals|, pad, Min(4 - |vals|, |s|), ReadQuad(s, vals, pad))
    decreases |s|
  {
    if |vals| == 4 || s == [] {
      ReadNothing(s, vals, pad);
    } else {
      var k: nat := Min(4 - |vals|, |s|);
      PackedRest(s, 1);
      if s[0] != '=' && DecVal(s[0]) < 0 {
        ReadNone(s, k);
      } else {
        var next := vals + [if s[0] == '=' then 0 else DecVal(s[0])];
        var pads := if s[0] == '=' then pad + 1 else pad;
        ReadPacked(s[1..], next, pads);
        ReadMore(s, |vals|, pad, k, ReadQuad(s[1..], next, pads));
      }
    }
  }

  lemma {:induction false} ReadNothing(s: string, vals: seq<sextet>, pad: nat)
    requires pad <= |vals| <= 4
    ensures ReadAs(s, |vals|, pad, 0, Quad(vals, pad, s))
  {
    assert s[..0] == [] && s[0..] == s;
  }

  lemma {:induction false} ReadNone(s: string, k: nat)
    requires 0 < k <= |s| && !IsSpace(s[0]) && s[0] != '=' && DecVal(s[0]) < 0
    ensures !Clean(s[..k])
  {
    PlainIff(s[0]);
    assert s[..k][0] == s[0];
  }

  lemma {:induction false} ReadMore(s: string, n: nat, pad: nat, k: nat, q: Quad)
    requires 0 < k <= |s| && (s[0] == '=' || DecVal(s[0]) >= 0)
    requires ReadAs(s[1..], n + 1, if s[0] == '=' then pad + 1 else pad, k - 1, q)
    ensures ReadAs(s, n, pad, k, q)
  {
    PlainIff(s[0]);
    FirstOfCut(s, k);
    CleanMore(s[0], s[1..][..k - 1]);
    PadsMore(s[0], s[1..][..k - 1]);
    assert DecVal('=') < 0;
  }

  /** `q` is `k` characters of `s` read behind `n` others. */
  ghost predicate ReadAs(s: string, n: nat, pad: nat, k: int, q: Quad) {
    && 0 <= k <= |s| && (q.Quad? <==> Clean(s[..k]))
    && (q.Quad? ==> |q.vals| == n + k && q.rest == s[k..] && q.pad == pad + Pads(s[..k]))
  }

  lemma FirstOfCut(s: string, k: nat)
    requires 0 < k <= |s|
    ensures s[..k] == [s[0]] + s[1..][..k - 1] && s[1..][k - 1..] == s[k..]
  {}

  lemma {:induction false} PadsMore(c: char, rest: string)
    ensures Pads([c] + rest) == (if c == '=' then 1 else 0) + Pads(rest)
  {
    assert ([c] + rest)[1..] == rest;
  }

  lemma CleanCut(s: string, k: nat)
    requires k <= |s|
    ensures Clean(s) <==> Clean(s[..k]) && Clean(s[k..])
  {
    if Clean(s[..k]) && Clean(s[k..]) {
      forall i | 0 <= i < |s| ensures Plain(s[i]) {
        if i < k { assert s[..k][i] == s[i]; } else { assert s[k..][i - k] == s[i]; }
      }
    }
    if Clean(s) {
      forall i | 0 <= i < |s| - k ensures Plain(s[k..][i]) {
        assert s[k..][i] == s[k + i];
      }
    }
  }

  /** The decoder's verdict on one packed text, with room for everything. */
  predicate Decodable(s: string, first: bool) {
    |s| % 4 == 0 && Clean(s) && !(first && |s| >= 4 && s[..4] == "====")
  }

  lemma {:induction false} PackedIff(s: string, out: seq<byte>, cap: nat)
    requires Packed(s) && |out| + |s| / 4 * 3 <= cap
    ensures DecodeFrom(s, out, cap).ok <==> Decodable(s, out == [])
    decreases |s|
  {
    if s != [] {
      var q := ReadQuad(s, [], 0);
      ReadPacked(s, [], 0);
      QuadStep(s, q, out, cap);
      if |s| < 4 {
        assert s[..|s|] == s && |s| % 4 != 0;
      } else {
        QuadSplit(s, q, out == []);
        QuadRoom(|out|, if q.Quad? then q.pad else 0, cap);
        if q.Quad? && !OverCapacity(|out|, q.pad, cap) {
          PackedRest(s, 4);
          PackedIff(q.rest, out + QuadBytes(q.vals, q.pad), cap);
        }
      }
    }
  }

  /** A verdict on the first four characters and on the rest. */
  lemma {:induction false} QuadSplit(s: string, q: Quad, first: bool)
    requires |s| >= 4 && ReadAs(s, 0, 0, 4, q)
    ensures q.Bad? ==> !Decodable(s, first)
    ensures q.Quad? ==> q.rest == s[4..] && q.pad <= 4
    ensures q.Quad? ==> (Decodable(s, first) <==> !(first && q.pad == 4) && Decodable(q.rest, false))
    ensures |s[4..]| / 4 + 1 == |s| / 4
  {
    CleanCut(s, 4);
    PadsOnly(s[..4]);
    FourPads(s[..4]);
  }

  lemma QuadRoom(used: nat, pad: nat, cap: nat)
    requires used + 3 <= cap && pad <= 4
    ensures OverCapacity(used, pad, cap) <==> pad == 4 && used == 0
  {}

  lemma FourPads(s: string)
    requires |s| == 4
    ensures s == "====" <==> forall i :: 0 <= i < 4 ==> s[i] == '='
  {}

  lemma PackedRest(s: string, k: nat)
    requires Packed(s) && k <= |s|
    ensures Packed(s[k..])
  {}

  /** Exactly which texts decode, given room for three bytes from every four characters: those of alphabet, padding and
      white space only whose significant characters come in fours and do not begin with four padding characters. */
  lemma {:induction false} DecodeOkIff(s: string, cap: nat)
    requires |Strip(s)| / 4 * 3 <= cap
    ensures Decode(s, cap).ok <==> Clean(s) && |Strip(s)| % 4 == 0 && !("====" <= Strip(s))
  {
    WhiteSpaceIgnored(s, cap);
    StripPacks(s);
    PackedIff(Strip(s), [], cap);
    PrefixOfFour(Strip(s));
  }

  lemma PrefixOfFour(t: string)
    ensures "====" <= t <==> |t| >= 4 && t[..4] == "===="
  {}

  // ------------------------------------------------------------------------------------------
  // Capacity
  // ------------------------------------------------------------------------------------------

  /** No quad the decoder gets to has three or more padding characters, except that four of them at the very start
      are always rejected. */
  predicate PaddingSafe(s: string, first: bool)
    decreases |s|
  {
    if s == [] then true
    else
      match ReadQuad(s, [], 0)
      case Bad => true
      case Quad(vals, pad, rest) =>
        if |vals| != 4 then true
        else if pad >= 3 then pad == 4 && first
        else PaddingSafe(rest, false)
  }

  lemma {:induction false} SafeStaysWithin(s: string, out: seq<byte>, cap: nat)
    requires PaddingSafe(s, out == []) && |out| <= cap
    ensures |DecodeFrom(s, out, cap).written| <= cap
    decreases |s|
  {
    if s != [] {
      var q := ReadQuad(s, [], 0);
      if q.Quad? && |q.vals| == 4 && !OverCapacity(|out|, q.pad, cap) {
        SafeStaysWithin(q.rest, out + QuadBytes(q.vals, q.pad), cap);
      }
    }
  }

  lemma {:induction false} UnsafeExceeds(s: string, out: seq<byte>) returns (cap: nat)
    requires !PaddingSafe(s, out == [])
    ensures |out| <= cap < |DecodeFrom(s, out, cap).written|
    decreases |s|
  {
    var q := ReadQuad(s, [], 0);
    var more := out + QuadBytes(q.vals, q.pad);
    if q.pad >= 3 {
      cap := |out|;
      assert DecodeFrom(s, out, cap) == DecodeFrom(q.rest, more, cap);
    } else {
      cap := UnsafeExceeds(q.rest, more);
      assert DecodeFrom(s, out, cap) == DecodeFrom(q.rest, more, cap);
    }
  }

  /** The decoder keeps within every capacity exactly when the padding of its input is safe. */
  lemma CapacityKeptIffPaddingSafe(s: string)
    ensures (forall cap: nat :: |Decode(s, cap).written| <= cap) <==> PaddingSafe(s, true)
  {
    if PaddingSafe(s, true) {
      forall cap: nat ensures |Decode(s, cap).written| <= cap {
        SafeStaysWithin(s, [], cap);
      }
    } else {
      var cap := UnsafeExceeds(s, []);
      assert |Decode(s, cap).written| > cap;
    }
  }

  /** A lone letter followed by three padding characters is decoded to one byte even into no room at all. */
  lemma {:induction false} ThreePadsExceed(s: string)
    requires s == ['A', '=', '=', '=']
    ensures |Decode(s, 0).written| == 1 && !PaddingSafe(s, true)
  {
    ReadLetter(0, ['=', '=', '='], [], 0);
    ReadPad(['=', '='], [0], 0);
    ReadPad(['='], [0, 0], 1);
    ReadPad([], [0, 0, 0], 2);
    assert [Enc(0)] + ['=', '=', '='] == s;
    assert ReadQuad(s, [], 0) == Quad([0, 0, 0] + [0], 3, []);
    QuadStep(s, Quad([0, 0, 0] + [0], 3, []), [], 0);
  }

  // ------------------------------------------------------------------------------------------
  // The loops
  // ------------------------------------------------------------------------------------------

  /** With `done` stored, the bytes from `i` on still to be encoded, `all` will come out. */
  ghost predicate EncodeGoal(done: string, input: seq<byte>, i: nat, all: string) {
    i <= |input| && done + Encode(input[i..]) == all
  }

  lemma {:induction false} GroupDone(done: string, input: seq<byte>, i: nat, k: nat, i': nat, done': string,
                                     all: string)
    requires i < |input| && k == Min(3, |input| - i) && i' == i + k && EncodeGoal(done, input, i, all)
    requires done' == done + EncodeGroup(input[i..i'])
    ensures EncodeGoal(done', input, i', all) && |done'| <= |all|
  {
    NextGroup(input, i, k);
    Shift(done, EncodeGroup(input[i..i']), Encode(input[i'..]), all);
  }

  lemma {:induction false} Shift(done: string, group: string, rest: string, all: string)
    requires done + (group + rest) == all
    ensures (done + group) + rest == all && |done + group| <= |all|
  {}

  lemma {:induction false} RoomForGroup(done: string, input: seq<byte>, i: nat, all: string)
    requires EncodeGoal(done, input, i, all) && i < |input|
    ensures |done| + 4 <= |all|
  {}

  lemma {:induction false} EncodeStarts(input: seq<byte>, done: string)
    requires done == []
    ensures EncodeGoal(done, input, 0, Encode(input))
  {
    assert input[0..] == input && done + Encode(input) == Encode(input);
  }

  lemma {:induction false} EncodeEnds(done: string, input: seq<byte>, i: nat, all: string)
    requires EncodeGoal(done, input, i, all) && i == |input|
    ensures done == all
  {
    assert input[i..] == [] && done + [] == done;
  }

  method EncodeBuffer(input: seq<byte>, out: array<char>) returns (n: nat)
    modifies out
    ensures out.Length < 4 * ((|input| + 2) / 3) + 1 ==> n == 0 && out[..] == old(out[..])
    ensures out.Length >= 4 * ((|input| + 2) / 3) + 1 ==>
              n == |Encode(input)| && out[..n] == Encode(input) && out[n] == '\0'
  {
    if out.Length < EncodedLen(|input|) {
      return 0;
    }
    var i, o := EncodeWholeGroups(input, out);
    if i < |input| {
      i, o := EncodeNext(input, i, |input| - i, out, o);
    }
    EncodeEnds(out[..o], input, i, Encode(input));
    out[o] := '\0';
    n := o;
  }

  /** One group of three bytes, or the one or two that are left. */
  method EncodeNext(input: seq<byte>, i: nat, k: nat, out: array<char>, o: nat) returns (i': nat, o': nat)
    requires i < |input| && k == Min(3, |input| - i) && o <= |Encode(input)| < out.Length
    requires EncodeGoal(out[..o], input, i, Encode(input))
    modifies out
    ensures i' == i + k && o' <= |Encode(input)| && EncodeGoal(out[..o'], input, i', Encode(input))
  {
    ghost var all, done := Encode(input), out[..o];
    RoomForGroup(done, input, i, all);
    i', o' := i + k, o + 4;
    StoreGroup(input[i..i'], out, o);
    GroupDone(done, input, i, k, i', out[..o'], all);
  }

  /** The loop over groups of three bytes. */
  method EncodeWholeGroups(input: seq<byte>, out: array<char>) returns (i: nat, o: nat)
    requires out.Length >= EncodedLen(|input|)
    modifies out
    ensures i <= |input| < i + 3 && o <= |Encode(input)| < out.Length
    ensures EncodeGoal(out[..o], input, i, Encode(input))
  {
    i, o := 0, 0;
    EncodeStarts(input, out[..o]);
    while i + 2 < |input|
      invariant i <= |input| && o <= |Encode(input)| < out.Length
      invariant EncodeGoal(out[..o], input, i, Encode(input))
    {
      i, o := EncodeNext(input, i, 3, out, o);
    }
  }

  /** Four output characters for the bytes of one group, the last of which may be short. */
  method StoreGroup(x: seq<byte>, out: array<char>, o: nat)
    requires 0 < |x| <= 3 && o + 4 <= out.Length
    modifies out
    ensures out[..o + 4] == old(out[..o]) + EncodeGroup(x)
  {
    if |x| == 3 {
      var q := Sextets(Group(x[0], x[1], x[2]));
      PutFour(out, o, Enc(q[0]), Enc(q[1]), Enc(q[2]), Enc(q[3]));
    } else if |x| == 2 {
      var q := Sextets(Group(x[0], x[1], 0));
      PutFour(out, o, Enc(q[0]), Enc(q[1]), Enc(q[2]), '=');
    } else {
      var q := Sextets(Group(x[0], 0, 0));
      PutFour(out, o, Enc(q[0]), Enc(q[1]), '=', '=');
    }
  }

  method PutFour(out: array<char>, o: nat, a: char, b: char, c: char, d: char)
    requires o + 4 <= out.Length
    modifies out
    ensures out[..o + 4] == old(out[..o]) + [a, b, c, d]
  {
    out[o], out[o + 1], out[o + 2], out[o + 3] := a, b, c, d;
  }

  lemma {:induction false} NextGroup(input: seq<byte>, i: nat, k: nat)
    requires i < |input| && k == Min(3, |input| - i)
    ensures Encode(input[i..]) == EncodeGroup(input[i..i + k]) + Encode(input[i + k..])
  {
    assert input[i..][..k] == input[i..i + k] && input[i..][k..] == input[i + k..];
  }

  /** The inner loop: four significant characters from position `i` on. */
  method ScanQuad(input: string, start: nat) returns (bad: bool, vals: seq<sextet>, pad: nat, i: nat)
    requires start <= |input|
    ensures start <= i <= |input|
    ensures bad ==> ReadQuad(input[start..], [], 0) == Bad
    ensures !bad ==> ReadQuad(input[start..], [], 0) == Quad(vals, pad, input[i..])
    ensures !bad && start < |input| ==> start < i
  {
    bad, vals, pad, i := false, [], 0, start;
    while |vals| < 4 && i < |input|
      invariant start <= i <= |input| && pad <= |vals| <= 4
      invariant |vals| > 0 ==> start < i
      invariant ReadQuad(input[start..], [], 0) == ReadQuad(input[i..], vals, pad)
      decreases |input| - i
    {
      var c := input[i];
      assert input[i..][1..] == input[i + 1..];
      i := i + 1;
      if IsSpace(c) {
        continue;
      }
      if c == '=' {
        vals, pad := vals + [0], pad + 1;
        continue;
      }
      var d := DecVal(c);
      if d < 0 {
        bad := true;
        return;
      }
      vals := vals + [d];
    }
  }

  /** Stores the one to three bytes of a quad. */
  method StoreBytes(vals: seq<sextet>, pad: nat, out: array<byte>, start: nat) returns (o: nat)
    requires |vals| == 4 && start + |QuadBytes(vals, pad)| <= out.Length
    modifies out
    ensures o == start + |QuadBytes(vals, pad)|
    ensures out[..o] == old(out[..start]) + QuadBytes(vals, pad)
  {
    ghost var done := out[..start];
    var n := Join(vals[0], vals[1], vals[2], vals[3]);
    o := start;
    out[o] := n / 0x1_0000 % 256;
    o := o + 1;
    if pad < 2 {
      out[o] := n / 0x100 % 256;
      o := o + 1;
    }
    if pad < 1 {
      out[o] := n % 256;
      o := o + 1;
    }
    assert out[..start] == done;
    assert out[start..o] == QuadBytes(vals, pad);
    assert out[..o] == out[..start] + out[start..o];
  }

  /** What the caller must provide so that every store lands inside the buffer: safe padding, or room for three bytes
      from every four characters. */
  predicate RoomToDecode(s: string, cap: nat) {
    PaddingSafe(s, true) || |s| / 4 * 3 <= cap
  }

  lemma {:induction false} RoomSuffices(s: string, cap: nat)
    requires RoomToDecode(s, cap)
    ensures |Decode(s, cap).written| <= cap
  {
    DecodedLength(s, [], cap);
    if PaddingSafe(s, true) {
      SafeStaysWithin(s, [], cap);
    }
  }

  /** `Overrun` stands for the store outside the buffer that the original makes where its capacity test lets it. */
  datatype Outcome = Length(n: nat) | Failed | Overrun

  /** How many bytes a quad stores. */
  function Stored(pad: nat): (n: nat)
    ensures forall vals: seq<sextet> :: |vals| == 4 ==> |QuadBytes(vals, pad)| == n
  {
    if pad < 1 then 3 else if pad < 2 then 2 else 1
  }

  /** One turn of the outer loop. `end` tells that the decoding ends here. */
  method DecodeQuad(input: string, i: nat, out: array<byte>, o: nat)
    returns (end: Option<Outcome>, i': nat, o': nat)
    requires i < |input| && o <= out.Length
    modifies out
    ensures end.Some? ==> EndsIn(old(DecodeFrom(input[i..], out[..o], out.Length)), end.value, out.Length)
    ensures end.Some? ==> out[..] == old(out[..]) && (end.value.Length? ==> end.value.n == o)
    ensures end.Some? && end.value.Length? ==> old(DecodeFrom(input[i..], out[..o], out.Length)).written == out[..o]
    ensures end.None? ==> i < i' <= |input| && o' <= out.Length
    ensures end.None? ==>
              DecodeFrom(input[i'..], out[..o'], out.Length) == old(DecodeFrom(input[i..], out[..o], out.Length))
  {
    end, i', o' := Some(Failed), i, o;
    var bad, vals, pad, next := ScanQuad(input, i);
    QuadStep(input[i..], if bad then Bad else Quad(vals, pad, input[next..]), out[..o], out.Length);
    if bad {
      return;
    }
    if |vals| == 0 {
      end := Some(Length(o));
      return;
    }
    if |vals| != 4 || OverCapacity(o, pad, out.Length) {
      return;
    }
    if o + Stored(pad) > out.Length {
      end := Some(Overrun);
      return;
    }
    o' := StoreBytes(vals, pad, out, o);
    end, i' := None, next;
  }

  /** An outcome is that of a decoding: failure and success are the decoder's, unless it has stored too much. */
  ghost predicate EndsIn(d: Decoded, r: Outcome, cap: nat) {
    match r
    case Overrun => |d.written| > cap
    case Failed => !d.ok && |d.written| <= cap
    case Length(n) => d.ok && n == |d.written| <= cap
  }

  method DecodeBuffer(input: string, out: array<byte>) returns (r: Outcome)
    modifies out
    ensures EndsIn(Decode(input, out.Length), r, out.Length)
    ensures r.Length? ==> r.n <= out.Length && out[..r.n] == Decode(input, out.Length).written
    ensures RoomToDecode(input, out.Length) ==> !r.Overrun?
  {
    ghost var final := Decode(input, out.Length);
    if RoomToDecode(input, out.Length) {
      RoomSuffices(input, out.Length);
    }
    var i: nat, o: nat := 0, 0;
    assert input[0..] == input;
    assert out[..0] == [];
    while i < |input|
      invariant i <= |input| && o <= out.Length
      invariant DecodeFrom(input[i..], out[..o], out.Length) == final
      decreases |input| - i
    {
      var end, i', o' := DecodeQuad(input, i, out, o);
      if end.Some? {
        return end.value;
      }
      i, o := i', o';
    }
    return Length(o);
  }
}
