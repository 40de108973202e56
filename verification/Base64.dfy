/**
 The payload codec of the relay: `general_purpose::STANDARD`, that is, the base 64 encoding of
 section 4 of RFC 4648 with mandatory padding. The decoder is strict: it wants whole quads, padding only
 at the end, and unused bits zero.
 */
module Base64 {
  import opened Types
  import opened Strings

  type Sextet = v: int | 0 <= v < 64

  /** Table 1 of RFC 4648. */
  function ToChar(v: Sextet): char {
    if v < 26 then (v + 'A' as int) as char
    else if v < 52 then (v - 26 + 'a' as int) as char
    else if v < 62 then (v - 52 + '0' as int) as char
    else if v == 62 then '+'
    else '/'
  }

  function ToSextet(c: char): Option<Sextet> {
    if 'A' <= c <= 'Z' then Some(c as int - 'A' as int)
    else if 'a' <= c <= 'z' then Some(c as int - 'a' as int + 26)
    else if '0' <= c <= '9' then Some(c as int - '0' as int + 52)
    else if c == '+' then Some(62)
    else if c == '/' then Some(63)
    else None
  }

  /** The two tables are inverse to one another, and the padding sign is in neither. */
  lemma CharInverse(v: Sextet)
    ensures ToSextet(ToChar(v)) == Some(v) && ToChar(v) != '='
  {
  }

  lemma SextetInverse(c: char)
    requires ToSextet(c).Some?
    ensures ToChar(ToSextet(c).value) == c
  {
  }

  /** The four sextets of three octets, and back. */
  function Sextets(a: Byte, b: Byte, c: Byte): (Sextet, Sextet, Sextet, Sextet) {
    (a / 4, a % 4 * 16 + b / 16, b % 16 * 4 + c / 64, c % 64)
  }

  function Octets(w: Sextet, x: Sextet, y: Sextet, z: Sextet): (Byte, Byte, Byte) {
    var a: Byte := w * 4 + x / 16;
    var b: Byte := x % 16 * 16 + y / 4;
    var c: Byte := y % 4 * 64 + z;
    (a, b, c)
  }

  /** A high part and a low part, joined, come apart again. */
  lemma Joined(h: nat, l: nat)
    ensures l < 4 ==> (h * 4 + l) / 4 == h && (h * 4 + l) % 4 == l
    ensures l < 16 ==> (h * 16 + l) / 16 == h && (h * 16 + l) % 16 == l
    ensures l < 64 ==> (h * 64 + l) / 64 == h && (h * 64 + l) % 64 == l
  {
  }

  lemma OctetsOfSextets(a: Byte, b: Byte, c: Byte)
    ensures var (w, x, y, z) := Sextets(a, b, c); Octets(w, x, y, z) == (a, b, c)
    ensures c == 0 ==> Sextets(a, b, c).2 % 4 == 0 && Sextets(a, b, c).3 == 0
    ensures b == 0 ==> Sextets(a, b, c).1 % 16 == 0
  {
    Joined(a % 4, b / 16);
    Joined(b % 16, c / 64);
  }

  lemma SextetsOfOctets(w: Sextet, x: Sextet, y: Sextet, z: Sextet)
    ensures var (a, b, c) := Octets(w, x, y, z); Sextets(a, b, c) == (w, x, y, z)
  {
    Joined(w, x / 16);
    Joined(x % 16, y / 4);
    Joined(y % 4, z);
  }

  function EncodeTriple(a: Byte, b: Byte, c: Byte): (q: string)
    ensures |q| == 4
  {
    var (w, x, y, z) := Sextets(a, b, c);
    [ToChar(w), ToChar(x), ToChar(y), ToChar(z)]
  }

  function Encode(bs: Bytes): string {
    if |bs| == 0 then ""
    else if |bs| == 1 then EncodeTriple(bs[0], 0, 0)[..2] + "=="
    else if |bs| == 2 then EncodeTriple(bs[0], bs[1], 0)[..3] + "="
    else EncodeTriple(bs[0], bs[1], bs[2]) + Encode(bs[3..])
  }

  /** One quad without padding. */
  function DecodeQuad(q: string): (r: Option<Bytes>)
    requires |q| == 4
    ensures r.Some? ==> |r.value| == 3
  {
    match (ToSextet(q[0]), ToSextet(q[1]), ToSextet(q[2]), ToSextet(q[3]))
    case (Some(w), Some(x), Some(y), Some(z)) =>
      var (a, b, c) := Octets(w, x, y, z); Some([a, b, c])
    case _ => None
  }

  /** The last quad, which may carry one or two padding signs. */
  function DecodeLast(q: string): (r: Option<Bytes>)
    requires |q| == 4
    ensures r.Some? ==> 1 <= |r.value| <= 3
  {
    if q[3] != '=' then DecodeQuad(q)
    else
      match (ToSextet(q[0]), ToSextet(q[1]), ToSextet(q[2]))
      case (Some(w), Some(x), Some(y)) =>
        var (a, b, _) := Octets(w, x, y, 0); if y % 4 == 0 then Some([a, b]) else None
      case (Some(w), Some(x), None) =>
        var (a, _, _) := Octets(w, x, 0, 0); if q[2] == '=' && x % 16 == 0 then Some([a]) else None
      case _ => None
  }

  function Decode(s: string): Option<Bytes> {
    if |s| == 0 then Some([])
    else if |s| < 4 then None
    else if |s| == 4 then DecodeLast(s)
    else
      match (DecodeQuad(s[..4]), Decode(s[4..]))
      case (Some(first), Some(rest)) => Some(first + rest)
      case _ => None
  }

  lemma TripleInverse(a: Byte, b: Byte, c: Byte)
    ensures DecodeQuad(EncodeTriple(a, b, c)) == Some([a, b, c])
    ensures EncodeTriple(a, b, c)[3] != '='
  {
    var (w, x, y, z) := Sextets(a, b, c);
    CharInverse(w); CharInverse(x); CharInverse(y); CharInverse(z);
    OctetsOfSextets(a, b, c);
  }

  lemma OneInverse(a: Byte)
    ensures |Encode([a])| == 4 && DecodeLast(Encode([a])) == Some([a])
  {
    OctetsOfSextets(a, 0, 0);
    var (w, x, _, _) := Sextets(a, 0, 0);
    CharInverse(w); CharInverse(x);
    assert Encode([a]) == [ToChar(w), ToChar(x), '=', '='];
  }

  lemma TwoInverse(a: Byte, b: Byte)
    ensures |Encode([a, b])| == 4 && DecodeLast(Encode([a, b])) == Some([a, b])
  {
    OctetsOfSextets(a, b, 0);
    var (w, x, y, _) := Sextets(a, b, 0);
    CharInverse(w); CharInverse(x); CharInverse(y);
    assert Encode([a, b]) == [ToChar(w), ToChar(x), ToChar(y), '='];
  }

  lemma LastInverse(bs: Bytes)
    requires 1 <= |bs| <= 3
    ensures |Encode(bs)| == 4 && DecodeLast(Encode(bs)) == Some(bs)
  {
    if |bs| == 1 {
      OneInverse(bs[0]);
      assert bs == [bs[0]];
    } else if |bs| == 2 {
      TwoInverse(bs[0], bs[1]);
      assert bs == [bs[0], bs[1]];
    } else {
      TripleInverse(bs[0], bs[1], bs[2]);
      assert Encode(bs[3..]) == "" && Encode(bs) == EncodeTriple(bs[0], bs[1], bs[2]);
      assert bs == [bs[0], bs[1], bs[2]];
    }
  }

  /** Whatever bytes go in, decoding their encoding gives them back. */
  lemma {:induction false} RoundTrip(bs: Bytes)
    ensures Decode(Encode(bs)) == Some(bs)
  {
    hide EncodeTriple, DecodeQuad, DecodeLast;
    if 1 <= |bs| <= 3 {
      LastInverse(bs);
    } else if |bs| > 3 {
      TripleInverse(bs[0], bs[1], bs[2]);
      RoundTrip(bs[3..]);
      var s := Encode(bs);
      assert s[..4] == EncodeTriple(bs[0], bs[1], bs[2]) && s[4..] == Encode(bs[3..]);
      assert [bs[0], bs[1], bs[2]] + bs[3..] == bs;
      NonEmpty(bs[3..]);
    }
  }

  lemma NonEmpty(bs: Bytes)
    requires |bs| > 0
    ensures |Encode(bs)| >= 4
  {
  }

  // ---------- the encoding, character by character ----------

  /** Table 1 of RFC 4648, written out. */
  const DIGITS := "0123456789"
  const ALPHABET := UPPER_A + UPPER_N + LOWER_A + LOWER_N + DIGITS + "+/"

  lemma Rows(i: nat)
    ensures i < 13 ==> UPPER_A[i] == (i + 'A' as int) as char && UPPER_N[i] == (i + 'N' as int) as char
    ensures i < 13 ==> LOWER_A[i] == (i + 'a' as int) as char && LOWER_N[i] == (i + 'n' as int) as char
    ensures i < 10 ==> DIGITS[i] == (i + '0' as int) as char
  {
  }

  /** Which part of a concatenation an index falls into. */
  lemma PartAt(a: string, b: string, c: string, d: string, e: string, f: string, v: nat)
    requires |a| == |b| == |c| == |d| == 13 && |e| == 10 && |f| == 2 && v < 64
    ensures |a + b + c + d + e + f| == 64
    ensures (a + b + c + d + e + f)[v] ==
      if v < 13 then a[v] else if v < 26 then b[v - 13] else if v < 39 then c[v - 26]
      else if v < 52 then d[v - 39] else if v < 62 then e[v - 52] else f[v - 62]
  {
  }

  /** The character that the alphabet has for v. */
  function InTable(v: Sextet): char
  {
    PartAt(UPPER_A, UPPER_N, LOWER_A, LOWER_N, DIGITS, "+/", v);
    ALPHABET[v]
  }

  lemma CharAt(v: Sextet)
    ensures ToChar(v) == InTable(v)
  {
    PartAt(UPPER_A, UPPER_N, LOWER_A, LOWER_N, DIGITS, "+/", v);
    if v < 13 {
      Rows(v);
    } else if v < 26 {
      Rows(v - 13);
    } else if v < 39 {
      Rows(v - 26);
    } else if v < 52 {
      Rows(v - 39);
    } else if v < 62 {
      Rows(v - 52);
    }
  }

  /** The bytes, followed by zeros. */
  function ByteAt(bs: Bytes, i: nat): Byte { if i < |bs| then bs[i] else 0 }

  /** Byte i and the one after it, as a 16-bit number. */
  function Window(bs: Bytes, i: nat): nat { ByteAt(bs, i) * 256 + ByteAt(bs, i + 1) }

  /** The k-th group of six bits, most significant bit first. It starts at bit 6k, which is bit 0, 6, 4 or 2 of byte
      6k / 8, so what follows it in the 16 bits from there on is 10, 4, 6 or 8 bits. */
  function Group(bs: Bytes, k: nat): (g: Sextet) {
    var w := Window(bs, 6 * k / 8);
    match 6 * k % 8
    case 0 => w / 1024 % 64
    case 6 => w / 16 % 64
    case 4 => w / 64 % 64
    case _ => w / 256 % 64
  }

  /** How many padding signs the encoding of n bytes ends with. */
  function Padding(n: nat): nat { (3 - n % 3) % 3 }

  /** The four groups of the first three bytes. */
  lemma FirstGroups(bs: Bytes)
    ensures Group(bs, 0) == ByteAt(bs, 0) / 4
    ensures Group(bs, 1) == ByteAt(bs, 0) % 4 * 16 + ByteAt(bs, 1) / 16
    ensures Group(bs, 2) == ByteAt(bs, 1) % 16 * 4 + ByteAt(bs, 2) / 64
    ensures Group(bs, 3) == ByteAt(bs, 2) % 64
  {
    hide ByteAt;
    GroupsByWindow(bs);
    Window4(ByteAt(bs, 0), ByteAt(bs, 1));
    Window16(ByteAt(bs, 0), ByteAt(bs, 1));
    Window64(ByteAt(bs, 1), ByteAt(bs, 2));
    Window256(ByteAt(bs, 2), ByteAt(bs, 3));
    hide Group;
  }

  lemma GroupsByWindow(bs: Bytes)
    ensures Group(bs, 0) == Window(bs, 0) / 1024 % 64 && Group(bs, 1) == Window(bs, 0) / 16 % 64
    ensures Group(bs, 2) == Window(bs, 1) / 64 % 64 && Group(bs, 3) == Window(bs, 2) / 256 % 64
  {
    hide Window;
  }

  lemma Window4(a: Byte, b: Byte)
    ensures (a * 256 + b) / 1024 % 64 == a / 4
  {
    assert a * 256 + b == 1024 * (a / 4) + (a % 4 * 256 + b);
  }

  lemma Window16(a: Byte, b: Byte)
    ensures (a * 256 + b) / 16 % 64 == a % 4 * 16 + b / 16
  {
    assert (a * 256 + b) / 16 == a * 16 + b / 16 by {
      assert a * 256 + b == 16 * (a * 16 + b / 16) + b % 16;
    }
    assert a * 16 + b / 16 == 64 * (a / 4) + (a % 4 * 16 + b / 16);
  }

  lemma Window64(b: Byte, c: Byte)
    ensures (b * 256 + c) / 64 % 64 == b % 16 * 4 + c / 64
  {
    assert (b * 256 + c) / 64 == b * 4 + c / 64 by {
      assert b * 256 + c == 64 * (b * 4 + c / 64) + c % 64;
    }
    assert b * 4 + c / 64 == 64 * (b / 16) + (b % 16 * 4 + c / 64);
  }

  lemma Window256(c: Byte, d: Byte)
    ensures (c * 256 + d) / 256 % 64 == c % 64
  {
  }

  lemma LaterGroup(bs: Bytes, k: nat)
    requires |bs| >= 3
    ensures Group(bs, k + 4) == Group(bs[3..], k)
  {
    assert 6 * (k + 4) / 8 == 6 * k / 8 + 3 && 6 * (k + 4) % 8 == 6 * k % 8;
    assert Window(bs, 6 * k / 8 + 3) == Window(bs[3..], 6 * k / 8);
  }

  /** The k-th character of s is right for the bytes. */
  predicate RightAt(s: string, bs: Bytes, k: nat)
    requires k < |s|
  {
    s[k] == if k < |s| - Padding(|bs|) then InTable(Group(bs, k)) else '='
  }

  lemma RightLater(quad: string, rest: string, bs: Bytes, k: nat)
    requires |quad| == 4 && |bs| > 3 && k < |rest| && RightAt(rest, bs[3..], k)
    ensures RightAt(quad + rest, bs, k + 4)
  {
    hide Group, InTable;
    LaterGroup(bs, k);
    assert Padding(|bs[3..]|) == Padding(|bs|);
  }

  /** Only one or two bytes leave padding among the first four characters. */
  lemma PaddingOfFew(bs: Bytes, k: nat)
    requires bs != [] && k < 4
    ensures var length := 4 * ((|bs| + 2) / 3);
      k < length - Padding(|bs|) <==> k < 2 || (k == 2 && |bs| >= 2) || (k == 3 && |bs| >= 3)
  {
  }

  lemma RightFirst(bs: Bytes, k: nat)
    requires bs != [] && k < 4 && |Encode(bs)| == 4 * ((|bs| + 2) / 3)
    ensures RightAt(Encode(bs), bs, k)
  {
    hide ByteAt, ToChar, Encode, Group, InTable;
    FirstGroups(bs);
    FirstQuad(bs);
    PaddingOfFew(bs, k);
  }

  lemma {:induction false} AllRight(bs: Bytes)
    ensures |Encode(bs)| == 4 * ((|bs| + 2) / 3)
    ensures forall k :: 0 <= k < |Encode(bs)| ==> RightAt(Encode(bs), bs, k)
  {
    hide RightAt, Sextets, ByteAt, ToChar, Group, EncodeTriple, InTable;
    if bs != [] {
      FirstQuad(bs);
      if |bs| <= 3 {
        forall k | 0 <= k < 4 ensures RightAt(Encode(bs), bs, k) {
          RightFirst(bs, k);
        }
      } else {
        AllRight(bs[3..]);
        RightQuads(bs, Encode(bs)[..4], Encode(bs[3..]));
      }
    }
  }

  lemma RightQuads(bs: Bytes, quad: string, rest: string)
    requires |bs| > 3 && |quad| == 4 && Encode(bs) == quad + rest && |rest| == 4 * ((|bs[3..]| + 2) / 3)
    requires forall k :: 0 <= k < |rest| ==> RightAt(rest, bs[3..], k)
    ensures |Encode(bs)| == 4 * ((|bs| + 2) / 3)
    ensures forall k :: 0 <= k < |Encode(bs)| ==> RightAt(Encode(bs), bs, k)
  {
    hide RightAt, Encode;
    assert |Encode(bs)| == 4 * ((|bs| + 2) / 3);
    forall k | 0 <= k < |Encode(bs)| ensures RightAt(Encode(bs), bs, k) {
      if k < 4 {
        RightFirst(bs, k);
      } else {
        RightLater(quad, rest, bs, k - 4);
      }
    }
  }

  /** The encoding has four characters for every three bytes, the last of them rounded up. It ends with the padding,
      and before it the k-th character is the one the alphabet has for the k-th group of six bits. */
  lemma EncodeExact(bs: Bytes)
    ensures |Encode(bs)| == 4 * ((|bs| + 2) / 3)
    ensures forall k :: 0 <= k < |Encode(bs)| ==>
      Encode(bs)[k] == if k < |Encode(bs)| - (3 - |bs| % 3) % 3 then ALPHABET[Group(bs, k)] else '='
  {
    AllRight(bs);
    hide Encode, Group, ToChar;
    forall k | 0 <= k < |Encode(bs)|
      ensures Encode(bs)[k] == if k < |Encode(bs)| - (3 - |bs| % 3) % 3 then ALPHABET[Group(bs, k)] else '='
    {
      assert RightAt(Encode(bs), bs, k);
    }
  }

  /** The first four characters, with the padding if there are no more than three bytes. */
  lemma FirstQuad(bs: Bytes)
    requires bs != []
    ensures |Encode(bs)| >= 4 && (|bs| <= 3 ==> |Encode(bs)| == 4)
    ensures |bs| > 3 ==> Encode(bs) == Encode(bs)[..4] + Encode(bs[3..])
    ensures var s := Encode(bs); var (w, x, y, z) := Sextets(ByteAt(bs, 0), ByteAt(bs, 1), ByteAt(bs, 2));
      && s[0] == InTable(w) && s[1] == InTable(x)
      && s[2] == (if |bs| >= 2 then InTable(y) else '=') && s[3] == (if |bs| >= 3 then InTable(z) else '=')
  {
    var (w, x, y, z) := Sextets(ByteAt(bs, 0), ByteAt(bs, 1), ByteAt(bs, 2));
    hide ToChar, InTable;
    CharAt(w); CharAt(x); CharAt(y); CharAt(z);
    if |bs| == 3 {
      assert Encode(bs[3..]) == "";
    }
  }

  lemma QuadCanonical(q: string)
    requires |q| == 4 && DecodeQuad(q).Some?
    ensures var d := DecodeQuad(q).value; EncodeTriple(d[0], d[1], d[2]) == q
  {
    SextetInverse(q[0]); SextetInverse(q[1]); SextetInverse(q[2]); SextetInverse(q[3]);
    SextetsOfOctets(ToSextet(q[0]).value, ToSextet(q[1]).value, ToSextet(q[2]).value, ToSextet(q[3]).value);
  }

  lemma LastCanonical(q: string)
    requires |q| == 4 && DecodeLast(q).Some?
    ensures Encode(DecodeLast(q).value) == q
  {
    if q[3] != '=' {
      QuadCanonical(q);
      assert Encode(DecodeQuad(q).value[3..]) == "";
    } else {
      SextetInverse(q[0]); SextetInverse(q[1]);
      var w, x := ToSextet(q[0]).value, ToSextet(q[1]).value;
      match ToSextet(q[2]) {
        case Some(y) =>
          SextetInverse(q[2]);
          SextetsOfOctets(w, x, y, 0);
        case None =>
          SextetsOfOctets(w, x, 0, 0);
      }
    }
  }

  /** The strict decoder accepts nothing but encodings, so a payload has exactly one spelling. */
  lemma {:induction false} Canonical(s: string)
    requires Decode(s).Some?
    ensures Encode(Decode(s).value) == s
  {
    if |s| == 4 {
      LastCanonical(s);
    } else if |s| > 4 {
      QuadCanonical(s[..4]);
      Canonical(s[4..]);
      var d, rest := DecodeQuad(s[..4]).value, Decode(s[4..]).value;
      assert (d + rest)[3..] == rest;
    }
  }
}
