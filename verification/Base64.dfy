/** Unpadded base64url (section 5 of RFC 4648) with the leniencies of the decoder the
    program uses: line breaks are skipped and unused trailing bits are not checked. */
module Base64 {
  import opened Basics

  const DOT: byte := 46
  const LF: byte := 10
  const CR: byte := 13

  newtype sextet = x: int | 0 <= x < 64

  function Digit(v: sextet): byte {
    var i := v as int;
    (if i < 26 then 65 + i
     else if i < 52 then 71 + i
     else if i < 62 then i - 4
     else if i == 62 then 45
     else 95) as byte
  }

  function Value(b: byte): Option<sextet> {
    var c := b as int;
    if 65 <= c <= 90 then Some((c - 65) as sextet)
    else if 97 <= c <= 122 then Some((c - 71) as sextet)
    else if 48 <= c <= 57 then Some((c + 4) as sextet)
    else if c == 45 then Some(62)
    else if c == 95 then Some(63)
    else None
  }

  /** Octet k, with zeros past the end. */
  function OctetAt(b: Bytes, k: nat): (o: int)
    ensures 0 <= o < 256
  {
    if k < |b| then b[k] as int else 0
  }

  /** Sextet i of the text: four of them spread over each group of three octets. */
  function SextetAt(b: Bytes, i: nat): sextet {
    var g := i / 4 * 3;
    var (x, y, z) := (OctetAt(b, g), OctetAt(b, g + 1), OctetAt(b, g + 2));
    (if i % 4 == 0 then x / 4
     else if i % 4 == 1 then x % 4 * 16 + y / 16
     else if i % 4 == 2 then y % 16 * 4 + z / 64
     else z % 64) as sextet
  }

  /** A short last group of one or two octets becomes two or three sextets. */
  function Sextets(b: Bytes): seq<sextet> {
    seq((4 * |b| + 2) / 3, i requires i >= 0 => SextetAt(b, i))
  }

  function Octets(s: seq<sextet>): Option<Bytes> {
    if s == [] then Some([])
    else if |s| == 1 then None
    else
      var p, q := s[0] as int, s[1] as int;
      var first := (p * 4 + q / 16) as byte;
      if |s| == 2 then Some([first])
      else
        var r := s[2] as int;
        var second := (q % 16 * 16 + r / 4) as byte;
        if |s| == 3 then Some([first, second])
        else
          match Octets(s[4..])
          case None => None
          case Some(rest) => Some([first, second, (r % 4 * 64 + s[3] as int) as byte] + rest)
  }

  function Digits(s: seq<sextet>): Bytes {
    seq(|s|, i requires 0 <= i < |s| => Digit(s[i]))
  }

  /** The sextets of a text, skipping line breaks; None at the first foreign byte. */
  function Values(t: Bytes): Option<seq<sextet>> {
    if t == [] then Some([])
    else if t[0] == LF || t[0] == CR then Values(t[1..])
    else
      match Value(t[0])
      case None => None
      case Some(v) =>
        match Values(t[1..])
        case None => None
        case Some(rest) => Some([v] + rest)
  }

  function Encode(b: Bytes): Bytes {
    Digits(Sextets(b))
  }

  function Decode(t: Bytes): Option<Bytes> {
    match Values(t)
    case None => None
    case Some(s) => Octets(s)
  }

  lemma SextetsOfRest(b: Bytes)
    requires |b| > 2
    ensures |Sextets(b)| >= 4 && Sextets(b)[4..] == Sextets(b[3..])
  {
    forall i: nat | i < |Sextets(b[3..])| ensures SextetAt(b, i + 4) == SextetAt(b[3..], i) {
      assert (i + 4) / 4 * 3 == i / 4 * 3 + 3 && (i + 4) % 4 == i % 4;
    }
  }

  lemma ThreeOctets(s: seq<sextet>, rest: Bytes, x: byte, y: byte, z: byte)
    requires |s| >= 4 && Octets(s[4..]) == Some(rest)
    requires s[0] as int * 4 + s[1] as int / 16 == x as int
    requires s[1] as int % 16 * 16 + s[2] as int / 4 == y as int
    requires s[2] as int % 4 * 64 + s[3] as int == z as int
    ensures Octets(s) == Some([x, y, z] + rest)
  {
  }

  lemma LongGroup(s: seq<sextet>, b: Bytes)
    requires |s| >= 4 && |b| >= 3 && Octets(s[4..]) == Some(b[3..])
    requires s[0] as int * 4 + s[1] as int / 16 == b[0] as int
    requires s[1] as int % 16 * 16 + s[2] as int / 4 == b[1] as int
    requires s[2] as int % 4 * 64 + s[3] as int == b[2] as int
    ensures Octets(s) == Some(b)
  {
    ThreeOctets(s, b[3..], b[0], b[1], b[2]);
    assert b == [b[0], b[1], b[2]] + b[3..];
  }

  lemma ShortGroup(s: seq<sextet>, b: Bytes)
    requires 1 <= |b| <= 2 && |s| == |b| + 1
    requires s[0] as int * 4 + s[1] as int / 16 == b[0] as int
    requires |b| > 1 ==> s[1] as int % 16 * 16 + s[2] as int / 4 == b[1] as int
    ensures Octets(s) == Some(b)
  {
    assert b == if |b| == 1 then [b[0]] else [b[0], b[1]];
  }

  lemma {:induction false} OctetsOfSextets(b: Bytes)
    ensures Octets(Sextets(b)) == Some(b)
  {
    var s := Sextets(b);
    if |b| == 0 {
      assert |s| == 0;
    } else if |b| <= 2 {
      FirstGroup(b);
      ShortGroup(s, b);
    } else {
      FirstGroup(b);
      SextetsOfRest(b);
      OctetsOfSextets(b[3..]);
      LongGroup(s, b);
    }
  }

  /** The first group of sextets spells the first three octets. */
  lemma FirstGroup(b: Bytes)
    requires |b| > 0
    ensures var s := Sextets(b);
            && |s| == (if |b| == 1 then 2 else if |b| == 2 then 3 else 4 + |Sextets(b[3..])|)
            && s[0] as int * 4 + s[1] as int / 16 == b[0] as int
            && (|b| > 1 ==> s[1] as int % 16 * 16 + s[2] as int / 4 == b[1] as int)
            && (|b| > 2 ==> s[2] as int % 4 * 64 + s[3] as int == b[2] as int)
  {
    var s := Sextets(b);
    assert s[0] == SextetAt(b, 0) && s[1] == SextetAt(b, 1);
    if |b| > 1 {
      assert s[2] == SextetAt(b, 2);
    }
    if |b| > 2 {
      assert s[3] == SextetAt(b, 3);
    }
  }

  lemma {:induction false} ValuesOfDigits(s: seq<sextet>)
    ensures Values(Digits(s)) == Some(s)
    ensures DOT !in Digits(s)
  {
    if |s| > 0 {
      ValuesOfDigits(s[1..]);
      assert Digits(s)[1..] == Digits(s[1..]);
      assert s == [s[0]] + s[1..];
      assert Digits(s) == [Digit(s[0])] + Digits(s[1..]);
    } else {
      assert Digits(s) == [];
    }
  }

  /** Decoding inverts encoding, and an encoding carries no dot. */
  lemma RoundTrip(b: Bytes)
    ensures Decode(Encode(b)) == Some(b)
    ensures DOT !in Encode(b)
  {
    OctetsOfSextets(b);
    ValuesOfDigits(Sextets(b));
  }

  /** No foreign byte, a dot among them, decodes. */
  lemma {:induction false} DecodedHasNoDot(t: Bytes)
    requires Values(t).Some?
    ensures DOT !in t
    decreases |t|
  {
    if t != [] {
      DecodedHasNoDot(t[1..]);
      assert t == [t[0]] + t[1..];
    }
  }

  /** The alphabet: capitals, small letters, digits, then '-' and '_', each range in order,
      and no two sextets share a letter. */
  lemma AlphabetIsUrlSafe(v: sextet, w: sextet)
    ensures [Digit(0), Digit(25), Digit(26), Digit(51), Digit(52), Digit(61), Digit(62), Digit(63)]
            == ['A' as int as byte, 'Z' as int as byte, 'a' as int as byte, 'z' as int as byte,
                '0' as int as byte, '9' as int as byte, '-' as int as byte, '_' as int as byte]
    ensures v < 61 && v !in {25, 51} ==> Digit(v + 1) == Digit(v) + 1
    ensures Digit(v) == Digit(w) ==> v == w
    ensures Value(Digit(v)) == Some(v)
  {
    assert 'A' as int == 65 && 'Z' as int == 90 && 'a' as int == 97 && 'z' as int == 122;
    assert '0' as int == 48 && '9' as int == 57 && '-' as int == 45 && '_' as int == 95;
  }

  /** Bits are kept in order: a group of three octets spells its four sextets, most
      significant first. */
  lemma GroupSpellsItsBits(b: Bytes, g: nat)
    requires 3 * g + 2 < |b|
    ensures var s := Sextets(b);
            && |s| >= 4 * g + 4
            && s[4 * g] as int * 262144 + s[4 * g + 1] as int * 4096 + s[4 * g + 2] as int * 64 + s[4 * g + 3] as int
               == b[3 * g] as int * 65536 + b[3 * g + 1] as int * 256 + b[3 * g + 2] as int
            && Encode(b)[4 * g] == Digit(s[4 * g])
  {
    GroupStarts(g);
    var (x, y, z) := (b[3 * g] as int, b[3 * g + 1] as int, b[3 * g + 2] as int);
    var s := Sextets(b);
    assert s[4 * g] == SextetAt(b, 4 * g) && s[4 * g + 1] == SextetAt(b, 4 * g + 1);
    assert s[4 * g + 2] == SextetAt(b, 4 * g + 2) && s[4 * g + 3] == SextetAt(b, 4 * g + 3);
    BitsAddUp(x, y, z);
  }

  lemma GroupStarts(g: nat)
    ensures 4 * g / 4 * 3 == (4 * g + 1) / 4 * 3 == (4 * g + 2) / 4 * 3 == (4 * g + 3) / 4 * 3 == 3 * g
    ensures 4 * g % 4 == 0 && (4 * g + 1) % 4 == 1 && (4 * g + 2) % 4 == 2 && (4 * g + 3) % 4 == 3
  {
  }

  lemma BitsAddUp(x: nat, y: nat, z: nat)
    ensures x / 4 * 262144 + (x % 4 * 16 + y / 16) * 4096 + (y % 16 * 4 + z / 64) * 64 + z % 64 == x * 65536 + y * 256 + z
  {
  }
}
