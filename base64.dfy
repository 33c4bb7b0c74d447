/** Base 64 encoding with the standard alphabet and "=" padding, as section 4 of
    RFC 4648 defines it. The uploader stores a run's detail text in this form. */
module Base64 {
  import opened Java

  type byte = b: int | 0 <= b < 256

  /** A 6-bit group, the index of one character of the alphabet. */
  type sextet = i: int | 0 <= i < 64

  /** The alphabet of Table 1 of RFC 4648. */
  function Alphabet(i: sextet): char {
    if i < 26 then ('A' as int + i) as char
    else if i < 52 then ('a' as int + (i - 26)) as char
    else if i < 62 then ('0' as int + (i - 52)) as char
    else if i == 62 then '+'
    else '/'
  }

  /** The inverse of Alphabet; None for the pad character and everything outside the alphabet. */
  function SextetOf(c: char): (r: Option<sextet>)
    ensures r.Some? ==> Alphabet(r.value) == c
  {
    if 'A' <= c <= 'Z' then Some(c as int - 'A' as int)
    else if 'a' <= c <= 'z' then Some(c as int - 'a' as int + 26)
    else if '0' <= c <= '9' then Some(c as int - '0' as int + 52)
    else if c == '+' then Some(62)
    else if c == '/' then Some(63)
    else None
  }

  lemma SextetOfAlphabet(i: sextet)
    ensures SextetOf(Alphabet(i)) == Some(i)
  {
  }

  const PAD: char := '='

  // The bit-level split of three bytes into four sextets (left to right).

  function High6(b0: byte): sextet { b0 / 4 }
  function Low2High4(b0: byte, b1: byte): sextet { (b0 % 4) * 16 + b1 / 16 }
  function Low4High2(b1: byte, b2: byte): sextet { (b1 % 16) * 4 + b2 / 64 }
  function Low6(b2: byte): sextet { b2 % 64 }

  // The inverse regrouping of four sextets into three bytes.

  function JoinFirst(i0: sextet, i1: sextet): byte { (i0 as int) * 4 + (i1 as int) / 16 }
  function JoinSecond(i1: sextet, i2: sextet): byte { ((i1 as int) % 16) * 16 + (i2 as int) / 4 }
  function JoinThird(i2: sextet, i3: sextet): byte { ((i2 as int) % 4) * 64 + i3 as int }

  lemma JoinFirstOfSplit(b0: byte, b1: byte)
    ensures JoinFirst(High6(b0), Low2High4(b0, b1)) == b0
  {
    var q, r := b0 / 4, b0 % 4;
    assert b0 == q * 4 + r;
    assert (r * 16 + b1 / 16) / 16 == r;
  }

  lemma JoinSecondOfSplit(b0: byte, b1: byte, b2: byte)
    ensures JoinSecond(Low2High4(b0, b1), Low4High2(b1, b2)) == b1
  {
    var q, r := b1 / 16, b1 % 16;
    assert b1 == q * 16 + r;
    assert ((b0 % 4) * 16 + q) % 16 == q;
    assert (r * 4 + b2 / 64) / 4 == r;
  }

  lemma JoinThirdOfSplit(b1: byte, b2: byte)
    ensures JoinThird(Low4High2(b1, b2), Low6(b2)) == b2
  {
    var q, r := b2 / 64, b2 % 64;
    assert b2 == q * 64 + r;
    assert ((b1 % 16) * 4 + q) % 4 == q;
  }

  /** One full quantum: three bytes become four characters. */
  function EncodeTriple(b0: byte, b1: byte, b2: byte): (s: string)
    ensures |s| == 4
  {
    [Alphabet(High6(b0)), Alphabet(Low2High4(b0, b1)), Alphabet(Low4High2(b1, b2)), Alphabet(Low6(b2))]
  }

  /** A final quantum of two bytes: three characters and one pad (the missing byte counts as zero). */
  function EncodePair(b0: byte, b1: byte): (s: string)
    ensures |s| == 4
  {
    [Alphabet(High6(b0)), Alphabet(Low2High4(b0, b1)), Alphabet(Low4High2(b1, 0)), PAD]
  }

  /** A final quantum of one byte: two characters and two pads. */
  function EncodeSingle(b0: byte): (s: string)
    ensures |s| == 4
  {
    [Alphabet(High6(b0)), Alphabet(Low2High4(b0, 0)), PAD, PAD]
  }

  function Encode(bs: seq<byte>): (s: string)
    ensures |bs| == 0 <==> |s| == 0
  {
    if |bs| == 0 then []
    else if |bs| == 1 then EncodeSingle(bs[0])
    else if |bs| == 2 then EncodePair(bs[0], bs[1])
    else EncodeTriple(bs[0], bs[1], bs[2]) + Encode(bs[3..])
  }

  /** Four characters back to one, two or three bytes; None when the quantum is malformed,
      including a padded quantum whose unused bits are not zero (section 3.5 of RFC 4648). */
  function DecodeQuad(c0: char, c1: char, c2: char, c3: char): (r: Option<seq<byte>>)
    ensures r.Some? ==> 1 <= |r.value| <= 3
  {
    match (SextetOf(c0), SextetOf(c1), SextetOf(c2), SextetOf(c3))
    case (Some(i0), Some(i1), Some(i2), Some(i3)) =>
      Some([JoinFirst(i0, i1), JoinSecond(i1, i2), JoinThird(i2, i3)])
    case (Some(i0), Some(i1), Some(i2), None) =>
      if c3 == PAD && i2 % 4 == 0 then Some([JoinFirst(i0, i1), JoinSecond(i1, i2)]) else None
    case (Some(i0), Some(i1), None, None) =>
      if c2 == PAD && c3 == PAD && i1 % 16 == 0 then Some([JoinFirst(i0, i1)]) else None
    case _ => None
  }

  /** Decoding; a padded quantum is accepted only at the end. */
  function Decode(s: string): Option<seq<byte>>
  {
    if |s| == 0 then Some([])
    else if |s| < 4 then None
    else
      match DecodeQuad(s[0], s[1], s[2], s[3])
      case None => None
      case Some(g) =>
        if |s| == 4 then Some(g)
        else if |g| < 3 then None
        else
          match Decode(s[4..])
          case None => None
          case Some(rest) => Some(g + rest)
  }

  lemma DecodeTriple(b0: byte, b1: byte, b2: byte)
    ensures var s := EncodeTriple(b0, b1, b2); DecodeQuad(s[0], s[1], s[2], s[3]) == Some([b0, b1, b2])
  {
    SextetOfAlphabet(High6(b0));
    SextetOfAlphabet(Low2High4(b0, b1));
    SextetOfAlphabet(Low4High2(b1, b2));
    SextetOfAlphabet(Low6(b2));
    JoinFirstOfSplit(b0, b1);
    JoinSecondOfSplit(b0, b1, b2);
    JoinThirdOfSplit(b1, b2);
  }

  lemma DecodePair(b0: byte, b1: byte)
    ensures var s := EncodePair(b0, b1); DecodeQuad(s[0], s[1], s[2], s[3]) == Some([b0, b1])
  {
    SextetOfAlphabet(High6(b0));
    SextetOfAlphabet(Low2High4(b0, b1));
    SextetOfAlphabet(Low4High2(b1, 0));
    JoinFirstOfSplit(b0, b1);
    JoinSecondOfSplit(b0, b1, 0);
  }

  lemma DecodeSingle(b0: byte)
    ensures var s := EncodeSingle(b0); DecodeQuad(s[0], s[1], s[2], s[3]) == Some([b0])
  {
    SextetOfAlphabet(High6(b0));
    SextetOfAlphabet(Low2High4(b0, 0));
    JoinFirstOfSplit(b0, 0);
  }

  /** A full quantum in front of a non-empty decodable text decodes in front of its bytes. */
  lemma DecodeCons(head: string, tail: string, g: seq<byte>, rest: seq<byte>)
    requires |head| == 4 && |g| == 3 && |tail| > 0
    requires DecodeQuad(head[0], head[1], head[2], head[3]) == Some(g)
    requires Decode(tail) == Some(rest)
    ensures Decode(head + tail) == Some(g + rest)
  {
    var s := head + tail;
    assert s[0] == head[0] && s[1] == head[1] && s[2] == head[2] && s[3] == head[3];
    assert s[4..] == tail;
  }

  lemma DecodeEncodeOne(bs: seq<byte>)
    requires |bs| == 1
    ensures Decode(Encode(bs)) == Some(bs)
  {
    DecodeSingle(bs[0]);
    assert bs == [bs[0]];
  }

  lemma DecodeEncodeTwo(bs: seq<byte>)
    requires |bs| == 2
    ensures Decode(Encode(bs)) == Some(bs)
  {
    DecodePair(bs[0], bs[1]);
    assert bs == [bs[0], bs[1]];
  }

  lemma DecodeEncodeThree(bs: seq<byte>)
    requires |bs| == 3
    ensures Decode(Encode(bs)) == Some(bs)
  {
    DecodeTriple(bs[0], bs[1], bs[2]);
    assert Encode(bs) == EncodeTriple(bs[0], bs[1], bs[2]) + Encode([]);
    assert bs == [bs[0], bs[1], bs[2]];
  }

  lemma DecodeEncodeLong(bs: seq<byte>)
    requires |bs| > 3
    requires Decode(Encode(bs[3..])) == Some(bs[3..])
    ensures Decode(Encode(bs)) == Some(bs)
  {
    var tail := bs[3..];
    var head := EncodeTriple(bs[0], bs[1], bs[2]);
    var g := [bs[0], bs[1], bs[2]];
    DecodeTriple(bs[0], bs[1], bs[2]);
    assert Encode(bs) == head + Encode(tail);
    DecodeCons(head, Encode(tail), g, tail);
    SplitThree(bs);
  }

  lemma SplitThree(bs: seq<byte>)
    requires |bs| >= 3
    ensures [bs[0], bs[1], bs[2]] + bs[3..] == bs
  {
  }

  lemma DecodeEncodeShort(bs: seq<byte>)
    requires |bs| <= 3
    ensures Decode(Encode(bs)) == Some(bs)
  {
    if |bs| == 1 {
      DecodeEncodeOne(bs);
    } else if |bs| == 2 {
      DecodeEncodeTwo(bs);
    } else if |bs| == 3 {
      DecodeEncodeThree(bs);
    }
  }

  /** Decoding an encoding gives back the original bytes. */
  lemma {:induction false} DecodeEncode(bs: seq<byte>)
    ensures Decode(Encode(bs)) == Some(bs)
  {
    if |bs| > 3 {
      DecodeEncode(bs[3..]);
      DecodeEncodeLong(bs);
    } else {
      DecodeEncodeShort(bs);
    }
  }

  /** Encoding is injective: distinct byte strings never share an encoding. */
  lemma EncodeInjective(xs: seq<byte>, ys: seq<byte>)
    requires Encode(xs) == Encode(ys)
    ensures xs == ys
  {
    DecodeEncode(xs);
    DecodeEncode(ys);
  }

  // The other direction: a text that decodes is the encoding of what it decodes to.

  lemma SplitOfJoin(i0: sextet, i1: sextet, i2: sextet, i3: sextet)
    ensures High6(JoinFirst(i0, i1)) == i0
    ensures Low2High4(JoinFirst(i0, i1), JoinSecond(i1, i2)) == i1
    ensures Low4High2(JoinSecond(i1, i2), JoinThird(i2, i3)) == i2
    ensures Low6(JoinThird(i2, i3)) == i3
  {
    assert (i0 * 4 + i1 / 16) / 4 == i0;
    assert (i0 * 4 + i1 / 16) % 4 == i1 / 16;
    assert ((i1 % 16) * 16 + i2 / 4) / 16 == i1 % 16;
    assert ((i1 % 16) * 16 + i2 / 4) % 16 == i2 / 4;
    assert ((i2 % 4) * 64 + i3) / 64 == i2 % 4;
    assert ((i2 % 4) * 64 + i3) % 64 == i3;
  }

  lemma SplitOfJoinPadded(i0: sextet, i1: sextet, i2: sextet)
    ensures i2 % 4 == 0 ==> Low4High2(JoinSecond(i1, i2), 0) == i2
    ensures i1 % 16 == 0 ==> Low2High4(JoinFirst(i0, i1), 0) == i1
  {
    assert ((i1 % 16) * 16 + i2 / 4) % 16 == i2 / 4;
    assert (i0 * 4 + i1 / 16) % 4 == i1 / 16;
  }

  /** A quantum that decodes is the encoding of its bytes. */
  lemma EncodeOfDecodeQuad(c0: char, c1: char, c2: char, c3: char)
    requires DecodeQuad(c0, c1, c2, c3).Some?
    ensures var g := DecodeQuad(c0, c1, c2, c3).value;
            [c0, c1, c2, c3] == (if |g| == 3 then EncodeTriple(g[0], g[1], g[2])
                                 else if |g| == 2 then EncodePair(g[0], g[1])
                                 else EncodeSingle(g[0]))
  {
    var i0, i1 := SextetOf(c0).value, SextetOf(c1).value;
    if SextetOf(c2).Some? {
      var i2 := SextetOf(c2).value;
      SplitOfJoinPadded(i0, i1, i2);
      if SextetOf(c3).Some? {
        SplitOfJoin(i0, i1, i2, SextetOf(c3).value);
      } else {
        SplitOfJoin(i0, i1, i2, 0);
      }
    } else {
      SplitOfJoin(i0, i1, 0, 0);
      SplitOfJoinPadded(i0, i1, 0);
    }
  }

  /** A text that decodes is exactly the encoding of its bytes, so every byte string has
      one Base 64 text. */
  lemma {:induction false} EncodeDecode(s: string)
    requires Decode(s).Some?
    ensures Encode(Decode(s).value) == s
  {
    if |s| > 0 {
      var g := DecodeQuad(s[0], s[1], s[2], s[3]).value;
      EncodeOfDecodeQuad(s[0], s[1], s[2], s[3]);
      assert s[..4] == [s[0], s[1], s[2], s[3]];
      if |s| == 4 {
        assert s == s[..4];
        if |g| == 3 {
          assert g == [g[0], g[1], g[2]];
          assert Encode(g) == EncodeTriple(g[0], g[1], g[2]) + Encode([]);
        }
      } else {
        var rest := Decode(s[4..]).value;
        EncodeDecode(s[4..]);
        var bs := g + rest;
        assert bs[..3] == g && bs[3..] == rest;
        assert Encode(bs) == EncodeTriple(bs[0], bs[1], bs[2]) + Encode(bs[3..]);
        assert s == s[..4] + s[4..];
      }
    }
  }

  /** A text made of alphabet characters and pads only. */
  predicate AlphabetText(s: string) {
    forall k :: 0 <= k < |s| ==> SextetOf(s[k]).Some? || s[k] == PAD
  }

  lemma AlphabetTextConcat(a: string, b: string)
    requires AlphabetText(a) && AlphabetText(b)
    ensures AlphabetText(a + b)
  {
    forall k | 0 <= k < |a + b| ensures SextetOf((a + b)[k]).Some? || (a + b)[k] == PAD {
      if k >= |a| {
        assert (a + b)[k] == b[k - |a|];
      }
    }
  }

  lemma TripleAlphabet(b0: byte, b1: byte, b2: byte)
    ensures AlphabetText(EncodeTriple(b0, b1, b2))
  {
    SextetOfAlphabet(High6(b0));
    SextetOfAlphabet(Low2High4(b0, b1));
    SextetOfAlphabet(Low4High2(b1, b2));
    SextetOfAlphabet(Low6(b2));
  }

  lemma PairAlphabet(b0: byte, b1: byte)
    ensures AlphabetText(EncodePair(b0, b1))
  {
    SextetOfAlphabet(High6(b0));
    SextetOfAlphabet(Low2High4(b0, b1));
    SextetOfAlphabet(Low4High2(b1, 0));
  }

  lemma SingleAlphabet(b0: byte)
    ensures AlphabetText(EncodeSingle(b0))
  {
    SextetOfAlphabet(High6(b0));
    SextetOfAlphabet(Low2High4(b0, 0));
  }

  /** Every character of an encoding is in the alphabet or is the pad. */
  lemma {:induction false} EncodeAlphabet(bs: seq<byte>)
    ensures AlphabetText(Encode(bs))
  {
    if |bs| == 1 {
      SingleAlphabet(bs[0]);
    } else if |bs| == 2 {
      PairAlphabet(bs[0], bs[1]);
    } else if |bs| >= 3 {
      TripleAlphabet(bs[0], bs[1], bs[2]);
      EncodeAlphabet(bs[3..]);
      AlphabetTextConcat(EncodeTriple(bs[0], bs[1], bs[2]), Encode(bs[3..]));
    }
  }
}
