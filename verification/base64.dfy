/** The base64 encoding of section 4 of RFC 4648: the standard 64-character
    alphabet, with `=` padding of the final group. This is what Python's
    `base64.b64encode` produces. */
module Base64 {
  import opened Wrappers

  type byte = b: int | 0 <= b < 256
  /** The value of one base64 character: six bits. */
  type uint6 = v: int | 0 <= v < 64

  const Pad: char := '='

  /** The character that encodes the six-bit value `v` (Table 1 of RFC 4648:
      `A`-`Z`, `a`-`z`, `0`-`9`, `+`, `/`). */
  function CharOf(v: uint6): char {
    if v < 26 then ('A' as int + v) as char
    else if v < 52 then ('a' as int + (v - 26)) as char
    else if v < 62 then ('0' as int + (v - 52)) as char
    else if v == 62 then '+'
    else '/'
  }

  predicate IsAlphabetChar(c: char) {
    'A' <= c <= 'Z' || 'a' <= c <= 'z' || '0' <= c <= '9' || c == '+' || c == '/'
  }

  /** The six-bit value an alphabet character stands for. */
  function ValueOf(c: char): uint6
    requires IsAlphabetChar(c)
  {
    if 'A' <= c <= 'Z' then c as int - 'A' as int
    else if 'a' <= c <= 'z' then c as int - 'a' as int + 26
    else if '0' <= c <= '9' then c as int - '0' as int + 52
    else if c == '+' then 62
    else 63
  }

  /** Decoding a character undoes encoding its value; padding is never an alphabet character. */
  lemma ValueOfCharOf(v: uint6)
    ensures IsAlphabetChar(CharOf(v)) && ValueOf(CharOf(v)) == v
    ensures CharOf(v) != Pad
  {
  }

  /** A 24-bit input group as four six-bit groups, most significant first. */
  datatype Group = Group(v0: uint6, v1: uint6, v2: uint6, v3: uint6)

  /** Splits three bytes into four six-bit groups. */
  function Split(b0: byte, b1: byte, b2: byte): Group {
    Group(b0 / 4, (b0 % 4) * 16 + b1 / 16, (b1 % 16) * 4 + b2 / 64, b2 % 64)
  }

  /** Joins four six-bit groups back into three bytes. */
  function Regroup(g: Group): seq<byte> {
    [g.v0 * 4 + g.v1 / 16, (g.v1 % 16) * 16 + g.v2 / 4, (g.v2 % 4) * 64 + g.v3]
  }

  /** The four characters of a group. */
  function GroupChars(g: Group): (s: string)
    ensures |s| == 4
  {
    [CharOf(g.v0), CharOf(g.v1), CharOf(g.v2), CharOf(g.v3)]
  }

  /** `base64.b64encode(bs)`: each group of three bytes becomes four characters;
      a final group of one or two bytes is filled with zero bits and completed
      with `==` or `=` respectively. */
  function Encode(bs: seq<byte>): (s: string)
    ensures |s| == 4 * ((|bs| + 2) / 3)
    decreases |bs|
  {
    if |bs| == 0 then ""
    else if |bs| < 3 then
      var g := Split(bs[0], if |bs| == 2 then bs[1] else 0, 0);
      if |bs| == 1 then [CharOf(g.v0), CharOf(g.v1), Pad, Pad]
      else [CharOf(g.v0), CharOf(g.v1), CharOf(g.v2), Pad]
    else GroupChars(Split(bs[0], bs[1], bs[2])) + Encode(bs[3..])
  }

  /** One group of four characters back to the bytes it encodes. Padding is
      accepted only in the final group (`last`), and only when the bits the
      padding discards are zero, as an encoder leaves them. */
  function DecodeQuad(q: string, last: bool): (r: Option<seq<byte>>)
    requires |q| == 4
    ensures r.Some? ==> 1 <= |r.value| <= 3
    ensures r.Some? && |r.value| < 3 ==> last
  {
    if !IsAlphabetChar(q[0]) || !IsAlphabetChar(q[1]) then None
    else if last && q[2] == Pad && q[3] == Pad then
      if ValueOf(q[1]) % 16 != 0 then None else
      Some(Regroup(Group(ValueOf(q[0]), ValueOf(q[1]), 0, 0))[..1])
    else if !IsAlphabetChar(q[2]) then None
    else if last && q[3] == Pad then
      if ValueOf(q[2]) % 4 != 0 then None else
      Some(Regroup(Group(ValueOf(q[0]), ValueOf(q[1]), ValueOf(q[2]), 0))[..2])
    else if !IsAlphabetChar(q[3]) then None
    else
      Some(Regroup(Group(ValueOf(q[0]), ValueOf(q[1]), ValueOf(q[2]), ValueOf(q[3]))))
  }

  /** Strict base64 decoding: `None` unless `s` is groups of four alphabet
      characters with padding only at the very end and no stray bits under
      the padding, so every accepted string is an encoding. */
  function Decode(s: string): (r: Option<seq<byte>>)
    ensures r.Some? ==> |s| == 4 * ((|r.value| + 2) / 3)
    decreases |s|
  {
    if |s| == 0 then Some([])
    else if |s| < 4 then None
    else
      match DecodeQuad(s[..4], |s| == 4)
      case None => None
      case Some(head) =>
        match Decode(s[4..])
        case None => None
        case Some(tail) => Some(head + tail)
  }

  /** Regrouping undoes splitting: the only arithmetic fact the round trip needs. */
  lemma RegroupSplit(b0: byte, b1: byte, b2: byte)
    ensures Regroup(Split(b0, b1, b2)) == [b0, b1, b2]
  {
    var g := Split(b0, b1, b2);
    assert g.v1 / 16 == b0 % 4 && g.v1 % 16 == b1 / 16;
    assert g.v2 / 4 == b1 % 16 && g.v2 % 4 == b2 / 64;
  }

  /** A full group of four characters decodes to the regrouped values. */
  lemma DecodeFullGroup(g: Group, last: bool)
    ensures DecodeQuad(GroupChars(g), last) == Some(Regroup(g))
  {
    ValueOfCharOf(g.v0);
    ValueOfCharOf(g.v1);
    ValueOfCharOf(g.v2);
    ValueOfCharOf(g.v3);
  }

  /** A final group with one `=` decodes to the first two regrouped bytes. */
  lemma DecodeOnePad(g: Group)
    requires g.v2 % 4 == 0 && g.v3 == 0
    ensures DecodeQuad([CharOf(g.v0), CharOf(g.v1), CharOf(g.v2), Pad], true) == Some(Regroup(g)[..2])
  {
    var q := [CharOf(g.v0), CharOf(g.v1), CharOf(g.v2), Pad];
    ValueOfCharOf(g.v0);
    ValueOfCharOf(g.v1);
    ValueOfCharOf(g.v2);
    assert IsAlphabetChar(q[0]) && IsAlphabetChar(q[1]) && IsAlphabetChar(q[2]) && q[2] != Pad;
    assert Group(ValueOf(q[0]), ValueOf(q[1]), ValueOf(q[2]), 0) == g;
  }

  /** A final group with `==` decodes to the first regrouped byte. */
  lemma DecodeTwoPads(g: Group)
    requires g.v1 % 16 == 0 && g.v2 == 0 && g.v3 == 0
    ensures DecodeQuad([CharOf(g.v0), CharOf(g.v1), Pad, Pad], true) == Some(Regroup(g)[..1])
  {
    var q := [CharOf(g.v0), CharOf(g.v1), Pad, Pad];
    ValueOfCharOf(g.v0);
    ValueOfCharOf(g.v1);
    assert IsAlphabetChar(q[0]) && IsAlphabetChar(q[1]) && q[2] == Pad && q[3] == Pad;
    assert ValueOf(q[1]) % 16 == 0;
    assert Group(ValueOf(q[0]), ValueOf(q[1]), 0, 0) == g;
  }

  /** A string of exactly one group decodes as a final group. */
  lemma DecodeSingleGroup(q: string)
    requires |q| == 4
    ensures Decode(q) == DecodeQuad(q, true)
  {
    assert q[..4] == q;
    assert q[4..] == "";
    match DecodeQuad(q, true)
    case None =>
    case Some(h) => assert h + [] == h;
  }

  /** A group followed by more groups: the groups decode independently. */
  lemma DecodeCons(q: string, rest: string, head: seq<byte>, tail: seq<byte>)
    requires |q| == 4 && |rest| > 0
    requires DecodeQuad(q, false) == Some(head) && Decode(rest) == Some(tail)
    ensures Decode(q + rest) == Some(head + tail)
  {
    assert (q + rest)[..4] == q;
    assert (q + rest)[4..] == rest;
  }

  lemma OneByteRoundTrip(b: byte)
    ensures Decode(Encode([b])) == Some([b])
  {
    var g := Split(b, 0, 0);
    var s := [CharOf(g.v0), CharOf(g.v1), Pad, Pad];
    assert Encode([b]) == s;
    assert g.v1 % 16 == 0 && g.v2 == 0 && g.v3 == 0;
    RegroupSplit(b, 0, 0);
    assert Regroup(g)[..1] == [b];
    DecodeTwoPads(g);
    DecodeSingleGroup(s);
  }

  lemma TwoByteRoundTrip(b0: byte, b1: byte)
    ensures Decode(Encode([b0, b1])) == Some([b0, b1])
  {
    var g := Split(b0, b1, 0);
    var s := [CharOf(g.v0), CharOf(g.v1), CharOf(g.v2), Pad];
    assert Encode([b0, b1]) == s;
    assert g.v2 % 4 == 0 && g.v3 == 0;
    RegroupSplit(b0, b1, 0);
    assert Regroup(g)[..2] == [b0, b1];
    DecodeOnePad(g);
    DecodeSingleGroup(s);
  }

  lemma ThreeByteRoundTrip(b0: byte, b1: byte, b2: byte)
    ensures Decode(Encode([b0, b1, b2])) == Some([b0, b1, b2])
  {
    var g := Split(b0, b1, b2);
    assert Encode([b0, b1, b2]) == GroupChars(g) + "";
    RegroupSplit(b0, b1, b2);
    DecodeFullGroup(g, true);
    DecodeSingleGroup(GroupChars(g));
  }

  /** Three or more bytes: the first three become the first group. */
  lemma EncodeCons(bs: seq<byte>)
    requires |bs| > 3
    ensures Encode(bs) == GroupChars(Split(bs[0], bs[1], bs[2])) + Encode(bs[3..])
  {
  }

  /** A full group in front of a decodable rest decodes to its three bytes in front. */
  lemma DecodePrepend(b0: byte, b1: byte, b2: byte, rest: string, tail: seq<byte>)
    requires |rest| > 0 && Decode(rest) == Some(tail)
    ensures Decode(GroupChars(Split(b0, b1, b2)) + rest) == Some([b0, b1, b2] + tail)
  {
    RegroupSplit(b0, b1, b2);
    DecodeFullGroup(Split(b0, b1, b2), false);
    DecodeCons(GroupChars(Split(b0, b1, b2)), rest, [b0, b1, b2], tail);
  }

  /** A full group of three bytes in front of a string that decodes to the
      remaining bytes. */
  lemma ConsRoundTrip(bs: seq<byte>, s: string, rest: string)
    requires |bs| > 3 && |rest| > 0
    requires s == GroupChars(Split(bs[0], bs[1], bs[2])) + rest
    requires Decode(rest) == Some(bs[3..])
    ensures Decode(s) == Some(bs)
  {
    DecodePrepend(bs[0], bs[1], bs[2], rest, bs[3..]);
    assert [bs[0], bs[1], bs[2]] + bs[3..] == bs;
  }

  /** One to three bytes: a single final group. */
  lemma ShortRoundTrip(bs: seq<byte>)
    requires 1 <= |bs| <= 3
    ensures Decode(Encode(bs)) == Some(bs)
  {
    if |bs| == 1 {
      OneByteSeqRoundTrip(bs);
    } else if |bs| == 2 {
      TwoByteSeqRoundTrip(bs);
    } else {
      ThreeByteSeqRoundTrip(bs);
    }
  }

  lemma OneByteSeqRoundTrip(bs: seq<byte>)
    requires |bs| == 1
    ensures Decode(Encode(bs)) == Some(bs)
  {
    var b0 := bs[0];
    assert bs == [b0];
    OneByteRoundTrip(b0);
  }

  lemma TwoByteSeqRoundTrip(bs: seq<byte>)
    requires |bs| == 2
    ensures Decode(Encode(bs)) == Some(bs)
  {
    var b0, b1 := bs[0], bs[1];
    assert bs == [b0, b1];
    TwoByteRoundTrip(b0, b1);
  }

  lemma ThreeByteSeqRoundTrip(bs: seq<byte>)
    requires |bs| == 3
    ensures Decode(Encode(bs)) == Some(bs)
  {
    var b0, b1, b2 := bs[0], bs[1], bs[2];
    assert bs == [b0, b1, b2];
    ThreeByteRoundTrip(b0, b1, b2);
  }

  /** Decoding recovers exactly the encoded bytes. */
  lemma {:induction false} DecodeEncode(bs: seq<byte>)
    ensures Decode(Encode(bs)) == Some(bs)
    decreases |bs|
  {
    if |bs| == 0 {
    } else if |bs| <= 3 {
      ShortRoundTrip(bs);
    } else {
      DecodeEncode(bs[3..]);
      EncodeCons(bs);
      ConsRoundTrip(bs, Encode(bs), Encode(bs[3..]));
    }
  }

  /** Encoding a character's value gives the character back. */
  lemma CharOfValueOf(c: char)
    requires IsAlphabetChar(c)
    ensures CharOf(ValueOf(c)) == c
  {
  }

  /** Splitting undoes regrouping. */
  lemma SplitRegroup(g: Group)
    ensures var b := Regroup(g); Split(b[0], b[1], b[2]) == g
  {
    var b := Regroup(g);
    assert b[0] / 4 == g.v0 && b[0] % 4 == g.v1 / 16;
    assert b[1] / 16 == g.v1 % 16 && b[1] % 16 == g.v2 / 4;
    assert b[2] / 64 == g.v2 % 4 && b[2] % 64 == g.v3;
  }

  /** A group of four alphabet characters is the encoding of its values. */
  lemma GroupCharsOfValues(q: string)
    requires |q| == 4
    requires IsAlphabetChar(q[0]) && IsAlphabetChar(q[1]) && IsAlphabetChar(q[2]) && IsAlphabetChar(q[3])
    ensures GroupChars(Group(ValueOf(q[0]), ValueOf(q[1]), ValueOf(q[2]), ValueOf(q[3]))) == q
  {
    CharOfValueOf(q[0]);
    CharOfValueOf(q[1]);
    CharOfValueOf(q[2]);
    CharOfValueOf(q[3]);
  }

  /** A decodable group without padding is the encoding of its three bytes. */
  lemma FullQuadIsEncoding(q: string, last: bool, h: seq<byte>)
    requires |q| == 4 && DecodeQuad(q, last) == Some(h) && |h| == 3
    ensures GroupChars(Split(h[0], h[1], h[2])) == q
  {
    var g := Group(ValueOf(q[0]), ValueOf(q[1]), ValueOf(q[2]), ValueOf(q[3]));
    assert h == Regroup(g);
    SplitRegroup(g);
    GroupCharsOfValues(q);
  }

  /** A decodable group ending in `==` is the encoding of its one byte. */
  lemma TwoPadQuadIsEncoding(q: string, h: seq<byte>)
    requires |q| == 4 && DecodeQuad(q, true) == Some(h) && |h| == 1
    ensures Encode(h) == q
  {
    var v0: int, v1: int := ValueOf(q[0]), ValueOf(q[1]);
    assert q[2] == Pad && q[3] == Pad && v1 % 16 == 0;
    var b0: int := v0 * 4 + v1 / 16;
    assert h == [b0];
    assert b0 / 4 == v0 && (b0 % 4) * 16 == v1;
    CharOfValueOf(q[0]);
    CharOfValueOf(q[1]);
  }

  /** A decodable group ending in one `=` is the encoding of its two bytes. */
  lemma OnePadQuadIsEncoding(q: string, h: seq<byte>)
    requires |q| == 4 && DecodeQuad(q, true) == Some(h) && |h| == 2
    ensures Encode(h) == q
  {
    var v0: int, v1: int, v2: int := ValueOf(q[0]), ValueOf(q[1]), ValueOf(q[2]);
    assert q[3] == Pad && v2 % 4 == 0;
    var b0: int, b1: int := v0 * 4 + v1 / 16, (v1 % 16) * 16 + v2 / 4;
    assert h == [b0, b1];
    assert b0 / 4 == v0 && (b0 % 4) * 16 + b1 / 16 == v1 && (b1 % 16) * 4 == v2;
    CharOfValueOf(q[0]);
    CharOfValueOf(q[1]);
    CharOfValueOf(q[2]);
  }

  /** A string of one group that decodes is the encoding of what it decodes to. */
  lemma SingleQuadIsEncoding(q: string, h: seq<byte>)
    requires |q| == 4 && DecodeQuad(q, true) == Some(h)
    ensures Encode(h) == q
  {
    if |h| == 1 {
      TwoPadQuadIsEncoding(q, h);
    } else if |h| == 2 {
      OnePadQuadIsEncoding(q, h);
    } else {
      FullQuadIsEncoding(q, true, h);
      assert Encode(h) == GroupChars(Split(h[0], h[1], h[2])) + Encode(h[3..]);
      assert h[3..] == [];
    }
  }

  /** Every string the decoder accepts is the encoding of what it decodes to,
      so no two strings decode to the same bytes. */
  lemma {:induction false} EncodeDecode(s: string, bs: seq<byte>)
    requires Decode(s) == Some(bs)
    ensures Encode(bs) == s
    decreases |s|
  {
    if |s| == 0 {
    } else {
      var head := DecodeQuad(s[..4], |s| == 4).value;
      var tail := Decode(s[4..]).value;
      assert bs == head + tail;
      if |s| == 4 {
        assert tail == [] && bs == head;
        SingleQuadIsEncoding(s[..4], head);
        assert s[..4] == s;
      } else {
        EncodeDecode(s[4..], tail);
        FullQuadIsEncoding(s[..4], false, head);
        assert |tail| > 0;
        assert bs[..3] == head && bs[3..] == tail;
        EncodeCons(bs);
        assert s == s[..4] + s[4..];
      }
    }
  }
}
