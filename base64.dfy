/** Base64 with the standard alphabet and `=` padding (section 4 of RFC 4648),
    the encoding the trust bundle uses twice, together with a strict decoder
    that inverts it. */
module Base64 {
  import opened Primitives

  const PAD: char := '='

  predicate IsBase64Char(c: char) {
    ('A' <= c <= 'Z') || ('a' <= c <= 'z') || ('0' <= c <= '9') || c == '+' || c == '/'
  }

  /** The value of an alphabet character. */
  function CharToIndex(c: char): (i: int)
    requires IsBase64Char(c)
    ensures 0 <= i < 64
  {
    if 'A' <= c <= 'Z' then c as int - 'A' as int
    else if 'a' <= c <= 'z' then c as int - 'a' as int + 26
    else if '0' <= c <= '9' then c as int - '0' as int + 52
    else if c == '+' then 62
    else 63
  }

  /** The alphabet character of a six-bit value; `CharToIndex` inverts it. */
  function IndexToChar(i: int): (c: char)
    requires 0 <= i < 64
    ensures IsBase64Char(c) && CharToIndex(c) == i
  {
    if i < 26 then (i + 'A' as int) as char
    else if i < 52 then (i - 26 + 'a' as int) as char
    else if i < 62 then (i - 52 + '0' as int) as char
    else if i == 62 then '+'
    else '/'
  }

  /** Three bytes as four characters, most significant bits first. */
  function EncodeBlock(b0: byte, b1: byte, b2: byte): string {
    var x0, x1, x2 := b0 as int, b1 as int, b2 as int;
    [IndexToChar(x0 / 4), IndexToChar(x0 % 4 * 16 + x1 / 16), IndexToChar(x1 % 16 * 4 + x2 / 64), IndexToChar(x2 % 64)]
  }

  /** A final single byte: two characters and two pads. */
  function EncodeTail1(b0: byte): string {
    var x0 := b0 as int;
    [IndexToChar(x0 / 4), IndexToChar(x0 % 4 * 16), PAD, PAD]
  }

  /** Two final bytes: three characters and one pad. */
  function EncodeTail2(b0: byte, b1: byte): string {
    var x0, x1 := b0 as int, b1 as int;
    [IndexToChar(x0 / 4), IndexToChar(x0 % 4 * 16 + x1 / 16), IndexToChar(x1 % 16 * 4), PAD]
  }

  /** Standard padded base64 of a byte string. */
  function Encode(bs: seq<byte>): (s: string)
    ensures |s| == (|bs| + 2) / 3 * 4
    ensures forall i :: 0 <= i < |s| ==> IsBase64Char(s[i]) || s[i] == PAD
    decreases |bs|
  {
    if |bs| == 0 then []
    else if |bs| == 1 then EncodeTail1(bs[0])
    else if |bs| == 2 then EncodeTail2(bs[0], bs[1])
    else EncodeBlock(bs[0], bs[1], bs[2]) + Encode(bs[3..])
  }

  /** Four alphabet characters as three bytes. */
  function DecodeBlock(c0: char, c1: char, c2: char, c3: char): (r: seq<byte>)
    requires IsBase64Char(c0) && IsBase64Char(c1) && IsBase64Char(c2) && IsBase64Char(c3)
    ensures |r| == 3
  {
    var i0, i1, i2, i3 := CharToIndex(c0), CharToIndex(c1), CharToIndex(c2), CharToIndex(c3);
    [(i0 * 4 + i1 / 16) as byte, (i1 % 16 * 16 + i2 / 4) as byte, (i2 % 4 * 64 + i3) as byte]
  }

  /** Strict decoding: the length is a multiple of four, pads appear only in
      the last group, and the bits a pad leaves over are zero. */
  function Decode(s: string): (r: Option<seq<byte>>)
    decreases |s|
  {
    if |s| == 0 then Some([])
    else if |s| < 4 then None
    else if |s| == 4 && IsBase64Char(s[0]) && IsBase64Char(s[1]) && s[2] == PAD && s[3] == PAD then
      var i0, i1 := CharToIndex(s[0]), CharToIndex(s[1]);
      if i1 % 16 == 0 then Some([(i0 * 4 + i1 / 16) as byte]) else None
    else if |s| == 4 && IsBase64Char(s[0]) && IsBase64Char(s[1]) && IsBase64Char(s[2]) && s[3] == PAD then
      var i0, i1, i2 := CharToIndex(s[0]), CharToIndex(s[1]), CharToIndex(s[2]);
      if i2 % 4 == 0 then Some([(i0 * 4 + i1 / 16) as byte, (i1 % 16 * 16 + i2 / 4) as byte]) else None
    else if IsBase64Char(s[0]) && IsBase64Char(s[1]) && IsBase64Char(s[2]) && IsBase64Char(s[3]) then
      match Decode(s[4..])
      case None => None
      case Some(rest) => Some(DecodeBlock(s[0], s[1], s[2], s[3]) + rest)
    else None
  }

  lemma BlockRoundTrip(b0: byte, b1: byte, b2: byte)
    ensures var s := EncodeBlock(b0, b1, b2);
            DecodeBlock(s[0], s[1], s[2], s[3]) == [b0, b1, b2]
  {
    var x0, x1, x2 := b0 as int, b1 as int, b2 as int;
    var i1 := x0 % 4 * 16 + x1 / 16;
    var i2 := x1 % 16 * 4 + x2 / 64;
    assert i1 / 16 == x0 % 4 && i1 % 16 == x1 / 16;
    assert i2 / 4 == x1 % 16 && i2 % 4 == x2 / 64;
  }

  lemma Tail1RoundTrip(b0: byte)
    ensures Decode(EncodeTail1(b0)) == Some([b0])
  {
    var x0 := b0 as int;
    var i1 := x0 % 4 * 16;
    assert i1 / 16 == x0 % 4 && i1 % 16 == 0;
    var e := EncodeTail1(b0);
    assert CharToIndex(e[0]) == x0 / 4 && CharToIndex(e[1]) == i1;
  }

  lemma Tail2RoundTrip(b0: byte, b1: byte)
    ensures Decode(EncodeTail2(b0, b1)) == Some([b0, b1])
  {
    var x0, x1 := b0 as int, b1 as int;
    var i1 := x0 % 4 * 16 + x1 / 16;
    var i2 := x1 % 16 * 4;
    assert i1 / 16 == x0 % 4 && i1 % 16 == x1 / 16;
    assert i2 / 4 == x1 % 16 && i2 % 4 == 0;
    var e := EncodeTail2(b0, b1);
    assert e[2] != PAD;
    assert CharToIndex(e[0]) == x0 / 4 && CharToIndex(e[1]) == i1 && CharToIndex(e[2]) == i2;
  }

  /** A group of four alphabet characters decodes to three bytes ahead of the rest. */
  lemma DecodeGroup(g: string, rest: string, t: seq<byte>)
    requires |g| == 4 && forall i :: 0 <= i < 4 ==> IsBase64Char(g[i])
    requires Decode(rest) == Some(t)
    ensures Decode(g + rest) == Some(DecodeBlock(g[0], g[1], g[2], g[3]) + t)
  {
    var s := g + rest;
    assert s[..4] == g && s[4..] == rest;
    assert s[2] != PAD && s[3] != PAD;
  }

  /** Decoding inverts encoding. */
  lemma {:induction false} DecodeEncode(bs: seq<byte>)
    ensures Decode(Encode(bs)) == Some(bs)
    decreases |bs|
  {
    if |bs| == 1 {
      Tail1RoundTrip(bs[0]);
      assert bs == [bs[0]];
    } else if |bs| == 2 {
      Tail2RoundTrip(bs[0], bs[1]);
      assert bs == [bs[0], bs[1]];
    } else if |bs| > 2 {
      DecodeEncode(bs[3..]);
      EncodeCons(bs);
      DecodeLeadingBlock(bs);
      assert bs == [bs[0], bs[1], bs[2]] + bs[3..];
    }
  }

  /** Encoding proceeds three bytes at a time from the front. */
  lemma EncodeCons(bs: seq<byte>)
    requires |bs| > 2
    ensures Encode(bs) == EncodeBlock(bs[0], bs[1], bs[2]) + Encode(bs[3..])
  {
  }

  /** A leading encoded block decodes to its three bytes ahead of the rest. */
  lemma DecodeLeadingBlock(bs: seq<byte>)
    requires |bs| > 2 && Decode(Encode(bs[3..])) == Some(bs[3..])
    ensures Decode(EncodeBlock(bs[0], bs[1], bs[2]) + Encode(bs[3..])) == Some([bs[0], bs[1], bs[2]] + bs[3..])
  {
    var head, tail := EncodeBlock(bs[0], bs[1], bs[2]), Encode(bs[3..]);
    assert forall i :: 0 <= i < 4 ==> IsBase64Char(head[i]);
    DecodeGroup(head, tail, bs[3..]);
    BlockRoundTrip(bs[0], bs[1], bs[2]);
  }
}
