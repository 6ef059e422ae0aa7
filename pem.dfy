/** The PEM text of the trust bundle (section 2 of RFC 7468): each DER
    certificate base64-encoded and wrapped at 64 columns between BEGIN and
    END lines, blocks concatenated in input order. A line-based parser is the
    inverse that recovers the certificates. */
module Pem {
  import opened Primitives
  import Base64

  const BEGIN_LINE: string := "-----BEGIN CERTIFICATE-----"
  const END_LINE: string := "-----END CERTIFICATE-----"
  const LINE_WIDTH: nat := 64

  /** A line of the bundle: ASCII and free of newlines. */
  predicate IsLine(l: string) {
    IsAscii(l) && forall k :: 0 <= k < |l| ==> l[k] != '\n'
  }

  /** Text made of base64 alphabet characters and pads only. */
  predicate IsBase64Text(t: string) {
    forall k :: 0 <= k < |t| ==> Base64.IsBase64Char(t[k]) || t[k] == Base64.PAD
  }

  function Concat(ls: seq<string>): string {
    if ls == [] then [] else ls[0] + Concat(ls[1..])
  }

  /** The pieces `chunks(64)` cuts a string into. */
  function Chunks(s: string): (r: seq<string>)
    ensures Concat(r) == s
    ensures forall i :: 0 <= i < |r| ==> 1 <= |r[i]| <= LINE_WIDTH
    ensures forall i :: 0 <= i < |r| - 1 ==> |r[i]| == LINE_WIDTH
    ensures |r| == (|s| + LINE_WIDTH - 1) / LINE_WIDTH
    ensures IsBase64Text(s) ==> forall i :: 0 <= i < |r| ==> IsBase64Text(r[i])
    decreases |s|
  {
    if |s| == 0 then []
    else if |s| <= LINE_WIDTH then [s]
    else
      var rest := Chunks(s[LINE_WIDTH..]);
      assert s == s[..LINE_WIDTH] + s[LINE_WIDTH..];
      [s[..LINE_WIDTH]] + rest
  }

  /** The lines, each followed by a newline. */
  function JoinLines(ls: seq<string>): (r: string)
    ensures (forall i :: 0 <= i < |ls| ==> IsAscii(ls[i])) ==> IsAscii(r)
  {
    if ls == [] then [] else ls[0] + "\n" + JoinLines(ls[1..])
  }

  /** The lines of one certificate's block. */
  function BlockLines(der: seq<byte>): seq<string> {
    [BEGIN_LINE] + Chunks(Base64.Encode(der)) + [END_LINE]
  }

  function BundleLines(certs: seq<seq<byte>>): seq<string> {
    if certs == [] then [] else BlockLines(certs[0]) + BundleLines(certs[1..])
  }

  /** The PEM bundle of a certificate chain. */
  function Bundle(certs: seq<seq<byte>>): (r: string)
    ensures IsAscii(r)
  {
    BundleLinesAreLines(certs);
    JoinLines(BundleLines(certs))
  }

  // ---------------------------------------------------------------------
  // Layout of the bundle

  lemma MarkersAreLines()
    ensures IsLine(BEGIN_LINE) && IsLine(END_LINE)
  {
  }

  lemma Base64TextIsLine(t: string)
    requires IsBase64Text(t)
    ensures IsLine(t)
  {
  }

  lemma {:induction false} BundleLinesAreLines(certs: seq<seq<byte>>)
    ensures forall i :: 0 <= i < |BundleLines(certs)| ==> IsLine(BundleLines(certs)[i])
  {
    if certs != [] {
      BundleLinesAreLines(certs[1..]);
      var chunks := Chunks(Base64.Encode(certs[0]));
      MarkersAreLines();
      forall i | 0 <= i < |chunks| ensures IsLine(chunks[i]) {
        Base64TextIsLine(chunks[i]);
      }
    }
  }

  lemma {:induction false} JoinLinesAppend(a: seq<string>, b: seq<string>)
    ensures JoinLines(a + b) == JoinLines(a) + JoinLines(b)
  {
    if a == [] {
      assert a + b == b;
    } else {
      assert (a + b)[1..] == a[1..] + b;
      JoinLinesAppend(a[1..], b);
    }
  }

  lemma {:induction false} BundleLinesAppend(a: seq<seq<byte>>, b: seq<seq<byte>>)
    ensures BundleLines(a + b) == BundleLines(a) + BundleLines(b)
  {
    if a == [] {
      assert a + b == b;
    } else {
      assert (a + b)[1..] == a[1..] + b;
      BundleLinesAppend(a[1..], b);
    }
  }

  /** The text of one block: BEGIN line, the wrapped body, END line. */
  lemma BlockText(der: seq<byte>)
    ensures JoinLines(BlockLines(der)) ==
              BEGIN_LINE + "\n" + JoinLines(Chunks(Base64.Encode(der))) + END_LINE + "\n"
  {
    var chunks := Chunks(Base64.Encode(der));
    JoinLinesAppend([BEGIN_LINE], chunks);
    JoinLinesAppend([BEGIN_LINE] + chunks, [END_LINE]);
  }

  /** The bundle grows block by block, in input order. */
  lemma BundleSnoc(certs: seq<seq<byte>>, der: seq<byte>)
    ensures Bundle(certs + [der]) == Bundle(certs) + JoinLines(BlockLines(der))
  {
    BundleLinesAppend(certs, [der]);
    assert [der][1..] == [];
    assert BundleLines([der]) == BlockLines(der);
    JoinLinesAppend(BundleLines(certs), BlockLines(der));
  }

  /** Wrapping proceeds one line of at most 64 characters at a time. */
  lemma ChunksCons(s: string, pos: nat)
    requires pos < |s|
    ensures var end := if pos + LINE_WIDTH <= |s| then pos + LINE_WIDTH else |s|;
            Chunks(s[pos..]) == [s[pos..end]] + Chunks(s[end..])
  {
    var end := if pos + LINE_WIDTH <= |s| then pos + LINE_WIDTH else |s|;
    var t := s[pos..];
    if |t| <= LINE_WIDTH {
      assert end == |s| && s[end..] == [];
      assert t == s[pos..end];
    } else {
      assert t[..LINE_WIDTH] == s[pos..end];
      assert t[LINE_WIDTH..] == s[end..];
    }
  }

  lemma JoinLinesSnoc(ls: seq<string>, l: string)
    ensures JoinLines(ls + [l]) == JoinLines(ls) + l + "\n"
  {
    JoinLinesAppend(ls, [l]);
    assert [l][1..] == [];
  }

  lemma AppendShift<T>(a: seq<T>, x: T, b: seq<T>)
    ensures (a + [x]) + b == a + ([x] + b)
  {
  }

  /** One step of wrapping a text: the next line `text[pos..end]` is taken
      off the lines still to write ... */
  lemma WrapStep(lines: seq<string>, text: string, pos: nat, end: nat)
    requires pos < |text|
    requires end == if pos + LINE_WIDTH <= |text| then pos + LINE_WIDTH else |text|
    requires lines + Chunks(text[pos..]) == Chunks(text)
    ensures (lines + [text[pos..end]]) + Chunks(text[end..]) == Chunks(text)
  {
    ChunksCons(text, pos);
    AppendShift(lines, text[pos..end], Chunks(text[end..]));
  }

  /** ... and appended, with its newline, to the output. */
  lemma WrapOut(prefix: string, lines: seq<string>, line: string, out: string)
    requires out == prefix + JoinLines(lines)
    ensures out + line + "\n" == prefix + JoinLines(lines + [line])
  {
    JoinLinesSnoc(lines, line);
  }

  /** An empty certificate gives BEGIN followed directly by END. */
  lemma EmptyCertificateBlock()
    ensures JoinLines(BlockLines([])) == BEGIN_LINE + "\n" + END_LINE + "\n"
  {
    BlockText([]);
  }

  // ---------------------------------------------------------------------
  // Parsing the bundle back

  /** Index of the first newline, or the length when there is none. */
  function LineEnd(s: string): (i: nat)
    ensures i <= |s|
    ensures forall k :: 0 <= k < i ==> s[k] != '\n'
    ensures i < |s| ==> s[i] == '\n'
  {
    if |s| == 0 || s[0] == '\n' then 0 else 1 + LineEnd(s[1..])
  }

  /** The lines of a text; a final line without newline is kept. */
  function SplitLines(s: string): seq<string>
    decreases |s|
  {
    if |s| == 0 then []
    else
      var i := LineEnd(s);
      if i == |s| then [s] else [s[..i]] + SplitLines(s[i + 1..])
  }

  /** The body lines up to the END line, concatenated, and the lines after it. */
  function CollectBody(ls: seq<string>): (r: Option<(string, seq<string>)>)
    ensures r.Some? ==> |r.value.1| < |ls|
  {
    if ls == [] then None
    else if ls[0] == END_LINE then Some(([], ls[1..]))
    else
      match CollectBody(ls[1..])
      case None => None
      case Some((body, rest)) => Some((ls[0] + body, rest))
  }

  /** The certificates of a sequence of PEM blocks. */
  function ParseLines(ls: seq<string>): Option<seq<seq<byte>>>
    decreases |ls|
  {
    if ls == [] then Some([])
    else if ls[0] != BEGIN_LINE then None
    else
      match CollectBody(ls[1..])
      case None => None
      case Some((body, rest)) =>
        match Base64.Decode(body)
        case None => None
        case Some(der) =>
          match ParseLines(rest)
          case None => None
          case Some(ders) => Some([der] + ders)
  }

  function ParseBundle(s: string): Option<seq<seq<byte>>> {
    ParseLines(SplitLines(s))
  }

  lemma {:induction false} LineEndAt(a: string, b: string)
    requires IsLine(a)
    ensures LineEnd(a + "\n" + b) == |a|
  {
    if a != [] {
      assert (a + "\n" + b)[1..] == a[1..] + "\n" + b;
      LineEndAt(a[1..], b);
    }
  }

  /** Splitting undoes joining. */
  lemma {:induction false} SplitJoin(ls: seq<string>)
    requires forall i :: 0 <= i < |ls| ==> IsLine(ls[i])
    ensures SplitLines(JoinLines(ls)) == ls
  {
    if ls != [] {
      var rest := JoinLines(ls[1..]);
      var s := ls[0] + "\n" + rest;
      LineEndAt(ls[0], rest);
      assert s[..|ls[0]|] == ls[0];
      assert s[|ls[0]| + 1..] == rest;
      SplitJoin(ls[1..]);
    }
  }

  lemma {:induction false} CollectChunks(chunks: seq<string>, rest: seq<string>)
    requires forall i :: 0 <= i < |chunks| ==> chunks[i] != END_LINE
    ensures CollectBody(chunks + [END_LINE] + rest) == Some((Concat(chunks), rest))
  {
    var ls := chunks + [END_LINE] + rest;
    if chunks == [] {
      assert ls == [END_LINE] + rest;
    } else {
      assert ls[1..] == chunks[1..] + [END_LINE] + rest;
      CollectChunks(chunks[1..], rest);
    }
  }

  lemma Base64TextIsNotEnd(t: string)
    requires IsBase64Text(t) && |t| >= 1
    ensures t != END_LINE
  {
    assert END_LINE[0] == '-';
  }

  /** One block parses back to its certificate, ahead of what follows. */
  lemma ParseBlock(der: seq<byte>, rest: seq<string>)
    ensures ParseLines(BlockLines(der) + rest) ==
              match ParseLines(rest)
              case None => None
              case Some(ders) => Some([der] + ders)
  {
    var b64 := Base64.Encode(der);
    var chunks := Chunks(b64);
    forall i | 0 <= i < |chunks| ensures chunks[i] != END_LINE {
      Base64TextIsNotEnd(chunks[i]);
    }
    var ls := BlockLines(der) + rest;
    assert ls[1..] == chunks + [END_LINE] + rest;
    CollectChunks(chunks, rest);
    Base64.DecodeEncode(der);
  }

  /** The bundle's lines parse back to the certificate chain. */
  lemma {:induction false} ParseBundleLines(certs: seq<seq<byte>>)
    ensures ParseLines(BundleLines(certs)) == Some(certs)
  {
    if certs != [] {
      ParseBundleLines(certs[1..]);
      ParseBlock(certs[0], BundleLines(certs[1..]));
      assert certs == [certs[0]] + certs[1..];
    }
  }

  /** Parsing the bundle text recovers the certificate chain, in order. */
  lemma BundleRoundTrip(certs: seq<seq<byte>>)
    ensures ParseBundle(Bundle(certs)) == Some(certs)
  {
    BundleLinesAreLines(certs);
    SplitJoin(BundleLines(certs));
    ParseBundleLines(certs);
  }
}
