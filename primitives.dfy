/** Value types shared by the whole model: optional values, machine integers and bytes. */
module Primitives {

  /** Rust's `Option<T>`. */
  datatype Option<+T> = None | Some(value: T)

  /** Rust's `u8`. */
  newtype byte = x: int | 0 <= x < 0x100

  /** Rust's `i32`. */
  newtype i32 = x: int | -0x8000_0000 <= x < 0x8000_0000

  predicate InI32(x: int) {
    -0x8000_0000 <= x < 0x8000_0000
  }

  /** Two's-complement wrap-around of an unbounded integer into `i32`,
      what an unchecked (release build) `i32` multiplication yields. */
  function WrapI32(x: int): (r: i32)
    ensures InI32(x) ==> r as int == x
    ensures (r as int - x) % 0x1_0000_0000 == 0
  {
    ((x + 0x8000_0000) % 0x1_0000_0000 - 0x8000_0000) as i32
  }

  predicate IsAscii(s: string) {
    forall i :: 0 <= i < |s| ==> s[i] as int < 0x80
  }

  /** The UTF-8 bytes of an ASCII string: one byte per character. */
  function AsciiBytes(s: string): (r: seq<byte>)
    requires IsAscii(s)
    ensures |r| == |s|
    ensures forall i :: 0 <= i < |s| ==> r[i] as int == s[i] as int
  {
    seq(|s|, i requires 0 <= i < |s| => s[i] as int as byte)
  }

  /** The string whose UTF-8 encoding is the given ASCII bytes. */
  function AsciiString(bs: seq<byte>): (r: string)
    requires forall i :: 0 <= i < |bs| ==> bs[i] < 0x80
    ensures |r| == |bs|
    ensures forall i :: 0 <= i < |bs| ==> r[i] as int == bs[i] as int
  {
    seq(|bs|, i requires 0 <= i < |bs| => bs[i] as int as char)
  }

  lemma AsciiRoundTrip(s: string)
    requires IsAscii(s)
    ensures var bs := AsciiBytes(s);
            (forall i :: 0 <= i < |bs| ==> bs[i] < 0x80) && AsciiString(bs) == s
  {
    var bs := AsciiBytes(s);
    assert forall i :: 0 <= i < |bs| ==> bs[i] < 0x80;
    var t := AsciiString(bs);
    assert forall i :: 0 <= i < |s| ==> t[i] == s[i];
  }
}
