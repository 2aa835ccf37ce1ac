/**
 * Bytes, blobs and the char-code copy loop that turns the binary string
 * returned by `atob` into a `Uint8Array`.
 */
module Bytes {

  type byte = x: int | 0 <= x < 256

  /** A `Blob`: its bytes and its `type`. */
  datatype Blob = Blob(bytes: seq<byte>, mimeType: string) {
    function Size(): nat { |bytes| }
  }

  /** The byte a char code becomes when it is stored into a `Uint8Array` (ToUint8). */
  function ToUint8(c: char): byte {
    (c as int) % 256
  }

  /** A binary string: every char code fits in one byte, as `atob` guarantees. */
  predicate IsBinary(s: string) {
    forall i :: 0 <= i < |s| ==> (s[i] as int) < 256
  }

  /** The binary string whose char codes are `bytes` (the inverse of the copy for binary strings). */
  function BinaryString(bytes: seq<byte>): (s: string)
    ensures |s| == |bytes| && IsBinary(s)
    ensures forall i :: 0 <= i < |s| ==> s[i] as int == bytes[i]
  {
    seq(|bytes|, i requires 0 <= i < |bytes| => bytes[i] as char)
  }

  /** The bytes a `Uint8Array` filled from the char codes of `s` holds. */
  function Uint8Array(s: string): (bytes: seq<byte>)
    ensures |bytes| == |s|
  {
    seq(|s|, i requires 0 <= i < |s| => ToUint8(s[i]))
  }

  /**
   * `const a = new Uint8Array(s.length); for (i...) a[i] = s.charCodeAt(i)`:
   * one byte per char, byte i being char code i reduced to 8 bits; for the
   * binary string `atob` returns, the bytes read back as that string.
   */
  method CharCodes(s: string) returns (bytes: seq<byte>)
    ensures bytes == Uint8Array(s)
    ensures |bytes| == |s| && forall i :: 0 <= i < |s| ==> bytes[i] == ToUint8(s[i])
    ensures IsBinary(s) ==> BinaryString(bytes) == s
  {
    var a := new byte[|s|];
    for i := 0 to |s|
      invariant forall k :: 0 <= k < i ==> a[k] == ToUint8(s[k])
    {
      a[i] := ToUint8(s[i]);
    }
    bytes := a[..];
    if IsBinary(s) {
      assert forall i :: 0 <= i < |s| ==> BinaryString(bytes)[i] == s[i];
    }
  }
}
