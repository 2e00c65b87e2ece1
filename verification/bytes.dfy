/** Byte-level vocabulary shared by the hasher, the storage engine and the
    request decoder: Go's `uint8`/`byte`, the space delimiter, the search
    done by Go's `bytes.IndexByte`, and an optional value for Go's `nil`. */
module Bytes {

  /** Go's `uint8`; `byte` is an alias of it, as in Go. */
  newtype uint8 = x: int | 0 <= x < 0x100

  type byte = uint8

  /** The ASCII space that separates the fields of a request. */
  const Space: byte := 32

  /** A value that may be missing (Go's `nil` slice for "absent"). */
  datatype Option<T> = None | Some(value: T)

  /** Go's `bytes.IndexByte(s, b)`: the index of the first occurrence of `b`
      in `s`, or -1 when `b` does not occur. */
  function IndexByte(s: seq<byte>, b: byte): (i: int)
    ensures -1 <= i < |s|
    ensures i == -1 <==> b !in s
    ensures 0 <= i ==> s[i] == b && b !in s[..i]
  {
    if s == [] then -1
    else if s[0] == b then 0
    else
      var j := IndexByte(s[1..], b);
      if j == -1 then -1 else j + 1
  }

  /** The bytes of an ASCII text, used to write concrete requests and keys. */
  function Ascii(s: string): (r: seq<byte>)
    requires forall i :: 0 <= i < |s| ==> s[i] as int < 0x100
    ensures |r| == |s|
    ensures forall i :: 0 <= i < |s| ==> r[i] as int == s[i] as int
  {
    seq(|s|, i requires 0 <= i < |s| => s[i] as int as byte)
  }
}
