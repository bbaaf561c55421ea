/** C strings: sequences of bytes.  The terminating NUL is not part of the value. */
module CStrings {
  newtype byte = x: int | 0 <= x < 256

  type CString = seq<byte>

  datatype Option<+T> = None | Some(value: T)

  /** The string "*", which stands for every node or for every unit. */
  const WILDCARD: CString := [42]

  /** The bytes of an ASCII literal. */
  function Ascii(s: string): (r: CString)
    requires forall i :: 0 <= i < |s| ==> s[i] as int < 256
    ensures |r| == |s|
    ensures forall i :: 0 <= i < |s| ==> r[i] as int == s[i] as int
  {
    seq(|s|, i requires 0 <= i < |s| => s[i] as int as byte)
  }
}
