/** Machine integer types of the source, written out as bounded subsets of `int`. */
module Binary {

  /** A C# `byte`. */
  type Byte = b: int | 0 <= b < 0x100

  /** A C# `int` (two's-complement, 32 bits). */
  type Int32 = x: int | -0x8000_0000 <= x < 0x8000_0000

  /** The contents of a freshly allocated `new byte[n]`: n zero bytes. */
  function Zeros(n: nat): (z: seq<Byte>)
    ensures |z| == n && forall i :: 0 <= i < n ==> z[i] == 0
  {
    seq(n, _ => 0)
  }
}

/** The exceptions the modelled code raises or lets escape. */
module Exceptions {
  import opened Binary

  datatype Exception =
    | ArgumentNullException        // a null reader or writer
    | ArgumentException            // Buffer.BlockCopy given a range that does not fit
    | EndOfStreamException         // reading past the end of a message stream
    | InvalidCommandException(dataId: Int32)  // a command carrying an invalid data id
}
