/**
 * The message reader and writer the record serialisers use. Their concrete
 * byte encoding is not part of this model: a stream is a sequence of 32-bit
 * integers, one element per `ReadInt32` / `Write(int)`.
 */
module Streams {
  import opened Binary
  import opened Wrappers
  import opened Exceptions

  /** A reader positioned somewhere in a stream; `Unread` is what is left of it. */
  class MessageReader {
    var Unread: seq<Int32>

    constructor (stream: seq<Int32>)
      ensures Unread == stream
    {
      Unread := stream;
    }

    /** Consumes one 32-bit integer, or throws at the end of the stream. */
    method ReadInt32() returns (r: Result<Int32, Exception>)
      modifies this
      ensures old(Unread) == [] ==> r == Failure(EndOfStreamException) && Unread == []
      ensures old(Unread) != [] ==> r == Success(old(Unread)[0]) && Unread == old(Unread)[1..]
    {
      if Unread == [] {
        r := Failure(EndOfStreamException);
      } else {
        r := Success(Unread[0]);
        Unread := Unread[1..];
      }
    }
  }

  /** A writer; `Written` is everything written to it so far. */
  class MessageWriter {
    var Written: seq<Int32>

    constructor ()
      ensures Written == []
    {
      Written := [];
    }

    method Write(value: Int32)
      modifies this
      ensures Written == old(Written) + [value]
    {
      Written := Written + [value];
    }
  }
}
