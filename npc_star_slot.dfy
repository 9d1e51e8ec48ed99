/**
 * NpcStarSlot: a slot recording how many stars a player earned against one
 * NPC. Its payload is two 32-bit integers with no validity check.
 */
module Slots {
  import opened Binary
  import opened Wrappers
  import opened Exceptions
  import opened Streams

  /** The fields of an NpcStarSlot, in the order they travel. */
  datatype NpcStar = NpcStar(id: Int32, star: Int32)

  /** The stream WriteSlot produces for a slot. */
  function Encode(slot: NpcStar): (r: seq<Int32>)
    ensures |r| == 2
  {
    [slot.id, slot.star]
  }

  /** The slot a ReadSlot yields from stream `s`, with the part it leaves unread. */
  function Decode(s: seq<Int32>): (r: Result<(NpcStar, seq<Int32>), Exception>)
    ensures r.Failure? <==> |s| < 2
    ensures r.Failure? ==> r.error == EndOfStreamException
    ensures r.Success? ==> Encode(r.value.0) + r.value.1 == s
  {
    if |s| < 2 then Failure(EndOfStreamException)
    else Success((NpcStar(s[0], s[1]), s[2..]))
  }

  /** Every slot survives being written and read back, whatever follows it. */
  lemma RoundTrip(slot: NpcStar, rest: seq<Int32>)
    ensures Decode(Encode(slot) + rest) == Success((slot, rest))
  {
  }

  class NpcStarSlot {
    /** Id of the NPC. */
    var ID: Int32
    /** Number of stars earned. */
    var Star: Int32

    function Value(): NpcStar
      reads this
    {
      NpcStar(ID, Star)
    }

    constructor ()
      ensures Value() == NpcStar(0, 0)
    {
      ID, Star := 0, 0;
    }

    constructor WithValues(id: Int32, star: Int32)
      ensures ID == id && Star == star
    {
      ID := id;
      Star := star;
    }

    /** Reads ID and then Star, assigning each as soon as it is read. */
    method ReadSlot(reader: MessageReader?) returns (r: Outcome<Exception>)
      modifies this, reader
      ensures reader == null ==> r == Fail(ArgumentNullException) && unchanged(this)
      ensures reader != null ==>
        var s := old(reader.Unread);
        var n := if |s| < 2 then |s| else 2;
        && Encode(Value()) == s[..n] + Encode(old(Value()))[n..]
        && reader.Unread == s[n..]
        && r == (if n < 2 then Fail(EndOfStreamException) else Pass)
      ensures reader != null ==>
        (r == Pass <==> Decode(old(reader.Unread)) == Success((Value(), reader.Unread)))
    {
      if reader == null {
        return Fail(ArgumentNullException);
      }
      var v := reader.ReadInt32();
      if v.Failure? { return Fail(v.error); }
      ID := v.value;
      v := reader.ReadInt32();
      if v.Failure? { return Fail(v.error); }
      Star := v.value;
      assert old(reader.Unread)[..2] == Encode(Value());
      r := Pass;
    }

    /** Writes ID and then Star. */
    method WriteSlot(writer: MessageWriter?) returns (r: Outcome<Exception>)
      modifies writer
      ensures writer == null ==> r == Fail(ArgumentNullException)
      ensures writer != null ==> r == Pass && writer.Written == old(writer.Written) + Encode(Value())
    {
      if writer == null {
        return Fail(ArgumentNullException);
      }
      writer.Write(ID);
      writer.Write(Star);
      r := Pass;
    }
  }

  /**
   * Builds a slot from two values, writes it to a new stream and reads that
   * stream into a new slot: the read succeeds, restores both values and uses
   * the stream up.
   */
  method WriteThenRead(id: Int32, star: Int32)
    returns (copy: NpcStar, r: Outcome<Exception>, leftover: seq<Int32>)
    ensures copy == NpcStar(id, star) && r == Pass && leftover == []
  {
    var slot := new NpcStarSlot.WithValues(id, star);
    var writer := new MessageWriter();
    var w := slot.WriteSlot(writer);
    assert writer.Written == Encode(NpcStar(id, star));
    var reader := new MessageReader(writer.Written);
    var back := new NpcStarSlot();
    r := back.ReadSlot(reader);
    assert Encode(back.Value()) == Encode(NpcStar(id, star)) by {
      assert writer.Written[..2] == writer.Written;
    }
    copy, leftover := back.Value(), reader.Unread;
  }
}
