/**
 * BuyBuildingCommand: the command a client sends to say that a building was
 * bought. Its payload is four 32-bit integers; reading it rejects a building
 * data id that does not denote building data.
 */
module Commands {
  import opened Binary
  import opened Wrappers
  import opened Exceptions
  import opened Streams

  /** The fields of a BuyBuildingCommand, in the order they travel. */
  datatype BuyBuilding = BuyBuilding(x: Int32, y: Int32, buildingDataId: Int32, unknown1: Int32)

  /** The stream WriteCommand produces for a command. */
  function Encode(c: BuyBuilding): (r: seq<Int32>)
    ensures |r| == 4 && r[2] == c.buildingDataId
  {
    [c.x, c.y, c.buildingDataId, c.unknown1]
  }

  /**
   * The command a complete, successful ReadCommand yields from stream `s`,
   * with the part of the stream it leaves unread. `isValidBuilding` stands
   * for the data-id check `IDConverter.IsValidData<Building>`.
   */
  function Decode(isValidBuilding: Int32 -> bool, s: seq<Int32>): (r: Result<(BuyBuilding, seq<Int32>), Exception>)
    ensures |s| < 4 ==> r == Failure(EndOfStreamException)
    ensures |s| >= 4 ==> (r.Failure? <==> !isValidBuilding(s[2]))
    ensures |s| >= 4 && r.Failure? ==> r.error == InvalidCommandException(s[2])
    ensures r.Success? ==> Encode(r.value.0) + r.value.1 == s && isValidBuilding(r.value.0.buildingDataId)
  {
    if |s| < 4 then Failure(EndOfStreamException)
    else
      var c := BuyBuilding(s[0], s[1], s[2], s[3]);
      if isValidBuilding(c.buildingDataId) then Success((c, s[4..]))
      else Failure(InvalidCommandException(c.buildingDataId))
  }

  /** Reading what was written restores the command exactly when its data id is valid. */
  lemma RoundTrip(isValidBuilding: Int32 -> bool, c: BuyBuilding, rest: seq<Int32>)
    ensures Decode(isValidBuilding, Encode(c) + rest)
            == if isValidBuilding(c.buildingDataId) then Success((c, rest))
               else Failure(InvalidCommandException(c.buildingDataId))
  {
  }

  class BuyBuildingCommand {
    /** The command identifier. */
    const ID: int := 500

    /** Coordinates of the building. */
    var X: Int32
    var Y: Int32
    /** Data id of the building that was bought. */
    var BuildingDataID: Int32
    var Unknown1: Int32

    function Value(): BuyBuilding
      reads this
    {
      BuyBuilding(X, Y, BuildingDataID, Unknown1)
    }

    constructor ()
      ensures Value() == BuyBuilding(0, 0, 0, 0)
    {
      X, Y, BuildingDataID, Unknown1 := 0, 0, 0, 0;
    }

    /**
     * Reads the four fields in order. Each field is assigned as soon as it is
     * read, so when the stream ends early the fields read so far keep their new
     * values; the data-id check runs only after all four are assigned.
     */
    method ReadCommand(reader: MessageReader?, isValidBuilding: Int32 -> bool) returns (r: Outcome<Exception>)
      modifies this, reader
      ensures reader == null ==> r == Fail(ArgumentNullException) && unchanged(this)
      ensures reader != null ==>
        var s := old(reader.Unread);
        var n := if |s| < 4 then |s| else 4;
        && Encode(Value()) == s[..n] + Encode(old(Value()))[n..]
        && reader.Unread == s[n..]
        && r == (if n < 4 then Fail(EndOfStreamException)
                 else if isValidBuilding(BuildingDataID) then Pass
                 else Fail(InvalidCommandException(BuildingDataID)))
      ensures reader != null ==>
        (r == Pass <==> Decode(isValidBuilding, old(reader.Unread)) == Success((Value(), reader.Unread)))
    {
      if reader == null {
        return Fail(ArgumentNullException);
      }
      var v := reader.ReadInt32();
      if v.Failure? { return Fail(v.error); }
      X := v.value;
      v := reader.ReadInt32();
      if v.Failure? { return Fail(v.error); }
      Y := v.value;
      v := reader.ReadInt32();
      if v.Failure? { return Fail(v.error); }
      BuildingDataID := v.value;
      v := reader.ReadInt32();
      if v.Failure? { return Fail(v.error); }
      Unknown1 := v.value;
      assert old(reader.Unread)[..4] == Encode(Value());
      if !isValidBuilding(BuildingDataID) {
        return Fail(InvalidCommandException(BuildingDataID));
      }
      r := Pass;
    }

    /** Writes X, Y, BuildingDataID and Unknown1, in that order. */
    method WriteCommand(writer: MessageWriter?) returns (r: Outcome<Exception>)
      modifies writer
      ensures writer == null ==> r == Fail(ArgumentNullException)
      ensures writer != null ==> r == Pass && writer.Written == old(writer.Written) + Encode(Value())
    {
      if writer == null {
        return Fail(ArgumentNullException);
      }
      writer.Write(X);
      writer.Write(Y);
      writer.Write(BuildingDataID);
      writer.Write(Unknown1);
      r := Pass;
    }
  }

  /**
   * Writes a command to a new stream and reads that stream into a new command:
   * the copy has the same fields, the stream is used up, and the read fails
   * exactly when the data id is invalid.
   */
  method WriteThenRead(c: BuyBuildingCommand, isValidBuilding: Int32 -> bool)
    returns (copy: BuyBuilding, r: Outcome<Exception>, leftover: seq<Int32>)
    ensures copy == c.Value() && leftover == []
    ensures r == if isValidBuilding(c.BuildingDataID) then Pass
                 else Fail(InvalidCommandException(c.BuildingDataID))
  {
    var writer := new MessageWriter();
    var w := c.WriteCommand(writer);
    assert writer.Written == Encode(c.Value());
    var reader := new MessageReader(writer.Written);
    var d := new BuyBuildingCommand();
    r := d.ReadCommand(reader, isValidBuilding);
    assert Encode(d.Value()) == Encode(c.Value()) by {
      assert writer.Written[..4] == writer.Written;
    }
    copy, leftover := d.Value(), reader.Unread;
  }
}
