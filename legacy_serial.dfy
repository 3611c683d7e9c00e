/**
 * The older host-side serial interface (ClientSide/SerialInterface.py): the same
 * synchronisation and frame layouts as the current one, but commands carry pin
 * numbers and values as unsigned bytes, pin modes are matched without case
 * folding, and no GPIO state is tracked on the host.
 */
module LegacySerial {
  import opened Common
  import opened Bytes
  import opened Protocol

  /** `bytes({n})`: a one-byte string holding `n`, or ValueError outside 0..255. */
  function UnsignedByte(n: int): (r: Result<byte>)
    ensures r.Ok? <==> 0 <= n < 256
    ensures r.Ok? ==> r.value == n
    ensures r.Err? ==> r.error == ValueError
  {
    if 0 <= n < 256 then Ok(n) else Err(ValueError)
  }

  /**
   * The bytes `configure_pin` writes: magic, bank (none for an unknown type), pin,
   * mode. The pin is converted before the mode is looked up.
   */
  function LegacyConfigureCommand(pin: int, direction: string, pinType: string): (r: Result<seq<byte>>)
    ensures r.Err? ==> r.error == ValueError || r.error == AssertionError
    ensures r.Ok? ==> direction in PIN_MODES && |r.value| >= 3 && r.value[0] == MAGIC
                      && r.value[|r.value| - 2] as int == pin && r.value[|r.value| - 1] as int == PIN_MODES[direction]
  {
    var p := UnsignedByte(pin);
    if p.Err? then Err(p.error)
    else if direction !in PIN_MODES then Err(AssertionError)
    else Ok([MAGIC] + ConfigureTag(pinType) + [p.value, PIN_MODES[direction]])
  }

  /** The bytes `write_pin` writes: magic, bank (none for an unknown type), pin, value. */
  function LegacyWriteCommand(pin: int, value: int, pinType: string): (r: Result<seq<byte>>)
    ensures r.Err? ==> r.error == ValueError
    ensures r.Ok? ==> |r.value| >= 3 && r.value[0] == MAGIC
                      && r.value[|r.value| - 2] as int == pin && r.value[|r.value| - 1] as int == value
  {
    var p, v := UnsignedByte(pin), UnsignedByte(value);
    if p.Err? then Err(p.error)
    else if v.Err? then Err(v.error)
    else Ok([MAGIC] + WriteTag(pinType, false) + [p.value, v.value])
  }

  /**
   * A configure command fails with ValueError for a pin outside 0..255 (whatever the
   * mode), otherwise with AssertionError for a mode that is not exactly one of the
   * six names, and otherwise is magic, bank, pin and mode.
   */
  lemma LegacyConfigureSpec(pin: int, direction: string, pinType: string)
    ensures !(0 <= pin < 256) ==> LegacyConfigureCommand(pin, direction, pinType) == Err(ValueError)
    ensures 0 <= pin < 256 && direction !in PIN_MODES ==>
              LegacyConfigureCommand(pin, direction, pinType) == Err(AssertionError)
    ensures LegacyConfigureCommand(pin, direction, pinType).Ok? <==> 0 <= pin < 256 && direction in PIN_MODES
    ensures 0 <= pin < 256 && direction in PIN_MODES && (pinType == "DIO" || pinType == "AUX") ==>
              LegacyConfigureCommand(pin, direction, pinType).value ==
              [0xA9, if pinType == "DIO" then 'C' as int else 'X' as int, pin, PIN_MODES[direction]]
    ensures 0 <= pin < 256 && direction in PIN_MODES && pinType != "DIO" && pinType != "AUX" ==>
              LegacyConfigureCommand(pin, direction, pinType).value == [0xA9, pin, PIN_MODES[direction]]
  {
  }

  /**
   * A write command fails with ValueError unless pin and value are both in 0..255,
   * and otherwise is magic, bank, pin and value.
   */
  lemma LegacyWriteSpec(pin: int, value: int, pinType: string)
    ensures LegacyWriteCommand(pin, value, pinType).Ok? <==> 0 <= pin < 256 && 0 <= value < 256
    ensures LegacyWriteCommand(pin, value, pinType).Err? ==> LegacyWriteCommand(pin, value, pinType).error == ValueError
    ensures 0 <= pin < 256 && 0 <= value < 256 && (pinType == "DIO" || pinType == "AUX") ==>
              LegacyWriteCommand(pin, value, pinType).value ==
              [0xA9, if pinType == "DIO" then 'D' as int else 'A' as int, pin, value]
  {
  }

  /**
   * For pins and values in 0..127 and an upper-case mode the two generations of
   * the interface send identical bytes; they part ways on larger numbers, on
   * negative ones and on lower-case modes.
   */
  lemma LegacyAgreesOnSmallNumbers(pin: int, value: int, direction: string, pinType: string)
    requires 0 <= pin < 128 && 0 <= value < 128
    ensures LegacyWriteCommand(pin, value, pinType) == WriteCommand(pin, value, pinType, false)
    ensures direction in PIN_MODES ==>
              LegacyConfigureCommand(pin, direction, pinType) == ConfigureCommand(pin, direction, pinType)
  {
    if direction in PIN_MODES {
      assert Upper(direction) == direction by {
        assert direction in PIN_MODES.Keys;
        forall i | 0 <= i < |direction| ensures !('a' <= direction[i] <= 'z') {
          assert direction == "INPUT" || direction == "OUTPUT" || direction == "INPUT_PULLUP"
              || direction == "INPUT_PULLDOWN" || direction == "OUTPUT_OPENDRAIN" || direction == "INPUT_DISABLE";
        }
        UpperKeepsUpper(direction);
      }
    }
  }

  /** Where the generations differ on numbers: pin 200 and pin -1. */
  lemma LegacyDiffersOnNumbers()
    ensures LegacyWriteCommand(200, 1, "DIO").Ok? && WriteCommand(200, 1, "DIO", false) == Err(OverflowError)
    ensures LegacyWriteCommand(-1, 1, "DIO") == Err(ValueError) && WriteCommand(-1, 1, "DIO", false).Ok?
  {
  }

  /** Where the generations differ on modes: the lower-case mode "input". */
  lemma LegacyDiffersOnCase()
    ensures LegacyConfigureCommand(1, "input", "DIO") == Err(AssertionError) && ConfigureCommand(1, "input", "DIO").Ok?
  {
    assert Upper("input") == "INPUT";
  }

  /** The state of one open connection: unread board bytes, the write log and the frame format. */
  class LegacyInterface {
    const version: int
    /** Bytes the board has sent that the host has not read yet. */
    var incoming: seq<byte>
    /** Every `serial.write`, in order. */
    var written: seq<seq<byte>>
    /** MessageLen and startChar, set by the constructor for versions 1 and 2. */
    var link: Option<Link>

    /** Open the port: nothing read, nothing written, no frame format yet. */
    constructor (version: int, incoming: seq<byte>)
      ensures this.version == version && this.incoming == incoming && written == [] && link.None?
    {
      this.version := version;
      this.incoming := incoming;
      written := [];
      link := None;
    }

    /** `serial.read(n)`: up to `n` pending bytes. */
    method Read(n: nat) returns (x: seq<byte>)
      modifies this`incoming
      ensures x == Take(old(incoming), n) && incoming == old(incoming)[|x|..]
    {
      x := Take(incoming, n);
      incoming := incoming[|x|..];
    }

    /**
     * The synchronisation in the constructor: read four frames, find the first
     * offset whose three frame starts hold the start character, and skip to it.
     */
    method Synchronize() returns (r: Outcome)
      requires link.None?
      modifies this`link, this`incoming
      ensures var sy := SyncStream(version, old(incoming));
              link == sy.link && incoming == sy.rest && r == (if sy.offset.Err? then Fail(sy.offset.error) else Done)
    {
      var fmt := FrameFormat(version);
      if fmt.None? { return Fail(AttributeError); }
      var (L, c) := fmt.value;
      link := Some(Link(L, c));
      var x := Read(L * (SYNC_REPEATS + 1));
      if |x| != L * (SYNC_REPEATS + 1) { return Fail(AssertionError); }
      var found := FindOffset(x, L, c);
      if found.Err? { return Fail(found.error); }
      var skipped := Read(found.value);
      r := Done;
    }

    /** The frame format matches the version: the constructor's synchronisation got past choosing it. */
    predicate Linked()
      reads this`link
    {
      link.Some? && FrameFormat(version) == Some((link.value.messageLen, link.value.startChar))
    }

    /**
     * `read_data`: consume up to one frame's worth of bytes and return its fields;
     * a short read or a wrong start character fails the assertion.
     */
    method ReadData() returns (r: Result<Frame>)
      requires Linked()
      modifies this`incoming
      ensures var L := link.value.messageLen;
              incoming == old(incoming)[|Take(old(incoming), L)|..]
              && r == DecodeFrame(L, link.value.startChar, Take(old(incoming), L))
    {
      var L, c := link.value.messageLen, link.value.startChar;
      var x := Read(L);
      r := DecodeFrame(L, c, x);
    }

    /** `send_byte`: write `data` unchanged; None writes nothing. */
    method SendByte(data: Option<seq<byte>>)
      modifies this`written
      ensures written == if data.None? then old(written) else old(written) + [data.value]
    {
      if data.Some? {
        written := written + [data.value];
      }
    }

    /** `configure_pin`: write the configure command, or raise before writing anything. */
    method ConfigurePin(pin: int, direction: string, pinType: string) returns (r: Outcome)
      modifies this`written
      ensures var c := LegacyConfigureCommand(pin, direction, pinType);
              written == (if c.Ok? then old(written) + [c.value] else old(written))
              && r == (if c.Ok? then Done else Fail(c.error))
    {
      var c := LegacyConfigureCommand(pin, direction, pinType);
      if c.Err? { return Fail(c.error); }
      written := written + [c.value];
      r := Done;
    }

    /** `write_pin`: write the write command, or raise before writing anything; no GPIO state is kept. */
    method WritePin(pin: int, value: int, pinType: string) returns (r: Outcome)
      modifies this`written
      ensures var c := LegacyWriteCommand(pin, value, pinType);
              written == (if c.Ok? then old(written) + [c.value] else old(written))
              && r == (if c.Ok? then Done else Fail(c.error))
    {
      var c := LegacyWriteCommand(pin, value, pinType);
      if c.Err? { return Fail(c.error); }
      written := written + [c.value];
      r := Done;
    }
  }

  /**
   * After a successful synchronisation on a stream whose frames start at `o`, the
   * next `read_data` returns the first whole frame the board sent after the block.
   */
  lemma LegacyReadsFrameAfterSync(version: int, incoming: seq<byte>, o: nat, frame: seq<byte>, f: Frame)
    requires FrameFormat(version).Some?
    requires var (L, c) := FrameFormat(version).value;
             |incoming| >= 5 * L + o && o < L
             && Aligned(incoming[..4 * L], L, c, o) && NoneAligned(incoming[..4 * L], L, c, 0, o)
             && incoming[4 * L + o..] == frame + incoming[5 * L + o..]
             && DecodeFrame(L, c, frame) == Ok(f)
    ensures var (L, c) := FrameFormat(version).value;
            var sy := SyncStream(version, incoming);
            sy.offset == Ok(o) && DecodeFrame(L, c, Take(sy.rest, L)) == Ok(f)
  {
    var (L, c) := FrameFormat(version).value;
    SyncLandsOnBoundary(version, incoming, o);
    assert Take(incoming[4 * L + o..], L) == frame;
  }
}
