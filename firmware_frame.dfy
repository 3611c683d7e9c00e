/**
 * The MSP430 board's side of the data stream (Firmware/MSP430Firmware/main.c):
 * `SendData` stores the clock, the encoder counters and port 3 into the packed
 * 14-byte `TreadmillDataStruct` and transmits it, and the main loop applies a
 * pending GPIO byte from the host before each frame.
 */
module FirmwareFrame {
  import opened Common
  import opened Bytes
  import opened Protocol

  /** `sizeof(TreadmillDataStruct)`: 1+1+2+2+2+4+1+1 bytes, packed without padding. */
  const FRAME_SIZE: nat := 14
  /** `EndChar`, the last byte of every frame. */
  const END_CHAR: byte := 10

  /**
   * The bytes of the struct after `SendData`: start character, length, the two
   * clock halves, the two encoder counters, port 3 and the end character, each
   * little-endian as the MSP430 stores them.
   */
  function FrameBytes(clockLow: nat, clockHigh: nat, ticks: int, unwrapped: int, port3: byte): (x: seq<byte>)
    requires clockLow < 0x1_0000 && clockHigh < 0x1_0000
    requires -0x8000 <= ticks < 0x8000 && -0x8000_0000 <= unwrapped < 0x8000_0000
    ensures |x| == FRAME_SIZE && x[0] == START_V1 && x[1] == FRAME_SIZE && x[13] == END_CHAR
  {
    [START_V1, FRAME_SIZE] + EncodeU16(clockLow) + EncodeU16(clockHigh) + EncodeI16(ticks)
    + EncodeI32(unwrapped) + [port3, END_CHAR]
  }

  /**
   * The host's `<cBLhlBx` reading of a frame recovers every stored value: the
   * 32-bit time is MasterClockHigh * 65536 + TA0R, the counters and port 3 come
   * back unchanged, and the end character falls in the pad byte.
   */
  lemma HostParsesFrame(clockLow: nat, clockHigh: nat, ticks: int, unwrapped: int, port3: byte)
    requires clockLow < 0x1_0000 && clockHigh < 0x1_0000
    requires -0x8000 <= ticks < 0x8000 && -0x8000_0000 <= unwrapped < 0x8000_0000
    ensures ParseV1(FrameBytes(clockLow, clockHigh, ticks, unwrapped, port3)) ==
            Frame(START_V1, FRAME_SIZE, clockHigh * 0x1_0000 + clockLow, ticks, unwrapped, port3, None)
  {
    var f := Frame(START_V1, FRAME_SIZE, clockHigh * 0x1_0000 + clockLow, ticks, unwrapped, port3, None);
    var time := clockHigh * 0x1_0000 + clockLow;
    assert time % 0x1_0000 == clockLow && time / 0x1_0000 == clockHigh;
    assert EncodeU32(time) == EncodeU16(clockLow) + EncodeU16(clockHigh);
    assert FrameBytes(clockLow, clockHigh, ticks, unwrapped, port3) == EncodeV1(f, END_CHAR);
    ParseEncodeV1(f, END_CHAR);
  }

  /** The end character never reaches the host's callers: the parse ignores byte 13. */
  lemma EndCharIgnored(x: seq<byte>, b: byte)
    requires |x| == FRAME_SIZE
    ensures ParseV1(x[13 := b]) == ParseV1(x)
  {
  }

  /** The board's globals: the frame buffer, the counters, port 3 and the GPIO latch. */
  class Board {
    /** `TreadmillData`, seen byte by byte through `pTreadmillData`. */
    const buffer: array<byte>
    var masterClockHigh: nat
    var encoderTicks: int
    var unwrappedEncoder: int
    var p3out: byte
    /** The byte and flag the UART receive handler leaves for the main loop. */
    var newGpio: byte
    var newGpioFlag: bool
    /** Every frame handed to the UART, in order. */
    var sent: seq<seq<byte>>

    /** The counters fit their C types. */
    predicate CountersValid()
      reads this`masterClockHigh, this`encoderTicks, this`unwrappedEncoder
    {
      masterClockHigh < 0x1_0000 && -0x8000 <= encoderTicks < 0x8000
      && -0x8000_0000 <= unwrappedEncoder < 0x8000_0000
    }

    /** The constant fields of the frame as `main` sets them up. */
    ghost predicate HeaderValid()
      reads buffer
    {
      buffer.Length == FRAME_SIZE && buffer[0] == START_V1 && buffer[1] == FRAME_SIZE && buffer[13] == END_CHAR
    }

    /** Power-up: zero-initialised globals and a zero-filled frame buffer. */
    constructor ()
      ensures fresh(buffer) && buffer.Length == FRAME_SIZE && buffer[..] == seq(FRAME_SIZE, i => 0)
      ensures masterClockHigh == 0 && encoderTicks == 0 && unwrappedEncoder == 0
      ensures p3out == 0 && newGpio == 0 && !newGpioFlag && sent == []
    {
      buffer := new byte[FRAME_SIZE](i => 0);
      masterClockHigh := 0;
      encoderTicks := 0;
      unwrappedEncoder := 0;
      p3out := 0;
      newGpio := 0;
      newGpioFlag := false;
      sent := [];
    }

    /** The frame set-up in `main`: start character, end character and length, and port 3 driven low. */
    method Setup()
      requires buffer.Length == FRAME_SIZE
      modifies buffer, this`p3out
      ensures HeaderValid() && p3out == 0
      ensures buffer[2..13] == old(buffer[2..13])
    {
      buffer[0] := START_V1;
      buffer[13] := END_CHAR;
      buffer[1] := FRAME_SIZE as byte;
      p3out := 0;
    }

    /**
     * `SendData`: copy the timer count `clockLow` (TA0R), the clock's upper half,
     * the encoder counters and port 3 (`port3`, P3IN) into the buffer, then send it.
     */
    method SendData(clockLow: nat, port3: byte)
      requires HeaderValid() && CountersValid() && clockLow < 0x1_0000
      modifies buffer, this`sent
      ensures HeaderValid()
      ensures buffer[..] == FrameBytes(clockLow, masterClockHigh, encoderTicks, unwrappedEncoder, port3)
      ensures sent == old(sent) + [buffer[..]]
    {
      var low, high := EncodeU16(clockLow), EncodeU16(masterClockHigh);
      var ticks, unwrapped := EncodeI16(encoderTicks), EncodeI32(unwrappedEncoder);
      buffer[2], buffer[3] := low[0], low[1];
      buffer[4], buffer[5] := high[0], high[1];
      buffer[6], buffer[7] := ticks[0], ticks[1];
      buffer[8], buffer[9], buffer[10], buffer[11] := unwrapped[0], unwrapped[1], unwrapped[2], unwrapped[3];
      buffer[12] := port3;
      sent := sent + [buffer[..]];
    }

    /** One pass of the main loop: apply a pending GPIO byte to P3OUT, clear the flag, send one frame. */
    method LoopOnce(clockLow: nat, port3: byte)
      requires HeaderValid() && CountersValid() && clockLow < 0x1_0000
      modifies buffer, this`sent, this`p3out, this`newGpioFlag
      ensures HeaderValid() && !newGpioFlag
      ensures p3out == if old(newGpioFlag) then newGpio else old(p3out)
      ensures sent == old(sent) + [FrameBytes(clockLow, masterClockHigh, encoderTicks, unwrappedEncoder, port3)]
    {
      if newGpioFlag {
        p3out := newGpio;
        newGpioFlag := false;
      }
      SendData(clockLow, port3);
    }

    /**
     * `n` passes of the main loop with no byte arriving from the host: a pending
     * byte reaches P3OUT at most once and exactly one frame leaves per pass.
     */
    method RunLoop(clockLows: seq<nat>, port3s: seq<byte>)
      requires HeaderValid() && CountersValid() && |port3s| == |clockLows|
      requires forall i :: 0 <= i < |clockLows| ==> clockLows[i] < 0x1_0000
      modifies buffer, this`sent, this`p3out, this`newGpioFlag
      ensures HeaderValid()
      ensures |clockLows| > 0 ==> !newGpioFlag
      ensures p3out == if old(newGpioFlag) && |clockLows| > 0 then newGpio else old(p3out)
      ensures |sent| == |old(sent)| + |clockLows| && sent[..|old(sent)|] == old(sent)
      ensures forall i :: 0 <= i < |clockLows| ==>
                sent[|old(sent)| + i] == FrameBytes(clockLows[i], masterClockHigh, encoderTicks, unwrappedEncoder, port3s[i])
    {
      for k := 0 to |clockLows|
        invariant HeaderValid()
        invariant k > 0 ==> !newGpioFlag
        invariant k == 0 ==> newGpioFlag == old(newGpioFlag)
        invariant p3out == if old(newGpioFlag) && k > 0 then newGpio else old(p3out)
        invariant |sent| == |old(sent)| + k && sent[..|old(sent)|] == old(sent)
        invariant forall i :: 0 <= i < k ==>
                    sent[|old(sent)| + i] == FrameBytes(clockLows[i], masterClockHigh, encoderTicks, unwrappedEncoder, port3s[i])
      {
        LoopOnce(clockLows[k], port3s[k]);
      }
    }
  }
}
