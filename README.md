# TreadmillIO core, modelled in Dafny

TreadmillIO runs head-fixed mouse experiments on a treadmill. A microcontroller streams fixed-size
frames (master clock, encoder ticks, unwrapped encoder, GPIO word) over a serial line. The host runs a
control loop every 2 ms, with this order of work per tick:

1. read and parse a frame, and update position and velocity;
2. lower the pulsed outputs whose time has come;
3. end the beeps whose duration is over;
4. step the task states;
5. set the gain of position-dependent sounds;
6. decide rewards in the reward zones.

A separate ALSA playback process mixes looping sound stimuli into a ring of output buffers, and changes
their gains on messages from the controller.

This project models that core as Dafny modules, one per source file (or per family of near-identical
files):

| module | models |
|---|---|
| `Common`, `Bytes` | Python exceptions as error values; `Option`/`Result`; bytes, little-endian and signed-byte codecs, bit masks |
| `Protocol` | frame layouts (v1: 14 bytes, start byte 'E'; v2: 17 bytes, start byte 'F'), the frame synchronisation search and the 4-byte command packets of `ClientSide/treadmillio/serialinterface.py` |
| `HostSerial` | the `SerialInterface` class of `ClientSide/treadmillio/serialinterface.py` (GPIO registry, tracked output state, latency counter, pulse table, position/velocity estimator with its 50-slot ring buffer) |
| `LegacySerial` | the older `ClientSide/SerialInterface.py` |
| `SerialSimulator` | `src/treadmillio/serialinterfacesimulator.py` (encoder folding modulo 4096, pulse-callback list) |
| `FirmwareFrame`, `Quadrature` | `SendData` and the main loop of `Firmware/MSP430Firmware/main.c`; the quadrature decoder interrupt of `Firmware/MSP430Firmware/quadrature.c` |
| `TeensyGpio` | the 1-indexed pin tables of `Hardware/Firmware/Firmware/GPIO.cpp` |
| `RewardZone`, `LegacyRewardZone` | the two versions of the reward zones (`src/treadmillio/rewardzone.py`, `ClientSide/treadmillio/rewardzone.py`), kept apart |
| `TaskStates` | the task-state objects and the state-table builder of `ClientSide/treadmillio/taskstatemachine.py` |
| `SoundStimulus`, `LegacySound` | sound-stimulus bookkeeping in `ClientSide/treadmillio/soundstimulus.py` and `ClientSide/SoundStimulus.py` |
| `AlsaStimulus` | the audio ring-buffer cursor `Stimulus.get_nextbuf`, shared by the four playback files |
| `ConfigValues` | the configuration values (nested dictionaries) read by the playback constructors |
| `AlsaInterface`, `AlsaOutput`, `AlsaPlayback`, `AlsaServer` | the `ALSAPlaybackSystem` classes of `ClientSide/treadmillio/alsainterface.py`, `ClientSide/alsa_output.py`, `ClientSide/treadmillio/alsaplayback.py` and `ClientSide/network_sound_server/alsainterface.py` |

How things are modelled:

- Objects whose fields the source updates become classes. Their methods carry `modifies` clauses and
  state the new state in full.
- Pure computations become functions. Each one has a partner lemma that states what it means.
- Python exceptions become `Common.Error` values inside `Result` or `Outcome`. An exception ends the
  modelled operation at that point, as it does in the source.
- Serial writes, pipe messages and pulses become logs that the methods append to. Incoming serial bytes
  are an input sequence.
- Random draws, the clock and constants such as pi are parameters.
- Positions, velocities and gains are `real`s.
- Python's `%` on ints and floats is written out where the sign matters.
- `ClientSide/TaskStateMachine.py` repeats the state classes of `ClientSide/treadmillio/taskstatemachine.py`
  line for line. The `TaskStates` module models both.

## Model

| member | source | states |
|---|---|---|
| Common.Names | ClientSide/treadmillio/alsainterface.py:110 | the names of a list of entries are exactly the names that occur in it |
| Bytes.Pow2 | Firmware/MSP430Firmware/TreadmillDataStruct.h:9-12 | a power of two is at least 1 |
| Bytes.U16 | Firmware/MSP430Firmware/TreadmillDataStruct.h:9-10 | two little-endian bytes read as an unsigned 16-bit value stay below 2^16 |
| Bytes.U32 | Firmware/MSP430Firmware/TreadmillDataStruct.h:12 | four little-endian bytes read as an unsigned 32-bit value stay below 2^32 |
| Bytes.Signed16 | Firmware/MSP430Firmware/TreadmillDataStruct.h:11 | the two's-complement reading of a 16-bit word lies in the int16_t range and agrees with the word modulo 2^16 |
| Bytes.Signed32 | Firmware/MSP430Firmware/TreadmillDataStruct.h:12 | the two's-complement reading of a 32-bit word lies in the int32_t range and agrees with the word modulo 2^32 |
| Bytes.Wrap16 | Firmware/MSP430Firmware/quadrature.c:5-7 | wrapping lands in the int16_t range and differs from the value by a multiple of 2^16 |
| Bytes.Wrap32 | Firmware/MSP430Firmware/quadrature.c:8 | wrapping lands in the int32_t range and differs from the value by a multiple of 2^32 |
| Bytes.EncodeU16 | Firmware/MSP430Firmware/main.c:63-64 | a 16-bit value is stored as two bytes that read back as it |
| Bytes.EncodeU32 | Firmware/MSP430Firmware/main.c:66 | a 32-bit value is stored as four bytes that read back as it |
| Bytes.EncodeI16 | Firmware/MSP430Firmware/main.c:65 | an int16_t is stored as two bytes whose signed reading gives it back |
| Bytes.EncodeI32 | Firmware/MSP430Firmware/main.c:66 | an int32_t is stored as four bytes whose signed reading gives it back |
| Bytes.BitsOf16 | ClientSide/treadmillio/serialinterface.py:249 | the set of 1-bits of a 16-bit word is exactly the bits below 16 that test set |
| Bytes.BitOrBits | ClientSide/treadmillio/serialinterface.py:317 | a OR b has a 1-bit exactly where a or b has one |
| Bytes.HalfBit | ClientSide/treadmillio/serialinterface.py:249 | bit i of n is bit i-1 of n/2 |
| Bytes.DivTwice | ClientSide/treadmillio/serialinterface.py:249 | dividing by 2p is halving then dividing by p |
| Bytes.DivIdent | ClientSide/treadmillio/serialinterface.py:249 | Euclidean division is fixed by its quotient-remainder equation |
| Bytes.MulAtLeast | ClientSide/treadmillio/serialinterface.py:317 | a positive number times a positive integer is at least the number |
| Bytes.BitOrAtLeast | ClientSide/treadmillio/serialinterface.py:317 | a OR b is at least each operand |
| Bytes.BitOrBelow | ClientSide/treadmillio/serialinterface.py:317 | a OR b of two numbers below 2^n stays below 2^n |
| Bytes.BitsValue | ClientSide/treadmillio/serialinterface.py:244-246 | the integer whose bits are a set's members below n is below 2^n |
| Common.SumSign | ClientSide/treadmillio/serialinterface.py:344 | a sum of non-negative terms is non-negative, and a sum of non-positive terms is non-positive |
| Common.SumDropFirst | ClientSide/treadmillio/taskstatemachine.py:50-53 | a sum also splits off its first term, as the running total of the option probabilities does |
| Protocol.FrameFormat | ClientSide/treadmillio/serialinterface.py:104-109 | a frame length and start character exist exactly for versions 1 and 2 (14 bytes 'E', 17 bytes 'F'); any other version leaves them unset |
| Protocol.ParseV1 | ClientSide/treadmillio/serialinterface.py:152-153 | unpacking 14 bytes as `<cBLhlBx` gives fields within the widths of that layout |
| Protocol.ParseV2 | ClientSide/treadmillio/serialinterface.py:157-158 | unpacking 17 bytes as `<cBLhlHHx` gives fields within the widths of that layout |
| Protocol.EncodeV1 | Firmware/MSP430Firmware/TreadmillDataStruct.h:6-15 | the version-1 layout of a frame is 14 bytes, whatever the pad byte |
| Protocol.EncodeV2 | ClientSide/treadmillio/serialinterface.py:157-158 | the version-2 layout of a frame is 17 bytes, whatever the pad byte |
| Protocol.ParseEncodeV1 | ClientSide/treadmillio/serialinterface.py:152-153 | unpacking the version-1 bytes of any frame that fits the layout gives that frame back (the pad byte is dropped) |
| Protocol.ParseEncodeV2 | ClientSide/treadmillio/serialinterface.py:157-158 | unpacking the version-2 bytes of any frame that fits the layout gives that frame back |
| Protocol.IndexFrom | ClientSide/treadmillio/serialinterface.py:120 | `x.index(c, from)` finds the first position at or after `from` holding `c`, and finds none exactly when `c` does not occur there (ValueError) |
| Protocol.ScanAtSpec | ClientSide/treadmillio/serialinterface.py:118-121 | one pass of the inner loop raises exactly when the start character is missing from the third frame start on, and accepts exactly an offset aligned in all three frames |
| Protocol.ScanCandidate | ClientSide/treadmillio/serialinterface.py:118-121 | the inner `for k in range(K)` loop computes the scan verdict of its candidate offset |
| Protocol.PartialScanRaises | ClientSide/treadmillio/serialinterface.py:119-121 | once a `x.index` in the inner loop raises, the later frames cannot change the verdict |
| Protocol.SyncFromOk | ClientSide/treadmillio/serialinterface.py:115-129 | a successful search from a candidate returns an aligned offset below L with no aligned offset before it |
| Protocol.SyncFromErrNone | ClientSide/treadmillio/serialinterface.py:115-129 | a failed search saw no aligned offset from its candidate to L |
| Protocol.SyncFromErrKind | ClientSide/treadmillio/serialinterface.py:120-128 | a failed search raises AssertionError (index past L-1) when the start character still occurs from 3L-1 on, and ValueError from `x.index` otherwise |
| Protocol.SyncFromSpec | ClientSide/treadmillio/serialinterface.py:115-129 | the search result in all three directions: Ok(i) iff i is the first aligned offset; AssertionError iff none is aligned and the character occurs from 3L-1; ValueError iff none is aligned and it does not |
| Protocol.SyncSpec | ClientSide/treadmillio/serialinterface.py:110-129 | a short read fails the length assertion; otherwise synchronisation returns the smallest offset whose three frames start with the start character, and its two failure modes are exactly as in SyncFromSpec |
| Protocol.SyncRecoversOffset | ClientSide/treadmillio/serialinterface.py:115-129 | a block whose frames start at `o`, with no earlier aligned offset, synchronises to exactly `o` |
| Protocol.FindOffset | ClientSide/treadmillio/serialinterface.py:115-129 | the `while(True)` search loop returns the specified search result from offset 0 |
| Protocol.Take | ClientSide/treadmillio/serialinterface.py:110-133 | `serial.read(n)` yields the first `min(n, pending)` pending bytes |
| Protocol.SyncStream | ClientSide/treadmillio/serialinterface.py:103-133 | with an unknown version MessageLen is unset (AttributeError); otherwise the first 4L bytes are searched, and on failure those bytes are consumed |
| Protocol.SyncLandsOnBoundary | ClientSide/treadmillio/serialinterface.py:110-133 | when the first 4L bytes have their earliest frame boundary at `o`, synchronisation leaves the stream exactly at byte 4L+o, a frame boundary |
| Protocol.DecodeFrame | ClientSide/treadmillio/serialinterface.py:148-159 | a frame is accepted exactly when it is L bytes long and starts with the start character; otherwise AssertionError |
| Protocol.DecodeEncodedFrame | ClientSide/treadmillio/serialinterface.py:147-159 | every frame the board can send in either layout is decoded back to itself, whatever its pad byte |
| Protocol.DecodeRejectsWrongStart | ClientSide/treadmillio/serialinterface.py:154-159 | a frame whose first byte is not the start character is never returned |
| Protocol.SignedByte | ClientSide/treadmillio/serialinterface.py:223-239 | `to_bytes(1, signed=True)` succeeds exactly on -128..127 (OverflowError otherwise) and the byte reads back as the value |
| Protocol.Upper | ClientSide/treadmillio/serialinterface.py:224 | the ASCII part of `str.upper()`: keeps the length, maps each lower-case ASCII letter to its capital and leaves every other character alone (non-ASCII case mappings are left out) |
| Protocol.UpperKeepsUpper | ClientSide/treadmillio/serialinterface.py:224 | a direction already in upper case is unchanged by upper-casing |
| Protocol.ConfigureCommandRoundTrip | ClientSide/treadmillio/serialinterface.py:216-226 | `configure_pin` succeeds exactly for a pin in -128..127 and a direction that upper-cases to one of the six pin modes, and its four bytes decode back to 'C'/'X', the pin and the mode number |
| Protocol.WriteCommandRoundTrip | ClientSide/treadmillio/serialinterface.py:228-241 | `write_pin` succeeds exactly for pin and value in -128..127, and its four bytes decode back to 'M' when mirrored (else 'D'/'A'), the pin and the value |
| Protocol.ScanAt | ClientSide/treadmillio/serialinterface.py:119-121 | the inner loop accepts a candidate offset only when the start character sits at it and one and two frames later; it raises (no start character left from the third position) only when the third position does not hold it |
| Protocol.SyncFrom | ClientSide/treadmillio/serialinterface.py:115-129 | a search from candidate `index` returns an offset between `index` and L-1; it fails only with AssertionError (no offset left) or ValueError (`x.index` finds no start character) |
| Protocol.Sync | ClientSide/treadmillio/serialinterface.py:110-129 | a block whose length is not (K+1)·L fails the length assertion; a returned offset is below L and holds the start character at it and one and two frames later |
| Protocol.ConfigureCommand | ClientSide/treadmillio/serialinterface.py:216-226 | `configure_pin` raises OverflowError exactly when the pin is outside -128..127, and otherwise can only fail the mode assertion; the bytes it writes start with the magic byte 0xA9; with a pin type other than DIO or AUX no command character is written, so the bytes are not a command the board reads |
| Protocol.WriteCommand | ClientSide/treadmillio/serialinterface.py:228-239 | `write_pin` fails only with OverflowError; the bytes start with the magic byte; unmirrored, with a pin type other than DIO or AUX, no command character is written and the bytes are not a command the board reads |
| Protocol.DecodeCommand | ClientSide/treadmillio/serialinterface.py:217-239 | a command is read exactly from four bytes that start with the magic byte; its pin and argument are signed bytes, and its command character is the second byte |
| HostSerial.ParseTopology | ClientSide/treadmillio/serialinterface.py:55-61 | only 'Ring' and 'Line' are accepted topologies; any other name raises ValueError |
| HostSerial.FloatMod | ClientSide/treadmillio/serialinterface.py:57 | Python's float `%` takes the sign of the modulus: in [0, m) for a positive modulus and in (m, 0] for a negative one |
| HostSerial.ApplyTopology | ClientSide/treadmillio/serialinterface.py:55-59 | a ring wraps into [0, length) for a positive length and raises ZeroDivisionError for length 0; a line clamps into [0, length] and leaves positions already on the track unchanged |
| HostSerial.RingFixesTrackPositions | ClientSide/treadmillio/serialinterface.py:57 | a position already on a ring track is mapped to itself |
| HostSerial.RingPeriodic | ClientSide/treadmillio/serialinterface.py:57 | moving a whole lap along a ring leaves the position unchanged |
| HostSerial.MazeSetup | ClientSide/treadmillio/serialinterface.py:50-61 | defaults Length 1000.0, WheelDiameter 20.2, EncoderGain 4096.0, Topology 'Ring'; the cm per count times the gain is pi times the diameter; a zero gain raises ZeroDivisionError and an unknown topology ValueError |
| HostSerial.RingContents | ClientSide/treadmillio/serialinterface.py:63-65 | the smoothing buffer always has 50 slots |
| HostSerial.Recent | ClientSide/treadmillio/serialinterface.py:63-65 | the window of recent displacements holds at most 50 of them |
| HostSerial.RingSlot | ClientSide/treadmillio/serialinterface.py:342-343 | slot k of the buffer holds the latest displacement written to it, or 0 if none was |
| HostSerial.RingOverwrites | ClientSide/treadmillio/serialinterface.py:342-343 | the slot the next displacement goes to holds the one from 50 frames earlier, or 0 while the buffer is filling |
| HostSerial.RecentStep | ClientSide/treadmillio/serialinterface.py:340-344 | each new displacement adds itself to the window sum and, once 50 are in, drops the oldest |
| HostSerial.RingSum | ClientSide/treadmillio/serialinterface.py:340-344 | the buffer's sum is the sum of the last 50 displacements, with zeros before the first |
| HostSerial.SteadyVelocity | ClientSide/treadmillio/serialinterface.py:170 | once the last 50 displacements all equal d, the buffer mean is exactly d, so velocity is 500·d (see also lines 340-344 of the same file) |
| HostSerial.Emit | ClientSide/treadmillio/serialinterface.py:203-226 | a write appends exactly its bytes to the output log when the port is open, and raises (port None) otherwise; GPIO state and registry are untouched |
| HostSerial.ConfigurePinEffect | ClientSide/treadmillio/serialinterface.py:216-226 | `configure_pin` never touches the tracked GPIO state or the registry |
| HostSerial.TrackWrite | ClientSide/treadmillio/serialinterface.py:243-246 | on version 2 with a non-negative pin, bit `pin` is set iff value > 0 and every other bit is kept; version 1 (bytes) and a negative shift raise |
| HostSerial.WritePinEffect | ClientSide/treadmillio/serialinterface.py:228-246 | `write_pin` never changes the GPIO registry |
| HostSerial.DriveEffect | ClientSide/treadmillio/serialinterface.py:254-276 | raise/lower_output on an unknown name, and raise_output on an entry without IsPulsed, raise KeyError with nothing changed; otherwise IsPulsed is set False (cancelling a pulse) and nothing else in the registry changes |
| HostSerial.ConfigureIoEffect | ClientSide/treadmillio/serialinterface.py:279-285 | `configure_io` never changes the GPIO registry |
| HostSerial.PulsesEffect | ClientSide/treadmillio/serialinterface.py:322-326 | `update_pulses` keeps the set of registered names (an entry without IsPulsed raises KeyError) |
| HostSerial.ConfigureAllEffect | ClientSide/treadmillio/serialinterface.py:140-141 | the configure loop of `connect` never changes the registry |
| HostSerial.InputSweep | ClientSide/treadmillio/serialinterface.py:136-138 | the INPUT sweep over n pins sends two commands per pin |
| HostSerial.InputCommands | ClientSide/treadmillio/serialinterface.py:136-138 | pin p of the sweep is configured INPUT (mode 0) on the DIO bank with 'C' and on the AUX bank with 'X' |
| HostSerial.WritePinTracksBit | ClientSide/treadmillio/serialinterface.py:228-246 | on a connected version-2 interface write_pin sends exactly one command that decodes to its tag, pin and value, records bit `pin` iff value > 0, and keeps every other tracked bit |
| HostSerial.WritePinVersion1Raises | ClientSide/treadmillio/serialinterface.py:30 | on version 1 GPIO_state is bytes, so write_pin always raises after sending its command (see also lines 243-246 of the same file) |
| HostSerial.PulsesKeepNotDue | ClientSide/treadmillio/serialinterface.py:322-326 | update_pulses leaves alone every pin that was not pulsed past its off time |
| HostSerial.PulsesLowerDue | ClientSide/treadmillio/serialinterface.py:268-326 | when no write raised, no listed pin is still pulsed past its off time afterwards, and each pin that was due has only IsPulsed cleared, so each pulse is lowered once |
| HostSerial.PulseThenUpdate | ClientSide/treadmillio/serialinterface.py:322-337 | after pulse_output, update_pulses sends nothing while time ≤ off time and, once time exceeds it, lowers the pin with one write and clears IsPulsed |
| HostSerial.MergeState | ClientSide/treadmillio/serialinterface.py:160 | the merged state keeps every software bit under OutputPinMask and takes every other bit from the frame's GPIO word |
| HostSerial.LatencyMeansOutputMismatch | ClientSide/treadmillio/serialinterface.py:160-162 | a latency event is counted exactly when some output bit of the frame disagrees with the value last written to it |
| HostSerial.ConnectOutputEffect | ClientSide/treadmillio/serialinterface.py:135-144 | the writes of `connect` after synchronisation never change the registry |
| HostSerial.SerialInterface.constructor | ClientSide/treadmillio/serialinterface.py:14-68 | a new interface has no port, no link, no writes, an empty registry, all counters zero, pos/velocity 0, `reinitialize` set and a zeroed 50-slot smoothing buffer |
| HostSerial.SerialInterface.Read | ClientSide/treadmillio/serialinterface.py:110-148 | a read consumes exactly the bytes it returns, at most n, from the front of the pending input |
| HostSerial.SerialInterface.AddGpio | ClientSide/treadmillio/serialinterface.py:289-320 | registers Number and Type with Power and Mirror defaulting to False, IsPulsed False and PulseOffTime -1; an Output pin enters OutputPinMask; on version 1 an Output pin raises AttributeError (no OutputPinMask) and a negative Output pin raises ValueError, leaving OutputPinMask alone and the entry stored without IsPulsed |
| HostSerial.SerialInterface.SendByte | ClientSide/treadmillio/serialinterface.py:203-205 | None sends nothing; other data is written unchanged |
| HostSerial.SerialInterface.ConfigurePin | ClientSide/treadmillio/serialinterface.py:216-226 | the new output log and result are those of ConfigurePinEffect (see ConfigureCommandRoundTrip) |
| HostSerial.SerialInterface.WritePin | ClientSide/treadmillio/serialinterface.py:228-246 | the new output log, GPIO state and result are those of WritePinEffect (see WritePinTracksBit) |
| HostSerial.SerialInterface.ReadPin | ClientSide/treadmillio/serialinterface.py:248-252 | `read_pin(p)` tests bit p-1 of the last GPIO word (not bit p, which write_pin tracks); before any frame it raises TypeError and for p < 1 ValueError |
| HostSerial.SerialInterface.CheckLatency | ClientSide/treadmillio/serialinterface.py:198-201 | `check_latency` lacks `self`, so calling it on an instance always raises TypeError |
| HostSerial.SerialInterface.RaiseOutput | ClientSide/treadmillio/serialinterface.py:254-265 | the new state and result are those of DriveEffect with the pin driven high |
| HostSerial.SerialInterface.LowerOutput | ClientSide/treadmillio/serialinterface.py:268-276 | the new state and result are those of DriveEffect with the pin driven low |
| HostSerial.SerialInterface.Drive | ClientSide/treadmillio/serialinterface.py:254-276 | the shared body of raise/lower_output reaches DriveEffect's state and keeps the registry's names |
| HostSerial.SerialInterface.PulseOutput | ClientSide/treadmillio/serialinterface.py:328-337 | raises the pin, then sets IsPulsed and overwrites PulseOffTime; raise_output cleared IsPulsed first, so the "already in a pulse" warning is unreachable |
| HostSerial.SerialInterface.UpdatePulses | ClientSide/treadmillio/serialinterface.py:322-326 | lowers the pulsed pins due at the last frame's MasterTime, in registry order, as PulsesEffect says (see PulsesLowerDue) |
| HostSerial.SerialInterface.ConfigureIo | ClientSide/treadmillio/serialinterface.py:279-285 | the DIO pin is configured, then the AUX pin as OUTPUT and written 1 for power, and configured OUTPUT again for a mirror |
| HostSerial.SerialInterface.Synchronize | ClientSide/treadmillio/serialinterface.py:89-133 | opens the port, fixes MessageLen and startChar, and leaves the pending input and the result exactly as SyncStream says (see SyncLandsOnBoundary) |
| HostSerial.SerialInterface.SweepInputs | ClientSide/treadmillio/serialinterface.py:136-138 | appends exactly the INPUT sweep over pins 1..12 to the output log |
| HostSerial.SerialInterface.ConfigureRegistered | ClientSide/treadmillio/serialinterface.py:140-141 | runs configure_io on every registered GPIO in registry order, stopping at the first exception |
| HostSerial.SerialInterface.Connect | ClientSide/treadmillio/serialinterface.py:89-144 | a failed synchronisation raises with nothing written; otherwise the sweep, the registered configuration and (version 1) the state byte are written as ConnectOutputEffect says |
| HostSerial.SerialInterface.TrackPosition | ClientSide/treadmillio/serialinterface.py:165-190 | without a maze the undefined `reinitialize` raises AttributeError; the first frame zeroes pos, unwrapped_pos and velocity and takes the encoder baseline; under block_movement only the baseline moves; otherwise the displacement (Δcount·πd/gain) is added, velocity is 500 × the buffer mean and pos goes through the topology |
| HostSerial.SerialInterface.Smooth | ClientSide/treadmillio/serialinterface.py:340-344 | stores the displacement in the ring and returns the mean of the ring holding every displacement so far, wrapped after slot 49 |
| HostSerial.SerialInterface.ReceiveFrame | ClientSide/treadmillio/serialinterface.py:147-162 | consumes L bytes; a short read or a wrong start byte raises AssertionError; fields are stored as parsed; on version 2 the GPIO state is merged under OutputPinMask and latency grows by one iff the word differs from it |
| HostSerial.SerialInterface.ReadData | ClientSide/treadmillio/serialinterface.py:147-196 | without an open port read_data raises AttributeError and reads nothing, and with fewer than L bytes waiting it consumes them all and fails the length assertion, with the GPIO state and the tracking untouched; otherwise it consumes exactly L bytes and parses them, and whatever the start character it stores the frame's MasterTime, Encoder and GPIO word (and, in version 2, the AUX word) for update_pulses and read_pin: a wrong start character raises AssertionError with the GPIO state and the tracking untouched; with the right one, version 2 merges the input bits of the GPIO word into the tracked state and counts a latency event exactly when the GPIO word differs from it, version 1 changes neither, and the position, velocity and encoder tracking take the step TrackStep describes, whose outcome is the call's; a returned frame is that parse, and its unwrapped count becomes the tracked one; without a maze it always raises |
| HostSerial.SerialInterface.Move | ClientSide/treadmillio/serialinterface.py:167-180 | the movement branch of read_data takes exactly the step TrackStep describes for a tracked, unblocked frame |
| HostSerial.MeanSign | ClientSide/treadmillio/serialinterface.py:344 | the buffer mean is non-negative when every stored displacement is, and non-positive when every one is |
| HostSerial.RegistryInsert | ClientSide/treadmillio/serialinterface.py:303 | assigning a name in the GPIO dict keeps its insertion order listing each name once: a new name goes last, an existing one keeps its place |
| LegacySerial.UnsignedByte | ClientSide/SerialInterface.py:88-101 | `bytes({n})` is the one byte n for n in 0..255 and raises ValueError otherwise |
| LegacySerial.LegacyConfigureSpec | ClientSide/SerialInterface.py:81-91 | configure_pin raises ValueError for a pin outside 0..255 (before the mode is checked), otherwise AssertionError for a mode that is not exactly a PinModes key (no case folding), and otherwise sends magic, 'C'/'X' (nothing for another type), pin and mode number |
| LegacySerial.LegacyWriteSpec | ClientSide/SerialInterface.py:93-103 | write_pin succeeds exactly for pin and value in 0..255 (ValueError otherwise) and sends magic, 'D'/'A', pin and value |
| LegacySerial.LegacyAgreesOnSmallNumbers | ClientSide/SerialInterface.py:81-103 | for pins and values in 0..127 and an upper-case mode the old and the new interface send identical commands |
| LegacySerial.LegacyDiffersOnNumbers | ClientSide/SerialInterface.py:100-101 | pin 200 is accepted by the old interface but overflows the new one's signed byte; pin -1 is refused by the old one and accepted by the new |
| LegacySerial.LegacyDiffersOnCase | ClientSide/SerialInterface.py:89 | the lower-case mode "input" fails the old interface's assertion but is accepted by the new one |
| LegacySerial.LegacyInterface.constructor | ClientSide/SerialInterface.py:6-16 | a freshly opened port has read nothing, written nothing and has no frame format yet |
| LegacySerial.LegacyInterface.Read | ClientSide/SerialInterface.py:28-54 | a read consumes exactly the bytes it returns, at most n, from the front of the pending input |
| LegacySerial.LegacyInterface.Synchronize | ClientSide/SerialInterface.py:21-50 | the constructor's synchronisation fixes MessageLen and startChar and leaves the input and the result exactly as SyncStream says: same smallest-offset search, AssertionError past offset L-1 |
| LegacySerial.LegacyInterface.ReadData | ClientSide/SerialInterface.py:53-65 | read_data consumes up to L bytes and returns their parse exactly when L bytes arrived and the first is the start character, AssertionError otherwise |
| LegacySerial.LegacyInterface.SendByte | ClientSide/SerialInterface.py:68-70 | None writes nothing; other data is written unchanged |
| LegacySerial.LegacyInterface.ConfigurePin | ClientSide/SerialInterface.py:81-91 | the configure command is written whole, or nothing is written and the exception is raised |
| LegacySerial.LegacyInterface.WritePin | ClientSide/SerialInterface.py:93-103 | the write command is written whole, or nothing is written and ValueError is raised; no GPIO state is tracked |
| LegacySerial.LegacyReadsFrameAfterSync | ClientSide/SerialInterface.py:21-65 | after synchronising on a stream whose frames start at o, the next read_data returns the first whole frame sent after the block |
| LegacySerial.LegacyConfigureCommand | ClientSide/SerialInterface.py:81-91 | the older `configure_pin` fails only with ValueError (`bytes({pin})` outside 0..255) or AssertionError (an unknown direction, matched without upper-casing); its bytes start with the magic byte and end with the pin and the mode number of a known direction |
| LegacySerial.LegacyWriteCommand | ClientSide/SerialInterface.py:93-103 | the older `write_pin` fails only with ValueError (pin or value outside 0..255); its bytes start with the magic byte and end with the pin and the value |
| FirmwareFrame.FrameBytes | Firmware/MSP430Firmware/main.c:63-110 | a packed frame is 14 bytes: 'E' first, its own size 14 second and '\n' last |
| FirmwareFrame.HostParsesFrame | Firmware/MSP430Firmware/main.c:63-67 | the host's `<cBLhlBx` parse of a board frame gives start 'E', size 14, time MasterClockHigh·65536 + TA0R, and EncoderTicks, UnwrappedEncoder and P3IN unchanged |
| FirmwareFrame.EndCharIgnored | Firmware/MSP430Firmware/main.c:109 | byte 13 (the end character) does not affect the host's parse, so it never reaches callers |
| FirmwareFrame.Board.constructor | Firmware/MSP430Firmware/main.c:37-40 | the globals start zeroed: clock high half, counters, P3OUT, the GPIO latch, and an all-zero frame buffer |
| FirmwareFrame.Board.Setup | Firmware/MSP430Firmware/main.c:107-114 | `main` writes the start character, the end character and the length, drives port 3 low, and leaves the data bytes 2-12 alone |
| FirmwareFrame.Board.SendData | Firmware/MSP430Firmware/main.c:43-74 | the buffer then holds exactly FrameBytes of TA0R, the clock's high half, both counters and P3IN, and exactly that frame is sent |
| FirmwareFrame.Board.LoopOnce | Firmware/MSP430Firmware/main.c:121-132 | a pending NewGPIO byte reaches P3OUT, the flag is cleared, and exactly one frame is sent |
| FirmwareFrame.Board.RunLoop | Firmware/MSP430Firmware/main.c:121-132 | over n passes with no new byte from the host, a pending byte reaches P3OUT at most once and exactly one frame leaves per pass, in order |
| Quadrature.IsrClearsFlags | Firmware/MSP430Firmware/quadrature.c:130-165 | after a call the A and Z flags are clear and no other flag changes; a handled A event leaves the A interrupt re-enabled and no other enable bit changes |
| Quadrature.IsrEdgeSelect | Firmware/MSP430Firmware/quadrature.c:133-158 | after an A event the PIES A bit is set exactly when the rising-edge branch saw A high, and the falling-edge branch always clears it; nothing else in PIES changes |
| Quadrature.IsrCounts | Firmware/MSP430Firmware/quadrature.c:130-166 | each call changes UnwrappedEncoder by -1, 0 or +1 (with int32 wrap-around) and, without a Z flag, EncoderTicks by the same step (int16 wrap-around); a Z flag zeroes EncoderTicks |
| Quadrature.IsrStepExact | Firmware/MSP430Firmware/quadrature.c:135-155 | away from the ends of their ranges both counters move by exactly the same step in {-1, 0, 1} |
| Quadrature.NoAEvent | Firmware/MSP430Firmware/quadrature.c:130-166 | with the A flag clear UnwrappedEncoder, PIES and PIE are unchanged and EncoderTicks changes only through the Z branch (to 0) |
| Quadrature.FullCycle | Firmware/MSP430Firmware/quadrature.c:133-158 | a forward cycle (A rising with B low, A falling with B high) counts +2 on both counters and ends waiting for a rising edge; the reverse cycle counts -2 |
| Quadrature.Encoder.HandleInterrupt | Firmware/MSP430Firmware/quadrature.c:21 | one call of QuadratureISR takes the registers and counters to Isr of their old values (see also lines 130-166 of the same file) |
| Quadrature.Encoder.HandleA | Firmware/MSP430Firmware/quadrature.c:130-161 | the A-channel block takes the registers and counters to IsrA of their old values |
| Quadrature.Encoder.HandleZ | Firmware/MSP430Firmware/quadrature.c:163-166 | the index block zeroes EncoderTicks and clears the Z flag when it is pending, and changes nothing otherwise |
| Quadrature.EdgeCount | Firmware/MSP430Firmware/quadrature.c:133-156 | an A interrupt counts -1, 0 or +1; it counts exactly when the A level matches the edge being waited for (high on a rising edge, low on a falling one), and then counts +1 exactly when A and B differ |
| Quadrature.NextEdge | Firmware/MSP430Firmware/quadrature.c:133-158 | only the A bit of PIES changes; it ends set exactly when the rising-edge branch saw A high |
| Quadrature.IsrA | Firmware/MSP430Firmware/quadrature.c:130-161 | without the A flag nothing changes; the A flag is cleared and no other flag changes; with it, the A interrupt ends enabled, no other enable bit changes, and both counters move by the edge count with their int16 and int32 wrap-around |
| Quadrature.IsrZ | Firmware/MSP430Firmware/quadrature.c:163-166 | the Z flag is cleared and no other flag changes; EncoderTicks becomes 0 exactly when the Z flag was set; UnwrappedEncoder, PIE and PIES are unchanged |
| Quadrature.Isr | Firmware/MSP430Firmware/quadrature.c:21-22 | one interrupt moves UnwrappedEncoder by the step of the A edge, modulo 2^32, and without a Z flag moves EncoderTicks by the same step, modulo 2^16 (see also lines 130-167 of the same file) |
| TeensyGpio.Target | Hardware/Firmware/Firmware/GPIO.cpp:15-33 | a host pin number selects a Teensy pin exactly when 0 < pin ≤ MAX, and then it is table entry pin-1 (pins are 1-indexed) |
| TeensyGpio.InputSweep | Hardware/Firmware/Firmware/GPIO.cpp:46-52 | the sweep over pins 1..n makes exactly n pinMode(…, INPUT) calls, on table entries 0..n-1 in order |
| TeensyGpio.PinTablesDistinct | Hardware/Firmware/Firmware/GPIO.cpp:4-11 | the DIO, AUX and LED pin numbers are pairwise distinct, so a command for one host pin never touches another (the pin constants come from Firmware/Firmware 2.0/Firmware/Firmware.h lines 10-45) |
| TeensyGpio.TargetInjective | Hardware/Firmware/Firmware/GPIO.cpp:15-33 | with a table of distinct entries, two accepted host pins select the same Teensy pin only if they are equal |
| TeensyGpio.PinLayer.constructor | Hardware/Firmware/Firmware/GPIO.cpp:6-12 | the two 12-entry tables and the bank sizes are as given (at most 12, so every accepted index is inside its table), and no call has been made yet |
| TeensyGpio.PinLayer.ConfigDio | Hardware/Firmware/Firmware/GPIO.cpp:15-18 | one pinMode call on the table entry for an accepted DIO pin, and nothing at all otherwise |
| TeensyGpio.PinLayer.WriteDio | Hardware/Firmware/Firmware/GPIO.cpp:20-23 | one digitalWrite call on the table entry for an accepted DIO pin, and nothing at all otherwise |
| TeensyGpio.PinLayer.ConfigAux | Hardware/Firmware/Firmware/GPIO.cpp:25-28 | the same guard with MAX_AUX and the AUX table, for pinMode |
| TeensyGpio.PinLayer.WriteAux | Hardware/Firmware/Firmware/GPIO.cpp:30-33 | the same guard with MAX_AUX and the AUX table, for digitalWrite |
| TeensyGpio.PinLayer.InitGpio | Hardware/Firmware/Firmware/GPIO.cpp:36-53 | the four LEDs become outputs driven low, then every DIO pin 1..MAX_DIO and every AUX pin 1..MAX_AUX becomes an INPUT, in that order |
| TeensyGpio.PinLayer.InitLeds | Hardware/Firmware/Firmware/GPIO.cpp:37-44 | each LED becomes an output, then each is driven low |
| TeensyGpio.PinLayer.SweepDio | Hardware/Firmware/Firmware/GPIO.cpp:46-48 | the DIO loop configures pins 1..MAX_DIO as inputs, in order |
| TeensyGpio.PinLayer.SweepAux | Hardware/Firmware/Firmware/GPIO.cpp:50-52 | the AUX loop configures pins 1..MAX_AUX as inputs, in order |
| SerialSimulator.FoldSpec | src/treadmillio/serialinterfacesimulator.py:50-54 | folding changes a step by a whole number of 4096 periods, leaves steps in [-2048, 2048] alone, and brings steps within ±6144 into [-2048, 2048] |
| SerialSimulator.FoldedStepBounds | src/treadmillio/serialinterfacesimulator.py:50-55 | between two samples of a 12-bit count in [0, 4096) the folded step lies in [-2048, 2048] and differs from the raw step by whole periods |
| SerialSimulator.SplitSpec | src/treadmillio/serialinterfacesimulator.py:75-79 | the two list comprehensions split the callbacks: pending exactly when MasterTime < off time, due exactly when it is ≥, and together they hold every callback once |
| SerialSimulator.PendingKeepsOrder | src/treadmillio/serialinterfacesimulator.py:79 | filtering keeps order: the pending part of a concatenation is the concatenation of the pending parts |
| SerialSimulator.Zeros | src/treadmillio/serialinterfacesimulator.py:78-88 | `bytes(n)` for an integer n is n zero bytes, not the byte n |
| SerialSimulator.ResetData | src/treadmillio/serialinterfacesimulator.py:74-78 | the reset data, when built, is non-empty and starts with a zero byte; a failure is ValueError |
| SerialSimulator.ResetDataSpec | src/treadmillio/serialinterfacesimulator.py:74-80 | the reset data is built exactly when no due pin is negative; it is then 2^p zero bytes for the last due pin p, so send_byte accepts it exactly when p is 0 |
| SerialSimulator.PulseByteIsOne | src/treadmillio/serialinterfacesimulator.py:88 | `state \| (1 << pin)` equals 1 exactly for pin 0 on a state of 0 or 1 |
| SerialSimulator.GpioPulseNeedsPinZero | src/treadmillio/serialinterfacesimulator.py:88-90 | gpio_pulse's send succeeds only for pin 0 while the GPIO byte is 0 or 1, and it then stores the byte 0, because `bytes(n)` builds n zero bytes |
| SerialSimulator.ReportedGpioIsOr | src/treadmillio/serialinterfacesimulator.py:58-59 | the reported GPIO of two bytes fits a byte and has a 1-bit exactly where the recorded sample or the host's byte has one |
| SerialSimulator.Simulator.constructor | src/treadmillio/serialinterfacesimulator.py:10-34 | Encoder and UnwrappedEncoder start at the first recorded sample (so their difference is a multiple of 4096), time 0, GPIO byte 0 and no callbacks |
| SerialSimulator.Simulator.SendByte | src/treadmillio/serialinterfacesimulator.py:37-42 | None is ignored, a length-1 byte string becomes the GPIO state, and anything else raises ValueError with the state unchanged |
| SerialSimulator.Simulator.ReadData | src/treadmillio/serialinterfacesimulator.py:45-82 | MasterTime advances by exactly 2; the encoder takes the next recorded sample and the unwrapped count moves by the folded step (keeping it a multiple of 4096 from the wrapped one); the frame has the one-byte flag b'E', size 14 and, as a one-byte bytes object, GPIO = sample OR host byte; due callbacks are removed, the rest keep their order, and the reset send raises unless the last due pin is 0 |
| SerialSimulator.Simulator.GpioPulse | src/treadmillio/serialinterfacesimulator.py:85-91 | a negative pin raises ValueError; otherwise the send of `bytes(state \| 1<<pin)` succeeds only when that value is 1, and then (MasterTime + duration, pin) is appended to the callbacks; a failed send appends nothing |
| SerialSimulator.BuildResetData | src/treadmillio/serialinterfacesimulator.py:76-78 | the loop over the due callbacks computes exactly ResetData |
| SerialSimulator.Fold | src/treadmillio/serialinterfacesimulator.py:51-54 | the wrap correction adds or subtracts at most one 4096 period, and leaves a step unchanged exactly when it lies in [-2048, 2048] |
| SerialSimulator.MaskedGpio | src/treadmillio/serialinterfacesimulator.py:59 | the GPIO byte of a frame has a 1-bit exactly where the sampled GPIO data or the tracked pin state has one |
| SerialSimulator.Pending | src/treadmillio/serialinterfacesimulator.py:79 | the callbacks kept are exactly those of the list whose off time is still after the master time, and there are no more of them than before |
| RewardZone.DegenerateZoneCoversTrack | src/treadmillio/rewardzone.py:5-9 | a zone whose start equals its end takes the wrap branch and contains every position |
| RewardZone.WrapZoneIsComplement | src/treadmillio/rewardzone.py:8-9 | a wrapping zone (end < start) contains exactly the positions outside the open gap (end, start) |
| RewardZone.InitialState | src/treadmillio/rewardzone.py:70-110 | a new zone has paid nothing, is armed, waits for entry and has a DebounceLength-slot lick history |
| RewardZone.RecordLick | src/treadmillio/rewardzone.py:122-123 | recording a lick keeps the buffer length and keeps the index inside it |
| RewardZone.ClassicalRewardRule | src/treadmillio/rewardzone.py:76-88 | a Classical zone pays exactly when pos is in the active zone, time > last + LickTimeout and count < MaxSequentialRewards; paying pulses the pin until time+PumpRunTime, records the time, counts the reward and disarms the zone once the count reaches the limit |
| RewardZone.OperantRewardRule | src/treadmillio/rewardzone.py:119-152 | with a logger, an Operant zone inside its active zone does not raise, and it pulses exactly when the refractory period has passed, the zone is armed, and the debounced lick (including this tick's) or the random assist drawn on entry is there |
| RewardZone.OperantRecordsLick | src/treadmillio/rewardzone.py:121-123 | bit lick_pin-1 of this tick's GPIO is written into slot idx, and idx advances modulo the buffer length |
| RewardZone.ClassicalLimit | src/treadmillio/rewardzone.py:79-93 | a zone that has paid its limit pays nothing more; its count can only drop to 0, outside the active zone |
| RewardZone.ReArmOnlyInResetZone | src/treadmillio/rewardzone.py:90-93 | a count that drops drops to 0, and only in the reset zone while outside the active zone; an Operant zone waits for a new entry again only after visiting the reset zone (see also lines 155-160 of the same file) |
| RewardZone.MissingResetZoneRaises | src/treadmillio/rewardzone.py:62-63 | a zone configured without a reset zone raises AttributeError on every tick outside its active zone, since `reset_zone` was never assigned (see also lines 90, 155 of the same file) |
| RewardZone.OperantEntryNeedsLogger | src/treadmillio/rewardzone.py:134 | without a logger, entering an Operant zone raises TypeError, and the zone is still waiting for entry |
| RewardZone.StepKeepsLimit | src/treadmillio/rewardzone.py:79-83 | every update keeps 0 ≤ count ≤ MaxSequentialRewards and keeps a disarmed zone at its limit (see also lines 141-144 of the same file) |
| RewardZone.InitialWithinLimit | src/treadmillio/rewardzone.py:70-72 | a fresh zone satisfies that limit invariant |
| RewardZone.Recent | src/treadmillio/rewardzone.py:107 | the window of recent lick samples always has DebounceLength entries |
| RewardZone.RotationStep | src/treadmillio/rewardzone.py:122-123 | writing slot idx and advancing it rotates in exactly one new sample |
| RewardZone.RotationAllLicked | src/treadmillio/rewardzone.py:124 | the buffer has a lick in every slot exactly when the samples it holds are all licks |
| RewardZone.RecentAllLicked | src/treadmillio/rewardzone.py:107-124 | the window is all licks exactly when DebounceLength samples have arrived and the last DebounceLength were licks |
| RewardZone.Replay | src/treadmillio/rewardzone.py:107-123 | after any samples the buffer has DebounceLength slots and its index is inside it |
| RewardZone.ReplayRotation | src/treadmillio/rewardzone.py:122-123 | after any samples the buffer is the rotation of the last DebounceLength of them, zero-padded |
| RewardZone.DebouncedIsRecentLicks | src/treadmillio/rewardzone.py:121-124 | the debounced lick is true exactly when the last DebounceLength samples were all licks |
| RewardZone.OperantStepReplays | src/treadmillio/rewardzone.py:121-123 | the zone's own update writes its lick buffer exactly as Replay does |
| RewardZone.DrawOnEntryOnly | src/treadmillio/rewardzone.py:129-135 | one update draws at most one random number, only on entry while waiting, never with RandomAssist unset or 0.0, and (given a logger) the entry clears the waiting flag |
| RewardZone.OneDrawPerEntry | src/treadmillio/rewardzone.py:129-157 | while the animal stays in the active zone the random assist is drawn at most once, however many ticks pass, and not at all once entry was seen |
| RewardZone.BuildZoneSpec | src/treadmillio/rewardzone.py:19-20 | construction succeeds exactly for a known type, an Output dispense pin, a reward sound only with a sound controller, both or neither reset bounds and, for Operant, a known lick pin and a RandomAssist in [0, 1]; defaults LickTimeout 0 and MaxSequentialRewards 1; the sound is kept only if it is a known beep; an unknown type raises NotImplementedError and the rest ValueError (see also lines 41-42, 48-50, 58-60, 65-66, 102-103, 112-114 of the same file) |
| RewardZone.BuildZones | src/treadmillio/rewardzone.py:18-28 | on success there is one zone per RewardZoneList entry, in order, each built from its entry |
| RewardZone.Zone.constructor | src/treadmillio/rewardzone.py:39-117 | a new zone object holds its configuration and the initial state |
| RewardZone.Zone.Update | src/treadmillio/rewardzone.py:76-93 | one update leaves the state, events and exception that Step specifies for the zone's kind (see also lines 119-160 of the same file) |
| RewardZone.Zone.RewardNow | src/treadmillio/rewardzone.py:80-88 | a reward records the time, counts one more, disarms the zone at the limit, and pulses the pin (plus the beep when configured) (see also lines 141-149 of the same file) |
| RewardZone.Zone.UpdateClassical | src/treadmillio/rewardzone.py:76-93 | `ClassicalRewardZone.update` reaches exactly ClassicalStep's state and events |
| RewardZone.Zone.UpdateOperant | src/treadmillio/rewardzone.py:119-160 | `OperantRewardZone.update` reaches exactly OperantStep's state and events |
| RewardZone.Zone.UpdateInZone | src/treadmillio/rewardzone.py:126-152 | the active-zone branch reaches exactly OperantInZone's state and events |
| RewardZone.Zone.UpdateOutside | src/treadmillio/rewardzone.py:155-160 | the outside branch reaches exactly OperantOutside's state and events |
| RewardZone.Zone.AllLickedNow | src/treadmillio/rewardzone.py:124 | the scan finds the product of the lick buffer non-zero exactly when every slot holds a lick |
| RewardZone.UpdatePrefix | src/treadmillio/rewardzone.py:30-35 | a pass of update_reward_zones over the first k zones keeps one state per zone; the first exception stops the pass (ApplyEffectsStops) |
| RewardZone.Effects | src/treadmillio/rewardzone.py:30-35 | each zone's own update on this tick, one per zone, from the state it had before the pass; EffectsAgree and ZonesIndependent state that zones do not influence each other |
| RewardZone.ApplyEffects | src/treadmillio/rewardzone.py:30-35 | applying the zones' effects in order keeps one state per zone; ApplyEffectsStops and ApplyEffectsUntouched state where it stops and what it leaves alone |
| RewardZone.EffectsAgree | src/treadmillio/rewardzone.py:30-35 | zone k's update depends on zone k's own state alone |
| RewardZone.ZonesIndependent | src/treadmillio/rewardzone.py:30-35 | the sequential pass equals applying every zone's own update to its state at the start of the pass; zones not yet reached keep their state |
| RewardZone.ApplyEffectsStops | src/treadmillio/rewardzone.py:30-35 | after an exception the rest of the pass is skipped |
| RewardZone.ApplyEffectsUntouched | src/treadmillio/rewardzone.py:30-35 | zones the pass has not reached keep their states |
| RewardZone.Controller.constructor | src/treadmillio/rewardzone.py:15-28 | the controller holds one fresh zone per configuration, each in its initial state |
| RewardZone.Controller.UpdateZone | src/treadmillio/rewardzone.py:31-35 | updating zone k changes only zone k's state, to its own update's result |
| RewardZone.Controller.UpdateAll | src/treadmillio/rewardzone.py:30-35 | `update_reward_zones` updates every zone in order, stopping at the first exception, exactly as UpdatePrefix says |
| RewardZone.Inside | src/treadmillio/rewardzone.py:5-9 | both ends of a zone are inside it, and a zone that does not wrap (start < end) holds only the positions between its ends, ends included |
| RewardZone.ClassicalStep | src/treadmillio/rewardzone.py:76-93 | the update raises AttributeError (the reset zone attribute was never set) exactly when the position is outside the active zone and no reset zone was configured, and then changes nothing and emits nothing; the lick buffer, its index, the entry flag and the draws are untouched; the last reward time either stays or becomes `time`, and only after the refractory period |
| RewardZone.OperantInZone | src/treadmillio/rewardzone.py:126-152 | inside the active zone the missing logger raises TypeError exactly on zone entry, emitting nothing and leaving the zone awaiting entry; otherwise the zone no longer awaits entry; one number is drawn exactly on entry with RandomAssist set; the lick buffer is untouched; a reward time is recorded only when the zone is armed and the refractory period has passed |
| RewardZone.OperantOutside | src/treadmillio/rewardzone.py:155-160 | outside the active zone nothing is emitted; AttributeError is raised exactly when no reset zone was configured, and changes nothing; the reward time, the lick buffer and the draws never change; the state changes only inside the reset zone, where the zone is armed again and awaits a new entry |
| RewardZone.OperantStep | src/treadmillio/rewardzone.py:119-160 | a LickPin below 1 makes the bit shift raise ValueError, and with a valid pin an empty lick buffer (DebounceLength 0) raises IndexError, both before anything changes or is emitted; otherwise the buffer keeps its length and the index stays inside it; the reward time moves only to `time` once the refractory period has passed |
| RewardZone.Step | src/treadmillio/rewardzone.py:30-35 | one tick of either kind of zone: the reward time moves only to `time`, once the refractory period has passed, and then the reward count grows by one; every pulse emitted drives DispensePin until `time + PumpRunTime`, and only on a tick that paid (see also lines 76-93, 119-160 of the same file) |
| RewardZone.BuildZone | src/treadmillio/rewardzone.py:14-28 | a built zone keeps DispensePin, the active zone and PumpRunTime; it is Classical exactly when Type is 'Classical'; it has a reset zone only when both reset keys were given, and the zone spans them; an Operant zone's LickPin is a configured GPIO whose Number it takes, its DebounceLength defaults to 1 and it keeps RandomAssist (see also lines 39-73, 98-117 of the same file) |
| LegacyRewardZone.LegacyClassicalRule | ClientSide/treadmillio/rewardzone.py:75-87 | an older Classical zone pays exactly when the animal is inside it, time > last + LickTimeout and the count is below MaxSequentialRewards; a reward pulses the pin until time+PumpRunTime, records the time and counts one more |
| LegacyRewardZone.LegacyOperantRule | ClientSide/treadmillio/rewardzone.py:105-117 | an older Operant zone pays exactly when a Classical one would and the lick pin's bit is set in this tick's GPIO byte, with no debouncing |
| LegacyRewardZone.ResetOnlySetsActive | ClientSide/treadmillio/rewardzone.py:80-121 | the count never decreases and grows by at most one per update; outside the active zone only `active` may change, so the reset zone never re-arms the count |
| LegacyRewardZone.ActiveIsIgnored | ClientSide/treadmillio/rewardzone.py:72-108 | `active` is written but never read: zones differing only in it pay, count and raise alike |
| LegacyRewardZone.Pulses | ClientSide/treadmillio/rewardzone.py:84-114 | the dispense pulses are drawn from the events |
| LegacyRewardZone.LegacyPulsesCounted | ClientSide/treadmillio/rewardzone.py:80-114 | each update pulses the dispense pin exactly as many times as it adds to the count |
| LegacyRewardZone.LifetimeLimit | ClientSide/treadmillio/rewardzone.py:70-110 | over any run of updates a zone pays at most MaxSequentialRewards minus its starting count, however often the animal visits the reset zone |
| LegacyRewardZone.BuildLegacyZoneSpec | ClientSide/treadmillio/rewardzone.py:18-19 | construction succeeds exactly for a known type, an Output dispense pin, a reward sound only with a sound controller, a reset zone given whole, LickTimeout and MaxSequentialRewards both present and, for Operant, a known lick pin; the two values are taken as given; a KeyError means one of them was missing (see also lines 40-41, 47-49, 57-59, 64-65, 98-99 of the same file) |
| LegacyRewardZone.VersionsDisagree | ClientSide/treadmillio/rewardzone.py:64-65 | an entry without LickTimeout fails here with KeyError yet builds in the newer version, while an entry with both values builds in both |
| LegacyRewardZone.LegacyZone.constructor | ClientSide/treadmillio/rewardzone.py:38-72 | a new zone holds its configuration with count 0, last time 0 and `active` set |
| LegacyRewardZone.LegacyZone.Pay | ClientSide/treadmillio/rewardzone.py:79-87 | a reward records the time, counts one more, clears `active` at the limit and emits the pulse and the beep |
| LegacyRewardZone.LegacyZone.Outside | ClientSide/treadmillio/rewardzone.py:89-91 | outside the active zone the reset zone sets `active`; a zone without one raises AttributeError |
| LegacyRewardZone.LegacyZone.UpdateClassical | ClientSide/treadmillio/rewardzone.py:75-91 | the older Classical update reaches exactly LegacyClassicalStep's state, events and exception |
| LegacyRewardZone.LegacyZone.UpdateOperant | ClientSide/treadmillio/rewardzone.py:105-121 | the older Operant update reaches exactly LegacyOperantStep's state, events and exception |
| LegacyRewardZone.LegacyController.constructor | ClientSide/treadmillio/rewardzone.py:14-27 | the controller holds one fresh zone per configuration, in order, each in the initial state |
| LegacyRewardZone.LegacyController.UpdateAll | ClientSide/treadmillio/rewardzone.py:29-34 | the pass updates each zone in order and stops at the first exception, exactly as LegacyPass says |
| LegacyRewardZone.LegacyController.UpdateZone | ClientSide/treadmillio/rewardzone.py:30-34 | a zone's turn reads `reward.Type` (AttributeError for a Classical zone) and otherwise runs the Operant update; only that zone's state changes |
| LegacyRewardZone.LegacyPass | ClientSide/treadmillio/rewardzone.py:29-34 | a pass of update_reward_zones keeps one state per zone; LegacyPassStops states that a raising zone ends the pass |
| LegacyRewardZone.LegacyPassStops | ClientSide/treadmillio/rewardzone.py:29-34 | once a zone raises, the rest of the pass changes nothing |
| LegacyRewardZone.ClassicalZoneStopsPass | ClientSide/treadmillio/rewardzone.py:31-34 | a pass finishes without an exception only if every zone is Operant; the first Classical zone raises AttributeError and it and every later zone keep their states (see also lines 54, 103 of the same file) |
| LegacyRewardZone.LegacyPassUntouched | ClientSide/treadmillio/rewardzone.py:29-34 | zones the pass has not reached keep their states, and so does the zone that raised |
| LegacyRewardZone.LegacyOutside | ClientSide/treadmillio/rewardzone.py:89-121 | outside the active zone nothing is emitted and the count and last reward time never change; AttributeError is raised exactly when no reset zone was configured; otherwise the zone is armed afterwards exactly when it was armed before or the position is in the reset zone |
| LegacyRewardZone.LegacyClassicalStep | ClientSide/treadmillio/rewardzone.py:75-91 | AttributeError is raised exactly when the position is outside the active zone and no reset zone was configured; the reward count either stays or grows by one, and only below MaxSequentialRewards, after the refractory period, with the reward time set to `time` |
| LegacyRewardZone.LegacyOperantStep | ClientSide/treadmillio/rewardzone.py:105-121 | a LickPin below 1 raises ValueError from the shift exactly when the lick test is reached (inside the zone, past the refractory period, below the limit); AttributeError exactly outside the zone without a reset zone; the count grows by at most one, under the same rule as the Classical zone; a pulse is emitted only when the lick bit LickPin-1 of the GPIO word is set |
| LegacyRewardZone.LegacyStep | ClientSide/treadmillio/rewardzone.py:75-121 | one update of either kind: the count grows by at most one, only below the limit and after the refractory period, with the reward time set to `time`; an emitted event is first the pulse of DispensePin until `time + PumpRunTime`, and comes with a reward counted |
| LegacyRewardZone.LegacyDispatch | ClientSide/treadmillio/rewardzone.py:29-54 | `update_reward_zones` reads `Type`, which a Classical zone never sets (it sets `type`): every Classical zone raises AttributeError with nothing changed and nothing emitted, and only an Operant zone can pay, counting one reward at `time` |
| LegacyRewardZone.BuildLegacyZone | ClientSide/treadmillio/rewardzone.py:13-27 | a built zone keeps DispensePin, the active zone and PumpRunTime; it is Classical exactly when Type is 'Classical'; an Operant zone's LickPin is a configured GPIO whose Number it takes; a Classical zone is built exactly as the newer controller builds it, with the same LickTimeout, MaxSequentialRewards, reward sound and reset zone (see also lines 38-72, 94-103 of the same file) |
| TaskStates.Rint | ClientSide/treadmillio/taskstatemachine.py:25 | rounding lands within one half of the value |
| TaskStates.RintBetween | ClientSide/treadmillio/taskstatemachine.py:25 | rounding a value between two integers stays between them |
| TaskStates.RintOfInt | ClientSide/treadmillio/taskstatemachine.py:25 | rounding an integer gives it back |
| TaskStates.Cap | ClientSide/treadmillio/taskstatemachine.py:24 | a capped value is at most Max and is either the value or Max |
| TaskStates.ExponentialDelays | ClientSide/treadmillio/taskstatemachine.py:22-25 | one delay per exponential sample, each the sample shifted by Min, capped at Max and rounded; DelaysInRange bounds them by [Min, Max] |
| TaskStates.DelaysInRange | ClientSide/treadmillio/taskstatemachine.py:22-25 | for integer Min <= Max and non-negative samples every delay lies in [Min, Max]; a zero sample gives Min and a sample past Max - Min gives Max |
| TaskStates.DelayList | ClientSide/treadmillio/taskstatemachine.py:17-29 | the delay list exists exactly for an Exponential or Fixed Duration (NotImplementedError otherwise): [Value] for Fixed, the shifted, capped and rounded samples for Exponential |
| TaskStates.CycleStep | ClientSide/treadmillio/taskstatemachine.py:31-34 | advancing a cyclic position keeps it equal to the call count modulo the list length |
| TaskStates.DelayState.constructor | ClientSide/treadmillio/taskstatemachine.py:13-31 | a new Delay state holds its label, successor and delay list, and no delay has been drawn |
| TaskStates.DelayState.GetDelay | ClientSide/treadmillio/taskstatemachine.py:33-34 | the k-th call, counting from 0, returns delays[k mod len], cycling through the list |
| TaskStates.FixedDelayConstant | ClientSide/treadmillio/taskstatemachine.py:26-34 | a Fixed delay returns Value on every call |
| TaskStates.Normalize | ClientSide/treadmillio/taskstatemachine.py:53 | each probability is divided by the total |
| TaskStates.SumNormalize | ClientSide/treadmillio/taskstatemachine.py:48-53 | the normalised probabilities sum to the old sum over the total |
| TaskStates.HasNegative | ClientSide/treadmillio/taskstatemachine.py:54-55 | true exactly when some probability is negative, which the draw refuses |
| TaskStates.Probabilities | ClientSide/treadmillio/taskstatemachine.py:49-52 | the options' probabilities, in order |
| TaskStates.Commands | ClientSide/treadmillio/taskstatemachine.py:49-51 | the options' commands, in order |
| TaskStates.RandomVisualization | ClientSide/treadmillio/taskstatemachine.py:45-56 | a Random state that builds has a non-zero total, non-negative normalised probabilities summing to 1, and the options' commands in order |
| TaskStates.VisualizationState.constructor | ClientSide/treadmillio/taskstatemachine.py:38-56 | a new Visualization state holds its label, successor and configuration, and no index has been drawn |
| TaskStates.VisualizationState.GetVisualizationCommand | ClientSide/treadmillio/taskstatemachine.py:58-62 | a Fixed state returns Command every time; a Random state returns the command at the next pre-drawn index, cycling; any other VisType returns None |
| TaskStates.RewardDefaults | ClientSide/treadmillio/taskstatemachine.py:69-77 | a Reward state reports its DispensePin, its PumpRunTime or 250 ms when absent, and its RewardSound or None when absent |
| TaskStates.BuildStateKind | ClientSide/treadmillio/taskstatemachine.py:109-130 | a built state carries its name, its NextState and a body of its Type; an unknown Type raises NotImplementedError; a Reward state with a known dispense pin and sound disabled always builds |
| TaskStates.Built | ClientSide/treadmillio/taskstatemachine.py:105-130 | one build result per entry, each from that entry |
| TaskStates.MachinePrefixOk | ClientSide/treadmillio/taskstatemachine.py:105-130 | the loop over a prefix finishes exactly when every entry builds, and otherwise stops with the first failing entry's error |
| TaskStates.NamesSnoc | ClientSide/treadmillio/taskstatemachine.py:105 | one more entry adds its name |
| TaskStates.MachinePrefixKeys | ClientSide/treadmillio/taskstatemachine.py:105-126 | a prefix that builds maps exactly the names seen so far |
| TaskStates.MachinePrefixTable | ClientSide/treadmillio/taskstatemachine.py:105-126 | with distinct names, each name maps to the state built from its own entry |
| TaskStates.MachinePrefixFirst | ClientSide/treadmillio/taskstatemachine.py:106-107 | the FirstState candidate is the last flagged name, and none when no entry is flagged |
| TaskStates.StateMachineSpec | ClientSide/treadmillio/taskstatemachine.py:94-139 | `create_state_machine` succeeds exactly when the configuration is non-empty and every entry builds, and otherwise fails with some entry's error (IndexError when empty); on success every name maps to its own state and the first state is the last flagged entry, or the first entry when none is flagged |
| TaskStates.FillTable | ClientSide/treadmillio/taskstatemachine.py:105-130 | the loop reaches the table and candidate that MachinePrefix gives for the whole configuration; a finished table has exactly the configured state names as keys, and a failure is the error of building one of the configured states |
| TaskStates.CreateStateMachine | ClientSide/treadmillio/taskstatemachine.py:94-139 | the result is StateMachine's, and a SyntaxWarning is issued exactly when there are no GPIO names |
| TaskStates.MachineStops | ClientSide/treadmillio/taskstatemachine.py:105-130 | after a failure the rest of the configuration is not looked at |
| TaskStates.RewardValues | ClientSide/treadmillio/taskstatemachine.py:79-80 | the dispense pin, pulse length and reward sound returned are exactly the fields of the Reward state: together they rebuild its body |
| TaskStates.PinValue | ClientSide/treadmillio/taskstatemachine.py:90-91 | the pin and value returned rebuild the SetGPIO state's body |
| TaskStates.BuildVisualization | ClientSide/treadmillio/taskstatemachine.py:37-56 | a Fixed visualization always builds and keeps its Command; only a Random one can fail, with ValueError (no options to choose from) or ZeroDivisionError (probabilities summing to 0); a built Random one has one command per option, at least one, and keeps the drawn choices; the VisType is kept |
| TaskStates.BuildState | ClientSide/treadmillio/taskstatemachine.py:98-130 | a built SetGPIO state's pin and a built Reward state's DispensePin are registered GPIO names; with beeps configured a built Reward state has a RewardSound that is 'None' or a registered beep; KeyError arises only from a Reward state without RewardSound while beeps are configured |
| TaskStates.MachinePrefix | ClientSide/treadmillio/taskstatemachine.py:105-130 | the dict built from the first `k` states has at most `k` entries |
| TaskStates.StateMachine | ClientSide/treadmillio/taskstatemachine.py:94-139 | a state machine that builds comes from a non-empty config, and its first state is one of its states |
| SoundStimulus.Lower | ClientSide/treadmillio/soundstimulus.py:223 | lower-casing keeps the length and lowers each character |
| SoundStimulus.GainForValue | ClientSide/treadmillio/soundstimulus.py:219-233 | a value is understood exactly when it is an int, a float, or 'on', 'baseline' or 'off' in any case (ValueError otherwise); the words give the baseline or off gain and a number gives itself |
| SoundStimulus.GainIgnoresCase | ClientSide/treadmillio/soundstimulus.py:223-225 | strings differing only in letter case ask for the same gain |
| SoundStimulus.GainWordsExamples | ClientSide/treadmillio/soundstimulus.py:223-231 | 'ON' gives the baseline gain, 'Off' the off gain, and 'of' is a ValueError |
| SoundStimulus.SendsOnlyChanges | ClientSide/treadmillio/soundstimulus.py:289-292 | a run of gain changes never sends the same gain twice in a row, never sends the current gain first, and its last message is the last gain asked for |
| SoundStimulus.SendsNothing | ClientSide/treadmillio/soundstimulus.py:289-292 | nothing is sent exactly when every gain asked for is the current one |
| SoundStimulus.Sound.constructor | ClientSide/treadmillio/soundstimulus.py:258-284 | a new stimulus starts at the off gain, sends it at once, and has no viewer |
| SoundStimulus.Sound.ConnectViewer | ClientSide/treadmillio/soundstimulus.py:286-287 | the viewer is connected |
| SoundStimulus.Sound.ChangeGain | ClientSide/treadmillio/soundstimulus.py:289-296 | the gain becomes the requested one; a message goes to the playback process only when it changed; a connected viewer hears every call |
| SoundStimulus.Sound.UpdateStimulus | ClientSide/treadmillio/soundstimulus.py:219-233 | a value that is not understood raises ValueError and changes nothing; otherwise the stimulus changes to the gain GainForValue gives |
| SoundStimulus.BeepRun | ClientSide/treadmillio/soundstimulus.py:508-514 | the results of successive update calls at the given times, one per call; BeepOffOnce states which of them carry the off gain |
| SoundStimulus.BeepOffOnce | ClientSide/treadmillio/soundstimulus.py:508-514 | after play, update hands over the off gain exactly once, on the first call past the off time, and None on every other call |
| SoundStimulus.SecondBeepSilent | ClientSide/treadmillio/soundstimulus.py:499-513 | as written, a beep that played and was turned off by update sends nothing when played again, since the off gain was never recorded |
| SoundStimulus.RecordedBeepInStep | ClientSide/treadmillio/soundstimulus.py:501-513 | with the off gain recorded, the gain the playback process last heard always equals the recorded one: baseline while playing, off after the beep ends |
| SoundStimulus.BeepDuration | ClientSide/treadmillio/soundstimulus.py:491-494 | a beep is built exactly when Duration is given, and raises ValueError otherwise |
| SoundStimulus.Beep.constructor | ClientSide/treadmillio/soundstimulus.py:489-499 | a new beep is not playing, has off time -1, and ends at -90 dB after sending the off gain and then -90 dB if that differs |
| SoundStimulus.Beep.Play | ClientSide/treadmillio/soundstimulus.py:501-506 | play warns if already playing, sets the off time to now + Duration, asks for the baseline gain and plays |
| SoundStimulus.Beep.Update | ClientSide/treadmillio/soundstimulus.py:508-514 | update stops a playing beep past its off time and returns the off gain, leaving the recorded gain as it was |
| SoundStimulus.ParseBounds | ClientSide/treadmillio/soundstimulus.py:541-544 | a bounds policy is accepted exactly when missing (meaning Error) or one of Error, Soft, Wrap, Off; anything else is a ValueError |
| SoundStimulus.BundleBounds | ClientSide/treadmillio/soundstimulus.py:540-544 | the bundle is accepted exactly when both policies are |
| SoundStimulus.PyMod | ClientSide/treadmillio/soundstimulus.py:595 | Python's remainder has the sign of the divisor |
| SoundStimulus.NatToString | ClientSide/treadmillio/soundstimulus.py:548 | a number's decimal form has at least one digit, and two from 10 on |
| SoundStimulus.NatToStringInjective | ClientSide/treadmillio/soundstimulus.py:548 | different numbers have different decimal forms |
| SoundStimulus.GetSubname | ClientSide/treadmillio/soundstimulus.py:546-550 | a key exists exactly for indices in [0, Length), and is the name joined to the index by '-' |
| SoundStimulus.SubnamesDistinct | ClientSide/treadmillio/soundstimulus.py:546-550 | different sounds of a bundle get different keys |
| SoundStimulus.ChosenIndex | ClientSide/treadmillio/soundstimulus.py:570-599 | a non-int raises TypeError; a negative index goes to the low policy, one at or past Length to the high policy, and one inside is kept |
| SoundStimulus.BoundsPolicies | ClientSide/treadmillio/soundstimulus.py:590-599 | for an out-of-range index and Length >= 1, Soft clamps to the nearest end, Wrap lands inside the bundle, Off keeps the index (which selects no sound), and Error raises ValueError |
| SoundStimulus.Bundle.constructor | ClientSide/treadmillio/soundstimulus.py:528-544 | a new bundle starts at index 0 with its key and the two policies, at the off gain |
| SoundStimulus.Bundle.ChangeGain | ClientSide/treadmillio/soundstimulus.py:552-559 | like the common change_gain, but the message goes to the current sound's key |
| SoundStimulus.Bundle.UpdateStimulus | ClientSide/treadmillio/soundstimulus.py:219-233 | `update_stimulus` on a bundle: a value that is not understood raises ValueError and changes nothing; otherwise the bundle's change_gain gets the gain GainForValue gives, sent to the current sound's key |
| SoundStimulus.Bundle.ChooseSound | ClientSide/treadmillio/soundstimulus.py:570-588 | a rejected index changes nothing; otherwise the old sound goes to the off gain, the bundle moves to the chosen index and key, the new sound gets the gain the bundle had, and the gain ends where it started |
| SoundStimulus.LinearRingShape | ClientSide/treadmillio/soundstimulus.py:317-371 | on the ring the distance used is the shorter way round, at most half the track; beyond the half-width the gain is the off gain, and within it the gain falls linearly from the baseline at the center to CutoffGain at the edge |
| SoundStimulus.GainLawFor | ClientSide/treadmillio/soundstimulus.py:367-392 | a gain law exists exactly for Linear on a Ring or Line, or Natural on a Line; anything else raises ValueError |
| SoundStimulus.MultilapZone | ClientSide/treadmillio/soundstimulus.py:394-402 | an active zone is accepted exactly when it has two entries, starting at 0 or later with the end after the start; otherwise ValueError (see also lines 450-457 of the same file) |
| SoundStimulus.LocalizedSetup | ClientSide/treadmillio/soundstimulus.py:355-405 | a localized sound is built exactly when its gain law and optional active zone are; it keeps half the Width, the center and CutoffGain |
| SoundStimulus.PosGain | ClientSide/treadmillio/soundstimulus.py:317-350 | the natural law raises KeyError without SpeakerDistance, and ValueError (the logarithm of a non-positive number) within the cutoff when SpeakerDistance ≤ 0, and otherwise gives the off gain beyond the cutoff; a linear law raises ZeroDivisionError exactly when the Width is 0 and otherwise gives the linear ring or line gain (see also lines 369-387, 408 of the same file) |
| SoundStimulus.MultilapStepMoves | ClientSide/treadmillio/soundstimulus.py:410-420 | the latch only moves waiting, inside, past, one step at a time; once past it stays past with the off gain, and the sound's own gain is used only inside (see also lines 462-471 of the same file) |
| SoundStimulus.MultilapRun | ClientSide/treadmillio/soundstimulus.py:407-422 | the states and off-gain choices of successive pos_update_gain calls, one per call; MultilapRunMonotone states that the latch never moves back |
| SoundStimulus.MultilapRunMonotone | ClientSide/treadmillio/soundstimulus.py:407-422 | over any run the latch never moves back, and once past every later call gives the off gain (see also lines 461-473 of the same file) |
| SoundStimulus.Localized.constructor | ClientSide/treadmillio/soundstimulus.py:355-405 | a new localized sound holds its configuration, starts at the off gain and waits |
| SoundStimulus.Localized.PosUpdateGain | ClientSide/treadmillio/soundstimulus.py:407-422 | the position's gain (with PosGain's KeyError, ValueError and ZeroDivisionError), replaced by the off gain as the multilap latch decides when an active zone is set |
| SoundStimulus.MultilapBackground.constructor | ClientSide/treadmillio/soundstimulus.py:445-458 | a new multilap background sound holds its zone, starts at the off gain and waits |
| SoundStimulus.MultilapBackground.PosUpdateGain | ClientSide/treadmillio/soundstimulus.py:461-473 | the baseline gain inside the zone, the off gain before it and after it |
| SoundStimulus.SoundValid | ClientSide/treadmillio/soundstimulus.py:308-312 | a configuration is valid exactly when it has Device, and ValueError otherwise |
| SoundStimulus.LocalizedValid | ClientSide/treadmillio/soundstimulus.py:426-442 | a localized configuration is valid exactly when it has Device, CenterPosition and Modulation, and the Modulation has Width and CutoffGain; otherwise the error is ValueError |
| SoundStimulus.ValidWithKey | ClientSide/treadmillio/soundstimulus.py:477-484 | a Multilap or Beep configuration is valid exactly when it has Device and the class's own key (MultilapActiveZone, or Duration for beeps at lines 517-523); otherwise the error is ValueError |
| SoundStimulus.StimulusKind | ClientSide/treadmillio/soundstimulus.py:148-180 | an unknown Type raises ValueError; a Localized or MultilapBackground sound needs a non-zero track length (ValueError) and a MultilapBackground one a Ring (Warning); a Beep builds exactly with a Duration, a Bundle exactly with known bounds, and a Localized sound exactly when its setup does |
| SoundStimulus.Controller.constructor | ClientSide/treadmillio/soundstimulus.py:126-130 | a new controller has no stimuli, four empty groups and no messages sent |
| SoundStimulus.AddMessages | ClientSide/treadmillio/soundstimulus.py:148-180 | nothing is sent exactly when `add_stimulus` raises before building (unknown Type, no track length, MultilapBackground off a Ring); otherwise the first message is the new sound's off gain under its name, sent even when its constructor then raises; a Background or Bundle sound that builds ends on its baseline gain (a second message exactly when it differs from the off gain, under the bundle's first sub-name for a Bundle), a beep ends on -90 dB, and a Localized or MultilapBackground sound sends only the off gain |
| SoundStimulus.Controller.AddStimulus | ClientSide/treadmillio/soundstimulus.py:148-186 | the messages sent through the playback pipe are AddMessages', built by the stimulus classes' own constructors and change_gain, so a Background or Bundle sound is turned on even when its name is then refused; a stimulus that cannot be built raises its error and changes no registry; one that can is added to its group first, then refused with ValueError if its name is taken (the name keeps its first stimulus), or else registered under its name |
| SoundStimulus.Controller.GetStimulus | ClientSide/treadmillio/soundstimulus.py:188-193 | the stimulus of that name exactly when one exists, and KeyError otherwise |
| SoundStimulus.PlayStep | ClientSide/treadmillio/soundstimulus.py:501-506 | `play` sets the off time to now + Duration, records the baseline gain and marks the beep playing; the gain the playback process last heard is then the baseline gain, and a gain is sent exactly when the recorded gain was not already the baseline |
| SoundStimulus.UpdateStep | ClientSide/treadmillio/soundstimulus.py:508-514 | `update` hands over the off gain exactly when the beep is playing and its off time has passed, and then stops the beep; the recorded gain and the off time never change, so the off gain is not recorded; a call that hands nothing over changes nothing |
| SoundStimulus.UpdateStepRecorded | ClientSide/treadmillio/soundstimulus.py:508-514 | with the commented-out `change_gain` of line 512 in effect, the off gain is handed over under the same condition and is also recorded as the beep's gain; the off time never changes, and a call that hands nothing over changes nothing |
| SoundStimulus.HandleBounds | ClientSide/treadmillio/soundstimulus.py:535 | the bounds handler fails exactly for the 'Error' policy (ValueError) and for 'Wrap' with a Length of 0 (ZeroDivisionError); 'Soft' with a positive or unbounded Length lands inside [0, Length) and leaves an index already inside alone; 'Wrap' with a positive Length lands inside [0, Length) at the index modulo Length, and with no Length gives infinity for a negative index; 'Off' keeps the index (see also lines 590-599 of the same file) |
| SoundStimulus.Subname | ClientSide/treadmillio/soundstimulus.py:546-548 | a bundle sound's key is the bundle's name, then '-', then at least one digit of the index |
| SoundStimulus.LinearRingGain | ClientSide/treadmillio/soundstimulus.py:317-324 | at the center, with a non-negative cutoff, the gain is the maximum; with both positions on the track and a non-negative slope the gain is the off gain or lies between max − cutoff·slope and max |
| SoundStimulus.LinearLineGain | ClientSide/treadmillio/soundstimulus.py:326-332 | at the center, with a non-negative cutoff, the gain is the maximum; with a non-negative slope the gain is the off gain or lies between max − cutoff·slope and max |
| SoundStimulus.MultilapStep | ClientSide/treadmillio/soundstimulus.py:461-473 | once past, the latch stays past with the off gain; at or beyond the zone's end the off gain is chosen and the latch is not left inside; the sound's own gain is chosen only inside the zone, with the latch inside; before the zone, while waiting, it keeps waiting with the off gain |
| SoundStimulus.GroupOf | ClientSide/treadmillio/soundstimulus.py:148-178 | each kind of stimulus goes to exactly one registry: Background to BackgroundSounds, Beep to Beeps, Localized and MultilapBackground to LocalizedStimuli, Bundle to BundledSounds |
| LegacySound.Offset | ClientSide/SoundStimulus.py:18-22 | the offset exists exactly when the track length is non-zero, and raises ZeroDivisionError otherwise |
| LegacySound.LinearGainFromPos | ClientSide/SoundStimulus.py:17-26 | a zero track length raises ZeroDivisionError; otherwise the gain is the profile's value at the folded offset |
| LegacySound.OffsetRange | ClientSide/SoundStimulus.py:18-22 | on a track of positive length the offset lies in (-L/2, L/2], and the branch for offsets below -L/2 is never taken |
| LegacySound.OffBeyondHalfWidth | ClientSide/SoundStimulus.py:23-24 | beyond half the width the gain is the off gain |
| LegacySound.AbsDiv | ClientSide/SoundStimulus.py:26 | for a positive divisor the absolute value of a quotient is the quotient of the absolute value |
| LegacySound.PeakGain | ClientSide/SoundStimulus.py:26 | the gain at offset zero is the maximum gain |
| LegacySound.EdgeGain | ClientSide/SoundStimulus.py:26 | the gain at an offset of exactly half the width is the minimum gain |
| LegacySound.PeakAndEdge | ClientSide/SoundStimulus.py:17-26 | the gain is the maximum at the center and the minimum at exactly half the width from it |
| LegacySound.Interpolate | ClientSide/SoundStimulus.py:26 | a point a fraction in [0, 1] of the way from a to b lies between them |
| LegacySound.GainBetween | ClientSide/SoundStimulus.py:23-26 | within half the width the gain lies between the minimum and maximum gains |
| LegacySound.NegDiv | ClientSide/SoundStimulus.py:26 | negating a dividend negates the quotient |
| LegacySound.GainAtEven | ClientSide/SoundStimulus.py:23-26 | offsets of opposite sign give the same gain |
| LegacySound.FloorNeg | ClientSide/SoundStimulus.py:18 | the floor of a negated real is the negated floor, less one unless it is whole |
| LegacySound.FloatModNeg | ClientSide/SoundStimulus.py:18 | Python's (-x) % L is L - x % L, or 0 when x % L is 0 |
| LegacySound.GainSymmetric | ClientSide/SoundStimulus.py:17-26 | positions the same distance either side of the center get the same gain |
| LegacySound.Stimulus.constructor | ClientSide/SoundStimulus.py:96-99 | a new stimulus has gain -10.0, has sent it, and has no localized profile |
| LegacySound.Stimulus.ChangeGain | ClientSide/SoundStimulus.py:102-105 | the gain becomes the requested one, and a message goes to the mixer only when it changed |
| LegacySound.Stimulus.InitLocalizedSound | ClientSide/SoundStimulus.py:8-15 | the stimulus gets a localized profile with half-width Width/2 and OffGain defaulting to -90.0 (see also lines 108-109 of the same file) |
| LegacySound.Stimulus.PosUpdateGain | ClientSide/SoundStimulus.py:111-114 | without a profile nothing happens; otherwise the position's gain goes through change_gain, and a ZeroDivisionError changes nothing |
| LegacySound.NewLocalized | ClientSide/SoundStimulus.py:8-15 | a localized sound keeps its center, track length and gains, its half width is half the width, and its off gain defaults to -90.0 |
| LegacySound.GainAt | ClientSide/SoundStimulus.py:23-26 | the gain at a folded offset fails exactly when the offset and the half width are both 0 (the division `relpos/self.half`), with ZeroDivisionError; beyond half the width it is the off gain |
| AlsaStimulus.ReadMonaural | ClientSide/treadmillio/alsainterface.py:31-37 | a stimulus file is read exactly when it exists and has at most one dimension; a missing file raises FileNotFoundError and a multi-channel one ValueError |
| AlsaStimulus.Column | ClientSide/treadmillio/alsainterface.py:52-56 | a channel selects a column of the buffer exactly when it lies in [-n, n), counting negative indices from the end; otherwise IndexError |
| AlsaStimulus.NextCursorWraps | ClientSide/treadmillio/alsainterface.py:48-57 | the cursor advances by one buffer modulo the stimulus length and stays in [0, len]; it equals len exactly after a buffer ending at the end of the samples |
| AlsaStimulus.ModOfSum | ClientSide/treadmillio/alsainterface.py:49-57 | a remainder of a sum depends only on the first term's remainder |
| AlsaStimulus.ModSmall | ClientSide/treadmillio/alsainterface.py:49-57 | a number below the modulus is its own remainder |
| AlsaStimulus.ModShift | ClientSide/treadmillio/alsainterface.py:49-57 | adding the modulus keeps the remainder |
| AlsaStimulus.ModAddCongruent | ClientSide/treadmillio/alsainterface.py:49-57 | numbers with equal remainders keep them equal when the same amount is added |
| AlsaStimulus.CursorAfterStream | ClientSide/treadmillio/alsainterface.py:48-57 | for a buffer no longer than the stimulus every buffer can be filled, the cursor stays in [0, len], and after n buffers it sits at sample n·bufferLen modulo the stimulus length (see also lines 164-165 of the same file) |
| AlsaStimulus.StreamRow | ClientSide/treadmillio/alsainterface.py:48-57 | row i of the n-th buffer holds sample n·bufferLen + i of the endlessly looped stimulus (see also lines 164-165 of the same file) |
| AlsaStimulus.Stimulus.constructor | ClientSide/treadmillio/alsaplayback.py:59-74 | a new stimulus is bound to its slice of the shared buffer, starts at the first sample, and its current gain equals its gain |
| AlsaStimulus.Stimulus.SetGain | ClientSide/treadmillio/alsaplayback.py:110-112 | the gain setter changes the gain and nothing else |
| AlsaStimulus.Stimulus.GetNextBuf | ClientSide/treadmillio/alsaplayback.py:84-104 | a channel outside the slice raises IndexError and writes nothing; for a stimulus of two or more samples, a wrap longer than the samples raises ValueError after writing the first part (the one-sample broadcast is left out); otherwise the column holds the next bufferLen samples taken around the end, the cursor advances as NextCursor says, and with windowing the current gain catches up with the gain; no other column or slice changes |
| AlsaStimulus.Stimulus.Copy | ClientSide/treadmillio/alsaplayback.py:88-92 | one slice assignment writes the given rows of the column from the samples and leaves everything else |
| AlsaStimulus.FirstUnknown | ClientSide/treadmillio/alsaplayback.py:257-261 | the index of the first entry whose key names no stimulus, or the message length |
| AlsaStimulus.AppliedSpec | ClientSide/treadmillio/alsainterface.py:179-181 | applying a message halts exactly when unknown keys raise and one is present; every known key before that point gets its gain, and nothing else is set (see also ClientSide/treadmillio/alsaplayback.py lines 257-263) |
| AlsaStimulus.AppliedStops | ClientSide/treadmillio/alsaplayback.py:256-263 | once a message has raised, its remaining entries change nothing |
| AlsaStimulus.ApplyCommands | ClientSide/treadmillio/alsainterface.py:179-181 | the loop over a message's entries sets exactly the gains Applied gives, reports whether it raised, and leaves every cursor and current gain alone (see also ClientSide/network_sound_server/alsainterface.py lines 214-218) |
| AlsaStimulus.GainAfterLast | ClientSide/treadmillio/alsainterface.py:172-183 | a stimulus keeps its gain through messages that do not set it, and the last message setting it decides its gain |
| AlsaStimulus.ApplyMessages | ClientSide/treadmillio/alsainterface.py:172-183 | after all waiting messages each stimulus has the gain GainAfter gives, and no cursor moves (see also ClientSide/network_sound_server/alsainterface.py lines 207-220) |
| AlsaStimulus.CommonRate | ClientSide/treadmillio/alsainterface.py:122-128 | the rate is shared exactly when there are stimuli and all rates agree; no stimuli gives KeyError, and differing rates give AttributeError, since the report reads stim.filename, which is never assigned |
| AlsaStimulus.RatesCard | ClientSide/treadmillio/alsainterface.py:122-123 | the set of rates has one element exactly when the rates are non-empty and all equal |
| AlsaStimulus.SubsetCard | ClientSide/treadmillio/alsainterface.py:122-123 | a subset has no more elements than its superset |
| AlsaStimulus.MapOfKeys | ClientSide/treadmillio/alsainterface.py:104-119 | the stimuli dict holds exactly the names of the entries |
| AlsaStimulus.MapOfAt | ClientSide/treadmillio/alsainterface.py:110-119 | with distinct names each name maps to the stimulus made for its entry |
| AlsaStimulus.MapOfValues | ClientSide/treadmillio/alsainterface.py:110-119 | every value of the dict is one of the stimuli made, and distinct names hold distinct objects |
| AlsaStimulus.MapOfSnoc | ClientSide/treadmillio/alsainterface.py:118 | inserting the next stimulus extends the dict of the entries so far |
| AlsaStimulus.Advance | ClientSide/treadmillio/alsainterface.py:164-165 | one get_nextbuf of the cycle either raises, leaving the stimulus's cursor and gain, or advances and fills its column; columns already filled stay filled |
| AlsaStimulus.FillStep | ClientSide/treadmillio/alsainterface.py:164-165 | one stimulus's turn keeps the fill cycle's progress invariant, one stimulus further when it succeeds |
| AlsaStimulus.FillAll | ClientSide/treadmillio/alsainterface.py:164-165 | the fill loop raises exactly the first failing stimulus's exception; on success every stimulus has advanced, and when no two share a column every column holds its next samples; no gain changes (see also ClientSide/treadmillio/alsaplayback.py lines 231-232) |
| ConfigValues.WithDefaultsSpec | ClientSide/network_sound_server/alsainterface.py:227-231 | filling in defaults adds exactly the missing default keys with their default values and changes no key already there |
| ConfigValues.WithDefaultsIdempotent | ClientSide/network_sound_server/alsainterface.py:227-231 | filling in the same defaults twice changes nothing more |
| ConfigValues.WithDefaultsUnchanged | ClientSide/network_sound_server/alsainterface.py:227-231 | defaults leave a dict as it is exactly when it already has every default key |
| ConfigValues.FillMissing | ClientSide/network_sound_server/alsainterface.py:228-229 | the loop over the defaults reaches the dict WithDefaults describes |
| ConfigValues.IsSubstringAt | ClientSide/treadmillio/alsainterface.py:100 | a substring occurs at some offset of the string |
| ConfigValues.Contains | ClientSide/treadmillio/alsainterface.py:100 | `in` works exactly on dicts, strings and lists and raises TypeError on anything else; on a dict it tests the keys |
| ConfigValues.FillSubKeysSpec | ClientSide/treadmillio/alsainterface.py:98-101 | a dict keeps its sub-keys and gains the missing ones; any other value is never changed and raises TypeError exactly when some sub-key is not in it |
| ConfigValues.CheckSubKeys | ClientSide/treadmillio/alsainterface.py:99-101 | the sub-key loop on a non-dict finishes exactly when every sub-key is in the value, and raises TypeError otherwise |
| ConfigValues.MergedIdempotent | ClientSide/treadmillio/alsainterface.py:91-101 | merging the same defaults into a merged stimulus changes nothing more |
| ConfigValues.MergedNone | ClientSide/treadmillio/alsainterface.py:91-101 | no defaults, no change |
| ConfigValues.MergedInsert | ClientSide/treadmillio/alsainterface.py:95-101 | one more default raises when it clashes and otherwise sets its key to the merged value, keeping a key the stimulus had |
| ConfigValues.MergeStimulus | ClientSide/treadmillio/alsainterface.py:95-101 | the loop over the Defaults for one stimulus reaches what Merged describes |
| ConfigValues.MergedAll | ClientSide/treadmillio/alsainterface.py:91-101 | merging every stimulus fails exactly when some stimulus's merge does; on success each stimulus keeps its name and gets its own merge |
| ConfigValues.MergeDefaults | ClientSide/treadmillio/alsainterface.py:91-101 | the nested loops reach what MergedAll describes |
| ConfigValues.MergedAllStops | ClientSide/treadmillio/alsainterface.py:93-101 | once a prefix's merge raised, the whole merge raises the same |
| ConfigValues.Dimension | ClientSide/treadmillio/alsainterface.py:108 | a dimension is an int or a bool; anything else raises TypeError |
| ConfigValues.Shape | ClientSide/treadmillio/alsainterface.py:108 | a shape is accepted exactly when every dimension is an integer and none is negative; a non-integer raises TypeError first, a negative one ValueError |
| ConfigValues.GainDb | ClientSide/treadmillio/alsainterface.py:46 | a gain in dB must be an int, float or bool, and anything else raises TypeError |
| ConfigValues.Join | ClientSide/treadmillio/alsainterface.py:117 | a path is joined exactly when root and name are strings, and raises TypeError otherwise (as for a missing AudioFileDirectory) |
| ConfigValues.JoinSpec | ClientSide/treadmillio/alsainterface.py:117 | the joined path ends with the name; it is the name itself for an absolute name or an empty root, and otherwise the root then the name with one '/' between unless the root ends in '/' |
| ConfigValues.WithDefaults | ClientSide/network_sound_server/alsainterface.py:227-231 | the result has every key of the dict and of the defaults; a key the dict had keeps its value, and any other key takes its default value |
| ConfigValues.FillSubKeys | ClientSide/treadmillio/alsainterface.py:98-101 | a dict always gets a dict back that keeps all its sub-keys; only a non-dict, and only with some sub-key to fill, raises, and then TypeError; a non-dict that passes is left as it is |
| ConfigValues.Merged | ClientSide/treadmillio/alsainterface.py:91-101 | the Defaults merge into one stimulus raises exactly when some default Clashes with it, and then TypeError; a merged stimulus has the keys of the stimulus and of the defaults, a missing key takes its default, and a key whose default is not a dict keeps the stimulus's value |
| AlsaInterface.RegisteredSpec | ClientSide/treadmillio/alsainterface.py:81-87 | the device loop raises KeyError exactly when some device lacks Type, or is an output without Channel; otherwise it maps each output device's name, and no other name, to its channel |
| AlsaInterface.RegisterDevices | ClientSide/treadmillio/alsainterface.py:83-87 | the device loop reaches what Registered describes |
| AlsaInterface.RegisteredStops | ClientSide/treadmillio/alsainterface.py:84-87 | once the device loop raised on a prefix it raises the same on the whole list |
| AlsaInterface.DeviceChannel | ClientSide/treadmillio/alsainterface.py:115 | a Device that names a registered device gives its channel; a list or dict raises TypeError, anything else KeyError |
| AlsaInterface.EntryLoad | ClientSide/treadmillio/alsainterface.py:110-119 | an illegal name raises ValueError; a stimulus that loads has a legal name, a Filename, a device channel, a joinable path to a readable monaural file and a numeric BaselineGain (default 0) |
| AlsaInterface.FirstFailure | ClientSide/treadmillio/alsainterface.py:110-119 | every entry before the first failure loads, and the entry at it does not |
| AlsaInterface.RatesOf | ClientSide/treadmillio/alsainterface.py:122 | one sampling rate per loaded entry, in order |
| AlsaInterface.Prepared | ClientSide/treadmillio/alsainterface.py:77-108 | the steps before the stimulus loop leave at least one stimulus and the configured file root (None when missing) |
| AlsaInterface.ConstructFacts | ClientSide/treadmillio/alsainterface.py:72-145 | without AudioFileDirectory construction always fails; a successful construction has at least one stimulus, each loading with the common sampling rate |
| AlsaInterface.ProgressSnoc | ClientSide/treadmillio/alsainterface.py:110-119 | one more distinct stimulus made from the next entry extends the loop's progress |
| AlsaInterface.BuiltValid | ClientSide/treadmillio/alsainterface.py:104-119 | the built stimuli are distinct, bound to the buffer, in distinct slices, and every dict value is among them |
| AlsaInterface.LoadStimuli | ClientSide/treadmillio/alsainterface.py:108-119 | the loop makes one fresh stimulus per entry, the k-th on slice k, and raises exactly the first failing entry's error; on success the dict maps each name to its stimulus |
| AlsaInterface.FirstFailureAt | ClientSide/treadmillio/alsainterface.py:110-119 | a loop stopping at the first entry that fails stops at FirstFailure |
| AlsaInterface.Prepare | ClientSide/treadmillio/alsainterface.py:77-108 | the steps before the stimulus loop reach what Prepared describes |
| AlsaInterface.Finish | ClientSide/treadmillio/alsainterface.py:108-145 | the rest of the constructor raises Finished's error, and otherwise gives fresh pieces built to its plan |
| AlsaInterface.Build | ClientSide/treadmillio/alsainterface.py:72-145 | the constructor raises exactly Construct's error, and otherwise gives fresh pieces built to its plan |
| AlsaInterface.PlaybackSystem.constructor | ClientSide/treadmillio/alsainterface.py:72-151 | a new system holds its pieces and is not running |
| AlsaInterface.PlaybackSystem.Create | ClientSide/treadmillio/alsainterface.py:72-151 | construction with StopMessage as the illegal name raises exactly Construct's error, and otherwise gives a fresh, valid, idle system built to the plan |
| AlsaInterface.PlaybackSystem.SetGain | ClientSide/treadmillio/alsainterface.py:157-158 | the named stimulus gets the gain and no other does; an unknown name raises KeyError; no cursor moves |
| AlsaInterface.PlaybackSystem.Start | ClientSide/treadmillio/alsainterface.py:160-163 | play sets running |
| AlsaInterface.PlaybackSystem.Cycle | ClientSide/treadmillio/alsainterface.py:163-183 | one pass raises exactly the first failing stimulus's exception; otherwise every stimulus has its next samples in its column and its cursor advanced, and each gain is what the waiting messages leave it at, unknown keys passed over |
| AlsaInterface.PlaybackSystem.Deliver | ClientSide/treadmillio/alsainterface.py:172-183 | the message loop changes gains as GainAfter says and moves no cursor |
| AlsaInterface.Registered | ClientSide/treadmillio/alsainterface.py:81-87 | the only error the device loop can raise is KeyError |
| AlsaInterface.Lookup | ClientSide/treadmillio/alsainterface.py:115-116 | `stimulus.get(key, default)` gives the stimulus's own value for a key it has, and otherwise the default |
| AlsaInterface.Finished | ClientSide/treadmillio/alsainterface.py:108-145 | construction finishes only when every stimulus has loaded and the DType is 'int16', and the plan keeps the stimuli as set up |
| AlsaInterface.Construct | ClientSide/treadmillio/alsainterface.py:72-145 | a device list the loop cannot register makes the constructor raise KeyError before anything else; a constructed system had a StimuliList with at least one stimulus, reads its files from the given directory, and uses DType 'int16' |
| AlsaInterface.EmptyStimuliRefused | ClientSide/treadmillio/alsainterface.py:89-106 | once the devices register, a StimuliList that is empty after the Defaults merge is refused with ValueError |
| AlsaInterface.FinishedSpec | ClientSide/treadmillio/alsainterface.py:108-145 | construction finishes exactly when every stimulus loads, their sampling rates agree and the DType is 'int16'; a DType other than 'int16' after that raises ValueError; the plan's rate is the common rate |
| AlsaInterface.OnlyInt16Constructs | ClientSide/treadmillio/alsainterface.py:79 | a configured DType other than 'int16' never gives a constructed system (see also lines 142-145 of the same file) |
| AlsaOutput.ConstructAcceptsMore | ClientSide/alsa_output.py:61-122 | every configuration the treadmillio constructor accepts is accepted here too, with the same merged stimuli, buffer rows and sampling rate, since only the name check is dropped |
| AlsaOutput.PlaybackSystem.constructor | ClientSide/alsa_output.py:61-122 | a new system holds its pieces |
| AlsaOutput.PlaybackSystem.Create | ClientSide/alsa_output.py:61-122 | construction with no illegal name raises exactly Construct's error, and otherwise gives a fresh, valid system built to the plan |
| AlsaOutput.PlaybackSystem.Cycle | ClientSide/alsa_output.py:124-129 | one pass raises exactly the first failing stimulus's exception; otherwise every stimulus has its next samples in its column and its cursor advanced; no gain changes |
| AlsaPlayback.FirstFailure | ClientSide/treadmillio/alsaplayback.py:178-186 | every entry before the first failure loads, and the entry at it does not |
| AlsaPlayback.RatesOf | ClientSide/treadmillio/alsaplayback.py:190 | one sampling rate per loaded entry, in order |
| AlsaPlayback.PlaybackSystem.constructor | ClientSide/treadmillio/alsaplayback.py:116-120 | a new system has no device, no stimuli and no errors, and is not running |
| AlsaPlayback.PlaybackSystem.ConfigureDevice | ClientSide/treadmillio/alsaplayback.py:122-160 | the device is opened with BufferSize 1024, SamplingRate 96000 and NChannels 2 by default; a DType other than int16 reports an error and returns False with the device left open; a negative size raises ValueError; nothing about the stimuli changes |
| AlsaPlayback.PlaybackSystem.LoadStimuli | ClientSide/treadmillio/alsaplayback.py:163-200 | without a device or without stimuli the call reports and returns False, keeping the stimuli, their order, the rate and the data buffer it had, so playback of the earlier stimuli goes on; a negative size raises ValueError from the allocation after the stimulus dict was emptied, with nothing reported and the rate and data buffer kept; otherwise the stimuli before the first failure are installed, and the result, reports and rate are LoadOutcomeOf's |
| AlsaPlayback.PlaybackSystem.Install | ClientSide/treadmillio/alsaplayback.py:174-200 | the buffer, the loading loop and the rate check leave the stimuli installed and the result, reports and rate LoadOutcomeOf gives |
| AlsaPlayback.PlaybackSystem.NewStimulus | ClientSide/treadmillio/alsaplayback.py:180-183 | one fresh stimulus on slice 0, with its entry's channel (default 0) and linear OffGain |
| AlsaPlayback.PlaybackSystem.LoadEntries | ClientSide/treadmillio/alsaplayback.py:177-186 | the loading loop stops at the first entry that fails and leaves one fresh stimulus per loaded name |
| AlsaPlayback.PlaybackSystem.SetGain | ClientSide/treadmillio/alsaplayback.py:207-208 | the named stimulus gets the gain and no other does; a name never loaded raises KeyError |
| AlsaPlayback.PlaybackSystem.Cycle | ClientSide/treadmillio/alsaplayback.py:230-264 | one pass raises exactly the first failing stimulus's exception; otherwise every cursor advances and the windowed gain catches up; a received Stop ends playback, and any other message sets gains up to its first unknown key, which ends playback |
| AlsaPlayback.PlaybackSystem.Play | ClientSide/treadmillio/alsaplayback.py:210-221 | play reports and returns False without a device or without stimuli, and otherwise starts running |
| AlsaPlayback.PlaybackSystem.HandleMessage | ClientSide/treadmillio/alsaplayback.py:247-264 | a Stop key ends playback and sets no gain; otherwise the entries set gains in order, and the first unknown key raises and ends playback; cursors stay put |
| AlsaPlayback.AliasedSlots | ClientSide/treadmillio/alsaplayback.py:176-187 | since `k` is never incremented, two loaded stimuli on the same channel write the same column of slice 0 |
| AlsaPlayback.PlaybackSystem.LoadEntriesPerSlice | ClientSide/treadmillio/alsaplayback.py:176-187 | the loading loop with `k` advanced per entry: one fresh stimulus per entry up to the first that fails to load, the j-th bound to slice j, so no two share a column (SlotsDistinct) |
| AlsaPlayback.LoadedDict | ClientSide/treadmillio/alsaplayback.py:178-186 | the loop's dict holds the names loaded, each bound to the distinct stimulus made from its entry |
| AlsaPlayback.ProgressListed | ClientSide/treadmillio/alsaplayback.py:176-186 | the stimuli made so far are distinct objects bound to the data buffer |
| AlsaPlayback.ProgressStep | ClientSide/treadmillio/alsaplayback.py:182-183 | one more stimulus made from the next entry keeps the loop's progress |
| AlsaPlayback.AllLoadOutcome | ClientSide/treadmillio/alsaplayback.py:189-200 | when every entry loads, loading returns True exactly when the rates agree, which sets the rate; otherwise reading `stim.filename` raises AttributeError; nothing is reported |
| AlsaPlayback.FailedLoadOutcome | ClientSide/treadmillio/alsaplayback.py:182-186 | the first entry that fails decides: without a Filename the handler raises KeyError, otherwise the file is reported and False returned; the rate is kept |
| AlsaPlayback.FirstFailureAt | ClientSide/treadmillio/alsaplayback.py:178-186 | a loop stopping at the first failing entry stops at FirstFailure |
| AlsaPlayback.EntryLoad | ClientSide/treadmillio/alsaplayback.py:180-183 | an entry without Filename raises KeyError; an entry loads exactly when its Filename names a readable monaural file, and then gives that file |
| AlsaPlayback.LoadOutcomeOf | ClientSide/treadmillio/alsaplayback.py:177-200 | loading raises only KeyError (the handler reads the missing Filename again) or AttributeError (the rate report reads a `filename` the stimulus does not have), reporting nothing and setting no rate; it returns True, with a rate set, exactly when it sets a rate, and then every entry loaded; it returns False only when some entry failed, with one "Error loading" report |
| AlsaServer.NormalizeOutputDevice | ClientSide/network_sound_server/alsainterface.py:227-231 | the loop sets every missing DEFAULT_OUTPUT_DEVICE key, as WithDefaults says |
| AlsaServer.NormalizedConfig | ClientSide/network_sound_server/alsainterface.py:24-31 | a normalised configuration keeps its keys, has every default key, so no device read raises KeyError, and normalising again changes nothing |
| AlsaServer.EntryCheck | ClientSide/network_sound_server/alsainterface.py:148-157 | an entry passes exactly when its name is legal and it has Channel and StimData; an illegal name raises ValueError, a missing key KeyError |
| AlsaServer.FirstBad | ClientSide/network_sound_server/alsainterface.py:148-158 | every entry before the first bad one passes, and the one at it fails |
| AlsaServer.ConstructOk | ClientSide/network_sound_server/alsainterface.py:119-186 | construction succeeds exactly when the five device keys are present, there is a stimulus, the buffer and channel counts are non-negative integers, every entry passes and DType is int16 |
| AlsaServer.Server.constructor | ClientSide/network_sound_server/alsainterface.py:119-147 | a new server holds its buffer and stimuli and is not running |
| AlsaServer.Server.Create | ClientSide/network_sound_server/alsainterface.py:119-186 | construction raises exactly Construct's error, and otherwise holds one fresh stimulus per entry, in order, each on its own slice of a fresh buffer of the configured size |
| AlsaServer.Server.MakeStimuli | ClientSide/network_sound_server/alsainterface.py:146-158 | the loop makes one fresh stimulus per entry, the k-th on slice k, and the dict maps each name to its stimulus |
| AlsaServer.Server.SetGain | ClientSide/network_sound_server/alsainterface.py:192-193 | the named stimulus gets the gain and no other does; an unknown name raises KeyError |
| AlsaServer.Server.Cycle | ClientSide/network_sound_server/alsainterface.py:198-224 | one pass raises exactly the first failing stimulus's exception; otherwise every stimulus has its next samples and its cursor advanced, each gain is what the messages leave it at with unknown keys ending their message, and the loop goes on until the stop event |
| AlsaServer.Server.Deliver | ClientSide/network_sound_server/alsainterface.py:207-220 | the message loop changes gains as GainAfter says and moves no cursor |
| AlsaServer.ServerSlots | ClientSide/network_sound_server/alsainterface.py:144-158 | stimuli made in order have distinct slices, so no two share a column, and are bound to the buffer |
| AlsaServer.Construct | ClientSide/network_sound_server/alsainterface.py:119-158 | the server's constructor fails only with KeyError, ValueError or TypeError; a constructed layout had every device key read (BufferSize, DType, HWDevice, NChannels, FS), at least one stimulus, and a data buffer whose sizes are the BufferSize and NChannels given to `np.zeros` |
| Protocol.SyncFromErrHere | ClientSide/treadmillio/serialinterface.py:116-128 | the search stops with an error at a candidate where the character is missing from the third frame on, or at the last candidate L-1 when it is unaligned; no offset from there is aligned, and the error is AssertionError when the character still occurs from 3L-1 on and ValueError otherwise |
| Protocol.AbsentFromThirdFrame | ClientSide/treadmillio/serialinterface.py:119-120 | once the start character is absent from the third frame of a candidate on, no later candidate is aligned and the character is absent from 3L-1 on |
| Protocol.OccursEarlier | ClientSide/treadmillio/serialinterface.py:120 | a byte found by `index` from a later start is found from any earlier start too |
| Protocol.NoneAlignedExtend | ClientSide/treadmillio/serialinterface.py:121-123 | an unaligned candidate followed by unaligned candidates up to L leaves none aligned from it on |
| Protocol.FrameStart | ClientSide/treadmillio/serialinterface.py:120 | the k-th frame checked for a candidate starts k message lengths after it |
| Protocol.PartialScanComplete | ClientSide/treadmillio/serialinterface.py:119-121 | the inner loop over all three frames makes the same decision as the candidate test |
| Protocol.Signed8 | ClientSide/treadmillio/serialinterface.py:238-239 | the two's-complement reading of a byte lies in -128..127 |
| HostSerial.SerialInterface.ConfigureNext | ClientSide/treadmillio/serialinterface.py:140-141 | one pass of the configure loop of `connect` moves the output state one registered GPIO further along the specification of the whole loop |
| HostSerial.ConfigureUnfold | ClientSide/treadmillio/serialinterface.py:140-141 | configuring one more GPIO is a no-op after an error and otherwise applies configure_io with that GPIO's registered number, type, power and mirror |
| HostSerial.ConfigureErrorSticks | ClientSide/treadmillio/serialinterface.py:140-141 | once a configure_io call has raised, the rest of the loop does not run: the whole loop's effect is the effect up to the failure |
| HostSerial.PulsesUnfold | ClientSide/treadmillio/serialinterface.py:322-326 | handling one more GPIO lowers it exactly when no error happened yet and it is pulsed with an off time before MasterTime |
| HostSerial.PulsesErrorSticks | ClientSide/treadmillio/serialinterface.py:322-326 | once lowering a pin has raised, update_pulses stops: the whole loop's effect is the effect up to the failure |
| HostSerial.Zeros | ClientSide/treadmillio/serialinterface.py:63-65 | the initial smoothing buffer has the requested length and every slot holds 0 |
| HostSerial.ZerosSum | ClientSide/treadmillio/serialinterface.py:64 | a freshly zeroed smoothing buffer sums to 0, so the first velocity means start from nothing |
| HostSerial.LatestAt | ClientSide/treadmillio/serialinterface.py:342-343 | the latest position before n that the ring wrote to slot k is below n and lands on slot k |
| HostSerial.LatestAtWithin | ClientSide/treadmillio/serialinterface.py:342-343 | a position written to slot k is still the latest one for that slot until 50 further displacements have been written |
| HostSerial.RecentSum | ClientSide/treadmillio/serialinterface.py:340-344 | when the last 50 displacements all equal d, they sum to 50·d |
| HostSerial.ConstantSum | ClientSide/treadmillio/serialinterface.py:344 | a run of equal displacements sums to its length times the displacement |
| RewardZone.Slot | src/treadmillio/rewardzone.py:123 | stepping k slots round a ring of L slots stays inside the ring |
| RewardZone.NextSlot | src/treadmillio/rewardzone.py:123 | advancing the lick index modulo the buffer length moves to the next slot, or back to slot 0 after the last |
| Quadrature.WrapInRange16 | Firmware/MSP430Firmware/quadrature.c:5-7 | a value already in the int16_t range is unchanged by the 16-bit wrap |
| Quadrature.WrapInRange32 | Firmware/MSP430Firmware/quadrature.c:8 | a value already in the int32_t range is unchanged by the 32-bit wrap |
| HostSerial.SumUpdate | ClientSide/treadmillio/serialinterface.py:342 | overwriting one slot of the smoothing buffer changes its sum by the new value minus the old one |

## Left out

- Serial, socket and pipe I/O. This covers opening the port, read timeouts, the zmq position stream, and the pickled pipe messages between the controller and the playback process. Incoming bytes are an input sequence; writes and messages are appended to logs.
- ALSA PCM calls and xrun handling: opening the device, writing a period and the xrun recovery are not modelled. The playback loop is modelled up to the point where the buffers are ready to be summed and written.
- Summing the stimulus buffers and scaling samples by the gain: these are floating-point DSP. The cursor, the window copied out of the samples and the gain bookkeeping are modelled, but the sample values after scaling are not.
- The tukey cross-fade window and `db2lin`: the model records which gain the next buffer is faded to, not the window values.
- The "Natural" gain law uses `log10`, and the maze setup uses pi. Both are parameters of the model rather than real functions.
- IEEE floating point: positions, velocities and gains are reals, so rounding and overflow of doubles are not captured.
- Random draws (exponential delays, random visualisation commands, the Operant random assist) are input sequences, not a random generator.
- The prioritised `TaskStateMachine` engine and `update_statemachine` are imported by the control loop from a file that is not part of this model. The state objects and the table builder are modelled; the engine is not.
- The `SoundStimulusController` plumbing: starting the playback process and the viewer, `update_beeps` and `update_localized` batching per-sound results into one pipe message, `change_gain_raw`, and teardown. The per-sound operations these call are modelled: `Beep.Update`, `Localized.PosUpdateGain`, `MultilapBackground.PosUpdateGain` and `ChangeGain`.
- SoundStimulus.Controller.AddStimulus: the Device key is taken as present, as `SoundValid` requires of a valid configuration; a missing Device, which makes `SoundStimulus.__init__` raise KeyError just after sending the off gain, is not modelled. The stimulus pipe is a log of `Message` values, not pickled bytes.
- The JACK and OSC process set-up of the older `ClientSide/SoundStimulus.py`: only `linear_gain_from_pos` and the gain bookkeeping of that file are modelled.
- MSP430 clock and port set-up, the inline-assembly interrupt entry, and the UART driver. The firmware model starts from an initialised board.
- Teensy `pinMode` and `digitalWrite` are recorded as events, not simulated.
- The CSV loading and sleep-based pacing of the serial simulator: the recorded encoder and GPIO samples are an input sequence.
- Python dictionaries are sequences of (key, value) pairs, or a map plus a key order, wherever iteration order matters. Insertion order is the order of the sequence.
- Configuration entries are typed: a stimulus entry that is not a dictionary, or a channel that is not an int, is outside the `ConfigValues.Value` cases the model builds on.
- When a constructor raises part-way through, the source has already mutated the caller's configuration dictionaries (defaults merged into some entries). The model returns the error and does not describe that partial mutation.
- `AlsaServer.NormalizeOutputDevice` returns the normalised dictionary as a new value. The source mutates the caller's dictionary and returns the same object, so aliasing of that dictionary is not modelled.
- `AlsaPlayback.PlaybackSystem.SetGain`: before any `load_stimuli` the source's `self.stimuli` is None, and `set_gain` raises TypeError; the model starts from an empty dictionary and reports KeyError.
- The stimuli of `ClientSide/treadmillio/alsainterface.py` and `ClientSide/alsa_output.py` have no windowing. They are the shared `AlsaStimulus.Stimulus` with windowing switched off.
- The network sound server's stimuli carry no sampling rate of their own, so no rate check is modelled for them.
- `print` and `warnings.warn` calls (for example "Beep triggered while playing") have no effect on the modelled state and are left out.
- Protocol.Upper: upper-cases ASCII letters only. Python's `str.upper` also maps non-ASCII letters ('ı' to 'I', 'ß' to 'SS'), so a direction such as 'ınput', which the source accepts as INPUT, is refused by the model with AssertionError (the `assert direction.upper() in self.PinModes` of `configure_pin`).
- AlsaPlayback.PlaybackSystem.LoadStimuli: when the sampling rates disagree, the source first stores the set of rates in `self.fs` and then raises AttributeError on `stim.filename`; the model keeps `fs` an integer and leaves it at its old value on that path. No caller can observe the set, because the exception is not caught and ends the playback process.
- Protocol.ConfigureCommandRoundTrip: inherits the ASCII-only upper-casing of `Protocol.Upper`: directions that reach a pin mode only through a non-ASCII case mapping are outside it.
- HostSerial.SerialInterface.ConfigurePin: inherits the ASCII-only upper-casing of `Protocol.Upper` in the same way.
- AlsaStimulus.Stimulus.GetNextBuf: does not model numpy broadcasting a one-sample file. With one sample, the tail copy `stimulus_buffer[:remainder]` broadcasts, so the first wrapping call fills the column and moves the cursor past the end of the samples, and only the following calls raise ValueError. The model raises on the first call, because every stimulus keeps its cursor within the samples.

## Findings

| source | as written | input that shows it | evidently intended | confidence | as-written member | corrected member |
|---|---|---|---|---|---|---|
| ClientSide/treadmillio/soundstimulus.py:508-513 | `BeepSound.update` returns the off gain for the controller to send, but the call that would also record it in `self.gain` is commented out, so `self.gain` stays at the baseline gain after the beep ends | play at time 0 with Duration 10; update at time 11 (the off gain goes out); play again: `change_gain(baseline_gain)` sees no change and sends nothing, so the second beep stays silent | the gain recorded by the beep always equals the last gain sent to the playback process, so every play turns the sound on | not executed | SoundStimulus.SecondBeepSilent | SoundStimulus.RecordedBeepInStep |
| ClientSide/treadmillio/alsaplayback.py:176-187 | `load_stimuli` allocates one slice of `data_buf` per stimulus and passes `data_buf[:,:,k]`, but never increments `k`, so every stimulus writes into slice 0 | two entries A and B with the default Channel 0: each cycle A's buffer goes to column 0 of slice 0 and B's buffer overwrites it, so the summed output never carries A | the k-th stimulus gets slice k, so the sum over slices plays every stimulus | not executed | AlsaPlayback.AliasedSlots | AlsaPlayback.PlaybackSystem.LoadEntriesPerSlice |

The `SoundStimulus.Beep` class keeps the behaviour as written, because the controller depends on it. The corrected step is `SoundStimulus.UpdateStepRecorded`, and `SoundStimulus.RecordedBeepInStep` proves its property. In the same way `AlsaPlayback.PlaybackSystem.LoadStimuli` keeps the loading loop as written, so that the model describes the state `load_stimuli` really leaves; `AlsaPlayback.PlaybackSystem.LoadEntriesPerSlice` is the corrected loop, and its contract proves that no two of its stimuli share a column.
