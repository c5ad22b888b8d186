# STMPE811 touch-screen driver in Dafny

This project models `Touch811`, the MicroPython driver for the STMPE811 resistive touch-screen
controller on the STM32F429 Discovery board (`boards/STM32F429DISC/touch811.py`), and proves
properties of the model.

The driver talks to the controller over a two-wire bus. The model covers each part of it:

- **Bus.** `SoftI2C` (soft_i2c.dfy) is a stub of that bus. It records every transfer in a log
  and answers reads from a scripted stream of reply bytes. Each driver method states the exact
  transfers it adds to the log and the reply bytes it consumes. The one exception is a FIFO drain
  that fails part-way. Its contract states that the log has only grown, and that what is left is
  the last one or zero bytes of the stream.
- **Register reads.** `i2c_read` assembles 1 to 4 bytes most significant first, using shifts and
  `|`. The model writes that out with Python's bit operators, defined bit by bit in bits.dfy,
  and proves it equals the big-endian value (byte_order.dfy).
- **Construction.** `__init__` is the static method `Touch811.Create`. It rejects a bad rotation
  or tracking window before any transfer. It then checks the 16-bit chip identity and issues the
  five power-up writes in order.
- **Reconfiguration.** `set_tsc_config` reads TSC_CFG and TSC_CTRL and validates every argument
  before its first write. It then disables sensing, clears the FIFO, writes both registers and
  reads them back. tsc_config.dfy proves two things about the packed fields:
  - each field holds the given argument, or keeps the register's current bits when the argument
    is None;
  - the fields are disjoint, so the source's `+` equals `|`.
- **Draining the FIFO.** `get_xyz_touch_points` is a loop proved against `Fifo.Drain`, a function
  of the reply stream. Lemmas characterise the streams that drain completely:
  - one point per nonzero FIFO_SIZE byte, in read order;
  - the drain stops at the first zero count.
- **Calibration.** Each raw sample is scaled per axis and truncated toward zero, as Python's
  `int()` does. It is then mapped by the screen rotation (calibration.dfy). The four rotations
  are proved to be quarter turns of one another.
- **Deduplication.** `check_xy_match` is a loop proved against the recursive `Dedup.Unique`. Its
  output is proved to be an order-preserving subsequence that keeps the first point. Consecutive
  kept points are more than `delta` apart, and deduplicating twice is the same as once.

Errors are values. `Result<T, Error>` carries three kinds of error:

- `ValueError(arg)` names the rejected argument;
- `ChipIdError` stands for the driver's RuntimeError;
- `BusError` is a transfer the bus cannot complete.

## Model

| member | source | states |
|---|---|---|
| Touch.Touch811.constructor | boards/STM32F429DISC/touch811.py:68-79 | the bus, address, geometry and rotation are the given ones; the calibration starts at SLOPE_X, SLOPE_Y, OFFSET_X, OFFSET_Y |
| Touch.Touch811.Create | boards/STM32F429DISC/touch811.py:58-99 | a rotation outside {0, 90, 180, 270} or a tracking window outside [0, 7] is a ValueError with the bus untouched; otherwise CHIP_ID is read first; a failed read or an identity other than 0x0811 stops there, with only that read logged (a failed read consumes no reply); an identity of 0x0811 yields a fresh driver with its fields set, and the log gains exactly SYS_CTRL1←0x02, SYS_CTRL2←0x04, FIFO_TH←0x01, TSC_CFG←0xE4, TSC_CTRL←(window<<4)+1 in that order |
| Touch.Touch811.I2cRead | boards/STM32F429DISC/touch811.py:239-255 | a count outside 1..4 is a ValueError with no transfer; otherwise one register-select write then one read of `count` bytes, and the result is the big-endian value of exactly the next `count` reply bytes, or BusError when fewer remain |
| Touch.Touch811.I2cWrite | boards/STM32F429DISC/touch811.py:257-258 | exactly one `[reg, value]` transfer is logged and no reply is consumed |
| SoftI2CBus.SoftI2C.WriteTo | boards/STM32F429DISC/touch811.py:258 | the bus stub behind `self._i2c.writeto`: appends exactly one write of the given bytes to the log and leaves the replies as they were |
| SoftI2CBus.SoftI2C.ReadFrom | boards/STM32F429DISC/touch811.py:242 | the bus stub behind `self._i2c.readfrom`: appends one read to the log and hands over exactly the next `count` reply bytes, or nothing with the replies untouched when fewer remain |
| Touch.PowerUpWrites | boards/STM32F429DISC/touch811.py:94-99 | the five register writes of the power-up sequence, in the source's order, with TSC_CTRL set to `(window << 4) + EN_TSC` |
| Touch.ConfigWrites | boards/STM32F429DISC/touch811.py:159-162 | the four writes of a reconfiguration: disable sensing, clear the FIFO, write TSC_CFG, write TSC_CTRL |
| Touch.SampleReads | boards/STM32F429DISC/touch811.py:179-203 | the transfers of one drain pass: 2-byte reads of X, Y and pressure, then a 1-byte FIFO_SIZE read |
| Touch.DrainLog | boards/STM32F429DISC/touch811.py:176-203 | the transfers of a drain that read k samples: the first FIFO_SIZE read, then k passes |
| Touch.Touch811.IsTouched | boards/STM32F429DISC/touch811.py:101-106 | one FIFO_SIZE read; true if and only if the byte read is nonzero; that one reply is consumed, none when the stream is empty |
| Touch.Touch811.GetNumTouches | boards/STM32F429DISC/touch811.py:169-171 | one FIFO_SIZE read, whose byte is the result; that one reply is consumed, none when the stream is empty |
| Touch.FirstInvalid | boards/STM32F429DISC/touch811.py:126-157 | the argument `set_tsc_config` rejects first: none exactly when op_mode is in [0, 4] and window, average, touch_delay, settle are None or in range; the report follows the source's order op_mode (None included), window, average, touch_delay, settle: each argument is reported exactly when every earlier one passed and it fails |
| Touch.Touch811.ConfigValues | boards/STM32F429DISC/touch811.py:125-157 | the validation chain returns the first invalid argument's ValueError, and otherwise exactly the TSC_CFG and TSC_CTRL values PackCfg and PackCtrl describe |
| Touch.Touch811.SetTscConfig | boards/STM32F429DISC/touch811.py:108-167 | the two register reads come first; an invalid argument then fails with nothing written (the log holds only the two reads); a valid call logs TSC_CTRL←0, FIFO_STA←0x01, TSC_CFG←PackCfg, TSC_CTRL←PackCtrl, then the two read-backs, and fails only if a read runs out of replies; every path states the replies left (none consumed, one, two, or up to four on a valid call) |
| Touch.Touch811.WriteConfig | boards/STM32F429DISC/touch811.py:159-167 | the four writes in the mandated order, then the TSC_CFG and TSC_CTRL read-backs; success if and only if both read-backs get a reply; exactly the replies the read-backs received (at most two) are consumed |
| Touch.Touch811.GetXyzTouchPoints | boards/STM32F429DISC/touch811.py:173-205 | the result is the calibrated points of `Drain` of the reply stream, in read order, and the log is the FIFO_SIZE read plus one X, Y, Z, FIFO_SIZE round per point; a stream that runs out mid-drain is a BusError that leaves the drain `Stalled`: the log only grew, and fewer than two bytes of the stream's tail remain |
| Touch.Touch811.ReadPass | boards/STM32F429DISC/touch811.py:179-203 | one pass reads X, Y and pressure as 2-byte big-endian words, then the next FIFO_SIZE byte, consuming exactly seven reply bytes; with fewer than seven left it fails at the first read that finds too few, having logged exactly the reads issued (`PartialPass`) and consumed the words read before it |
| Touch.Touch811.ReadWord | boards/STM32F429DISC/touch811.py:239-246 | a 2-byte read logs the register select and the read, and gives `hi * 256 + lo` of the next two replies, or BusError with no reply consumed |
| Touch.PartialPassPrefix | boards/STM32F429DISC/touch811.py:179-203 | the reads of a pass cut short are a nonempty prefix of a full pass's reads, and all of them only when the closing FIFO_SIZE read is the one that fails |
| Touch.StalledPass | boards/STM32F429DISC/touch811.py:176-203 | a failing read after any completed passes leaves the log extended and fewer than two bytes of the stream's tail |
| Touch.DrainLogStep | boards/STM32F429DISC/touch811.py:178-203 | each completed pass adds one X, Y, Z, FIFO_SIZE round to the drain's log |
| Touch.Touch811.GetXyzUnique | boards/STM32F429DISC/touch811.py:207-212 | the same drain as GetXyzTouchPoints, with the points passed through `Dedup.Unique`; an empty drain gives an empty list; a failed drain is a BusError leaving the drain `Stalled` |
| Touch.Convert | boards/STM32F429DISC/touch811.py:183-201 | the point reported for one raw sample: both axes calibrated with `Scaled`, then placed by `MapPoint` under the driver's rotation |
| Touch.Points | boards/STM32F429DISC/touch811.py:176-205 | the list `touches` that a drain builds: the converted samples in read order |
| Touch.PointsAt | boards/STM32F429DISC/touch811.py:177-201 | one point per raw sample, the i-th point being the i-th sample converted under the driver's calibration and rotation |
| Touch.PointsSnoc | boards/STM32F429DISC/touch811.py:184-201 | each pass appends its converted sample after the points already collected |
| Fifo.Drain | boards/STM32F429DISC/touch811.py:176-205 | a completed drain consumes at least the first count byte and never more than the stream holds |
| Fifo.DrainFrom | boards/STM32F429DISC/touch811.py:178-203 | the rest of a drain once a count byte has been read never consumes more than the bytes that remain |
| Fifo.DrainIsDrainFrom | boards/STM32F429DISC/touch811.py:176-178 | a drain is its first FIFO_SIZE byte followed by the loop's view of the drain from that count |
| Fifo.DrainAdvance | boards/STM32F429DISC/touch811.py:178-203 | with a nonzero count, a pass fails when fewer than seven replies remain and otherwise adds the sample at the front and moves on to the count right after it |
| Fifo.DrainFinish | boards/STM32F429DISC/touch811.py:178-205 | a zero count ends the drain with the samples read so far |
| Fifo.DrainShape | boards/STM32F429DISC/touch811.py:176-205 | a completed drain of k samples used 7k+1 bytes; the count bytes at 0, 7, ..., 7(k-1) are nonzero, the last one is zero, and sample i is the six bytes after count byte i |
| Fifo.DrainOfShape | boards/STM32F429DISC/touch811.py:176-205 | conversely, a stream with k nonzero counts at 0, 7, ... and a zero count at 7k drains to exactly those k samples |
| Fifo.SamplesAt | boards/STM32F429DISC/touch811.py:179-181 | the first k samples of a drained stream, sample i taken from the data bytes after count byte i |
| Calibration.Trunc | boards/STM32F429DISC/touch811.py:184-201 | Python's `int()` on a real: the integer between zero and the value within distance 1, toward zero for negative values too |
| Calibration.Scaled | boards/STM32F429DISC/touch811.py:184-201 | one calibrated coordinate, `int(raw/4095*pixels*slope + offset)` on exact reals |
| Calibration.MapPoint | boards/STM32F429DISC/touch811.py:183-201 | the four rotation branches: 0 gives (xPix − sx, yPix − sy), 90 gives (yPix − sy, sx), 180 gives (sx, sy), 270 gives (sy, xPix − sx); pressure is raw/255 in each |
| Calibration.QuarterTurn | boards/STM32F429DISC/touch811.py:183-201 | the point for each rotation is the previous rotation's point turned a quarter within that rotation's width, so the four branches are one mapping seen from four sides |
| Calibration.HalfTurn | boards/STM32F429DISC/touch811.py:183-201 | rotations 180 degrees apart report points mirrored through the centre of the display |
| Calibration.PressureOnly | boards/STM32F429DISC/touch811.py:186-201 | the third component is the raw pressure over 255 whatever the rotation, and lies in [0, 1] when the raw value fits a byte |
| Calibration.RawZero | boards/STM32F429DISC/touch811.py:184-186 | a raw reading of 0 calibrates to the offset itself, so rotation 0 reports (xPix − offsetX, yPix − offsetY) with pressure 0 |
| Dedup.CheckXyMatch | boards/STM32F429DISC/touch811.py:215-236 | the loop returns exactly `Unique` of its non-empty input |
| Dedup.Moved | boards/STM32F429DISC/touch811.py:232 | the keep test: x or y differs from the last kept point by more than delta |
| Dedup.KeepFrom | boards/STM32F429DISC/touch811.py:229-234 | the points after the first that the loop keeps, with the last kept point as reference |
| Dedup.Unique | boards/STM32F429DISC/touch811.py:225-236 | `check_xy_match` as a function: the first point, then the points KeepFrom keeps |
| Dedup.UniqueIsSubsequence | boards/STM32F429DISC/touch811.py:225-236 | the output is an order-preserving subsequence of the input; on non-empty input it keeps the first point and has between 1 and len(input) points |
| Dedup.KeepFromIsSubsequence | boards/STM32F429DISC/touch811.py:229-236 | after the first point, the kept points are a subsequence of the rest and no longer than it |
| Dedup.KeepFromSpread | boards/STM32F429DISC/touch811.py:229-236 | each kept point moved more than delta on some axis from the point kept before it |
| Dedup.KeepFromDropped | boards/STM32F429DISC/touch811.py:232-234 | a point within delta of the last kept point is dropped, and that kept point stays the reference |
| Dedup.KeepFromSpreadFixed | boards/STM32F429DISC/touch811.py:229-236 | points already spread apart in that sense are all kept |
| Dedup.UniqueIdempotent | boards/STM32F429DISC/touch811.py:215-236 | deduplicating twice gives the same list as deduplicating once |
| Dedup.KeepFromNoneMoved | boards/STM32F429DISC/touch811.py:229-236 | points that stay within delta of the reference are all dropped |
| Dedup.UniqueCollapses | boards/STM32F429DISC/touch811.py:225-236 | when every point is within delta of the first, only the first is kept |
| Dedup.MovedZero | boards/STM32F429DISC/touch811.py:232 | with delta 0 a point is kept exactly when its (x, y) differs from the last kept one; pressure is ignored |
| Dedup.DropsJitter | boards/STM32F429DISC/touch811.py:215-236 | a concrete input: a point 2 pixels from the first is dropped and a far one kept |
| ByteOrder.BigEndianPair | boards/STM32F429DISC/touch811.py:245-246 | a 2-byte read is `data[0] * 256 + data[1]` |
| ByteOrder.Assemble | boards/STM32F429DISC/touch811.py:243-251 | the value `i2c_read` builds from 1 to 4 bytes with shifts and `|`, written the way the source writes it |
| ByteOrder.AssembleIsBigEndian | boards/STM32F429DISC/touch811.py:243-251 | each of the four shift-and-or branches of `i2c_read` equals the big-endian value of the bytes |
| ByteOrder.BigEndianBound | boards/STM32F429DISC/touch811.py:239-255 | an n-byte read is below 256^n |
| ByteOrder.DecodeEncode | boards/STM32F429DISC/touch811.py:239-255 | decoding the n-byte big-endian encoding of v gives back v |
| ByteOrder.EncodeDecode | boards/STM32F429DISC/touch811.py:239-255 | encoding a read value at its own width gives back the bytes read |
| ByteOrder.AppendByte | boards/STM32F429DISC/touch811.py:249-251 | OR-ing a shifted byte below a value shifted further up is appending that byte |
| ByteOrder.ShiftOrThree | boards/STM32F429DISC/touch811.py:249 | the 3-byte expression equals `(d0*256 + d1)*256 + d2` |
| ByteOrder.ShiftOrFour | boards/STM32F429DISC/touch811.py:251 | the 4-byte expression equals `((d0*256 + d1)*256 + d2)*256 + d3` |
| ByteOrder.BigEndianPrefix | boards/STM32F429DISC/touch811.py:243-251 | the value of the first n bytes is the value of the first n-1 bytes times 256 plus byte n |
| Bits.OrDisjoint | boards/STM32F429DISC/touch811.py:246 | OR-ing a value into the free low bits of a shifted value is the same as adding it |
| Bits.OrShl | boards/STM32F429DISC/touch811.py:249-251 | `|` commutes with a common left shift |
| Bits.AndLowMask | boards/STM32F429DISC/touch811.py:153 | `v & (2^w - 1)` is `v mod 2^w`, as `tsc_cfg_val & 0x07` uses it |
| Bits.AndMask | boards/STM32F429DISC/touch811.py:131-153 | AND with a contiguous mask (0x70, 0xC0, 0x38, 0x07) extracts that field and leaves it in place |
| TscConfig.FieldBits | boards/STM32F429DISC/touch811.py:131-157 | one field's bits: `current & mask` when the argument is None, `arg << shift` otherwise |
| TscConfig.PackCfg | boards/STM32F429DISC/touch811.py:138-161 | the TSC_CFG byte written: `avg + tch_delay + settle_time` |
| TscConfig.PackCtrl | boards/STM32F429DISC/touch811.py:126-162 | the TSC_CTRL byte written: `track_window + touch_mode + EN_TSC` |
| TscConfig.FieldBitsChosen | boards/STM32F429DISC/touch811.py:131-157 | each field's bits, `current & mask` for None or `arg << shift` otherwise, are the chosen field value shifted into place, and that value fits the field |
| TscConfig.UnpackCfg | boards/STM32F429DISC/touch811.py:161 | a packed TSC_CFG byte holds averaging in bits 7:6, touch delay in 5:3 and settling in 2:0, and fits a byte |
| TscConfig.UnpackCtrl | boards/STM32F429DISC/touch811.py:162 | a packed TSC_CTRL byte holds the window in bits 6:4, the mode in 3:1 and the enable bit in 0, and stays below 0x80 |
| TscConfig.PackCfgFields | boards/STM32F429DISC/touch811.py:138-161 | each field of the written TSC_CFG byte is the given argument, or the current register's field when the argument is None |
| TscConfig.PackCtrlFields | boards/STM32F429DISC/touch811.py:126-162 | the written TSC_CTRL byte is below 0x80; its window is the given one or the current register's; its mode is always the given op_mode, never the register's; sensing is enabled |
| TscConfig.CfgSumIsOr | boards/STM32F429DISC/touch811.py:161 | `avg + tch_delay + settle_time` equals `avg | tch_delay | settle_time` |
| TscConfig.CtrlSumIsOr | boards/STM32F429DISC/touch811.py:162 | `track_window + touch_mode + EN_TSC` equals the OR of the three |
| TscConfig.PowerUpCfgFields | boards/STM32F429DISC/touch811.py:48 | CONFIG_TSC = 0xE4 is the TSC_CFG byte for 8-sample averaging (code 3), touch delay code 4 and settling code 4, whatever the register held |
| TscConfig.PowerUpCtrlFields | boards/STM32F429DISC/touch811.py:84-99 | the power-up TSC_CTRL value `(window << 4) + EN_TSC` is what reconfiguring to operating mode 0 with the same window writes |

## Left out

- The `machine.SoftI2C` transport is not part of this model. It is a stub that logs transfers
  and replies from a script. The only bus failure is a read for more bytes than the script holds,
  which the driver propagates as BusError. Writes never fail.
- The FIFO refills asynchronously (touch811.py:203). The model takes every count byte from the
  scripted reply stream, so counts may change arbitrarily between reads. The stream is finite, so
  every drain ends.
- Floating point: the slopes 1.13 and 1.145, `/4095` and `/255` are exact reals in the model, not
  the board's floating-point numbers. `Calibration.Trunc` models `int()` exactly on reals; a
  rounding step before `int()` can make the board's result differ by one pixel.
- The `print` calls of `set_tsc_config` (lines 121, 123, 165, 167) are left out. The read-backs
  they print are kept as bus transfers.
- Interrupt-driven touch detection is not implemented by the driver and not modelled. Nor are the
  unused registers (WDW_*, INT_*, GPIO_*, ADC_*, TSC_DATA_XYZ, TSC_I_DRIVE, TSC_SHIELD,
  TSC_FRACTION_Z, ID_VER, SPI_CFG).
- Python default arguments are not modelled; every argument is explicit. The defaults are
  address 0x41, 240×320 pixels, rotation 0, tracking window 6 (touch811.py:56); op_mode 0 and
  None for window, average, touch_delay and settle (touch811.py:108), which the model passes as
  `Option` values; deviation 5 (touch811.py:207); `bytes=1` for `i2c_read` (touch811.py:239);
  and `delta_xy=5` for `check_xy_match` (touch811.py:215).
- Arguments are integers or None. Python values of other types (a float rotation, a string window)
  are not modelled.
- Dedup.CheckXyMatch: requires a non-empty list. The source indexes the first point and would raise
  IndexError on an empty list; its only caller, `get_xyz_unique`, never passes one.
- Touch.Touch811.GetXyzTouchPoints: when the drain fails part-way, the contract states only that
  the log has grown and which bytes of the stream are left. It does not state the exact log,
  that is, how many passes completed before the failing read. That would need a function locating
  the failure point in the stream; the driver itself promises no state after a bus error.
- Touch.Touch811.GetXyzUnique: the same as GetXyzTouchPoints for a drain that fails part-way.
- Touch.Touch811.Create: the RuntimeError for a wrong chip identity is `ChipIdError`. A bus failure
  during that read is `BusError`.

Behaviour of the code worth noting:

- `set_tsc_config` reads TSC_CFG and TSC_CTRL before it validates its arguments. An invalid
  argument therefore fails after two reads, but before any write.
- The docstring of `set_tsc_config` (touch811.py:111, 117) describes `op_mode` as optional and says
  that parameters not passed in keep the register's value. That does not hold for `op_mode`. Its
  default is 0 (touch811.py:108), so leaving it out writes operating mode 0 and never keeps the
  register's mode bits; `TscConfig.PackCtrlFields` proves that the written mode is always the
  given `op_mode`. Passing None as op_mode is a ValueError, because None is not in `range(5)`
  (touch811.py:126-129). The model follows the code.
- TSC_DATA_Z is commented as an "8 bit value" (touch811.py:36), but the driver reads it as 2 bytes
  and divides the whole value by 255 (touch811.py:181-186). Pressure can therefore exceed 1.0;
  `Calibration.PressureOnly` bounds it only for raw values up to 255.
