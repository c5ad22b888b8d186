/**
 * The STMPE811 touch-screen driver (touch811.py, class Touch811): register access over the bus,
 * power-up, reconfiguration, FIFO draining and deduplicated touch points.
 */
module Touch {
  import opened Wrappers
  import opened Bits
  import opened ByteOrder
  import opened Registers
  import opened SoftI2CBus
  import opened TscConfig
  import opened Calibration
  import opened Fifo
  import Dedup

  /** The argument a ValueError names. */
  datatype Arg = RotationArg | TrackingWindowArg | BytesArg | OpModeArg | WindowArg | AverageArg | TouchDelayArg | SettleArg

  /** ValueError and RuntimeError as the driver raises them; BusError for a failed transfer. */
  datatype Error = ValueError(arg: Arg) | ChipIdError | BusError

  /** `i2c_read`: select the register, then read `count` bytes. */
  function RegRead(addr: int, reg: Byte, count: nat): seq<Txn>
  {
    [Write(addr, [reg]), Read(addr, count)]
  }

  /** `i2c_write`: one two-byte transfer. */
  function RegWrite(addr: int, reg: Byte, value: Byte): seq<Txn>
  {
    [Write(addr, [reg, value])]
  }

  /** The register writes of the power-up sequence, in order (touch811.py, lines 94-99). */
  function PowerUpWrites(addr: int, trackingWindow: int): seq<Txn>
    requires 0 <= trackingWindow < 8
  {
    assert Pow2(4) == 16;
    RegWrite(addr, SYS_CTRL1, SW_RESET)
      + RegWrite(addr, SYS_CTRL2, TS_ON_GPIO_OFF_TSC_ON_ADC_ON)
      + RegWrite(addr, FIFO_TH, FIFO_THRESHOLD)
      + RegWrite(addr, TSC_CFG, CONFIG_TSC)
      + RegWrite(addr, TSC_CTRL, Shl(trackingWindow, 4) + EN_TSC)
  }

  /** The writes of `set_tsc_config`: disable sensing, reset the FIFO, configure, re-enable. */
  function ConfigWrites(addr: int, cfg: Byte, ctrl: Byte): seq<Txn>
  {
    RegWrite(addr, TSC_CTRL, 0x00)
      + RegWrite(addr, FIFO_STA, CLEAR_FIFO)
      + RegWrite(addr, TSC_CFG, cfg)
      + RegWrite(addr, TSC_CTRL, ctrl)
  }

  /** The reads of one pass of the drain loop. */
  function SampleReads(addr: int): seq<Txn>
  {
    RegRead(addr, TSC_DATA_X, 2) + RegRead(addr, TSC_DATA_Y, 2) + RegRead(addr, TSC_DATA_Z, 2) + RegRead(addr, FIFO_SIZE, 1)
  }

  /**
   * The transfers of a pass that stops with only `n` replies left: each 2-byte read (X, Y,
   * pressure) is issued while the replies last, the first one that finds too few fails, and with
   * six left the closing FIFO_SIZE read is the one that fails.
   */
  function PartialPass(addr: int, n: nat): seq<Txn>
    requires n < 7
  {
    if n < 2 then RegRead(addr, TSC_DATA_X, 2)
    else if n < 4 then RegRead(addr, TSC_DATA_X, 2) + RegRead(addr, TSC_DATA_Y, 2)
    else if n < 6 then RegRead(addr, TSC_DATA_X, 2) + RegRead(addr, TSC_DATA_Y, 2) + RegRead(addr, TSC_DATA_Z, 2)
    else SampleReads(addr)
  }

  /** A pass cut short issues a nonempty prefix of a full pass's reads, the whole of it only when the last read fails. */
  lemma PartialPassPrefix(addr: int, n: nat)
    requires n < 7
    ensures 0 < |PartialPass(addr, n)| <= |SampleReads(addr)|
    ensures PartialPass(addr, n) == SampleReads(addr)[..|PartialPass(addr, n)|]
    ensures PartialPass(addr, n) == SampleReads(addr) <==> n == 6
  {
  }

  /**
   * What a drain that fails leaves behind: the log has only grown, and the replies left are the
   * last bytes of the stream, fewer than the two that the failing read asked for.
   */
  predicate Stalled(log0: seq<Txn>, log: seq<Txn>, s0: seq<Byte>, s: seq<Byte>)
  {
    |log0| < |log| && log[..|log0|] == log0 && |s| < 2 && |s| <= |s0| && s == s0[|s0| - |s|..]
  }

  /** The transactions of a drain that read `k` samples. */
  function DrainLog(addr: int, k: nat): seq<Txn>
  {
    if k == 0 then RegRead(addr, FIFO_SIZE, 1) else DrainLog(addr, k - 1) + SampleReads(addr)
  }

  lemma DrainLogStep(log0: seq<Txn>, addr: int, k: nat)
    ensures log0 + DrainLog(addr, k) + SampleReads(addr) == log0 + DrainLog(addr, k + 1)
  {
    assert log0 + DrainLog(addr, k) + SampleReads(addr) == log0 + (DrainLog(addr, k) + SampleReads(addr));
  }

  /**
   * A read that fails after `done` and `partial` were logged, with fewer than two of the stream's
   * replies left once `used + m` were consumed, leaves the drain stalled.
   */
  lemma StalledPass(log0: seq<Txn>, done: seq<Txn>, partial: seq<Txn>, s0: seq<Byte>, used: nat, m: nat)
    requires |partial| > 0 && used + m <= |s0| && |s0| - (used + m) < 2
    ensures Stalled(log0, log0 + done + partial, s0, s0[used..][m..])
  {
    assert s0[used..][m..] == s0[used + m..];
    assert (log0 + done + partial)[..|log0|] == log0;
  }

  /**
   * The first argument `set_tsc_config` rejects, checked in the source's order; None when all are
   * acceptable. Passing None for the operating mode is rejected like an out-of-range value.
   */
  function FirstInvalid(opMode: Option<int>, window: Option<int>, average: Option<int>, touchDelay: Option<int>, settle: Option<int>): (bad: Option<Arg>)
    ensures bad.None? <==> InRange(opMode, 5) && NoneOrInRange(window, 8) && NoneOrInRange(average, 4)
                           && NoneOrInRange(touchDelay, 8) && NoneOrInRange(settle, 8)
    ensures bad == Some(OpModeArg) <==> !InRange(opMode, 5)
    ensures bad == Some(WindowArg) <==> InRange(opMode, 5) && !NoneOrInRange(window, 8)
    ensures bad == Some(AverageArg) <==> InRange(opMode, 5) && NoneOrInRange(window, 8) && !NoneOrInRange(average, 4)
    ensures bad == Some(TouchDelayArg) <==>
      InRange(opMode, 5) && NoneOrInRange(window, 8) && NoneOrInRange(average, 4) && !NoneOrInRange(touchDelay, 8)
    ensures bad == Some(SettleArg) <==>
      InRange(opMode, 5) && NoneOrInRange(window, 8) && NoneOrInRange(average, 4) && NoneOrInRange(touchDelay, 8)
      && !NoneOrInRange(settle, 8)
    ensures bad.Some? ==> bad.value in {OpModeArg, WindowArg, AverageArg, TouchDelayArg, SettleArg}
  {
    if !InRange(opMode, 5) then Some(OpModeArg)
    else if !NoneOrInRange(window, 8) then Some(WindowArg)
    else if !NoneOrInRange(average, 4) then Some(AverageArg)
    else if !NoneOrInRange(touchDelay, 8) then Some(TouchDelayArg)
    else if !NoneOrInRange(settle, 8) then Some(SettleArg)
    else None
  }

  /** A driver's screen geometry and calibration: what converting a raw sample depends on. */
  datatype Calib = Calib(rotation: Rotation, xPix: int, yPix: int, mX: real, mY: real, bX: int, bY: int)

  /** The point reported for one raw sample (touch811.py, lines 183-201). */
  function Convert(c: Calib, raw: RawSample): Point
  {
    MapPoint(c.rotation, c.xPix, c.yPix, Scaled(raw.x, c.xPix, c.mX, c.bX), Scaled(raw.y, c.yPix, c.mY, c.bY), raw.z)
  }

  /** The points reported for a drain's samples, converted one by one in read order. */
  function Points(c: Calib, raws: seq<RawSample>): seq<Point>
  {
    if raws == [] then [] else Points(c, raws[..|raws| - 1]) + [Convert(c, raws[|raws| - 1])]
  }

  lemma PointsSnoc(c: Calib, raws: seq<RawSample>, raw: RawSample)
    ensures Points(c, raws + [raw]) == Points(c, raws) + [Convert(c, raw)]
  {
    assert (raws + [raw])[..|raws|] == raws;
  }

  /** One point per sample, the i-th point being the i-th sample converted. */
  lemma {:induction false} PointsAt(c: Calib, raws: seq<RawSample>)
    ensures |Points(c, raws)| == |raws|
    ensures forall i :: 0 <= i < |raws| ==> Points(c, raws)[i] == Convert(c, raws[i])
  {
    if raws != [] {
      var init := raws[..|raws| - 1];
      PointsAt(c, init);
      assert forall i :: 0 <= i < |init| ==> raws[i] == init[i];
    }
  }

  class Touch811 {
    const bus: SoftI2C
    const address: int
    const xPix: int
    const yPix: int
    const rotation: Rotation
    var mX: real
    var mY: real
    var bX: int
    var bY: int

    /** The fields as `__init__` sets them, before it touches the bus (touch811.py, lines 68-79). */
    constructor (bus: SoftI2C, address: int, xPixels: int, yPixels: int, rotation: Rotation)
      ensures this.bus == bus && this.address == address && xPix == xPixels && yPix == yPixels
      ensures this.rotation == rotation
      ensures mX == SLOPE_X && mY == SLOPE_Y && bX == OFFSET_X && bY == OFFSET_Y
    {
      this.bus := bus;
      this.address := address;
      xPix := xPixels;
      yPix := yPixels;
      mX, mY, bX, bY := SLOPE_X, SLOPE_Y, OFFSET_X, OFFSET_Y;
      this.rotation := rotation;
    }

    /**
     * `__init__`: reject a bad rotation or tracking window before any transfer, check the chip
     * identity, then run the power-up sequence.
     */
    static method Create(bus: SoftI2C, address: int, xPixels: int, yPixels: int, rotation: int, trackingWindow: int)
      returns (r: Result<Touch811, Error>)
      modifies bus
      ensures !IsRotation(rotation) ==> r == Err(ValueError(RotationArg)) && unchanged(bus)
      ensures IsRotation(rotation) && !(0 <= trackingWindow < 8) ==> r == Err(ValueError(TrackingWindowArg)) && unchanged(bus)
      ensures IsRotation(rotation) && 0 <= trackingWindow < 8 && |old(bus.replies)| < 2 ==>
        r == Err(BusError) && bus.log == old(bus.log) + RegRead(address, CHIP_ID, 2) && bus.replies == old(bus.replies)
      ensures IsRotation(rotation) && 0 <= trackingWindow < 8 && |old(bus.replies)| >= 2 ==>
        bus.replies == old(bus.replies)[2..]
      ensures IsRotation(rotation) && 0 <= trackingWindow < 8 && |old(bus.replies)| >= 2
              && BigEndian(old(bus.replies)[..2]) != STMPE811_ID ==>
        r == Err(ChipIdError) && bus.log == old(bus.log) + RegRead(address, CHIP_ID, 2)
      ensures IsRotation(rotation) && 0 <= trackingWindow < 8 && |old(bus.replies)| >= 2
              && BigEndian(old(bus.replies)[..2]) == STMPE811_ID ==>
        r.Ok? && fresh(r.value)
        && r.value.bus == bus && r.value.address == address && r.value.xPix == xPixels && r.value.yPix == yPixels
        && r.value.rotation == rotation
        && r.value.mX == SLOPE_X && r.value.mY == SLOPE_Y && r.value.bX == OFFSET_X && r.value.bY == OFFSET_Y
        && bus.log == old(bus.log) + RegRead(address, CHIP_ID, 2) + PowerUpWrites(address, trackingWindow)
    {
      if !IsRotation(rotation) {
        return Err(ValueError(RotationArg));
      }
      if !(0 <= trackingWindow < 8) {
        return Err(ValueError(TrackingWindowArg));
      }
      var trackWindow := Shl(trackingWindow, 4);
      assert Pow2(4) == 16;
      var t := new Touch811(bus, address, xPixels, yPixels, rotation);
      var chipId := t.I2cRead(CHIP_ID, 2);
      if chipId.Err? {
        return Err(chipId.error);
      }
      if chipId.value != STMPE811_ID {
        return Err(ChipIdError);
      }
      t.I2cWrite(SYS_CTRL1, SW_RESET);
      t.I2cWrite(SYS_CTRL2, TS_ON_GPIO_OFF_TSC_ON_ADC_ON);
      t.I2cWrite(FIFO_TH, FIFO_THRESHOLD);
      t.I2cWrite(TSC_CFG, CONFIG_TSC);
      t.I2cWrite(TSC_CTRL, trackWindow + EN_TSC);
      return Ok(t);
    }

    /**
     * `i2c_read`: 1 to 4 bytes, most significant first. Any other count is a ValueError before
     * any transfer; a transfer the bus cannot complete is a BusError.
     */
    method I2cRead(reg: Byte, bytes: int) returns (r: Result<nat, Error>)
      modifies bus
      ensures !(1 <= bytes <= 4) ==> r == Err(ValueError(BytesArg)) && unchanged(bus)
      ensures 1 <= bytes <= 4 ==> bus.log == old(bus.log) + RegRead(address, reg, bytes)
      ensures 1 <= bytes <= 4 && bytes <= |old(bus.replies)| ==>
        r == Ok(BigEndian(old(bus.replies)[..bytes])) && bus.replies == old(bus.replies)[bytes..]
      ensures 1 <= bytes <= 4 && bytes > |old(bus.replies)| ==>
        r == Err(BusError) && bus.replies == old(bus.replies)
    {
      if 1 <= bytes <= 4 {
        bus.WriteTo(address, [reg]);
        var data := bus.ReadFrom(address, bytes);
        if data.None? {
          return Err(BusError);
        }
        AssembleIsBigEndian(data.value);
        return Ok(Assemble(data.value));
      } else {
        return Err(ValueError(BytesArg));
      }
    }

    /** `i2c_write`: one `[reg, value]` transfer. */
    method I2cWrite(reg: Byte, value: Byte)
      modifies bus
      ensures bus.log == old(bus.log) + RegWrite(address, reg, value)
      ensures bus.replies == old(bus.replies)
    {
      bus.WriteTo(address, [reg, value]);
    }

    /** `is_touched`: whether the FIFO holds any sample. */
    method IsTouched() returns (r: Result<bool, Error>)
      modifies bus
      ensures bus.log == old(bus.log) + RegRead(address, FIFO_SIZE, 1)
      ensures |old(bus.replies)| == 0 ==> r == Err(BusError) && bus.replies == old(bus.replies)
      ensures |old(bus.replies)| > 0 ==> r == Ok(old(bus.replies)[0] > 0) && bus.replies == old(bus.replies)[1..]
    {
      var numTouches := I2cRead(FIFO_SIZE, 1);
      if numTouches.Err? {
        return Err(numTouches.error);
      }
      assert old(bus.replies)[..1] == [old(bus.replies)[0]];
      assert old(bus.replies)[..1][..0] == [];
      if numTouches.value == 0 {
        return Ok(false);
      } else {
        return Ok(true);
      }
    }

    /** `get_num_touches`: the FIFO's sample count. */
    method GetNumTouches() returns (r: Result<nat, Error>)
      modifies bus
      ensures bus.log == old(bus.log) + RegRead(address, FIFO_SIZE, 1)
      ensures |old(bus.replies)| == 0 ==> r == Err(BusError) && bus.replies == old(bus.replies)
      ensures |old(bus.replies)| > 0 ==> r == Ok(old(bus.replies)[0]) && bus.replies == old(bus.replies)[1..]
    {
      r := I2cRead(FIFO_SIZE, 1);
      assert |old(bus.replies)| > 0 ==> old(bus.replies)[..1] == [old(bus.replies)[0]];
      assert |old(bus.replies)| > 0 ==> old(bus.replies)[..1][..0] == [];
    }

    /**
     * `set_tsc_config`: read TSC_CFG and TSC_CTRL, validate every argument before any write, then
     * disable sensing, reset the FIFO, write both registers and read them back.
     */
    method SetTscConfig(opMode: Option<int>, window: Option<int>, average: Option<int>, touchDelay: Option<int>, settle: Option<int>)
      returns (r: Result<(), Error>)
      modifies bus
      ensures |old(bus.replies)| == 0 ==>
        r == Err(BusError) && bus.log == old(bus.log) + RegRead(address, TSC_CFG, 1) && bus.replies == old(bus.replies)
      ensures |old(bus.replies)| == 1 ==>
        r == Err(BusError) && bus.log == old(bus.log) + RegRead(address, TSC_CFG, 1) + RegRead(address, TSC_CTRL, 1)
        && bus.replies == old(bus.replies)[1..]
      ensures |old(bus.replies)| >= 2 && FirstInvalid(opMode, window, average, touchDelay, settle).Some? ==>
        r == Err(ValueError(FirstInvalid(opMode, window, average, touchDelay, settle).value))
        && bus.log == old(bus.log) + RegRead(address, TSC_CFG, 1) + RegRead(address, TSC_CTRL, 1)
        && bus.replies == old(bus.replies)[2..]
      ensures |old(bus.replies)| >= 2 && FirstInvalid(opMode, window, average, touchDelay, settle).None? ==>
        var cfg := PackCfg(old(bus.replies)[0], average, touchDelay, settle);
        var ctrl := PackCtrl(old(bus.replies)[1], opMode.value, window);
        bus.log == old(bus.log) + RegRead(address, TSC_CFG, 1) + RegRead(address, TSC_CTRL, 1)
                   + ConfigWrites(address, cfg, ctrl)
                   + (if |old(bus.replies)| == 2 then RegRead(address, TSC_CFG, 1)
                      else RegRead(address, TSC_CFG, 1) + RegRead(address, TSC_CTRL, 1))
        && r == (if |old(bus.replies)| >= 4 then Ok(()) else Err(BusError))
        && bus.replies == old(bus.replies)[(if |old(bus.replies)| < 4 then |old(bus.replies)| else 4)..]
    {
      ghost var s := bus.replies;
      var cfgRead := I2cRead(TSC_CFG, 1);
      if cfgRead.Err? {
        return Err(cfgRead.error);
      }
      var ctrlRead := I2cRead(TSC_CTRL, 1);
      if ctrlRead.Err? {
        return Err(ctrlRead.error);
      }
      assert s[..1] == [s[0]] && s[1..][..1] == [s[1]];
      assert [s[0]][..0] == [] && [s[1]][..0] == [];
      var values := ConfigValues(cfgRead.value, ctrlRead.value, opMode, window, average, touchDelay, settle);
      if values.Err? {
        return Err(values.error);
      }
      r := WriteConfig(values.value.0, values.value.1);
    }

    /**
     * The validation and field arithmetic of `set_tsc_config`, from the current TSC_CFG and TSC_CTRL
     * values: each argument is checked in turn and turned into its field's bits, and the two new
     * register values are the sums of those bits.
     */
    static method ConfigValues(tscCfgVal: Byte, tscCtrlVal: Byte, opMode: Option<int>, window: Option<int>,
                               average: Option<int>, touchDelay: Option<int>, settle: Option<int>)
      returns (r: Result<(Byte, Byte), Error>)
      ensures FirstInvalid(opMode, window, average, touchDelay, settle).Some? ==>
        r == Err(ValueError(FirstInvalid(opMode, window, average, touchDelay, settle).value))
      ensures FirstInvalid(opMode, window, average, touchDelay, settle).None? ==>
        r == Ok((PackCfg(tscCfgVal, average, touchDelay, settle), PackCtrl(tscCtrlVal, opMode.value, window)))
    {
      if !InRange(opMode, 5) {
        return Err(ValueError(OpModeArg));
      }
      var touchMode := Shl(opMode.value, 1);
      assert Pow2(2) == 4 && Pow2(3) == 8;
      if !NoneOrInRange(window, 8) {
        return Err(ValueError(WindowArg));
      }
      var trackWindow := FieldBits(tscCtrlVal, window, 4, 3);
      if !NoneOrInRange(average, 4) {
        return Err(ValueError(AverageArg));
      }
      var avg := FieldBits(tscCfgVal, average, 6, 2);
      if !NoneOrInRange(touchDelay, 8) {
        return Err(ValueError(TouchDelayArg));
      }
      var tchDelay := FieldBits(tscCfgVal, touchDelay, 3, 3);
      if !NoneOrInRange(settle, 8) {
        return Err(ValueError(SettleArg));
      }
      var settleTime := FieldBits(tscCfgVal, settle, 0, 3);
      assert avg + tchDelay + settleTime == PackCfg(tscCfgVal, average, touchDelay, settle);
      assert trackWindow + touchMode + EN_TSC == PackCtrl(tscCtrlVal, opMode.value, window);
      return Ok((avg + tchDelay + settleTime, trackWindow + touchMode + EN_TSC));
    }

    /** The tail of `set_tsc_config` once its arguments are validated: four writes, two read-backs. */
    method WriteConfig(cfg: Byte, ctrl: Byte) returns (r: Result<(), Error>)
      modifies bus
      ensures bus.log == old(bus.log) + ConfigWrites(address, cfg, ctrl)
                         + (if |old(bus.replies)| == 0 then RegRead(address, TSC_CFG, 1)
                            else RegRead(address, TSC_CFG, 1) + RegRead(address, TSC_CTRL, 1))
      ensures r == (if |old(bus.replies)| >= 2 then Ok(()) else Err(BusError))
      ensures bus.replies == old(bus.replies)[(if |old(bus.replies)| < 2 then |old(bus.replies)| else 2)..]
    {
      I2cWrite(TSC_CTRL, 0x00);
      I2cWrite(FIFO_STA, CLEAR_FIFO);
      I2cWrite(TSC_CFG, cfg);
      I2cWrite(TSC_CTRL, ctrl);
      var cfgBack := I2cRead(TSC_CFG, 1);
      if cfgBack.Err? {
        return Err(cfgBack.error);
      }
      var ctrlBack := I2cRead(TSC_CTRL, 1);
      if ctrlBack.Err? {
        return Err(ctrlBack.error);
      }
      return Ok(());
    }

    /** This driver's screen geometry and current calibration. */
    function Cal(): Calib
      reads this
    {
      Calib(rotation, xPix, yPix, mX, mY, bX, bY)
    }

    /**
     * `get_xyz_touch_points`: read FIFO_SIZE; while it is nonzero, read X, Y and pressure, convert
     * them to one point and read FIFO_SIZE again.
     */
    method GetXyzTouchPoints() returns (r: Result<seq<Point>, Error>)
      modifies bus
      ensures Drain(old(bus.replies)).None? ==>
        r == Err(BusError) && Stalled(old(bus.log), bus.log, old(bus.replies), bus.replies)
      ensures Drain(old(bus.replies)).Some? ==>
        r == Ok(Points(Cal(), Drain(old(bus.replies)).value.0))
        && bus.replies == old(bus.replies)[Drain(old(bus.replies)).value.1..]
        && bus.log == old(bus.log) + DrainLog(address, |Drain(old(bus.replies)).value.0|)
    {
      ghost var s0 := bus.replies;
      ghost var log0 := bus.log;
      var cal := Cal();
      var count := I2cRead(FIFO_SIZE, 1);
      if count.Err? {
        StalledPass(log0, [], RegRead(address, FIFO_SIZE, 1), s0, 0, 0);
        assert log0 + [] == log0;
        return Err(count.error);
      }
      var numTouches: nat := count.value;
      assert numTouches == s0[0] by {
        assert s0[..1] == [s0[0]] && [s0[0]][..0] == [];
      }
      DrainIsDrainFrom(s0);
      ghost var outcome := Drain(s0);
      var touches: seq<Point> := [];
      ghost var raws: seq<RawSample> := [];
      ghost var used: nat := 1;
      while numTouches > 0
        invariant used <= |s0| && bus.replies == s0[used..]
        invariant outcome == Prepend(raws, used, DrainFrom(numTouches, bus.replies))
        invariant touches == Points(cal, raws)
        invariant bus.log == log0 + DrainLog(address, |raws|)
        decreases |bus.replies|
      {
        ghost var rest := bus.replies;
        DrainAdvance(outcome, raws, used, numTouches, rest);
        var pass := ReadPass();
        if pass.Err? {
          PartialPassPrefix(address, |rest|);
          StalledPass(log0, DrainLog(address, |raws|), PartialPass(address, |rest|), s0, used, |rest| / 2 * 2);
          return Err(pass.error);
        }
        DrainLogStep(log0, address, |raws|);
        var raw := pass.value.0;
        touches := touches + [Convert(cal, raw)];
        numTouches := pass.value.1;
        PointsSnoc(cal, raws, raw);
        SuffixStep(s0, used, rest);
        raws := raws + [raw];
        used := used + 7;
      }
      DrainFinish(outcome, raws, used, bus.replies);
      return Ok(touches);
    }

    /**
     * One pass of the loop in `get_xyz_touch_points` (touch811.py, lines 179-203): read X, Y and
     * pressure, then FIFO_SIZE again.
     */
    method ReadPass() returns (r: Result<(RawSample, nat), Error>)
      modifies bus
      ensures |old(bus.replies)| < 7 ==>
        r == Err(BusError) && bus.log == old(bus.log) + PartialPass(address, |old(bus.replies)|)
        && bus.replies == old(bus.replies)[|old(bus.replies)| / 2 * 2..]
      ensures |old(bus.replies)| >= 7 ==>
        r == Ok((SampleAt(old(bus.replies), 0), old(bus.replies)[6])) && bus.replies == old(bus.replies)[7..]
        && bus.log == old(bus.log) + SampleReads(address)
    {
      ghost var s := bus.replies;
      ghost var log1 := bus.log;
      var xRaw := ReadWord(TSC_DATA_X);
      if xRaw.Err? {
        assert |s| / 2 * 2 == 0 && s[0..] == s;
        return Err(xRaw.error);
      }
      var yRaw := ReadWord(TSC_DATA_Y);
      if yRaw.Err? {
        assert |s| / 2 * 2 == 2;
        assert bus.log == log1 + PartialPass(address, |s|) by {
          assert log1 + RegRead(address, TSC_DATA_X, 2) + RegRead(address, TSC_DATA_Y, 2)
              == log1 + (RegRead(address, TSC_DATA_X, 2) + RegRead(address, TSC_DATA_Y, 2));
        }
        return Err(yRaw.error);
      }
      assert s[2..][0] == s[2] && s[2..][1] == s[3];
      var pressureRaw := ReadWord(TSC_DATA_Z);
      var xy := RegRead(address, TSC_DATA_X, 2) + RegRead(address, TSC_DATA_Y, 2);
      assert log1 + RegRead(address, TSC_DATA_X, 2) + RegRead(address, TSC_DATA_Y, 2) == log1 + xy;
      if pressureRaw.Err? {
        assert |s| / 2 * 2 == 4 && s[2..][2..] == s[4..];
        assert bus.log == log1 + PartialPass(address, |s|) by {
          assert log1 + xy + RegRead(address, TSC_DATA_Z, 2) == log1 + (xy + RegRead(address, TSC_DATA_Z, 2));
        }
        return Err(pressureRaw.error);
      }
      assert s[2..][2..] == s[4..] && s[4..][0] == s[4] && s[4..][1] == s[5];
      var numTouches := I2cRead(FIFO_SIZE, 1);
      var xyz := xy + RegRead(address, TSC_DATA_Z, 2);
      assert log1 + xy + RegRead(address, TSC_DATA_Z, 2) == log1 + xyz;
      if numTouches.Err? {
        assert |s| / 2 * 2 == 6 && s[4..][2..] == s[6..];
        assert bus.log == log1 + PartialPass(address, |s|) by {
          assert log1 + xyz + RegRead(address, FIFO_SIZE, 1) == log1 + (xyz + RegRead(address, FIFO_SIZE, 1));
        }
        return Err(numTouches.error);
      }
      assert s[4..][2..] == s[6..] && s[6..][..1] == [s[6]] && [s[6]][..0] == [];
      assert bus.log == log1 + SampleReads(address) by {
        assert log1 + xyz + RegRead(address, FIFO_SIZE, 1) == log1 + (xyz + RegRead(address, FIFO_SIZE, 1));
      }
      return Ok((RawSample(xRaw.value, yRaw.value, pressureRaw.value), numTouches.value));
    }

    /** `i2c_read(reg, 2)`: a 16-bit register, high byte first. */
    method ReadWord(reg: Byte) returns (r: Result<nat, Error>)
      modifies bus
      ensures bus.log == old(bus.log) + RegRead(address, reg, 2)
      ensures |old(bus.replies)| < 2 ==> r == Err(BusError) && bus.replies == old(bus.replies)
      ensures |old(bus.replies)| >= 2 ==>
        r == Ok(Word(old(bus.replies)[0], old(bus.replies)[1])) && bus.replies == old(bus.replies)[2..]
    {
      ghost var s := bus.replies;
      r := I2cRead(reg, 2);
      if r.Ok? {
        BigEndianPair(s[..2]);
      }
    }

    /** `get_xyz_unique`: drain the FIFO, then keep only points that moved more than `deviation`. */
    method GetXyzUnique(deviation: int) returns (r: Result<seq<Point>, Error>)
      modifies bus
      ensures Drain(old(bus.replies)).None? ==>
        r == Err(BusError) && Stalled(old(bus.log), bus.log, old(bus.replies), bus.replies)
      ensures Drain(old(bus.replies)).Some? ==>
        var (raws, used) := Drain(old(bus.replies)).value;
        r == Ok(Dedup.Unique(Points(Cal(), raws), deviation)) && bus.replies == old(bus.replies)[used..]
        && bus.log == old(bus.log) + DrainLog(address, |raws|)
    {
      var allTouches := GetXyzTouchPoints();
      if allTouches.Err? {
        return allTouches;
      }
      if |allTouches.value| != 0 {
        var unique := Dedup.CheckXyMatch(allTouches.value, deviation);
        return Ok(unique);
      } else {
        return allTouches;
      }
    }
  }
}
