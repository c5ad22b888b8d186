/**
 * The bit fields `set_tsc_config` packs into TSC_CFG and TSC_CTRL (touch811.py, lines 126-162).
 * An argument given as None keeps the field's current register bits; a given one replaces them.
 */
module TscConfig {
  import opened Wrappers
  import opened Bits
  import opened ByteOrder
  import opened Registers

  /** The argument is given and in [0, n). */
  predicate InRange(arg: Option<int>, n: int)
  {
    arg.Some? && 0 <= arg.value < n
  }

  /** The argument is None (keep the register bits) or in [0, n). */
  predicate NoneOrInRange(arg: Option<int>, n: int)
  {
    arg.None? || 0 <= arg.value < n
  }

  /** The field value after the update: the argument if given, else the current register's. */
  function Chosen(current: nat, arg: Option<int>, shift: nat, width: nat): nat
    requires NoneOrInRange(arg, Pow2(width))
  {
    if arg.Some? then arg.value else Field(current, shift, width)
  }

  /**
   * One field's bits, as the source computes them: `current & mask` when the argument is None,
   * `arg << shift` otherwise.
   */
  function FieldBits(current: Byte, arg: Option<int>, shift: nat, width: nat): nat
    requires NoneOrInRange(arg, Pow2(width))
  {
    if arg.None? then And(current, Mask(shift, width)) else Shl(arg.value, shift)
  }

  /** Either way, the bits are the chosen field value shifted into place. */
  lemma FieldBitsChosen(current: Byte, arg: Option<int>, shift: nat, width: nat)
    requires NoneOrInRange(arg, Pow2(width))
    ensures FieldBits(current, arg, shift, width) == Shl(Chosen(current, arg, shift, width), shift)
    ensures Chosen(current, arg, shift, width) < Pow2(width)
  {
    if arg.None? {
      AndMask(current, shift, width);
    }
  }

  /** Reading the three TSC_CFG fields back out of a packed byte. */
  lemma UnpackCfg(avg: nat, delay: nat, settle: nat)
    requires avg < 4 && delay < 8 && settle < 8
    ensures var v := Shl(avg, 6) + Shl(delay, 3) + Shl(settle, 0);
      v < 256 && Field(v, 6, 2) == avg && Field(v, 3, 3) == delay && Field(v, 0, 3) == settle
  {
    assert Pow2(0) == 1 && Pow2(2) == 4 && Pow2(3) == 8 && Pow2(6) == 64;
    var v := avg * 64 + delay * 8 + settle;
    DivMulUnique(v, 64, avg, delay * 8 + settle);
    DivMulUnique(v, 8, avg * 8 + delay, settle);
    DivMulUnique(avg * 8 + delay, 8, avg, delay);
  }

  /** Reading the three TSC_CTRL fields back out of a packed byte. */
  lemma UnpackCtrl(window: nat, mode: nat, enable: nat)
    requires window < 8 && mode < 8 && enable < 2
    ensures var v := Shl(window, 4) + Shl(mode, 1) + Shl(enable, 0);
      v < 128 && Field(v, 4, 3) == window && Field(v, 1, 3) == mode && Field(v, 0, 1) == enable
  {
    assert Pow2(0) == 1 && Pow2(1) == 2 && Pow2(3) == 8 && Pow2(4) == 16;
    var v := window * 16 + mode * 2 + enable;
    DivMulUnique(v, 16, window, mode * 2 + enable);
    DivMulUnique(v, 2, window * 8 + mode, enable);
    DivMulUnique(window * 8 + mode, 8, window, mode);
  }

  /**
   * The TSC_CFG byte `set_tsc_config` writes: `avg + tch_delay + settle_time`, each term as
   * FieldBits computes it.
   */
  function PackCfg(cfg: Byte, average: Option<int>, touchDelay: Option<int>, settle: Option<int>): Byte
    requires NoneOrInRange(average, 4) && NoneOrInRange(touchDelay, 8) && NoneOrInRange(settle, 8)
  {
    assert Pow2(2) == 4 && Pow2(3) == 8;
    FieldBitsChosen(cfg, average, 6, 2);
    FieldBitsChosen(cfg, touchDelay, 3, 3);
    FieldBitsChosen(cfg, settle, 0, 3);
    UnpackCfg(Chosen(cfg, average, 6, 2), Chosen(cfg, touchDelay, 3, 3), Chosen(cfg, settle, 0, 3));
    FieldBits(cfg, average, 6, 2) + FieldBits(cfg, touchDelay, 3, 3) + FieldBits(cfg, settle, 0, 3)
  }

  /**
   * Each TSC_CFG field of the written byte holds the given argument, or keeps the current
   * register's bits when the argument is None.
   */
  lemma PackCfgFields(cfg: Byte, average: Option<int>, touchDelay: Option<int>, settle: Option<int>)
    requires NoneOrInRange(average, 4) && NoneOrInRange(touchDelay, 8) && NoneOrInRange(settle, 8)
    ensures var v := PackCfg(cfg, average, touchDelay, settle);
      Field(v, 6, 2) == Chosen(cfg, average, 6, 2)
      && Field(v, 3, 3) == Chosen(cfg, touchDelay, 3, 3)
      && Field(v, 0, 3) == Chosen(cfg, settle, 0, 3)
  {
    var a, d, s := Chosen(cfg, average, 6, 2), Chosen(cfg, touchDelay, 3, 3), Chosen(cfg, settle, 0, 3);
    assert a < 4 && d < 8 && s < 8 && PackCfg(cfg, average, touchDelay, settle) == Shl(a, 6) + Shl(d, 3) + Shl(s, 0) by {
      assert Pow2(2) == 4 && Pow2(3) == 8;
      FieldBitsChosen(cfg, average, 6, 2);
      FieldBitsChosen(cfg, touchDelay, 3, 3);
      FieldBitsChosen(cfg, settle, 0, 3);
    }
    UnpackCfg(a, d, s);
  }

  /**
   * The TSC_CTRL byte `set_tsc_config` writes: `track_window + touch_mode + EN_TSC`.
   */
  function PackCtrl(ctrl: Byte, opMode: int, window: Option<int>): Byte
    requires 0 <= opMode < 5 && NoneOrInRange(window, 8)
  {
    assert Pow2(0) == 1 && Pow2(1) == 2 && Pow2(3) == 8;
    FieldBitsChosen(ctrl, window, 4, 3);
    UnpackCtrl(Chosen(ctrl, window, 4, 3), opMode, EN_TSC);
    FieldBits(ctrl, window, 4, 3) + Shl(opMode, 1) + EN_TSC
  }

  /**
   * The written TSC_CTRL byte stays below 0x80; its window is the given one or the current
   * register's, its operating mode is always the given one, and sensing is enabled.
   */
  lemma PackCtrlFields(ctrl: Byte, opMode: int, window: Option<int>)
    requires 0 <= opMode < 5 && NoneOrInRange(window, 8)
    ensures var v := PackCtrl(ctrl, opMode, window);
      v < 0x80 && Field(v, 4, 3) == Chosen(ctrl, window, 4, 3) && Field(v, 1, 3) == opMode && Field(v, 0, 1) == EN_TSC
  {
    assert Pow2(0) == 1 && Pow2(1) == 2 && Pow2(3) == 8;
    FieldBitsChosen(ctrl, window, 4, 3);
    UnpackCtrl(Chosen(ctrl, window, 4, 3), opMode, EN_TSC);
  }

  /** The fields are disjoint, so the source's `+` is the same as `|`. */
  lemma CfgSumIsOr(avg: nat, delay: nat, settle: nat)
    requires avg < 4 && delay < 8 && settle < 8
    ensures Shl(avg, 6) + Shl(delay, 3) + settle == Or(Or(Shl(avg, 6), Shl(delay, 3)), settle)
  {
    var high := Shl(avg, 3) + delay;
    assert Or(Shl(avg, 6), Shl(delay, 3)) == Shl(high, 3) by {
      ShlShl(avg, 3, 3);
      OrShl(Shl(avg, 3), delay, 3);
      assert Pow2(3) == 8;
      OrDisjoint(avg, delay, 3);
    }
    assert Shl(high, 3) == Shl(avg, 6) + Shl(delay, 3) by {
      ShlAdd(Shl(avg, 3), delay, 3);
      ShlShl(avg, 3, 3);
    }
    assert Or(Shl(high, 3), settle) == Shl(high, 3) + settle by {
      assert Pow2(3) == 8;
      OrDisjoint(high, settle, 3);
    }
  }

  /** The same for TSC_CTRL: `track_window + touch_mode + EN_TSC` equals their `|`. */
  lemma CtrlSumIsOr(window: nat, mode: nat)
    requires window < 8 && mode < 8
    ensures Shl(window, 4) + Shl(mode, 1) + EN_TSC == Or(Or(Shl(window, 4), Shl(mode, 1)), EN_TSC)
  {
    var high := Shl(window, 3) + mode;
    assert Or(Shl(window, 4), Shl(mode, 1)) == Shl(high, 1) by {
      ShlShl(window, 3, 1);
      OrShl(Shl(window, 3), mode, 1);
      assert Pow2(3) == 8;
      OrDisjoint(window, mode, 3);
    }
    assert Shl(high, 1) == Shl(window, 4) + Shl(mode, 1) by {
      ShlAdd(Shl(window, 3), mode, 1);
      ShlShl(window, 3, 1);
    }
    assert Or(Shl(high, 1), EN_TSC) == Shl(high, 1) + EN_TSC by {
      assert Pow2(1) == 2;
      OrDisjoint(high, EN_TSC, 1);
    }
  }

  /**
   * The power-up TSC_CFG value CONFIG_TSC is what `set_tsc_config` would write for averaging
   * code 3 (8 samples), touch-delay code 4 and settling code 4, whatever the register held.
   */
  lemma PowerUpCfgFields(cfg: Byte)
    ensures PackCfg(cfg, Some(3), Some(4), Some(4)) == CONFIG_TSC
  {
    assert Pow2(3) == 8 && Pow2(6) == 64;
  }

  /**
   * The power-up TSC_CTRL value `(window << 4) + EN_TSC` is what `set_tsc_config` would write
   * for operating mode 0 (X, Y and Z) and the same tracking window.
   */
  lemma PowerUpCtrlFields(ctrl: Byte, window: int)
    requires 0 <= window < 8
    ensures PackCtrl(ctrl, 0, Some(window)) == Shl(window, 4) + EN_TSC
  {
  }
}
