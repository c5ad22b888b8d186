/**
 * The STMPE811 register addresses and control values the driver uses, with the driver's
 * default calibration (touch811.py, lines 12-55).
 */
module Registers {
  import opened ByteOrder

  const CHIP_ID: Byte := 0x00      // 16-bit identity register
  const SYS_CTRL1: Byte := 0x03    // bit 1: soft reset
  const SYS_CTRL2: Byte := 0x04    // clock gates, active low
  const TSC_CTRL: Byte := 0x40     // tracking window [6:4], operating mode [3:1], enable [0]
  const TSC_CFG: Byte := 0x41      // averaging [7:6], touch-detect delay [5:3], settling [2:0]
  const FIFO_TH: Byte := 0x4A      // FIFO threshold, must not be 0
  const FIFO_STA: Byte := 0x4B     // FIFO status, bit 0 resets the FIFO
  const FIFO_SIZE: Byte := 0x4C    // samples waiting in the FIFO
  const TSC_DATA_X: Byte := 0x4D   // 12-bit X sample
  const TSC_DATA_Y: Byte := 0x4F   // 12-bit Y sample
  const TSC_DATA_Z: Byte := 0x51   // pressure sample

  const SW_RESET: Byte := 0x02
  const CLEAR_FIFO: Byte := 0x01
  const STMPE811_ID: nat := 0x0811
  const EN_TSC: Byte := 0x01
  /** 8-sample averaging, touch-detect delay code 4, settling code 4. */
  const CONFIG_TSC: Byte := 0xE4
  /** Clocks on for temperature sensor, touch controller and ADC; GPIO clock off. */
  const TS_ON_GPIO_OFF_TSC_ON_ADC_ON: Byte := 0x04
  /** Threshold written to FIFO_TH at power-up. */
  const FIFO_THRESHOLD: Byte := 0x01

  const SLOPE_X: real := 1.13
  const SLOPE_Y: real := 1.145
  const OFFSET_X: int := -15
  const OFFSET_Y: int := -13
}
