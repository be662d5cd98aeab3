/**
 * Compile-time constants of the rp2040 LoRa APRS firmware (include/config.h,
 * include/Settings.h).
 */
module RpConfig {
  /** TRX_BUFFER: radio buffer size, 256 minus the 3-byte LoRa-APRS prefix. */
  const TrxBuffer: nat := 253
  /** MAX_GPIO_USED: number of entries of the GPIO registry. */
  const MaxGpioUsed: nat := 10
  /** TIME_SET_MPPT_WATCHDOG_DFU, in ms. */
  const TimeSetMpptWatchdogDfu: nat := 120000
  /** INTERVAL_BLINKER, in ms. */
  const IntervalBlinker: nat := 1000
  /** TIME_AFTER_BOOT: boot grace period, in ms. */
  const TimeAfterBoot: nat := 90000
  /** TIME_WAIT_TOGGLE_WATCHDOG_MASTER, in ms. */
  const TimeWaitToggleWatchdogMaster: nat := 2000
  /** ENERGY_ADC_BATTERY_SENSE_SAMPLES: samples averaged by the ADC energy task. */
  const EnergyAdcBatterySenseSamples: nat := 15
  /** APRS_CALLSIGNS_HEARD_NUMBER: slots of the received-station history. */
  const AprsCallsignsHeardNumber: nat := 30
}
