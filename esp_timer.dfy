/**
  The periodic esp_timer: the firmware gives it a period in microseconds,
  computed from a period in whole seconds.
 */
module EspTimer {

  /** `seconds * 1000000ULL`: the microsecond period of a timer that fires every `seconds`. */
  function PeriodMicroseconds(seconds: nat): (us: nat)
    ensures us % 1_000_000 == 0 && us / 1_000_000 == seconds
    ensures seconds < 0x1_0000_0000 ==> us < 0x1_0000_0000_0000_0000
  {
    seconds * 1_000_000
  }
}
