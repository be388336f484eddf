/*
 * The persisted configuration record of the single-airport lamp firmware,
 * with its default values and the ranges its fields are documented to take.
 */
module LampTypes {
  import opened Gpio
  import opened LedAdmin

  datatype AppConfig = AppConfig(
    // provisioned by the factory
    deviceSsid: string,
    avwxToken: string,
    wifiSsid: string,
    wifiPass: string,
    // settings
    airportCode: string,
    brightness: int,
    // schedule
    scheduleEnabled: bool,
    startHour: int,
    startMinute: int,
    endHour: int,
    endMinute: int,
    timezonePref: string,
    // mode
    displayMode: int,
    // flight pulse
    fpEnabled: bool,
    fpIcao: string,
    fpTail: string,
    // OTA preferences
    otaCheckOnBoot: bool,
    otaAutoUpdate: bool,
    otaIntervalDays: int,
    // advanced LED (admin)
    ledPin: int,
    ledCount: int,
    ledOrder: string)

  const MinBrightness: int := 3
  const MaxBrightness: int := 100
  const MinDisplayMode: int := 0
  const MaxDisplayMode: int := 5
  /** The LED counts the admin save accepts. */
  const MinLedCount: int := 1
  const MaxLedCount: int := 300

  /** A time of day as hour 0..23 and minute 0..59. */
  predicate IsClockTime(hour: int, minute: int) {
    0 <= hour <= 23 && 0 <= minute <= 59
  }

  /** `AppConfig`'s default member initialisers. */
  function Defaults(): (c: AppConfig)
    ensures MinBrightness <= c.brightness <= MaxBrightness
    ensures MinDisplayMode <= c.displayMode <= MaxDisplayMode
    ensures IsClockTime(c.startHour, c.startMinute) && IsClockTime(c.endHour, c.endMinute)
    ensures c.startHour * 60 + c.startMinute < c.endHour * 60 + c.endMinute
    ensures MinLedCount <= c.ledCount <= MaxLedCount
    ensures IsSafeGpioForNeoPixel(EspC3, c.ledPin) && IsSafeGpioForNeoPixel(ClassicEsp32, c.ledPin)
    ensures IsValidColorOrder(c.ledOrder)
    ensures !c.scheduleEnabled && !c.fpEnabled
  {
    AppConfig(
      deviceSsid := "METARLightworks",
      avwxToken := "",
      wifiSsid := "",
      wifiPass := "",
      airportCode := "KTIX",
      brightness := 100,
      scheduleEnabled := false,
      startHour := 0,
      startMinute := 0,
      endHour := 23,
      endMinute := 59,
      timezonePref := "UTC0",
      displayMode := 0,
      fpEnabled := false,
      fpIcao := "",
      fpTail := "",
      otaCheckOnBoot := true,
      otaAutoUpdate := false,
      otaIntervalDays := 7,
      ledPin := 5,
      ledCount := 1,
      ledOrder := "RGB")
  }
}
