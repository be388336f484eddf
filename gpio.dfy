/*
 * Which GPIO pins the firmware lets an administrator drive the NeoPixel
 * strip from. The rule depends on the chip family, which the firmware
 * reads from the chip model string reported by the ESP32 core.
 */
module Gpio {
  import opened ArduinoString

  /** The two chip families the pin rules tell apart. */
  datatype ChipFamily = EspC3 | ClassicEsp32

  /** `isChipC3()`: the upper-cased chip model contains "C3". */
  function IsChipC3(model: string): (c3: bool)
    ensures c3 <==> exists k :: OccursAt(ToUpper(model), "C3", k)
  {
    var r := IndexOf(ToUpper(model), "C3", 0);
    assert r >= 0 ==> OccursAt(ToUpper(model), "C3", r);
    r >= 0
  }

  /** The family every `isChipC3()` call inside the pin check and the setup page decides. */
  function FamilyOf(model: string): ChipFamily {
    if IsChipC3(model) then EspC3 else ClassicEsp32
  }

  /** ESP32-C3: 0..21 except the USB pins 18 and 19. */
  const C3SafePins: set<int> := {0, 1, 2, 3, 4, 5, 6, 7, 8, 9, 10, 11, 12, 13, 14, 15, 16, 17, 20, 21}

  /**
   * Classic ESP32: 0..33 without the flash pins 6..11, the strapping pins
   * 0, 2, 12 and 15 and the UART pins 1 and 3; 34..39 are input-only.
   */
  const ClassicSafePins: set<int> :=
    {4, 5, 13, 14, 16, 17, 18, 19, 20, 21, 22, 23, 24, 25, 26, 27, 28, 29, 30, 31, 32, 33}

  function SafePins(chip: ChipFamily): set<int> {
    if chip == EspC3 then C3SafePins else ClassicSafePins
  }

  /**
   * `isSafeGpioForNeoPixel(pin)`: the chain of early rejections, which
   * accepts exactly the pins of the chip family's safe set.
   */
  function IsSafeGpioForNeoPixel(chip: ChipFamily, pin: int): (safe: bool)
    ensures safe <==> pin in SafePins(chip)
  {
    if pin < 0 then false
    else if chip == EspC3 then
      if pin > 21 then false
      else if pin == 18 || pin == 19 then false
      else true
    else if 6 <= pin <= 11 then false
    else if 34 <= pin <= 39 then false
    else if pin == 0 || pin == 2 || pin == 12 || pin == 15 then false
    else if pin == 1 || pin == 3 then false
    else pin <= 33
  }

  lemma NegativePinsAreUnsafe(chip: ChipFamily, pin: int)
    requires pin < 0
    ensures !IsSafeGpioForNeoPixel(chip, pin)
  {
  }

  lemma C3Rule(pin: int)
    ensures IsSafeGpioForNeoPixel(EspC3, pin) <==> 0 <= pin <= 21 && pin != 18 && pin != 19
  {
  }

  /** On a classic ESP32 the input-only test is subsumed by the final `pin <= 33`. */
  lemma ClassicRule(pin: int)
    ensures IsSafeGpioForNeoPixel(ClassicEsp32, pin) <==>
      0 <= pin <= 33 && !(6 <= pin <= 11) && pin !in {0, 1, 2, 3, 12, 15}
    ensures 34 <= pin <= 39 ==> !IsSafeGpioForNeoPixel(ClassicEsp32, pin)
  {
  }

  /** `maxPin` of the LED setup page: 21 on a C3, 33 otherwise. */
  function MaxPin(chip: ChipFamily): (m: int)
    ensures IsSafeGpioForNeoPixel(chip, m)
    ensures forall pin :: pin > m ==> !IsSafeGpioForNeoPixel(chip, pin)
  {
    if chip == EspC3 then 21 else 33
  }

  /** Chip model strings as the ESP32 core reports them. */
  lemma C3ModelExamples()
    ensures IsChipC3("ESP32-C3") && IsChipC3("esp32-c3")
  {
    C3At("ESP32-C3", 6);
    C3At("esp32-c3", 6);
  }

  lemma ClassicModelExample()
    ensures !IsChipC3("ESP32-D0WD-V3")
  {
    NoC3In("ESP32-D0WD-V3");
  }

  lemma C3At(model: string, k: nat)
    requires k + 1 < |model| && UpperChar(model[k]) == 'C' && UpperChar(model[k + 1]) == '3'
    ensures IsChipC3(model)
  {
    assert ToUpper(model)[k..k + 2] == "C3";
    assert OccursAt(ToUpper(model), "C3", k);
  }

  lemma NoC3In(model: string)
    requires 'C' !in model && 'c' !in model
    ensures !IsChipC3(model)
  {
    var u := ToUpper(model);
    forall k | 0 <= k && k + 2 <= |u| ensures !OccursAt(u, "C3", k) {
      assert model[k] in model;
      assert u[k..k + 2][0] == u[k];
    }
  }
}
