/*
 * The lamp firmware's password-protected admin handlers: LED setup save,
 * LED test and reboot. As in the map firmware, the global `cfg` is a field
 * of a class, calls into the rest of the firmware are logged in the ghost
 * `effects`, and what those calls return is passed in.
 */
module LampAdmin {
  import opened ArduinoString
  import opened Gpio
  import opened LedAdmin
  import opened Replies
  import opened LampTypes

  /** A call from a handler into the rest of the firmware. */
  datatype Effect =
    | Persisted(saved: AppConfig)   // saveConfig() while `cfg` held `saved`
    | DroveLeds(action: LedAction)  // setLEDColor(r, g, b) or clearLED()
    | Restarted                     // ESP.restart()

  /** The LED settings a save checks, in the order it checks them. */
  ghost predicate LedSettingsAccepted(chip: ChipFamily, pin: int, count: int, order: string) {
    IsSafeGpioForNeoPixel(chip, pin) && MinLedCount <= count <= MaxLedCount && IsValidColorOrder(order)
  }

  /**
   * The values the LED setup page pre-fills (pin and count written in
   * decimal, the stored order pre-selected), submitted unchanged, read back
   * as the stored values, and are accepted whenever the stored values are.
   */
  lemma UnchangedLedFormReadsBack(chip: ChipFamily, c: AppConfig)
    requires LedSettingsAccepted(chip, c.ledPin, c.ledCount, c.ledOrder)
    ensures ToInt(IntToDecimal(c.ledPin)) == c.ledPin
    ensures ToInt(IntToDecimal(c.ledCount)) == c.ledCount
    ensures NormalizeUpper(c.ledOrder) == c.ledOrder
  {
    ToIntOfDecimal(c.ledPin);
    ToIntOfDecimal(c.ledCount);
    ValidOrderIsNormalized(c.ledOrder);
  }

  class LampWebUI {
    /** The chip family, from `ESP.getChipModel()`. */
    const chip: ChipFamily
    var cfg: AppConfig
    ghost var effects: seq<Effect>

    constructor (chipModel: string, loaded: AppConfig)
      ensures chip == FamilyOf(chipModel) && cfg == loaded && effects == []
    {
      chip := FamilyOf(chipModel);
      cfg := loaded;
      effects := [];
    }

    /** The LED settings are ones the admin save would accept. */
    ghost predicate LedSettingsValid()
      reads this
    {
      LedSettingsAccepted(chip, cfg.ledPin, cfg.ledCount, cfg.ledOrder)
    }

    /**
     * POST /admin/led/save: pin, then count, then order; the first failing
     * check decides the 400 and leaves `cfg` untouched. On acceptance
     * exactly the pin, count and order are set before the save.
     */
    method HandleAdminLedSave(authorized: bool, pinArg: string, countArg: string, orderArg: string, saveSucceeds: bool)
      returns (reply: Reply)
      modifies this
      ensures !authorized ==> reply == AuthRequired && cfg == old(cfg) && effects == old(effects)
      ensures authorized && !IsSafeGpioForNeoPixel(chip, ToInt(pinArg)) ==>
        reply == Text(400, "Invalid/unsafe GPIO selected.") && cfg == old(cfg) && effects == old(effects)
      ensures authorized && IsSafeGpioForNeoPixel(chip, ToInt(pinArg)) && !(MinLedCount <= ToInt(countArg) <= MaxLedCount) ==>
        reply == Text(400, "Invalid LED count.") && cfg == old(cfg) && effects == old(effects)
      ensures (&& authorized && IsSafeGpioForNeoPixel(chip, ToInt(pinArg))
               && MinLedCount <= ToInt(countArg) <= MaxLedCount
               && !IsValidColorOrder(NormalizeUpper(orderArg))) ==>
        reply == Text(400, "Invalid color order.") && cfg == old(cfg) && effects == old(effects)
      ensures authorized && LedSettingsAccepted(chip, ToInt(pinArg), ToInt(countArg), NormalizeUpper(orderArg)) ==>
        && cfg == old(cfg).(ledPin := ToInt(pinArg), ledCount := ToInt(countArg), ledOrder := NormalizeUpper(orderArg))
        && effects == old(effects) + [Persisted(cfg)]
        && reply == (if saveSucceeds then Text(200, "Saved. Reboot required for LED changes.") else Text(500, "Save failed."))
      ensures old(LedSettingsValid()) ==> LedSettingsValid()
    {
      if !authorized {
        return AuthRequired;
      }
      var pin := ToInt(pinArg);
      var count := ToInt(countArg);
      var order := NormalizeUpper(orderArg);
      if !IsSafeGpioForNeoPixel(chip, pin) {
        return Text(400, "Invalid/unsafe GPIO selected.");
      }
      if count < 1 || count > 300 {
        return Text(400, "Invalid LED count.");
      }
      if !IsValidColorOrder(order) {
        return Text(400, "Invalid color order.");
      }
      cfg := cfg.(ledPin := pin);
      cfg := cfg.(ledCount := count);
      cfg := cfg.(ledOrder := order);
      effects := effects + [Persisted(cfg)];
      if !saveSucceeds {
        return Text(500, "Save failed.");
      }
      return Text(200, "Saved. Reboot required for LED changes.");
    }

    /** GET /admin/led/test: one test colour, or a 400 and no LED call. */
    method HandleAdminLedTest(authorized: bool, colorArg: string) returns (reply: Reply)
      modifies this`effects
      ensures !authorized ==> reply == AuthRequired && effects == old(effects)
      ensures authorized && TestActionFor(colorArg).None? ==>
        reply == Text(400, "Bad color. Use c=red|green|blue|off") && effects == old(effects)
      ensures authorized && TestActionFor(colorArg).Some? ==>
        reply == Text(200, "OK") && effects == old(effects) + [DroveLeds(TestActionFor(colorArg).value)]
    {
      if !authorized {
        return AuthRequired;
      }
      var action := TestActionFor(colorArg);
      if action.None? {
        return Text(400, "Bad color. Use c=red|green|blue|off");
      }
      effects := effects + [DroveLeds(action.value)];
      return Text(200, "OK");
    }

    /** GET /admin/reboot: answers, then restarts. */
    method HandleAdminReboot(authorized: bool) returns (reply: Reply)
      modifies this`effects
      ensures !authorized ==> reply == AuthRequired && effects == old(effects)
      ensures authorized ==> reply == Text(200, "Rebooting...") && effects == old(effects) + [Restarted]
    {
      if !authorized {
        return AuthRequired;
      }
      reply := Text(200, "Rebooting...");
      effects := effects + [Restarted];
    }
  }
}
