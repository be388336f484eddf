/*
 * The map firmware's web handlers that read and change the configuration:
 * the provisioning gate, the list and brightness save, the manual refresh,
 * the OTA endpoints, and the password-protected LED setup, LED test and
 * reboot endpoints.
 *
 * The global `cfg` is a field of `MapWebUI`; the calls a handler makes into
 * the rest of the firmware (saveConfig, refreshNow, rebuildStripFromConfig,
 * setLEDColor, clearLED, the OTA routines, ESP.restart) are recorded, in
 * order, in the ghost log `effects`. What those calls return (whether the
 * save or the OTA check succeeded, whether an update is available, the OTA
 * status line, whether the Basic-Auth credentials matched) is passed in.
 */
module MapAdmin {
  import opened ArduinoString
  import opened Gpio
  import opened LedAdmin
  import opened Replies
  import opened MapTypes

  /** A call from a handler into the rest of the firmware. */
  datatype Effect =
    | Persisted(saved: AppConfig)   // saveConfig() while `cfg` held `saved`
    | RefreshedMap                  // refreshNow()
    | RebuiltStrip                  // rebuildStripFromConfig()
    | DroveLeds(action: LedAction)  // setLEDColor(r, g, b) or clearLED()
    | CheckedOta                    // otaCheckNow()
    | InstalledOta                  // otaInstallNow()
    | Restarted                     // ESP.restart()

  /**
   * The provisioning gate: the factory stamp is set and the role is "map"
   * in any letter case (the non-empty test before it is implied).
   */
  function IsProvisionedForMap(c: AppConfig): (ok: bool)
    ensures ok <==> c.provisioned && ToLower(c.appRole) == "map"
  {
    assert ToLower("map") == "map";
    c.provisioned && |c.appRole| > 0 && EqualsIgnoreCase(c.appRole, "map")
  }

  /** A freshly defaulted configuration is not provisioned. */
  lemma DefaultsFailGate()
    ensures !IsProvisionedForMap(Defaults())
  {
  }

  lemma GateExamples(c: AppConfig)
    requires c.provisioned
    ensures c.appRole == "MAP" ==> IsProvisionedForMap(c)
    ensures c.appRole == " map" ==> !IsProvisionedForMap(c)
    ensures c.appRole == "lamp" ==> !IsProvisionedForMap(c)
  {
    if c.appRole == "MAP" {
      assert ToLower("MAP") == "map";
    }
  }

  /** `v` is `x` brought into `lo..hi` by the two one-sided clamps the handlers apply. */
  ghost predicate ClampedInto(v: int, x: int, lo: int, hi: int) {
    && lo <= v <= hi
    && (x < lo ==> v == lo)
    && (x > hi ==> v == hi)
    && (lo <= x <= hi ==> v == x)
  }

  class MapWebUI {
    /** The chip family, from `ESP.getChipModel()`. */
    const chip: ChipFamily
    var cfg: AppConfig
    ghost var effects: seq<Effect>

    constructor (chipModel: string, loaded: AppConfig)
      ensures chip == FamilyOf(chipModel) && cfg == loaded && effects == []
    {
      chip := FamilyOf(chipModel);
      cfg := loaded;
      effects := [];
    }

    /** Every value within the range the handlers and the setup page allow. */
    ghost predicate WithinRanges()
      reads this
    {
      && MinBrightness <= cfg.brightness <= MaxBrightness
      && MinOtaIntervalDays <= cfg.otaIntervalDays <= MaxOtaIntervalDays
      && IsSafeGpioForNeoPixel(chip, cfg.ledPin)
      && IsValidColorOrder(cfg.ledOrder)
    }

    /** POST /save: the token list and the brightness, clamped to 1..255; refresh after a good save. */
    method HandleSave(mapListArg: string, brightnessArg: string, saveSucceeds: bool) returns (reply: Reply)
      modifies this
      ensures !IsProvisionedForMap(old(cfg)) ==>
        reply == Text(403, "Not provisioned") && cfg == old(cfg) && effects == old(effects)
      ensures IsProvisionedForMap(old(cfg)) ==>
        && cfg == old(cfg).(mapList := mapListArg, brightness := cfg.brightness)
        && ClampedInto(cfg.brightness, ToInt(brightnessArg), MinBrightness, MaxBrightness)
        && effects == old(effects) + [Persisted(cfg)] + (if saveSucceeds then [RefreshedMap] else [])
        && reply == (if saveSucceeds then Redirect("/", "Saved") else Text(500, "Save failed"))
      ensures old(WithinRanges()) ==> WithinRanges()
    {
      var ok := IsProvisionedForMap(cfg);
      if !ok {
        return Text(403, "Not provisioned");
      }
      cfg := cfg.(mapList := mapListArg);
      cfg := cfg.(brightness := ToInt(brightnessArg));
      if cfg.brightness < 1 {
        cfg := cfg.(brightness := 1);
      }
      if cfg.brightness > 255 {
        cfg := cfg.(brightness := 255);
      }
      effects := effects + [Persisted(cfg)];
      if !saveSucceeds {
        return Text(500, "Save failed");
      }
      effects := effects + [RefreshedMap];
      return Redirect("/", "Saved");
    }

    /** GET /refresh: a refresh, behind the provisioning gate. */
    method HandleRefresh() returns (reply: Reply)
      modifies this`effects
      ensures !IsProvisionedForMap(cfg) ==> reply == Text(403, "Not provisioned") && effects == old(effects)
      ensures IsProvisionedForMap(cfg) ==> reply == Text(200, "OK") && effects == old(effects) + [RefreshedMap]
    {
      var ok := IsProvisionedForMap(cfg);
      if !ok {
        return Text(403, "Not provisioned");
      }
      effects := effects + [RefreshedMap];
      return Text(200, "OK");
    }

    /** GET /reboot: answers, then restarts; no gate and no password. */
    method HandleReboot() returns (reply: Reply)
      modifies this`effects
      ensures reply == Text(200, "Rebooting...") && effects == old(effects) + [Restarted]
    {
      reply := Text(200, "Rebooting...");
      effects := effects + [Restarted];
    }

    /** GET /ota/check: the status line, with 200 or 500 by the check's outcome. */
    method HandleOtaCheck(checkSucceeds: bool, statusLine: string) returns (reply: Reply)
      modifies this`effects
      ensures reply == Text(if checkSucceeds then 200 else 500, statusLine)
      ensures effects == old(effects) + [CheckedOta]
    {
      effects := effects + [CheckedOta];
      reply := Text(if checkSucceeds then 200 else 500, statusLine);
    }

    /** GET /ota/install: installs only after a successful check that found an update. */
    method HandleOtaInstall(checkSucceeds: bool, updateAvailable: bool, statusLine: string) returns (reply: Reply)
      modifies this`effects
      ensures !checkSucceeds ==> reply == Text(500, statusLine) && effects == old(effects) + [CheckedOta]
      ensures checkSucceeds && !updateAvailable ==>
        reply == Text(200, "No update available") && effects == old(effects) + [CheckedOta]
      ensures checkSucceeds && updateAvailable ==>
        && reply == Text(200, "Installing update... device will reboot.")
        && effects == old(effects) + [CheckedOta, InstalledOta]
    {
      effects := effects + [CheckedOta];
      if !checkSucceeds {
        return Text(500, statusLine);
      }
      if !updateAvailable {
        return Text(200, "No update available");
      }
      reply := Text(200, "Installing update... device will reboot.");
      effects := effects + [InstalledOta];
    }

    /**
     * GET /ota/settings: auto-update is on iff the normalised `auto` argument
     * is "on"; the interval is clamped to 1..60 days. Neither gated nor
     * password-protected.
     */
    method HandleOtaSettings(autoArg: string, daysArg: string, saveSucceeds: bool) returns (reply: Reply)
      modifies this
      ensures cfg == old(cfg).(otaAutoUpdate := cfg.otaAutoUpdate, otaIntervalDays := cfg.otaIntervalDays)
      ensures cfg.otaAutoUpdate <==> NormalizeLower(autoArg) == "on"
      ensures ClampedInto(cfg.otaIntervalDays, ToInt(daysArg), MinOtaIntervalDays, MaxOtaIntervalDays)
      ensures effects == old(effects) + [Persisted(cfg)]
      ensures reply == (if saveSucceeds then Text(200, "Saved") else Text(500, "Save failed"))
      ensures old(WithinRanges()) ==> WithinRanges()
    {
      var a := NormalizeLower(autoArg);
      var days := ToInt(daysArg);
      if days < 1 {
        days := 1;
      }
      if days > 60 {
        days := 60;
      }
      cfg := cfg.(otaAutoUpdate := a == "on");
      cfg := cfg.(otaIntervalDays := days);
      effects := effects + [Persisted(cfg)];
      if !saveSucceeds {
        return Text(500, "Save failed");
      }
      return Text(200, "Saved");
    }

    /**
     * POST /admin/led/save: a safe pin and one of the six colour orders, or a
     * 400 naming the first check that failed with `cfg` untouched. The LED
     * count is left alone; the strip is rebuilt after a good save.
     */
    method HandleAdminLedSave(authorized: bool, pinArg: string, orderArg: string, saveSucceeds: bool)
      returns (reply: Reply)
      modifies this
      ensures !authorized ==> reply == AuthRequired && cfg == old(cfg) && effects == old(effects)
      ensures authorized && !IsSafeGpioForNeoPixel(chip, ToInt(pinArg)) ==>
        reply == Text(400, "Invalid/unsafe GPIO selected.") && cfg == old(cfg) && effects == old(effects)
      ensures authorized && IsSafeGpioForNeoPixel(chip, ToInt(pinArg)) && !IsValidColorOrder(NormalizeUpper(orderArg)) ==>
        reply == Text(400, "Invalid color order.") && cfg == old(cfg) && effects == old(effects)
      ensures authorized && IsSafeGpioForNeoPixel(chip, ToInt(pinArg)) && IsValidColorOrder(NormalizeUpper(orderArg)) ==>
        && cfg == old(cfg).(ledPin := ToInt(pinArg), ledOrder := NormalizeUpper(orderArg))
        && effects == old(effects) + [Persisted(cfg)] + (if saveSucceeds then [RebuiltStrip] else [])
        && reply == (if saveSucceeds then Text(200, "Saved.") else Text(500, "Save failed."))
      ensures old(WithinRanges()) ==> WithinRanges()
    {
      if !authorized {
        return AuthRequired;
      }
      var pin := ToInt(pinArg);
      var order := NormalizeUpper(orderArg);
      if !IsSafeGpioForNeoPixel(chip, pin) {
        return Text(400, "Invalid/unsafe GPIO selected.");
      }
      if !IsValidColorOrder(order) {
        return Text(400, "Invalid color order.");
      }
      cfg := cfg.(ledPin := pin);
      cfg := cfg.(ledOrder := order);
      effects := effects + [Persisted(cfg)];
      if !saveSucceeds {
        return Text(500, "Save failed.");
      }
      effects := effects + [RebuiltStrip];
      return Text(200, "Saved.");
    }

    /** GET /admin/led/test: one test colour, or a 400 and no LED call. */
    method HandleAdminLedTest(authorized: bool, colorArg: string) returns (reply: Reply)
      modifies this`effects
      ensures !authorized ==> reply == AuthRequired && effects == old(effects)
      ensures authorized && TestActionFor(colorArg).None? ==>
        reply == Text(400, "Bad color. Use c=red|green|blue|off") && effects == old(effects)
      ensures authorized && TestActionFor(colorArg).Some? ==>
        reply == Text(200, "OK") && effects == old(effects) + [DroveLeds(TestActionFor(colorArg).value)]
    {
      if !authorized {
        return AuthRequired;
      }
      var action := TestActionFor(colorArg);
      if action.None? {
        return Text(400, "Bad color. Use c=red|green|blue|off");
      }
      effects := effects + [DroveLeds(action.value)];
      return Text(200, "OK");
    }

    /** GET /admin/reboot: answers, then restarts. */
    method HandleAdminReboot(authorized: bool) returns (reply: Reply)
      modifies this`effects
      ensures !authorized ==> reply == AuthRequired && effects == old(effects)
      ensures authorized ==> reply == Text(200, "Rebooting...") && effects == old(effects) + [Restarted]
    {
      if !authorized {
        return AuthRequired;
      }
      reply := Text(200, "Rebooting...");
      effects := effects + [Restarted];
    }
  }
}
