# METAR Lightworks admin web handlers

METAR Lightworks is firmware for two ESP32 products. The METAR map drives a
strip of NeoPixels, one per airport, coloured by flight category. The METAR
lamp is a single-airport lamp. Both serve a small web interface.

This project models the parts of that interface that read and change the
persisted configuration (`AppConfig`):

- the map's provisioning gate: a role stamp that must read "map";
- the map's list and brightness save, its manual refresh and its reboot;
- the map's OTA check, install and settings endpoints;
- the password-protected admin endpoints of both firmwares: LED setup save,
  LED test and reboot;
- the chip detection and the conservative GPIO safety rule that the LED
  setup relies on;
- both `AppConfig` records, their defaults and their documented ranges.

Layout, one Dafny module per file:

- `arduino_string.dfy` (`ArduinoString`): the Arduino `String` operations
  the handlers call: `trim`, `toUpperCase`, `toLowerCase`,
  `equalsIgnoreCase`, `indexOf` and `toInt`, plus the decimal rendering
  `String(int)`. `toInt` skips leading white space, takes an optional sign
  and the leading decimal digits, gives 0 when there are none, and
  saturates at the 32-bit `long` range.
- `gpio.dfy` (`Gpio`): `isChipC3`, `isSafeGpioForNeoPixel` and the
  setup page's highest pin. The two firmwares carry the same code for these
  (the lamp's copy adds comments), so they are modelled once.
- `led_admin.dfy` (`LedAdmin`): the argument normalisation, the six colour
  orders and the LED test colour table that both firmwares share.
- `replies.dfy` (`Replies`): the HTTP reply a handler sends. It is a text
  reply with a status code, a 302 redirect, or the 401 Basic-Auth challenge.
- `map_types.dfy` / `map_admin.dfy` (`MapTypes`, `MapAdmin`): the map
  firmware's configuration and its handlers.
- `lamp_types.dfy` / `lamp_admin.dfy` (`LampTypes`, `LampAdmin`): the lamp
  firmware's configuration and its admin handlers.

The global `cfg` is the field `cfg` of a class (`MapWebUI`, `LampWebUI`),
and each handler is a method that returns the reply it sends. The calls a
handler makes into the rest of the firmware are appended, in order, to the
ghost log `effects`. Those calls are `saveConfig`, `refreshNow`,
`rebuildStripFromConfig`, `setLEDColor`, `clearLED`, `otaCheckNow`,
`otaInstallNow` and `ESP.restart`. Their outcomes are parameters of the
handler: whether the save or the OTA check succeeded, whether an update is
available, the OTA status line, and whether the Basic-Auth credentials
matched. The chip model string from `ESP.getChipModel()` is a constructor
parameter.

Properties proved:

- `isChipC3` is "C3 occurs in the upper-cased model".
- The pin rule is exactly a fixed set of pins per chip family. The setup
  page's maximum pin is the largest safe pin.
- The six accepted colour orders are exactly the permutations of "RGB".
- Normalisation is idempotent, so a stored order survives a second save.
- `toInt` reads back every 32-bit number written in decimal. So the values
  the lamp's setup page pre-fills, submitted unchanged, are read back as
  the stored values.
- The default map list consists of the four legend tokens and SKIP.
- Every handler changes only the fields its source assigns, and leaves `cfg`
  untouched on every rejection (401, 403 and 400). After a 500 "Save
  failed" the new values stay in `cfg`, as in the source.
- The save handlers keep a configuration within its documented ranges:
  brightness, OTA interval, a safe pin and a valid colour order.

## Model

| member | source | states |
|---|---|---|
| ArduinoString.Trim | firmware/METARLightworks_Map/AdminUI.h:293 | the result has no leading or trailing white space, is no longer than the input, and leaves an already trimmed string unchanged |
| ArduinoString.TrimDropsOnlySpace | firmware/METARLightworks_Map/AdminUI.h:293 | `Trim` returns a contiguous slice of the input; everything before the slice and everything after it is white space |
| ArduinoString.ToUpper | firmware/METARLightworks_Map/AdminUI.h:43 | same length; every character is mapped to its ASCII upper case |
| ArduinoString.ToLower | firmware/METARLightworks_Map/AdminUI.h:218 | same length; every character is mapped to its ASCII lower case |
| ArduinoString.EqualsIgnoreCase | firmware/METARLightworks_Map/AdminUI.h:85 | true exactly when both strings lower-case to the same string |
| ArduinoString.IndexOf | firmware/METARLightworks_Map/AdminUI.h:44 | -1 or a position at or after `from` where the pattern occurs, with no earlier occurrence from `from` on |
| ArduinoString.ToInt | firmware/METARLightworks_Map/AdminUI.h:178 | the result lies in the 32-bit range, and is 0 when no digits follow the white space and sign |
| ArduinoString.ToIntOfDecimal | firmware/METARLightworks_App/AdminUI.h:154-155 | parsing the decimal rendering of any 32-bit number gives that number back |
| Gpio.IsChipC3 | firmware/METARLightworks_Map/AdminUI.h:41-45 | true exactly when "C3" occurs somewhere in the upper-cased chip model; `Gpio.FamilyOf` turns this answer into the chip family that the pin check (:50) and the setup page's maximum (:251) use |
| Gpio.C3ModelExamples | firmware/METARLightworks_App/AdminUI.h:27-31 | "ESP32-C3" and "esp32-c3" are recognised as C3 |
| Gpio.ClassicModelExample | firmware/METARLightworks_App/AdminUI.h:27-31 | "ESP32-D0WD-V3" is not a C3 |
| Gpio.NoC3In | firmware/METARLightworks_Map/AdminUI.h:41-45 | a model without the letter C in either case is never taken for a C3 |
| Gpio.IsSafeGpioForNeoPixel | firmware/METARLightworks_Map/AdminUI.h:47-62 | the pin passes the check exactly when it is in the chip family's set of safe pins |
| Gpio.NegativePinsAreUnsafe | firmware/METARLightworks_Map/AdminUI.h:48 | no negative pin is safe on either chip |
| Gpio.C3Rule | firmware/METARLightworks_App/AdminUI.h:37-42 | on a C3 a pin is safe exactly when it is in 0..21 and is neither 18 nor 19 |
| Gpio.ClassicRule | firmware/METARLightworks_App/AdminUI.h:44-54 | on a classic ESP32 a pin is safe exactly when it is in 0..33, outside the flash pins 6..11, and none of 0, 1, 2, 3, 12, 15; the input-only pins 34..39 are never safe |
| Gpio.MaxPin | firmware/METARLightworks_App/AdminUI.h:86 | the setup page's maximum (21 on a C3, 33 otherwise) is itself safe, and every higher pin is unsafe |
| LedAdmin.NormalizeUpperIdempotent | firmware/METARLightworks_Map/AdminUI.h:293 | `LedAdmin.NormalizeUpper` is the `order` argument's trim then upper-case (also in the lamp at App AdminUI.h:156-157); applying it to an already normalised argument changes nothing |
| LedAdmin.NormalizeLowerIdempotent | firmware/METARLightworks_Map/AdminUI.h:313 | `LedAdmin.NormalizeLower` is the trim then lower-case of the `c` argument (also in the lamp at App AdminUI.h:188-189) and of the `auto` argument (:218); applying it to an already normalised argument changes nothing |
| LedAdmin.ValidOrdersArePermutationsOfRgb | firmware/METARLightworks_Map/AdminUI.h:296 | `LedAdmin.IsValidColorOrder`, the six-way test (also in the lamp at App AdminUI.h:167), accepts exactly the three-letter permutations of R, G and B; the two directions are the helper lemmas `ValidOrderUsesEachLetterOnce` and `PermutationIsValidOrder` |
| LedAdmin.ValidOrderIsNormalized | firmware/METARLightworks_Map/AdminUI.h:264-269 | an accepted order, submitted again as the setup page pre-selects it, normalises to itself |
| LedAdmin.ActionForName | firmware/METARLightworks_Map/AdminUI.h:314-318 | a name drives the strip exactly when it is red, green, blue or off; "red" shows (255, 0, 0), "green" (0, 255, 0), "blue" (0, 0, 255); only "off" clears the strip |
| LedAdmin.ActionForNameIsInjective | firmware/METARLightworks_App/AdminUI.h:191-194 | two names that drive the strip the same way are the same name |
| LedAdmin.TestActionFor | firmware/METARLightworks_Map/AdminUI.h:313-318 | the argument is trimmed and lower-cased, then looked up in the colour table; it drives the strip exactly when that form is one of the four names |
| LedAdmin.TestActionForNormalizedName | firmware/METARLightworks_App/AdminUI.h:188-189 | the test mapping ignores letter case and surrounding white space |
| LedAdmin.PaddedUpperCaseRedIsRed | firmware/METARLightworks_App/AdminUI.h:188-191 | " RED " shows full red |
| LedAdmin.MixedCaseOffClears | firmware/METARLightworks_App/AdminUI.h:188-194 | "Off" clears the strip |
| LedAdmin.UnknownNameIsRejected | firmware/METARLightworks_App/AdminUI.h:195-197 | "yellow" is rejected |
| MapTypes.Defaults | firmware/METARLightworks_Map/AppTypes.h:4-27 | the defaults are within the documented ranges (brightness 1..255, OTA interval 1..60 days), use a colour order the setup accepts and a pin safe on both chips, and are not provisioned |
| MapTypes.DefaultMapListIsLegendsAndSkip | firmware/METARLightworks_Map/AppTypes.h:15 | read as the setup page's label describes it (a comma-separated list, split by the model's own `Entries`), the default list is VFR, MVFR, IFR, LIFR and SKIP, all tokens of the supported vocabulary |
| MapAdmin.IsProvisionedForMap | firmware/METARLightworks_Map/AdminUI.h:174 | the gate passes exactly when the provisioned stamp is set and the role lower-cases to "map" |
| MapAdmin.DefaultsFailGate | firmware/METARLightworks_Map/AppTypes.h:11-12 | a default configuration does not pass the gate |
| MapAdmin.GateExamples | firmware/METARLightworks_Map/AdminUI.h:190 | for a provisioned device "MAP" passes, while " map" and "lamp" do not |
| MapAdmin.MapWebUI.constructor | firmware/METARLightworks_Map/AdminUI.h:8-10 | the chip family is fixed from the chip model; `cfg` is the loaded configuration |
| MapAdmin.MapWebUI.HandleSave | firmware/METARLightworks_Map/AdminUI.h:173-187 | 403 and nothing changed when the gate fails; otherwise only the list and the clamped brightness change, the save is attempted, and then either 500, or a refresh and a 302 to "/"; the ranges are kept |
| MapAdmin.MapWebUI.HandleRefresh | firmware/METARLightworks_Map/AdminUI.h:189-194 | 403 and no refresh when the gate fails; otherwise one refresh and 200 "OK" |
| MapAdmin.MapWebUI.HandleReboot | firmware/METARLightworks_Map/AdminUI.h:196-200 | always 200 "Rebooting..." and then a restart, with no gate and no password |
| MapAdmin.MapWebUI.HandleOtaCheck | firmware/METARLightworks_Map/AdminUI.h:203-206 | one check; the status line with 200 on success or 500 on failure |
| MapAdmin.MapWebUI.HandleOtaInstall | firmware/METARLightworks_Map/AdminUI.h:208-215 | the install is attempted only after a successful check that found an update; otherwise 500 with the status line, or 200 "No update available" |
| MapAdmin.MapWebUI.HandleOtaSettings | firmware/METARLightworks_Map/AdminUI.h:217-228 | only the two OTA fields change; auto-update is on exactly when the normalised argument is "on"; the interval is clamped to 1..60; the save decides 200 or 500; the ranges are kept |
| MapAdmin.MapWebUI.HandleAdminLedSave | firmware/METARLightworks_Map/AdminUI.h:289-308 | 401 without credentials; an unsafe pin, then an unknown order, gives its own 400 with nothing changed; otherwise only the pin and the normalised order change, and the strip is rebuilt after a good save; the ranges are kept |
| MapAdmin.MapWebUI.HandleAdminLedTest | firmware/METARLightworks_Map/AdminUI.h:310-321 | 401 without credentials; 400 and no LED call for an unknown colour; otherwise exactly the mapped LED call and 200 "OK" |
| MapAdmin.MapWebUI.HandleAdminReboot | firmware/METARLightworks_Map/AdminUI.h:323-328 | 401 and no restart without credentials; otherwise 200 "Rebooting..." and a restart |
| LampTypes.Defaults | firmware/METARLightworks_App/AppTypes.h:4-38 | the defaults are within the documented ranges (brightness 3..100, display mode 0..5, valid clock times with start before end, LED count 1..300), use a valid colour order and a pin safe on both chips, and have the schedule and flight pulse off |
| LampAdmin.UnchangedLedFormReadsBack | firmware/METARLightworks_App/AdminUI.h:103-115 | accepted stored pin, count and order, pre-filled by the setup page and submitted unchanged, read back as the same values |
| LampAdmin.LampWebUI.constructor | firmware/METARLightworks_App/AdminUI.h:8-10 | the chip family is fixed from the chip model; `cfg` is the loaded configuration |
| LampAdmin.LampWebUI.HandleAdminLedSave | firmware/METARLightworks_App/AdminUI.h:151-182 | 401 without credentials; checks pin, then count 1..300, then order, each with its own 400 and nothing changed; otherwise only pin, count and order change and the save decides 200 or 500, with no strip rebuild; accepted LED settings stay accepted |
| LampAdmin.LampWebUI.HandleAdminLedTest | firmware/METARLightworks_App/AdminUI.h:185-201 | 401 without credentials; 400 and no LED call for an unknown colour; otherwise exactly the mapped LED call and 200 "OK" |
| LampAdmin.LampWebUI.HandleAdminReboot | firmware/METARLightworks_App/AdminUI.h:203-208 | 401 and no restart without credentials; otherwise 200 "Rebooting..." and a restart |

## Left out

- The HTML pages are not modelled: `pageStyle`, `handleRoot`, `handleAdminHome`, and the markup of `handleAdminLed`. They only render `cfg`. What they contribute to the model is the provisioning gate, the page's maximum pin and the pre-filled form values, which are modelled as `IsProvisionedForMap`, `Gpio.MaxPin` and `LampAdmin.UnchangedLedFormReadsBack`.
- The route tables (`registerRoutes`, `registerAdminRoutes`) and the redirect for unknown paths are not modelled. Each handler's comment names its route instead.
- Basic-Auth is not modelled. `server.authenticate`, `requestAuthentication` and the credentials are reduced to the `authorized` parameter, and a failed check is the `AuthRequired` (401) reply.
- Content types are not modelled: every text reply is "text/plain" in the source. Neither are the `Location` header's transport or the `delay()` calls.
- The bodies of `saveConfig`, `refreshNow`, `rebuildStripFromConfig`, `setLEDColor`, `clearLED`, `otaCheckNow`, `otaInstallNow` and `ESP.restart` are defined in the firmwares' sketch files, which are not part of this model. They appear only as logged effects. The extern variables `otaStatusLine` and `otaUpdateAvailable` (firmware/METARLightworks_Map/AdminUI.h:20-21) are set by that code, so the handlers take their values as parameters.
- MapAdmin.MapWebUI.HandleSave, MapAdmin.MapWebUI.HandleRefresh and MapAdmin.MapWebUI.HandleAdminLedSave: these contracts assume that `refreshNow()` and `rebuildStripFromConfig()` leave `cfg` unchanged. The firmware does not promise that. On the map, `led_count` is derived from the token list (firmware/METARLightworks_Map/AppTypes.h:20), and `refreshNow()` re-parses that list (firmware/METARLightworks_Map/AdminUI.h:184), so it may rewrite `cfg.led_count`. The post-states these handlers state for `cfg` therefore hold only under that assumption.
- `restartMDNSFixed`, `otaMaybeAutoCheck` and `otaAssetNameForThisChip` are not called by the modelled handlers.
- The map engine is not part of this model. That covers the token-list parser, METAR fetching, category colours and the fallback radius. `MapTypes.Entries` is a plain comma split used only to read the default list. It is not that parser; which separators the firmware accepts and how it treats empty pieces is not captured.
- Ordering between a reply and the calls after it is not captured: the reboot and install handlers reply before they restart or install. The log records which calls happen and in what order, but not when the reply leaves.
- ArduinoString: the model's strings hold no NUL character. An Arduino `String` is NUL-terminated, so `toUpperCase`, `toLowerCase`, `equalsIgnoreCase`, `toInt` and `==` against a string literal (a `strcmp`) all stop at an embedded NUL. The web server can decode one from `%00`. An argument such as `rgb%00x` therefore passes the colour-order check in the firmware (firmware/METARLightworks_Map/AdminUI.h:296, firmware/METARLightworks_App/AdminUI.h:167), and `auto=on%00x` switches auto-update on (firmware/METARLightworks_Map/AdminUI.h:223). The model compares whole strings and rejects both.
- ArduinoString.ToInt: models `atol` over the characters of the `String`. The 32-bit width of `int` appears only as the saturation of that conversion.
- MapAdmin.MapWebUI.HandleSave: what reaches flash is not modelled. The log records the configuration `saveConfig` was called with, and the in-memory `cfg` stays changed after a failed save, as in the source.
- The lamp's brightness, schedule, display mode and flight-pulse settings are changed by handlers outside these files. Only their defaults and ranges are modelled, in `LampTypes.Defaults`.
- The constructors accept any loaded configuration. How `cfg` is read from flash is not part of this model, so the range invariants (`WithinRanges`, `LedSettingsValid`) are proved preserved, not established at boot.
