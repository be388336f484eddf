/*
 * The persisted configuration record of the map firmware, with its default
 * values and the ranges its fields are documented to take.
 */
module MapTypes {
  import opened Gpio
  import opened LedAdmin

  datatype AppConfig = AppConfig(
    // provisioned by the factory
    deviceSsid: string,
    wifiSsid: string,
    wifiPass: string,
    // provisioning stamp
    provisioned: bool,
    appRole: string,
    // map settings
    mapList: string,
    brightness: int,
    // LED (admin)
    ledPin: int,
    ledCount: int,
    ledOrder: string,
    // OTA preferences
    otaCheckOnBoot: bool,
    otaAutoUpdate: bool,
    otaIntervalDays: int)

  const MinBrightness: int := 1
  const MaxBrightness: int := 255
  const MinOtaIntervalDays: int := 1
  const MaxOtaIntervalDays: int := 60

  /** The four flight-category legend tokens. */
  const Legends: set<string> := {"VFR", "MVFR", "IFR", "LIFR"}

  /** The comma-separated entries of a map list, in order and untrimmed. */
  function Entries(list: string): (parts: seq<string>)
    ensures |parts| >= 1
    decreases |list|
  {
    if list == [] then [[]]
    else
      var rest := Entries(list[1..]);
      if list[0] == ',' then [[]] + rest else [[list[0]] + rest[0]] + rest[1..]
  }

  lemma {:induction false} EntriesWithoutComma(a: string)
    requires ',' !in a
    ensures Entries(a) == [a]
    decreases |a|
  {
    if a != [] {
      assert a[0] in a;
      assert forall c :: c in a[1..] ==> c in a;
      EntriesWithoutComma(a[1..]);
      assert a == [a[0]] + a[1..];
    }
  }

  /** A list that starts with a comma-free entry and a comma splits after that entry. */
  lemma {:induction false} EntriesOfFirstThenRest(a: string, rest: string)
    requires ',' !in a
    ensures Entries(a + "," + rest) == [a] + Entries(rest)
    decreases |a|
  {
    if a == [] {
      assert a + "," + rest == [','] + rest;
      assert ([','] + rest)[1..] == rest;
    } else {
      var s := a + "," + rest;
      assert s[0] == a[0] && s[1..] == a[1..] + "," + rest;
      assert a[0] in a;
      assert forall c :: c in a[1..] ==> c in a;
      EntriesOfFirstThenRest(a[1..], rest);
      assert a == [a[0]] + a[1..];
    }
  }

  /** Entries joined back with commas. */
  function CommaJoined(parts: seq<string>): string
    requires parts != []
  {
    if |parts| == 1 then parts[0] else parts[0] + "," + CommaJoined(parts[1..])
  }

  /** Splitting undoes joining, as long as no entry holds a comma. */
  lemma {:induction false} EntriesOfCommaJoined(parts: seq<string>)
    requires parts != []
    requires forall i :: 0 <= i < |parts| ==> ',' !in parts[i]
    ensures Entries(CommaJoined(parts)) == parts
    decreases |parts|
  {
    if |parts| == 1 {
      EntriesWithoutComma(parts[0]);
    } else {
      EntriesOfCommaJoined(parts[1..]);
      EntriesOfFirstThenRest(parts[0], CommaJoined(parts[1..]));
      assert parts == [parts[0]] + parts[1..];
    }
  }

  /** `AppConfig`'s default member initialisers. */
  function Defaults(): (c: AppConfig)
    ensures MinBrightness <= c.brightness <= MaxBrightness
    ensures MinOtaIntervalDays <= c.otaIntervalDays <= MaxOtaIntervalDays
    ensures IsValidColorOrder(c.ledOrder)
    ensures IsSafeGpioForNeoPixel(EspC3, c.ledPin) && IsSafeGpioForNeoPixel(ClassicEsp32, c.ledPin)
    ensures !c.provisioned && c.appRole == []
  {
    AppConfig(
      deviceSsid := "METARMapworks",
      wifiSsid := "",
      wifiPass := "",
      provisioned := false,
      appRole := "",
      mapList := DefaultMapList,
      brightness := 120,
      ledPin := 5,
      ledCount := 1,
      ledOrder := "GRB",
      otaCheckOnBoot := true,
      otaAutoUpdate := false,
      otaIntervalDays := 7)
  }

  const DefaultMapList: string := "VFR,MVFR,IFR,LIFR,SKIP"

  const DefaultEntries: seq<string> := ["VFR", "MVFR", "IFR", "LIFR", "SKIP"]

  /** Joining a list of two or more entries puts the first one and a comma in front. */
  lemma CommaJoinedStep(first: string, rest: seq<string>)
    requires rest != []
    ensures CommaJoined([first] + rest) == first + "," + CommaJoined(rest)
  {
    assert ([first] + rest)[1..] == rest;
  }

  lemma JoinedFromLifr()
    ensures CommaJoined(["LIFR", "SKIP"]) == "LIFR,SKIP"
  {
    CommaJoinedStep("LIFR", ["SKIP"]);
  }

  lemma JoinedFromIfr()
    ensures CommaJoined(["IFR", "LIFR", "SKIP"]) == "IFR,LIFR,SKIP"
  {
    JoinedFromLifr();
    CommaJoinedStep("IFR", ["LIFR", "SKIP"]);
  }

  lemma JoinedFromMvfr()
    ensures CommaJoined(["MVFR", "IFR", "LIFR", "SKIP"]) == "MVFR,IFR,LIFR,SKIP"
  {
    JoinedFromIfr();
    CommaJoinedStep("MVFR", ["IFR", "LIFR", "SKIP"]);
  }

  lemma DefaultMapListIsJoined()
    ensures DefaultEntries != [] && CommaJoined(DefaultEntries) == DefaultMapList
  {
    JoinedFromMvfr();
    CommaJoinedStep("VFR", ["MVFR", "IFR", "LIFR", "SKIP"]);
  }

  lemma DefaultEntriesHaveNoComma()
    ensures forall i :: 0 <= i < |DefaultEntries| ==> ',' !in DefaultEntries[i]
  {
  }

  /**
   * The default list holds one position per legend colour and a skipped
   * position: nothing but tokens from the supported vocabulary.
   */
  lemma DefaultMapListIsLegendsAndSkip()
    ensures Entries(Defaults().mapList) == DefaultEntries
    ensures forall t :: t in Entries(Defaults().mapList) ==> t in Legends || t == "SKIP"
  {
    DefaultMapListIsJoined();
    DefaultEntriesHaveNoComma();
    EntriesOfCommaJoined(DefaultEntries);
  }
}
