/**
 * The two local artifacts a provisioning run writes before uploading them:
 * the configuration file (badge name and LED pattern) and the settings file
 * (Wi-Fi access point and Bluetooth flags), with the LED mode numbering they use.
 */
module Artifacts {
  import opened Wrappers
  import opened Text

  /** The fourteen LED animation modes a badge offers. */
  datatype LedMode =
    | Manual | Rainbow | Snowstorm | RedChase | RainbowChase | BlueChase | GreenDot
    | BlueDot | BlueSin | WhiteFade | BarGraph | Zylon | Audio | Accel

  /** The pattern number the device firmware knows each mode by. */
  function AsInteger(m: LedMode): (k: nat)
    ensures k <= 13
  {
    match m
    case Manual => 0
    case Rainbow => 1
    case Snowstorm => 2
    case RedChase => 3
    case RainbowChase => 4
    case BlueChase => 5
    case GreenDot => 6
    case BlueDot => 7
    case BlueSin => 8
    case WhiteFade => 9
    case BarGraph => 10
    case Zylon => 11
    case Audio => 12
    case Accel => 13
  }

  /** The mode a pattern number stands for, if any; the inverse of AsInteger. */
  function ModeOf(k: nat): (m: Option<LedMode>)
    ensures m.Some? <==> k <= 13
  {
    if k == 0 then Some(Manual)
    else if k == 1 then Some(Rainbow)
    else if k == 2 then Some(Snowstorm)
    else if k == 3 then Some(RedChase)
    else if k == 4 then Some(RainbowChase)
    else if k == 5 then Some(BlueChase)
    else if k == 6 then Some(GreenDot)
    else if k == 7 then Some(BlueDot)
    else if k == 8 then Some(BlueSin)
    else if k == 9 then Some(WhiteFade)
    else if k == 10 then Some(BarGraph)
    else if k == 11 then Some(Zylon)
    else if k == 12 then Some(Audio)
    else if k == 13 then Some(Accel)
    else None
  }

  lemma ModeNumbering(m: LedMode, k: nat)
    ensures ModeOf(AsInteger(m)) == Some(m)
    ensures ModeOf(k) == Some(m) ==> AsInteger(m) == k
  {
  }

  /** Distinct modes get distinct pattern numbers. */
  lemma AsIntegerInjective(m1: LedMode, m2: LedMode)
    ensures AsInteger(m1) == AsInteger(m2) ==> m1 == m2
  {
    ModeNumbering(m1, 0);
    ModeNumbering(m2, 0);
  }

  const ConfigFile := "build_a_badge.txt"
  const SettingsFile := "settings.txt"
  /** The name written when the user left the badge name empty. */
  const NamePlaceholder := "Boring"
  /** Appended to the badge name to form the device's network name. */
  const NetworkSuffix := "-WiLi"

  /** The decimal LED pattern number; pattern 0 when no mode is selected. */
  function LedPattern(mode: Option<LedMode>): string
  {
    match mode
    case Some(m) => NatToString(AsInteger(m))
    case None => "0"
  }

  /** The configuration file: the network name line, then the LED pattern line. */
  function ConfigContent(mode: Option<LedMode>, badgeName: string): string
  {
    var name := if badgeName == [] then NamePlaceholder else badgeName;
    name + NetworkSuffix + "\n" + LedPattern(mode) + "\n"
  }

  /** The settings file: an open Wi-Fi access point and a Bluetooth terminal, both named after the badge. */
  function SettingsContent(badgeName: string): string
  {
    "wifiAPEn=1" + "\n" +
    ("wifiAPssid=" + badgeName + NetworkSuffix + "\n" +
    ("wifiAPAuth=0" + "\n" +
    ("btEn=1" + "\n" +
    ("btAPen=" + badgeName + NetworkSuffix + "\n" +
    ("btTerm=1" + "\n")))))
  }

  /** What a reader of the configuration file learns from it. */
  datatype BadgeConfig = BadgeConfig(networkName: string, mode: LedMode)

  /**
   * Reads a configuration file: exactly two lines, the first ending in the
   * network suffix, the second a known pattern number.
   */
  function DecodeConfig(text: string): Option<BadgeConfig>
  {
    var lines := Lines(text);
    if |lines| == 2 && |lines[0]| >= |NetworkSuffix|
       && lines[0][|lines[0]| - |NetworkSuffix|..] == NetworkSuffix
       && IsDecimal(lines[1]) && ModeOf(DigitsValue(lines[1])).Some?
    then Some(BadgeConfig(lines[0][..|lines[0]| - |NetworkSuffix|], ModeOf(DigitsValue(lines[1])).value))
    else None
  }

  /**
   * The configuration file has exactly the two lines "<name>-WiLi" and the
   * pattern number, and ends with a newline; reading it back gives the badge
   * name (or the placeholder for an empty name) and the selected mode (Manual,
   * pattern 0, when none is selected).
   */
  lemma ConfigRoundTrip(mode: Option<LedMode>, badgeName: string)
    requires '\n' !in badgeName
    ensures var text := ConfigContent(mode, badgeName);
            var name := if badgeName == [] then NamePlaceholder else badgeName;
            && text[|text| - 1] == '\n'
            && Lines(text) == [name + NetworkSuffix, LedPattern(mode)]
            && DecodeConfig(text) == Some(BadgeConfig(name, if mode.Some? then mode.value else Manual))
  {
    var name := if badgeName == [] then NamePlaceholder else badgeName;
    var first := name + NetworkSuffix;
    var pattern := LedPattern(mode);
    var k := if mode.Some? then AsInteger(mode.value) else 0;
    assert IsDecimal(pattern) && DigitsValue(pattern) == k by {
      if mode.Some? { DecimalRoundTrip(k); }
    }
    DecimalHasNoNewline(pattern);
    var lines := [first, pattern];
    assert lines[1..][1..] == [];
    assert Terminated(lines[1..]) == pattern + "\n";
    assert ConfigContent(mode, badgeName) == Terminated(lines);
    LinesOfTerminated(lines);
    assert first[|first| - |NetworkSuffix|..] == NetworkSuffix;
    assert first[..|first| - |NetworkSuffix|] == name;
    if mode.Some? { ModeNumbering(mode.value, k); }
  }

  /** The six lines of the settings file for a badge named `badgeName`. */
  function SettingsLineList(badgeName: string): seq<string>
  {
    ["wifiAPEn=1", "wifiAPssid=" + badgeName + NetworkSuffix,
     "wifiAPAuth=0", "btEn=1", "btAPen=" + badgeName + NetworkSuffix,
     "btTerm=1"]
  }

  lemma SettingsIsTerminated(badgeName: string)
    ensures SettingsContent(badgeName) == Terminated(SettingsLineList(badgeName))
  {
    var lines := SettingsLineList(badgeName);
    assert lines[5..][1..] == [];
    assert Terminated(lines[5..]) == lines[5] + "\n";
    assert Terminated(lines[4..]) == lines[4] + "\n" + Terminated(lines[5..]);
    assert Terminated(lines[3..]) == lines[3] + "\n" + Terminated(lines[4..]);
    assert Terminated(lines[2..]) == lines[2] + "\n" + Terminated(lines[3..]);
    assert Terminated(lines[1..]) == lines[1] + "\n" + Terminated(lines[2..]);
  }

  /**
   * The settings file is exactly six lines and ends with a newline; both
   * network names are "<name>-WiLi" with no placeholder for an empty name,
   * and the other four lines are fixed.
   */
  lemma SettingsLines(badgeName: string)
    requires '\n' !in badgeName
    ensures var text := SettingsContent(badgeName);
            && text[|text| - 1] == '\n'
            && Lines(text) == SettingsLineList(badgeName)
  {
    SettingsIsTerminated(badgeName);
    LinesOfTerminated(SettingsLineList(badgeName));
  }
}
