/** The configuration file as it is read: defaults, clamps, and the refusal of
    anything that is not one whole object. */
module ConfigFile {
  import opened Basics
  import opened Numbers
  import opened JsonScan
  import opened Settings

  const MAX_FILE_BYTES: nat := 1024 * 1024
  const OFFSET_MIN: int := -60
  const OFFSET_MAX: int := 60
  const DEFAULT_REFRESH: int := 12 * 60 * 60
  const MIN_REFRESH: int := 3600

  // What the buffers hold, without their terminators.
  const ADHAN_MAX: nat := 511
  const TIMEZONE_MAX: nat := 63
  const CITY_MAX: nat := 127
  const COUNTRY_MAX: nat := 63
  const WORD_MAX: nat := 15
  const ICON_MAX: nat := 63
  const METHOD_MAX: nat := 31

  const DEFAULT_PRAYER := PrayerConfig(true, true, [30, 15, 5], 0, "")

  /** `config_default` */
  const DEFAULT := Config(
    0.0, 0.0, "UTC", 0.0, true, false, "", "", 0, DEFAULT_REFRESH,
    DEFAULT_PRAYER, DEFAULT_PRAYER, DEFAULT_PRAYER, DEFAULT_PRAYER, DEFAULT_PRAYER,
    5000, "critical", "adhan", "alarm", "reminder", "muslimtify", "kemenag", "shafi", 0.0, 0.0, 24)

  // ---- One field ----

  function TextOr(key: string, s: string, n: nat, fallback: string): (r: string) {
    match ValueOf(key, s)
    case None => fallback
    case Some(t) => Clip(t, n)
  }

  function RealOr(key: string, s: string, fallback: real): real {
    match ValueOf(key, s)
    case None => fallback
    case Some(t) => StrToD(t)
  }

  function FlagOr(key: string, s: string, fallback: bool): bool {
    match ValueOf(key, s)
    case None => fallback
    case Some(t) => t == "true"
  }

  function LongOr(key: string, s: string, fallback: int): int {
    match ValueOf(key, s)
    case None => fallback
    case Some(t) => StrToL(t)
  }

  function Clamp(n: int, low: int, high: int): int {
    if n < low then low else if n > high then high else n
  }

  // ---- Reminders ----

  predicate IsSeparator(c: char) {
    IsSpace(c) || c == ','
  }

  function SkipSeparators(s: string, p: nat): (r: nat)
    requires p <= |s|
    ensures p <= r <= |s|
    decreases |s| - p
  {
    if p < |s| && IsSeparator(s[p]) then SkipSeparators(s, p + 1) else p
  }

  predicate IsLead(n: int) {
    0 < n <= 1440
  }

  /** The reminders written in `s` from `p` on, with `n` already read: numbers
      out of range are passed over, and anything but a digit ends the list. */
  function RemindersFrom(s: string, p: nat, n: nat): (rs: seq<int>)
    requires p <= |s| && n <= MAX_REMINDERS
    ensures |rs| <= MAX_REMINDERS - n && forall k | 0 <= k < |rs| :: IsLead(rs[k])
    decreases |s| - p
  {
    var q := SkipSeparators(s, p);
    if n == MAX_REMINDERS || q == |s| || !IsDigit(s[q]) then []
    else
      var end := DigitsEnd(s, q);
      var value := StrToL(s[q..end]);
      if IsLead(value) then [value] + RemindersFrom(s, end, n + 1) else RemindersFrom(s, end, n)
  }

  // ---- Sections ----

  function ReadReminders(fallback: seq<int>, s: string): seq<int> {
    match ValueOf("reminders", s)
    case None => fallback
    case Some(t) => if t != "" && t[0] == '[' then RemindersFrom(t, 1, 0) else fallback
  }

  /** `parse_prayer_config` */
  function ReadPrayer(p: PrayerConfig, s: string): PrayerConfig {
    PrayerConfig(
      FlagOr("enabled", s, p.enabled),
      FlagOr("adhan_enabled", s, p.adhanEnabled),
      ReadReminders(p.reminders, s),
      if ValueOf("offset", s).None? then p.offset else Clamp(LongOr("offset", s, 0), OFFSET_MIN, OFFSET_MAX),
      TextOr("adhan", s, ADHAN_MAX, p.adhan))
  }

  function PrayerOr(key: string, s: string, p: PrayerConfig): PrayerConfig {
    match ValueOf(key, s)
    case None => p
    case Some(t) => ReadPrayer(p, t)
  }

  function Floored(n: int): int {
    if 0 < n < MIN_REFRESH then MIN_REFRESH else n
  }

  function ReadLocation(c: Config, s: string): Config {
    c.(latitude := RealOr("latitude", s, c.latitude),
       longitude := RealOr("longitude", s, c.longitude),
       timezone := TextOr("timezone", s, TIMEZONE_MAX, c.timezone),
       timezoneOffset := RealOr("timezone_offset", s, c.timezoneOffset),
       autoDetect := FlagOr("auto_detect", s, c.autoDetect),
       useGps := FlagOr("auto_detect", s, c.autoDetect) && FlagOr("use_gps", s, c.useGps),
       city := TextOr("city", s, CITY_MAX, c.city),
       country := TextOr("country", s, COUNTRY_MAX, c.country),
       updatedAt := LongOr("updated_at", s, c.updatedAt),
       refreshInterval := Floored(LongOr("refresh_interval", s, c.refreshInterval)))
  }

  function ReadPrayers(c: Config, s: string): Config {
    c.(fajr := PrayerOr("fajr", s, c.fajr),
       dhuhr := PrayerOr("dhuhr", s, c.dhuhr),
       asr := PrayerOr("asr", s, c.asr),
       maghrib := PrayerOr("maghrib", s, c.maghrib),
       isha := PrayerOr("isha", s, c.isha))
  }

  predicate IsMode(mode: string) {
    mode == "adhan" || mode == "default" || mode == "off"
  }

  /** The sound mode, with the boolean of older files and anything unknown mapped
      to a mode. */
  function ModeOf(t: string): (mode: string)
    ensures IsMode(mode) && (IsMode(t) ==> mode == t)
  {
    if t == "true" then "default"
    else if t == "false" then "off"
    else if t != "adhan" && t != "default" && t != "off" then "adhan"
    else t
  }

  const INT_MIN: int := -0x8000_0000
  const INT_MAX: int := 0x7FFF_FFFF

  function ReadNotification(c: Config, s: string): Config {
    c.(timeout := if ValueOf("timeout", s).None? then c.timeout else Clamp(LongOr("timeout", s, 0), INT_MIN, INT_MAX),
       urgency := TextOr("urgency", s, WORD_MAX, c.urgency),
       sound := if ValueOf("sound", s).None? then c.sound else Clip(ModeOf(ValueOf("sound", s).value), WORD_MAX),
       soundAlarm := TextOr("sound_alarm", s, WORD_MAX, c.soundAlarm),
       soundReminder := TextOr("sound_reminder", s, WORD_MAX, c.soundReminder),
       icon := TextOr("icon", s, ICON_MAX, c.icon))
  }

  function ReadCalculation(c: Config, s: string): Config {
    c.(calculation := TextOr("method", s, METHOD_MAX, c.calculation),
       madhab := TextOr("madhab", s, WORD_MAX, c.madhab),
       fajrAngle := RealOr("fajr_angle", s, c.fajrAngle),
       ishaAngle := RealOr("isha_angle", s, c.ishaAngle))
  }

  function ReadDisplay(c: Config, s: string): Config {
    c.(timeFormat := if ValueOf("time_format", s).None? then c.timeFormat
                     else if LongOr("time_format", s, 0) == 12 then 12 else 24)
  }

  // ---- The file ----

  /** The text is one object with nothing but white space around it. */
  predicate IsWholeObject(s: string) {
    var d := SkipSpace(s, 0);
    && d < |s| && s[d] == '{' && MatchBracket(s, d, '{').Some?
    && SkipSpace(s, MatchBracket(s, d, '{').value + 1) == |s|
  }

  datatype SectionName = Location | Prayers | Notification | Calculation | Display

  function NameOf(section: SectionName): string {
    match section
    case Location => "location"
    case Prayers => "prayers"
    case Notification => "notification"
    case Calculation => "calculation"
    case Display => "display"
  }

  function ReadSection(c: Config, section: SectionName, s: string): Config {
    match section
    case Location => ReadLocation(c, s)
    case Prayers => ReadPrayers(c, s)
    case Notification => ReadNotification(c, s)
    case Calculation => ReadCalculation(c, s)
    case Display => ReadDisplay(c, s)
  }

  function SectionOr(c: Config, section: SectionName, s: string): Config {
    match ValueOf(NameOf(section), s)
    case None => c
    case Some(t) => ReadSection(c, section, t)
  }

  const SECTIONS: seq<SectionName> := [Location, Prayers, Notification, Calculation, Display]

  /** The sections from number `k` on, read over `c`. */
  function ReadFrom(c: Config, s: string, k: nat): Config
    requires k <= |SECTIONS|
    decreases |SECTIONS| - k
  {
    if k == |SECTIONS| then c else ReadFrom(SectionOr(c, SECTIONS[k], s), s, k + 1)
  }

  function LoadText(s: string): (r: Option<Config>) {
    if IsWholeObject(s) then Some(ReadFrom(DEFAULT, s, 0)) else None
  }

  /** `config_load`: None is a refusal. A missing file gives the defaults. */
  function Load(file: Option<string>): (r: Option<Config>) {
    match file
    case None => Some(DEFAULT)
    case Some(bytes) => if |bytes| > MAX_FILE_BYTES then None else LoadText(CString(bytes))
  }

  // ---- The normal form ----

  predicate IsText(t: string, n: nat) {
    |t| <= n && '\0' !in t
  }

  predicate IsNormalPrayer(p: PrayerConfig) {
    && OFFSET_MIN <= p.offset <= OFFSET_MAX
    && |p.reminders| <= MAX_REMINDERS && (forall k | 0 <= k < |p.reminders| :: IsLead(p.reminders[k]))
    && IsText(p.adhan, ADHAN_MAX)
  }

  predicate IsNormalLocation(c: Config) {
    && IsText(c.timezone, TIMEZONE_MAX) && IsText(c.city, CITY_MAX) && IsText(c.country, COUNTRY_MAX)
    && (c.useGps ==> c.autoDetect)
    && LONG_MIN <= c.updatedAt <= LONG_MAX
    && LONG_MIN <= c.refreshInterval <= LONG_MAX && (c.refreshInterval <= 0 || c.refreshInterval >= MIN_REFRESH)
  }

  predicate IsNormalNotification(c: Config) {
    && INT_MIN <= c.timeout <= INT_MAX && IsMode(c.sound)
    && IsText(c.urgency, WORD_MAX) && IsText(c.soundAlarm, WORD_MAX) && IsText(c.soundReminder, WORD_MAX)
    && IsText(c.icon, ICON_MAX)
  }

  /** What every loaded configuration satisfies. */
  predicate IsNormal(c: Config) {
    && IsNormalLocation(c)
    && IsNormalPrayer(c.fajr) && IsNormalPrayer(c.dhuhr) && IsNormalPrayer(c.asr)
    && IsNormalPrayer(c.maghrib) && IsNormalPrayer(c.isha)
    && IsNormalNotification(c)
    && IsText(c.calculation, METHOD_MAX) && IsText(c.madhab, WORD_MAX)
    && (c.timeFormat == 12 || c.timeFormat == 24)
  }

  lemma TextOrFits(key: string, s: string, n: nat, fallback: string)
    requires '\0' !in s && IsText(fallback, n)
    ensures IsText(TextOr(key, s, n, fallback), n)
  {
    hide ValueOf;
    match ValueOf(key, s)
    case None =>
    case Some(t) => assert forall c | c in Clip(t, n) :: c in t;
  }

  lemma LocationIsNormal(c: Config, s: string)
    requires '\0' !in s && IsNormal(c)
    ensures IsNormal(ReadLocation(c, s))
  {
    hide ValueOf, TextOr, IsNormalPrayer, IsText;
    TextOrFits("timezone", s, TIMEZONE_MAX, c.timezone);
    TextOrFits("city", s, CITY_MAX, c.city);
    TextOrFits("country", s, COUNTRY_MAX, c.country);
  }

  lemma PrayerIsNormal(key: string, s: string, p: PrayerConfig)
    requires '\0' !in s && IsNormalPrayer(p)
    ensures IsNormalPrayer(PrayerOr(key, s, p))
  {
    hide ValueOf, TextOr;
    if ValueOf(key, s).Some? {
      TextOrFits("adhan", ValueOf(key, s).value, ADHAN_MAX, p.adhan);
    }
  }

  lemma PrayersAreNormal(c: Config, s: string)
    requires '\0' !in s && IsNormal(c)
    ensures IsNormal(ReadPrayers(c, s))
  {
    hide PrayerOr, IsNormalPrayer;
    PrayerIsNormal("fajr", s, c.fajr);
    PrayerIsNormal("dhuhr", s, c.dhuhr);
    PrayerIsNormal("asr", s, c.asr);
    PrayerIsNormal("maghrib", s, c.maghrib);
    PrayerIsNormal("isha", s, c.isha);
  }

  lemma NotificationIsNormal(c: Config, s: string)
    requires '\0' !in s && IsNormal(c)
    ensures IsNormal(ReadNotification(c, s))
  {
    hide ValueOf, TextOr, IsNormalPrayer, IsText;
    TextOrFits("urgency", s, WORD_MAX, c.urgency);
    TextOrFits("sound_alarm", s, WORD_MAX, c.soundAlarm);
    TextOrFits("sound_reminder", s, WORD_MAX, c.soundReminder);
    TextOrFits("icon", s, ICON_MAX, c.icon);
  }

  lemma SectionIsNormal(c: Config, section: SectionName, s: string)
    requires '\0' !in s && IsNormal(c)
    ensures IsNormal(ReadSection(c, section, s))
  {
    hide ReadLocation, ReadPrayers, ReadNotification;
    match section
    case Location => LocationIsNormal(c, s);
    case Prayers => PrayersAreNormal(c, s);
    case Notification => NotificationIsNormal(c, s);
    case Calculation => CalculationIsNormal(c, s);
    case Display =>
  }

  lemma CalculationIsNormal(c: Config, s: string)
    requires '\0' !in s && IsNormal(c)
    ensures IsNormal(ReadCalculation(c, s))
  {
    hide ValueOf, TextOr, IsNormalPrayer, IsText;
    TextOrFits("method", s, METHOD_MAX, c.calculation);
    TextOrFits("madhab", s, WORD_MAX, c.madhab);
  }

  lemma {:induction false} ReadIsNormal(c: Config, s: string, k: nat)
    requires '\0' !in s && IsNormal(c) && k <= |SECTIONS|
    ensures IsNormal(ReadFrom(c, s, k))
    decreases |SECTIONS| - k
  {
    hide IsNormal, ReadSection, ValueOf, NameOf;
    if k < |SECTIONS| {
      var found := ValueOf(NameOf(SECTIONS[k]), s);
      if found.Some? {
        SectionIsNormal(c, SECTIONS[k], found.value);
      }
      ReadIsNormal(SectionOr(c, SECTIONS[k], s), s, k + 1);
    }
  }

  lemma DefaultIsNormal()
    ensures IsNormal(DEFAULT)
  {
  }

  /** Whatever the file holds, a configuration that loads is in range. */
  lemma LoadedIsNormal(file: Option<string>)
    requires Load(file).Some?
    ensures IsNormal(Load(file).value)
  {
    hide IsNormal, ReadFrom, IsWholeObject;
    DefaultIsNormal();
    if file.Some? {
      ReadIsNormal(DEFAULT, CString(file.value), 0);
    }
  }

  // ---- The loader ----

  method ReadText(key: string, s: string, n: nat, fallback: string) returns (r: string)
    requires '\0' !in s
    ensures r == TextOr(key, s, n, fallback)
  {
    hide ValueOf;
    var t := GetValue(key, s);
    return if t.None? then fallback else Clip(t.value, n);
  }

  lemma DigitsGoOn(s: string, q: nat)
    requires q < |s| && IsDigit(s[q])
    ensures DigitsEnd(s, q) > q
  {
  }

  method FindNumber(s: string, p: nat) returns (q: nat)
    requires p <= |s|
    ensures q == SkipSeparators(s, p)
  {
    q := p;
    while q < |s| && IsSeparator(s[q])
      invariant p <= q <= |s| && SkipSeparators(s, p) == SkipSeparators(s, q)
    {
      q := q + 1;
    }
  }

  /** Puts one reminder into the array. */
  method PutReminder(reminders: array<int>, count: nat, value: int)
    requires count < reminders.Length
    modifies reminders
    ensures reminders[..count + 1] == old(reminders[..count]) + [value]
  {
    reminders[count] := value;
  }

  /** The loop over the text of the array: it fills `reminders` and counts them. */
  method ParseReminders(s: string, reminders: array<int>) returns (count: nat)
    requires s != "" && reminders.Length == MAX_REMINDERS
    modifies reminders
    ensures count <= MAX_REMINDERS && reminders[..count] == RemindersFrom(s, 1, 0)
  {
    hide StrToL, DigitsEnd, AllDigits, SkipSeparators, RemindersFrom;
    var p: nat := 1;
    count := 0;
    assert reminders[..0] == [];
    while count < MAX_REMINDERS
      invariant p <= |s| && count <= MAX_REMINDERS
      invariant RemindersFrom(s, 1, 0) == reminders[..count] + RemindersFrom(s, p, count)
      decreases |s| - p
    {
      ghost var done := reminders[..count];
      NextReminder(s, p, count);
      var q := FindNumber(s, p);
      if q == |s| || !IsDigit(s[q]) {
        assert done + [] == done;
        return;
      }
      DigitsGoOn(s, q);
      var end := DigitsEnd(s, q);
      var value := StrToL(s[q..end]);
      ghost var rest := RemindersFrom(s, end, if IsLead(value) then count + 1 else count);
      if value > 0 && value <= 1440 {
        PutReminder(reminders, count, value);
        count := count + 1;
        assert done + ([value] + rest) == done + [value] + rest;
      }
      p := end;
    }
    NextReminder(s, p, count);
    assert reminders[..count] + [] == reminders[..count];
  }

  lemma NextReminder(s: string, p: nat, n: nat)
    requires p <= |s| && n <= MAX_REMINDERS
    ensures var q := SkipSeparators(s, p);
            var more := n < MAX_REMINDERS && q < |s| && IsDigit(s[q]);
            && (!more ==> RemindersFrom(s, p, n) == [])
            && (more ==> var end := DigitsEnd(s, q);
                         var value := StrToL(s[q..end]);
                         RemindersFrom(s, p, n) == if IsLead(value) then [value] + RemindersFrom(s, end, n + 1)
                                                   else RemindersFrom(s, end, n))
  {
  }

  method ParsePrayer(p: PrayerConfig, s: string) returns (r: PrayerConfig)
    requires '\0' !in s
    ensures r == ReadPrayer(p, s)
  {
    hide ValueOf, StrToL, RemindersFrom;
    r := p;
    var enabled := GetValue("enabled", s);
    if enabled.Some? {
      r := r.(enabled := enabled.value == "true");
    }
    var adhan := ReadText("adhan", s, ADHAN_MAX, p.adhan);
    r := r.(adhan := adhan);
    var adhanEnabled := GetValue("adhan_enabled", s);
    if adhanEnabled.Some? {
      r := r.(adhanEnabled := adhanEnabled.value == "true");
    }
    var list := GetValue("reminders", s);
    if list.Some? && list.value != "" && list.value[0] == '[' {
      var reminders := new int[MAX_REMINDERS];
      var count := ParseReminders(list.value, reminders);
      r := r.(reminders := reminders[..count]);
    }
    var offset := GetValue("offset", s);
    if offset.Some? {
      r := r.(offset := Clamp(StrToL(offset.value), OFFSET_MIN, OFFSET_MAX));
    }
  }

  method ReadReal(key: string, s: string, fallback: real) returns (r: real)
    requires '\0' !in s
    ensures r == RealOr(key, s, fallback)
  {
    hide ValueOf, StrToD;
    var t := GetValue(key, s);
    return if t.None? then fallback else StrToD(t.value);
  }

  method ReadFlag(key: string, s: string, fallback: bool) returns (r: bool)
    requires '\0' !in s
    ensures r == FlagOr(key, s, fallback)
  {
    hide ValueOf;
    var t := GetValue(key, s);
    return if t.None? then fallback else t.value == "true";
  }

  method ReadLong(key: string, s: string, fallback: int) returns (r: int)
    requires '\0' !in s
    ensures r == LongOr(key, s, fallback)
  {
    hide ValueOf, StrToL;
    var t := GetValue(key, s);
    return if t.None? then fallback else StrToL(t.value);
  }

  method ParseLocation(c: Config, s: string) returns (r: Config)
    requires '\0' !in s
    ensures r == ReadLocation(c, s)
  {
    hide RealOr, TextOr, FlagOr, LongOr;
    var latitude := ReadReal("latitude", s, c.latitude);
    var longitude := ReadReal("longitude", s, c.longitude);
    var timezone := ReadText("timezone", s, TIMEZONE_MAX, c.timezone);
    var timezoneOffset := ReadReal("timezone_offset", s, c.timezoneOffset);
    var autoDetect := ReadFlag("auto_detect", s, c.autoDetect);
    var useGps := ReadFlag("use_gps", s, c.useGps);
    if !autoDetect {
      useGps := false;
    }
    var city := ReadText("city", s, CITY_MAX, c.city);
    var country := ReadText("country", s, COUNTRY_MAX, c.country);
    var updatedAt := ReadLong("updated_at", s, c.updatedAt);
    var interval := ReadLong("refresh_interval", s, c.refreshInterval);
    if interval > 0 && interval < MIN_REFRESH {
      interval := MIN_REFRESH;
    }
    r := c.(latitude := latitude, longitude := longitude, timezone := timezone, timezoneOffset := timezoneOffset,
            autoDetect := autoDetect, useGps := useGps, city := city, country := country, updatedAt := updatedAt,
            refreshInterval := interval);
  }

  method ParsePrayerOf(key: string, s: string, p: PrayerConfig) returns (r: PrayerConfig)
    requires '\0' !in s
    ensures r == PrayerOr(key, s, p)
  {
    hide ValueOf, ReadPrayer;
    r := p;
    var t := GetValue(key, s);
    if t.Some? {
      r := ParsePrayer(p, t.value);
    }
  }

  method ParsePrayers(c: Config, s: string) returns (r: Config)
    requires '\0' !in s
    ensures r == ReadPrayers(c, s)
  {
    hide PrayerOr;
    var fajr := ParsePrayerOf("fajr", s, c.fajr);
    var dhuhr := ParsePrayerOf("dhuhr", s, c.dhuhr);
    var asr := ParsePrayerOf("asr", s, c.asr);
    var maghrib := ParsePrayerOf("maghrib", s, c.maghrib);
    var isha := ParsePrayerOf("isha", s, c.isha);
    r := c.(fajr := fajr, dhuhr := dhuhr, asr := asr, maghrib := maghrib, isha := isha);
  }

  method ParseNotification(c: Config, s: string) returns (r: Config)
    requires '\0' !in s
    ensures r == ReadNotification(c, s)
  {
    hide ValueOf, StrToL, TextOr;
    r := c;
    var timeout := GetValue("timeout", s);
    if timeout.Some? {
      r := r.(timeout := Clamp(StrToL(timeout.value), INT_MIN, INT_MAX));
    }
    var sound := GetValue("sound", s);
    if sound.Some? {
      var mode := sound.value;
      if sound.value == "true" {
        mode := "default";
      } else if sound.value == "false" {
        mode := "off";
      } else if sound.value != "adhan" && sound.value != "default" && sound.value != "off" {
        mode := "adhan";
      }
      r := r.(sound := Clip(mode, WORD_MAX));
    }
    var urgency := ReadText("urgency", s, WORD_MAX, c.urgency);
    var alarm := ReadText("sound_alarm", s, WORD_MAX, c.soundAlarm);
    var reminder := ReadText("sound_reminder", s, WORD_MAX, c.soundReminder);
    var icon := ReadText("icon", s, ICON_MAX, c.icon);
    r := r.(urgency := urgency, soundAlarm := alarm, soundReminder := reminder, icon := icon);
  }

  method ParseCalculation(c: Config, s: string) returns (r: Config)
    requires '\0' !in s
    ensures r == ReadCalculation(c, s)
  {
    hide RealOr, TextOr;
    var calculation := ReadText("method", s, METHOD_MAX, c.calculation);
    var madhab := ReadText("madhab", s, WORD_MAX, c.madhab);
    var fajr := ReadReal("fajr_angle", s, c.fajrAngle);
    var isha := ReadReal("isha_angle", s, c.ishaAngle);
    r := c.(calculation := calculation, madhab := madhab, fajrAngle := fajr, ishaAngle := isha);
  }

  method ParseDisplay(c: Config, s: string) returns (r: Config)
    requires '\0' !in s
    ensures r == ReadDisplay(c, s)
  {
    hide ValueOf, StrToL;
    r := c;
    var format := GetValue("time_format", s);
    if format.Some? {
      r := r.(timeFormat := if StrToL(format.value) == 12 then 12 else 24);
    }
  }

  method ParseSection(c: Config, section: SectionName, s: string) returns (r: Config)
    requires '\0' !in s
    ensures r == SectionOr(c, section, s)
  {
    hide ValueOf, ReadLocation, ReadPrayers, ReadNotification, ReadCalculation, ReadDisplay;
    r := c;
    var t := GetValue(NameOf(section), s);
    if t.Some? {
      match section {
        case Location => r := ParseLocation(c, t.value);
        case Prayers => r := ParsePrayers(c, t.value);
        case Notification => r := ParseNotification(c, t.value);
        case Calculation => r := ParseCalculation(c, t.value);
        case Display => r := ParseDisplay(c, t.value);
      }
    }
  }

  /** `config_load` on the bytes of the file. */
  method LoadConfig(file: Option<string>) returns (r: Option<Config>)
    ensures r == Load(file)
  {
    hide SectionOr, MatchBracket;
    var c := DEFAULT;
    if file.None? {
      return Some(c);
    }
    if |file.value| > MAX_FILE_BYTES {
      return None;
    }
    var content := CString(file.value);
    var doc := SkipWhitespace(content, 0);
    if doc == |content| || content[doc] != '{' {
      return None;
    }
    var docEnd := FindMatchingBracket(content, doc, '{');
    if docEnd.None? {
      return None;
    }
    var after := SkipWhitespace(content, docEnd.value + 1);
    if after != |content| {
      return None;
    }
    for k := 0 to |SECTIONS|
      invariant ReadFrom(DEFAULT, content, 0) == ReadFrom(c, content, k)
    {
      c := ParseSection(c, SECTIONS[k], content);
    }
    return Some(c);
  }
}
