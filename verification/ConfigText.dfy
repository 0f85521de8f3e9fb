/** The configuration file as it is written. */
module ConfigText {
  import opened Numbers
  import opened JsonEscape
  import opened JsonTree
  import opened JsonPrint
  import opened Settings

  // ---- The document ----

  function ReminderItems(rs: seq<int>, first: bool): (xs: seq<Item>)
    ensures |xs| == |rs|
  {
    if rs == [] then []
    else [Item(if first then "" else " ", Scalar(IntText(rs[0])), "")] + ReminderItems(rs[1..], false)
  }

  function RemindersJson(rs: seq<int>): Json {
    Arr(ReminderItems(rs, true), "")
  }

  const PRAYER_LEAD: string := "\n      "
  const FIELD_LEAD: string := "\n    "
  const SECTION_LEAD: string := "\n  "

  function PrayerMembers(p: PrayerConfig): (ms: seq<Member>) {
    [Field(PRAYER_LEAD, "enabled", Scalar(Flag(p.enabled))),
     Field(PRAYER_LEAD, "adhan", Str(p.adhan)),
     Field(PRAYER_LEAD, "adhan_enabled", Scalar(Flag(p.adhanEnabled))),
     Field(PRAYER_LEAD, "reminders", RemindersJson(p.reminders)),
     Field(PRAYER_LEAD, "offset", Scalar(IntText(p.offset)))]
  }

  function PrayerJson(p: PrayerConfig): Json {
    Obj(PrayerMembers(p), FIELD_LEAD)
  }

  function LocationMembers(c: Config): (ms: seq<Member>) {
    [Field(FIELD_LEAD, "latitude", Scalar(FixedText(c.latitude, 6))),
     Field(FIELD_LEAD, "longitude", Scalar(FixedText(c.longitude, 6))),
     Field(FIELD_LEAD, "timezone", Str(c.timezone)),
     Field(FIELD_LEAD, "timezone_offset", Scalar(FixedText(c.timezoneOffset, 6))),
     Field(FIELD_LEAD, "auto_detect", Scalar(Flag(c.autoDetect))),
     Field(FIELD_LEAD, "use_gps", Scalar(Flag(c.useGps))),
     Field(FIELD_LEAD, "updated_at", Scalar(IntText(c.updatedAt))),
     Field(FIELD_LEAD, "refresh_interval", Scalar(IntText(c.refreshInterval))),
     Field(FIELD_LEAD, "city", Str(c.city)),
     Field(FIELD_LEAD, "country", Str(c.country))]
  }

  function PrayersMembers(c: Config): (ms: seq<Member>) {
    [Field(FIELD_LEAD, "fajr", PrayerJson(c.fajr)),
     Field(FIELD_LEAD, "dhuhr", PrayerJson(c.dhuhr)),
     Field(FIELD_LEAD, "asr", PrayerJson(c.asr)),
     Field(FIELD_LEAD, "maghrib", PrayerJson(c.maghrib)),
     Field(FIELD_LEAD, "isha", PrayerJson(c.isha))]
  }

  function NotificationMembers(c: Config): (ms: seq<Member>) {
    [Field(FIELD_LEAD, "timeout", Scalar(IntText(c.timeout))),
     Field(FIELD_LEAD, "urgency", Str(c.urgency)),
     Field(FIELD_LEAD, "sound", Str(c.sound)),
     Field(FIELD_LEAD, "sound_alarm", Str(c.soundAlarm)),
     Field(FIELD_LEAD, "sound_reminder", Str(c.soundReminder)),
     Field(FIELD_LEAD, "icon", Str(c.icon))]
  }

  /** The angles are written for the custom method only. */
  function CalculationMembers(c: Config): (ms: seq<Member>) {
    [Field(FIELD_LEAD, "method", Str(c.calculation)),
     Field(FIELD_LEAD, "madhab", Str(c.madhab))]
    + if c.calculation != "custom" then []
      else [Field(FIELD_LEAD, "fajr_angle", Scalar(FixedText(c.fajrAngle, 6))),
            Field(FIELD_LEAD, "isha_angle", Scalar(FixedText(c.ishaAngle, 6)))]
  }

  function DisplayMembers(c: Config): (ms: seq<Member>) {
    [Field(FIELD_LEAD, "time_format", Scalar(IntText(c.timeFormat)))]
  }

  function Section(ms: seq<Member>): Json {
    Obj(ms, SECTION_LEAD)
  }

  function ConfigMembers(c: Config): (ms: seq<Member>) {
    [Field(SECTION_LEAD, "location", Section(LocationMembers(c))),
     Field(SECTION_LEAD, "prayers", Section(PrayersMembers(c))),
     Field(SECTION_LEAD, "notification", Section(NotificationMembers(c))),
     Field(SECTION_LEAD, "calculation", Section(CalculationMembers(c))),
     Field(SECTION_LEAD, "display", Section(DisplayMembers(c)))]
  }

  function ConfigJson(c: Config): Json {
    Obj(ConfigMembers(c), "\n")
  }

  /** The file `write_json_file` writes. */
  function SaveText(c: Config): string {
    Render(ConfigJson(c)) + "\n"
  }

  // ---- The writer ----

  lemma LeafTexts(ms: seq<Member>)
    ensures forall k | 0 <= k < |ms| && ms[k].value.Str? :: Render(ms[k].value) == Quoted(ms[k].value.contents)
    ensures forall k | 0 <= k < |ms| && ms[k].value.Scalar? :: Render(ms[k].value) == ms[k].value.text
  {
  }

  lemma PrayerKeys()
    ensures IsPlainKey("enabled") && IsPlainKey("adhan") && IsPlainKey("adhan_enabled")
    ensures IsPlainKey("reminders") && IsPlainKey("offset")
  {
  }

  lemma LocationKeys()
    ensures IsPlainKey("latitude") && IsPlainKey("longitude") && IsPlainKey("timezone") && IsPlainKey("timezone_offset")
    ensures IsPlainKey("auto_detect") && IsPlainKey("use_gps") && IsPlainKey("updated_at")
    ensures IsPlainKey("refresh_interval") && IsPlainKey("city") && IsPlainKey("country")
  {
  }

  lemma NotificationKeys()
    ensures IsPlainKey("timeout") && IsPlainKey("urgency") && IsPlainKey("sound")
    ensures IsPlainKey("sound_alarm") && IsPlainKey("sound_reminder") && IsPlainKey("icon")
  {
  }

  lemma OtherKeys()
    ensures IsPlainKey("method") && IsPlainKey("madhab") && IsPlainKey("fajr_angle") && IsPlainKey("isha_angle")
    ensures IsPlainKey("time_format")
    ensures IsPlainKey("location") && IsPlainKey("prayers") && IsPlainKey("notification") && IsPlainKey("calculation")
    ensures IsPlainKey("display")
    ensures IsPlainKey("fajr") && IsPlainKey("dhuhr") && IsPlainKey("asr") && IsPlainKey("maghrib") && IsPlainKey("isha")
  {
  }

  lemma {:induction false} ReminderItemAt(rs: seq<int>, first: bool, k: nat)
    requires k < |rs|
    ensures ReminderItems(rs, first)[k] == Item(if first && k == 0 then "" else " ", Scalar(IntText(rs[k])), "")
  {
    if k > 0 {
      ReminderItemAt(rs[1..], false, k - 1);
    }
  }

  /** Writes the array of reminders. */
  method WriteReminders(rs: seq<int>) returns (out: string)
    ensures out == Render(RemindersJson(rs))
  {
    hide Render, RenderItems, IntText, ReminderItems;
    ghost var xs := ReminderItems(rs, true);
    out := "[";
    NoParts();
    for j := 0 to |rs|
      invariant out == "[" + RenderItems(xs[..j])
    {
      ReminderItemAt(rs, true, j);
      AddItem(out, "[", xs[..j], if j == 0 then "" else " ", Scalar(IntText(rs[j])));
      RenderLeaf(Scalar(IntText(rs[j])));
      assert xs[..j] + [xs[j]] == xs[..j + 1];
      out := out + ((if j > 0 then "," else "") + (if j == 0 then "" else " ")) + IntText(rs[j]);
    }
    assert xs[..|rs|] == xs;
    assert "" + "[" == "[";
    CloseArray(out, "", xs, "");
    assert "" + "]" == "]";
    out := out + "]";
    assert "" + Render(RemindersJson(rs)) == Render(RemindersJson(rs));
  }

  /** The end of an object: its closing bracket on a line of its own. */
  method Close(sofar: string, ghost ms: seq<Member>, tail: string) returns (out: string)
    requires sofar == "{" + RenderMembers(ms)
    ensures out == Render(Obj(ms, tail))
  {
    hide RenderMembers, Render;
    assert "" + "{" == "{";
    CloseObject(sofar, "", ms, tail);
    out := sofar + (tail + "}");
    assert "" + Render(Obj(ms, tail)) == Render(Obj(ms, tail));
  }

  method WritePrayer(p: PrayerConfig) returns (out: string)
    ensures out == Render(PrayerJson(p))
  {
    hide Render, RenderMembers, IntText, IsPlainKey, RemindersJson;
    ghost var ms := PrayerMembers(p);
    NoParts();
    PrayerKeys();
    LeafTexts(ms);
    var adhan := WriteEscaped(p.adhan);
    var reminders := WriteReminders(p.reminders);
    out := "{";
    out := WriteField(out, PRAYER_LEAD, "enabled", Flag(p.enabled), "{", ms, 0);
    out := WriteField(out, PRAYER_LEAD, "adhan", adhan, "{", ms, 1);
    out := WriteField(out, PRAYER_LEAD, "adhan_enabled", Flag(p.adhanEnabled), "{", ms, 2);
    out := WriteField(out, PRAYER_LEAD, "reminders", reminders, "{", ms, 3);
    out := WriteField(out, PRAYER_LEAD, "offset", IntText(p.offset), "{", ms, 4);
    assert ms[..5] == ms;
    out := Close(out, ms, FIELD_LEAD);
  }

  /** The first six members of the location. */
  method WriteCoordinates(c: Config) returns (out: string)
    ensures out == "{" + RenderMembers(LocationMembers(c)[..6])
  {
    hide Render, RenderMembers, IntText, FixedText, IsPlainKey;
    ghost var ms := LocationMembers(c);
    NoParts();
    LocationKeys();
    LeafTexts(ms);
    var timezone := WriteEscaped(c.timezone);
    out := "{";
    out := WriteField(out, FIELD_LEAD, "latitude", FixedText(c.latitude, 6), "{", ms, 0);
    out := WriteField(out, FIELD_LEAD, "longitude", FixedText(c.longitude, 6), "{", ms, 1);
    out := WriteField(out, FIELD_LEAD, "timezone", timezone, "{", ms, 2);
    out := WriteField(out, FIELD_LEAD, "timezone_offset", FixedText(c.timezoneOffset, 6), "{", ms, 3);
    out := WriteField(out, FIELD_LEAD, "auto_detect", Flag(c.autoDetect), "{", ms, 4);
    out := WriteField(out, FIELD_LEAD, "use_gps", Flag(c.useGps), "{", ms, 5);
  }

  method WriteLocation(c: Config) returns (out: string)
    ensures out == Render(Section(LocationMembers(c)))
  {
    hide Render, RenderMembers, IntText, FixedText, IsPlainKey;
    ghost var ms := LocationMembers(c);
    LocationKeys();
    LeafTexts(ms);
    var city := WriteEscaped(c.city);
    var country := WriteEscaped(c.country);
    out := WriteCoordinates(c);
    out := WriteField(out, FIELD_LEAD, "updated_at", IntText(c.updatedAt), "{", ms, 6);
    out := WriteField(out, FIELD_LEAD, "refresh_interval", IntText(c.refreshInterval), "{", ms, 7);
    out := WriteField(out, FIELD_LEAD, "city", city, "{", ms, 8);
    out := WriteField(out, FIELD_LEAD, "country", country, "{", ms, 9);
    assert ms[..10] == ms;
    out := Close(out, ms, SECTION_LEAD);
  }

  function Key(i: nat): (s: string)
    requires i < PRAYER_COUNT
  {
    ["fajr", "dhuhr", "asr", "maghrib", "isha"][i]
  }

  method WritePrayers(c: Config) returns (out: string)
    ensures out == Render(Section(PrayersMembers(c)))
  {
    hide Render, RenderMembers, IsPlainKey, PrayerJson;
    ghost var ms := PrayersMembers(c);
    NoParts();
    OtherKeys();
    out := "{";
    for i := 0 to PRAYER_COUNT
      invariant out == "{" + RenderMembers(ms[..i])
    {
      var prayer := WritePrayer(ConfigOf(c, PRAYERS[i]));
      out := WriteField(out, FIELD_LEAD, Key(i), prayer, "{", ms, i);
    }
    assert ms[..5] == ms;
    out := Close(out, ms, SECTION_LEAD);
  }

  method WriteNotification(c: Config) returns (out: string)
    ensures out == Render(Section(NotificationMembers(c)))
  {
    hide Render, RenderMembers, IntText, IsPlainKey;
    ghost var ms := NotificationMembers(c);
    NoParts();
    NotificationKeys();
    LeafTexts(ms);
    var urgency := WriteEscaped(c.urgency);
    var sound := WriteEscaped(c.sound);
    var alarm := WriteEscaped(c.soundAlarm);
    var reminder := WriteEscaped(c.soundReminder);
    var icon := WriteEscaped(c.icon);
    out := "{";
    out := WriteField(out, FIELD_LEAD, "timeout", IntText(c.timeout), "{", ms, 0);
    out := WriteField(out, FIELD_LEAD, "urgency", urgency, "{", ms, 1);
    out := WriteField(out, FIELD_LEAD, "sound", sound, "{", ms, 2);
    out := WriteField(out, FIELD_LEAD, "sound_alarm", alarm, "{", ms, 3);
    out := WriteField(out, FIELD_LEAD, "sound_reminder", reminder, "{", ms, 4);
    out := WriteField(out, FIELD_LEAD, "icon", icon, "{", ms, 5);
    assert ms[..6] == ms;
    out := Close(out, ms, SECTION_LEAD);
  }

  method WriteCalculation(c: Config) returns (out: string)
    ensures out == Render(Section(CalculationMembers(c)))
  {
    hide Render, RenderMembers, FixedText, IsPlainKey;
    ghost var ms := CalculationMembers(c);
    NoParts();
    OtherKeys();
    LeafTexts(ms);
    var calculation := WriteEscaped(c.calculation);
    var madhab := WriteEscaped(c.madhab);
    out := "{";
    out := WriteField(out, FIELD_LEAD, "method", calculation, "{", ms, 0);
    out := WriteField(out, FIELD_LEAD, "madhab", madhab, "{", ms, 1);
    if c.calculation == "custom" {
      out := WriteField(out, FIELD_LEAD, "fajr_angle", FixedText(c.fajrAngle, 6), "{", ms, 2);
      out := WriteField(out, FIELD_LEAD, "isha_angle", FixedText(c.ishaAngle, 6), "{", ms, 3);
    }
    assert ms[..|ms|] == ms;
    out := Close(out, ms, SECTION_LEAD);
  }

  method WriteDisplay(c: Config) returns (out: string)
    ensures out == Render(Section(DisplayMembers(c)))
  {
    hide Render, RenderMembers, IntText, IsPlainKey;
    ghost var ms := DisplayMembers(c);
    NoParts();
    OtherKeys();
    LeafTexts(ms);
    out := WriteField("{", FIELD_LEAD, "time_format", IntText(c.timeFormat), "{", ms, 0);
    assert ms[..1] == ms;
    out := Close(out, ms, SECTION_LEAD);
  }

  /** `write_json_file` */
  method Write(c: Config) returns (out: string)
    ensures out == SaveText(c)
  {
    hide Render, RenderMembers, IsPlainKey, Section, LocationMembers, PrayersMembers, NotificationMembers,
         CalculationMembers, DisplayMembers;
    ghost var ms := ConfigMembers(c);
    NoParts();
    OtherKeys();
    var location := WriteLocation(c);
    var prayers := WritePrayers(c);
    var notification := WriteNotification(c);
    var calculation := WriteCalculation(c);
    var display := WriteDisplay(c);
    out := "{";
    out := WriteField(out, SECTION_LEAD, "location", location, "{", ms, 0);
    out := WriteField(out, SECTION_LEAD, "prayers", prayers, "{", ms, 1);
    out := WriteField(out, SECTION_LEAD, "notification", notification, "{", ms, 2);
    out := WriteField(out, SECTION_LEAD, "calculation", calculation, "{", ms, 3);
    out := WriteField(out, SECTION_LEAD, "display", display, "{", ms, 4);
    assert ms[..5] == ms;
    out := Close(out, ms, "\n");
    out := out + "\n";
  }
}
