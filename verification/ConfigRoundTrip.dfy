/** What the reader of the configuration makes of the writer's text, whole or cut
    off. */
module ConfigRoundTrip {
  import opened Basics
  import opened Numbers
  import opened JsonScan
  import opened JsonTree
  import opened JsonPrint
  import opened Settings
  import opened ConfigText
  import opened ConfigFile

  // ---- The reminder array ----

  lemma SameFromSeparators(s: string, p: nat, q: nat, n: nat)
    requires p <= |s| && q <= |s| && n <= MAX_REMINDERS && SkipSeparators(s, p) == SkipSeparators(s, q)
    ensures RemindersFrom(s, p, n) == RemindersFrom(s, q, n)
  {
    hide SkipSeparators, StrToL, RemindersFrom;
    NextReminder(s, p, n);
    NextReminder(s, q, n);
  }

  /** A positive number at `q`, with something other than a digit behind it. */
  lemma NumberReads(s: string, q: nat, v: int)
    requires v > 0 && v <= LONG_MAX && At(s, q, IntText(v)) && q + |IntText(v)| < |s| && !IsDigit(s[q + |IntText(v)|])
    ensures IsDigit(s[q]) && DigitsEnd(s, q) == q + |IntText(v)| && StrToL(s[q..q + |IntText(v)|]) == v
  {
    hide StrToL;
    var t := IntText(v);
    assert t == Digits(v);
    AtIndex(s, q, t, 0);
    DigitsEndIs(s, q, q + |t|);
    StrToLOfIntText(v);
  }

  /** Where the parts of one printed reminder stand. */
  lemma ReminderStands(s: string, p: nat, rs: seq<int>, first: bool)
    requires rs != [] && At(s, p, RenderItems(ReminderItems(rs, first)) + "]")
    ensures var q := p + if first then 0 else 1;
            var e := q + |IntText(rs[0])|;
            && At(s, q, IntText(rs[0])) && e < |s| && s[e] == (if |rs| > 1 then ',' else ']')
            && (!first ==> s[p] == ' ')
            && (|rs| > 1 ==> At(s, e + 1, RenderItems(ReminderItems(rs[1..], false)) + "]"))
            && (|rs| > 1 ==> p + |RenderItems(ReminderItems(rs, first)) + "]"|
                             == e + 1 + |RenderItems(ReminderItems(rs[1..], false)) + "]"|)
  {
    hide At, IntText, RenderItem, RenderItems;
    var xs, more := ReminderItems(rs, first), |rs| > 1;
    assert xs[1..] == ReminderItems(rs[1..], false);
    AtSplit(s, p, RenderItems(xs), "]");
    AtItems(s, p, xs);
    AtItem(s, p, xs[0], more);
    RenderLeaf(xs[0].value);
    CommaLength(more);
    var q := p + if first then 0 else 1;
    var e := q + |IntText(rs[0])|;
    if !first {
      AtIndex(s, p, " ", 0);
    }
    if more {
      CommaIs();
      AtIndex(s, e, ",", 0);
      AtSplit(s, e + 1, RenderItems(xs[1..]), "]");
    } else {
      NoParts();
      AtIndex(s, e, "]", 0);
    }
    AtBound(s, p, RenderItems(xs) + "]");
  }

  lemma CommaIs()
    ensures Comma(true) == "," && Comma(false) == ""
  {
  }

  lemma {:induction false} RemindersReadBack(s: string, p: nat, n: nat, rs: seq<int>, first: bool)
    requires rs != [] && n + |rs| <= MAX_REMINDERS && forall k | 0 <= k < |rs| :: IsLead(rs[k])
    requires At(s, p, RenderItems(ReminderItems(rs, first)) + "]")
    requires |s| == p + |RenderItems(ReminderItems(rs, first)) + "]"|
    ensures RemindersFrom(s, p, n) == rs
    decreases |rs|
  {
    hide At, IntText, RenderItems, ReminderItems, DigitsEnd, StrToL, RemindersFrom;
    ReminderStands(s, p, rs, first);
    var q := p + if first then 0 else 1;
    var e := q + |IntText(rs[0])|;
    assert IsLead(rs[0]);
    NumberReads(s, q, rs[0]);
    assert SkipSeparators(s, p) == q;
    NextReminder(s, p, n);
    if |rs| > 1 {
      RemindersReadBack(s, e + 1, n + 1, rs[1..], false);
      assert SkipSeparators(s, e) == SkipSeparators(s, e + 1);
      SameFromSeparators(s, e, e + 1, n + 1);
    } else {
      assert SkipSeparators(s, e) == e;
      NextReminder(s, e, n + 1);
    }
    assert [rs[0]] + rs[1..] == rs;
  }

  /** The printed array reads back as the reminders it was printed from. */
  lemma RemindersRoundTrip(rs: seq<int>)
    requires |rs| <= MAX_REMINDERS && forall k | 0 <= k < |rs| :: IsLead(rs[k])
    ensures var t := Render(RemindersJson(rs)); t != "" && t[0] == '[' && RemindersFrom(t, 1, 0) == rs
  {
    hide RenderItems, At, IsLead, RemindersFrom, StrToL;
    var inner := RenderItems(ReminderItems(rs, true));
    var t := Render(RemindersJson(rs));
    assert "" + "]" == "]";
    assert t == "[" + (inner + "]");
    AtFront("[", inner + "]");
    if rs == [] {
      NoParts();
      assert t[1] == ']' && SkipSeparators(t, 1) == 1;
      NextReminder(t, 1, 0);
    } else {
      RemindersReadBack(t, 1, 0, rs, true);
    }
  }

  // ---- Well-formedness ----

  lemma {:induction false} RemindersAreWellFormed(rs: seq<int>, first: bool)
    ensures WellFormedItems(ReminderItems(rs, first)) && ItemsHeight(ReminderItems(rs, first)) == 0
  {
    hide IntText, IsScalarText;
    if rs != [] {
      IntTextIsScalar(rs[0]);
      RemindersAreWellFormed(rs[1..], false);
      assert ReminderItems(rs, first)[1..] == ReminderItems(rs[1..], false);
    }
  }

  lemma ReminderDocument(rs: seq<int>)
    ensures IsDocument(RemindersJson(rs), 1)
  {
    RemindersAreWellFormed(rs, true);
  }

  lemma Leads()
    ensures AllSpace(PRAYER_LEAD) && AllSpace(FIELD_LEAD) && AllSpace(SECTION_LEAD) && AllSpace("\n")
  {
  }

  lemma PrayerDocument(p: PrayerConfig)
    requires IsNormalPrayer(p)
    ensures IsDocument(PrayerJson(p), 2)
  {
    hide IsDocument, AllSpace, IntText, RemindersJson, IsScalarText, IsGoodField, IsPlainKey;
    Leads();
    PrayerKeys();
    FlagIsScalar(p.enabled);
    FlagIsScalar(p.adhanEnabled);
    IntTextIsScalar(p.offset);
    ReminderDocument(p.reminders);
    LeafField(PRAYER_LEAD, "enabled", Scalar(Flag(p.enabled)), 1);
    LeafField(PRAYER_LEAD, "adhan", Str(p.adhan), 1);
    LeafField(PRAYER_LEAD, "adhan_enabled", Scalar(Flag(p.adhanEnabled)), 1);
    DeepField(PRAYER_LEAD, "reminders", RemindersJson(p.reminders), 1, 1);
    LeafField(PRAYER_LEAD, "offset", Scalar(IntText(p.offset)), 1);
    ObjectIsDocument(PrayerMembers(p), FIELD_LEAD, 1);
  }

  lemma LocationDocument(c: Config)
    requires IsNormalLocation(c)
    ensures IsDocument(Section(LocationMembers(c)), 1)
  {
    hide IsDocument, AllSpace, IntText, FixedText, IsScalarText, IsGoodField, IsPlainKey, Field;
    Leads();
    LocationKeys();
    FixedTextIsScalar(c.latitude, 6);
    FixedTextIsScalar(c.longitude, 6);
    FixedTextIsScalar(c.timezoneOffset, 6);
    FlagIsScalar(c.autoDetect);
    FlagIsScalar(c.useGps);
    IntTextIsScalar(c.updatedAt);
    IntTextIsScalar(c.refreshInterval);
    LeafField(FIELD_LEAD, "latitude", Scalar(FixedText(c.latitude, 6)), 0);
    LeafField(FIELD_LEAD, "longitude", Scalar(FixedText(c.longitude, 6)), 0);
    LeafField(FIELD_LEAD, "timezone", Str(c.timezone), 0);
    LeafField(FIELD_LEAD, "timezone_offset", Scalar(FixedText(c.timezoneOffset, 6)), 0);
    LeafField(FIELD_LEAD, "auto_detect", Scalar(Flag(c.autoDetect)), 0);
    LeafField(FIELD_LEAD, "use_gps", Scalar(Flag(c.useGps)), 0);
    LeafField(FIELD_LEAD, "updated_at", Scalar(IntText(c.updatedAt)), 0);
    LeafField(FIELD_LEAD, "refresh_interval", Scalar(IntText(c.refreshInterval)), 0);
    LeafField(FIELD_LEAD, "city", Str(c.city), 0);
    LeafField(FIELD_LEAD, "country", Str(c.country), 0);
    ObjectIsDocument(LocationMembers(c), SECTION_LEAD, 0);
  }

  lemma NotificationDocument(c: Config)
    requires IsNormalNotification(c)
    ensures IsDocument(Section(NotificationMembers(c)), 1)
  {
    hide IsDocument, AllSpace, IntText, IsScalarText, IsGoodField, IsPlainKey, Field;
    Leads();
    NotificationKeys();
    IntTextIsScalar(c.timeout);
    LeafField(FIELD_LEAD, "timeout", Scalar(IntText(c.timeout)), 0);
    LeafField(FIELD_LEAD, "urgency", Str(c.urgency), 0);
    LeafField(FIELD_LEAD, "sound", Str(c.sound), 0);
    LeafField(FIELD_LEAD, "sound_alarm", Str(c.soundAlarm), 0);
    LeafField(FIELD_LEAD, "sound_reminder", Str(c.soundReminder), 0);
    LeafField(FIELD_LEAD, "icon", Str(c.icon), 0);
    ObjectIsDocument(NotificationMembers(c), SECTION_LEAD, 0);
  }

  lemma CalculationDocument(c: Config)
    requires '\0' !in c.calculation && '\0' !in c.madhab
    ensures IsDocument(Section(CalculationMembers(c)), 1)
  {
    hide IsDocument, AllSpace, FixedText, IsScalarText, IsGoodField, IsPlainKey, Field;
    Leads();
    OtherKeys();
    FixedTextIsScalar(c.fajrAngle, 6);
    FixedTextIsScalar(c.ishaAngle, 6);
    LeafField(FIELD_LEAD, "method", Str(c.calculation), 0);
    LeafField(FIELD_LEAD, "madhab", Str(c.madhab), 0);
    LeafField(FIELD_LEAD, "fajr_angle", Scalar(FixedText(c.fajrAngle, 6)), 0);
    LeafField(FIELD_LEAD, "isha_angle", Scalar(FixedText(c.ishaAngle, 6)), 0);
    ObjectIsDocument(CalculationMembers(c), SECTION_LEAD, 0);
  }

  lemma DisplayDocument(c: Config)
    ensures IsDocument(Section(DisplayMembers(c)), 1)
  {
    hide IsDocument, AllSpace, IntText, IsScalarText, IsGoodField, IsPlainKey, Field;
    Leads();
    OtherKeys();
    IntTextIsScalar(c.timeFormat);
    LeafField(FIELD_LEAD, "time_format", Scalar(IntText(c.timeFormat)), 0);
    ObjectIsDocument(DisplayMembers(c), SECTION_LEAD, 0);
  }

  lemma PrayersDocument(c: Config)
    requires IsNormal(c)
    ensures IsDocument(Section(PrayersMembers(c)), 3)
  {
    hide IsDocument, AllSpace, PrayerJson, IsNormalPrayer, IsGoodField, IsPlainKey, Field;
    Leads();
    OtherKeys();
    PrayerDocument(c.fajr);
    PrayerDocument(c.dhuhr);
    PrayerDocument(c.asr);
    PrayerDocument(c.maghrib);
    PrayerDocument(c.isha);
    DeepField(FIELD_LEAD, "fajr", PrayerJson(c.fajr), 2, 2);
    DeepField(FIELD_LEAD, "dhuhr", PrayerJson(c.dhuhr), 2, 2);
    DeepField(FIELD_LEAD, "asr", PrayerJson(c.asr), 2, 2);
    DeepField(FIELD_LEAD, "maghrib", PrayerJson(c.maghrib), 2, 2);
    DeepField(FIELD_LEAD, "isha", PrayerJson(c.isha), 2, 2);
    ObjectIsDocument(PrayersMembers(c), SECTION_LEAD, 2);
  }

  lemma ConfigDocument(c: Config)
    requires IsNormal(c)
    ensures IsDocument(ConfigJson(c), 4)
  {
    hide IsDocument, AllSpace, Section, LocationMembers, PrayersMembers, NotificationMembers, CalculationMembers,
         DisplayMembers, IsNormalPrayer, IsNormalLocation, IsNormalNotification, IsGoodField, IsPlainKey, Field;
    Leads();
    OtherKeys();
    LocationDocument(c);
    PrayersDocument(c);
    NotificationDocument(c);
    CalculationDocument(c);
    DisplayDocument(c);
    DeepField(SECTION_LEAD, "location", Section(LocationMembers(c)), 1, 3);
    DeepField(SECTION_LEAD, "prayers", Section(PrayersMembers(c)), 3, 3);
    DeepField(SECTION_LEAD, "notification", Section(NotificationMembers(c)), 1, 3);
    DeepField(SECTION_LEAD, "calculation", Section(CalculationMembers(c)), 1, 3);
    DeepField(SECTION_LEAD, "display", Section(DisplayMembers(c)), 1, 3);
    ObjectIsDocument(ConfigMembers(c), "\n", 3);
  }

  // ---- Reading the sections back ----

  /** No two members have the same key. */
  ghost predicate KeysDiffer(ms: seq<Member>) {
    forall j, k | 0 <= j < k < |ms| :: ms[j].key != ms[k].key
  }

  /** An object whose members can be looked up by position. */
  ghost predicate IsRecord(v: Json) {
    v.Obj? && IsDocument(v, DEPTH_LIMIT) && KeysDiffer(v.members)
  }

  lemma RecordOf(ms: seq<Member>, tail: string, h: nat)
    requires IsDocument(Obj(ms, tail), h) && h <= DEPTH_LIMIT && KeysDiffer(ms)
    ensures IsRecord(Obj(ms, tail))
  {
  }

  lemma FieldReads(v: Json, k: nat)
    requires IsRecord(v) && k < |v.members|
    ensures ValueOf(v.members[k].key, Render(v)) == Some(Reading(v.members[k].value))
  {
    hide ValueOf, WellFormed, Height, Render;
    assert Render(v) + "" == Render(v);
    MemberReads(v, k, "");
  }

  lemma TextReads(v: Json, k: nat, key: string, t: string, n: nat, fallback: string)
    requires IsRecord(v) && k < |v.members| && v.members[k].key == key && v.members[k].value == Str(t) && |t| <= n
    ensures TextOr(key, Render(v), n, fallback) == t
  {
    hide ValueOf, Render, IsRecord;
    FieldReads(v, k);
  }

  lemma RealReads(v: Json, k: nat, key: string, x: real, fallback: real)
    requires IsRecord(v) && k < |v.members| && v.members[k].key == key && v.members[k].value == Scalar(FixedText(x, 6))
    ensures RealOr(key, Render(v), fallback) == Rounded(x, 6)
  {
    hide ValueOf, IsRecord, FixedText, StrToD, Rounded;
    FieldReads(v, k);
    StrToDOfFixedText(x, 6);
  }

  lemma FlagReads(v: Json, k: nat, key: string, b: bool, fallback: bool)
    requires IsRecord(v) && k < |v.members| && v.members[k].key == key && v.members[k].value == Scalar(Flag(b))
    ensures FlagOr(key, Render(v), fallback) == b
  {
    hide ValueOf, IsRecord, Flag;
    FieldReads(v, k);
    FlagIsScalar(b);
  }

  lemma LongReads(v: Json, k: nat, key: string, n: int, fallback: int)
    requires IsRecord(v) && k < |v.members| && v.members[k].key == key && v.members[k].value == Scalar(IntText(n))
    requires LONG_MIN <= n <= LONG_MAX
    ensures ValueOf(key, Render(v)).Some? && LongOr(key, Render(v), fallback) == n
  {
    hide ValueOf, IsRecord, IntText, StrToL;
    FieldReads(v, k);
    StrToLOfIntText(n);
  }

  lemma PrayerKeysDiffer(p: PrayerConfig)
    ensures KeysDiffer(PrayerMembers(p))
  {
    hide IntText, Flag, RemindersJson;
  }

  lemma LocationKeysDiffer(c: Config)
    ensures KeysDiffer(LocationMembers(c))
  {
    hide IntText, Flag, FixedText;
  }

  lemma NotificationKeysDiffer(c: Config)
    ensures KeysDiffer(NotificationMembers(c))
  {
    hide IntText;
  }

  lemma CalculationKeysDiffer(c: Config)
    ensures KeysDiffer(CalculationMembers(c))
  {
    hide FixedText;
  }

  lemma PrayersKeysDiffer(c: Config)
    ensures KeysDiffer(PrayersMembers(c))
  {
    hide PrayerJson;
  }

  lemma ConfigKeysDiffer(c: Config)
    ensures KeysDiffer(ConfigMembers(c))
  {
    hide LocationMembers, PrayersMembers, NotificationMembers, CalculationMembers, DisplayMembers;
  }

  lemma PrayerRoundTrip(p: PrayerConfig, base: PrayerConfig)
    requires IsNormalPrayer(p)
    ensures ReadPrayer(base, Render(PrayerJson(p))) == p
  {
    hide IsRecord, IsDocument, KeysDiffer, Render, IntText, RemindersJson, Flag, TextOr, FlagOr, ValueOf, LongOr, RemindersFrom;
    var v := PrayerJson(p);
    PrayerDocument(p);
    PrayerKeysDiffer(p);
    RecordOf(PrayerMembers(p), FIELD_LEAD, 2);
    FlagReads(v, 0, "enabled", p.enabled, base.enabled);
    TextReads(v, 1, "adhan", p.adhan, ConfigFile.ADHAN_MAX, base.adhan);
    FlagReads(v, 2, "adhan_enabled", p.adhanEnabled, base.adhanEnabled);
    FieldReads(v, 3);
    RemindersRoundTrip(p.reminders);
    LongReads(v, 4, "offset", p.offset, 0);
    RemindersReading(p.reminders);
  }

  lemma RemindersReading(rs: seq<int>)
    ensures Reading(RemindersJson(rs)) == Render(RemindersJson(rs))
  {
    hide Render;
  }

  lemma LocationRoundTrip(c: Config, base: Config)
    requires IsNormalLocation(c)
    ensures ReadLocation(base, Render(Section(LocationMembers(c))))
         == base.(latitude := Rounded(c.latitude, 6), longitude := Rounded(c.longitude, 6), timezone := c.timezone,
                  timezoneOffset := Rounded(c.timezoneOffset, 6), autoDetect := c.autoDetect, useGps := c.useGps,
                  city := c.city, country := c.country, updatedAt := c.updatedAt, refreshInterval := c.refreshInterval)
  {
    hide IsRecord, IsDocument, KeysDiffer, Render, IntText, FixedText, Flag, TextOr, FlagOr, RealOr, ValueOf, LongOr, Rounded;
    var v := Section(LocationMembers(c));
    LocationDocument(c);
    LocationKeysDiffer(c);
    RecordOf(LocationMembers(c), SECTION_LEAD, 1);
    RealReads(v, 0, "latitude", c.latitude, base.latitude);
    RealReads(v, 1, "longitude", c.longitude, base.longitude);
    TextReads(v, 2, "timezone", c.timezone, TIMEZONE_MAX, base.timezone);
    RealReads(v, 3, "timezone_offset", c.timezoneOffset, base.timezoneOffset);
    FlagReads(v, 4, "auto_detect", c.autoDetect, base.autoDetect);
    FlagReads(v, 5, "use_gps", c.useGps, base.useGps);
    LongReads(v, 6, "updated_at", c.updatedAt, base.updatedAt);
    LongReads(v, 7, "refresh_interval", c.refreshInterval, base.refreshInterval);
    TextReads(v, 8, "city", c.city, CITY_MAX, base.city);
    TextReads(v, 9, "country", c.country, COUNTRY_MAX, base.country);
  }

  lemma PrayersRoundTrip(c: Config, base: Config)
    requires IsNormal(c)
    ensures ReadPrayers(base, Render(Section(PrayersMembers(c))))
         == base.(fajr := c.fajr, dhuhr := c.dhuhr, asr := c.asr, maghrib := c.maghrib, isha := c.isha)
  {
    hide IsRecord, IsDocument, KeysDiffer, Render, ValueOf, ReadPrayer, PrayerJson, IsNormalPrayer, IsNormalLocation,
         IsNormalNotification, IsText;
    var v := Section(PrayersMembers(c));
    PrayersDocument(c);
    PrayersKeysDiffer(c);
    RecordOf(PrayersMembers(c), SECTION_LEAD, 3);
    PrayerReads(v, 0, c.fajr, base.fajr);
    PrayerReads(v, 1, c.dhuhr, base.dhuhr);
    PrayerReads(v, 2, c.asr, base.asr);
    PrayerReads(v, 3, c.maghrib, base.maghrib);
    PrayerReads(v, 4, c.isha, base.isha);
  }

  lemma PrayerReads(v: Json, k: nat, p: PrayerConfig, base: PrayerConfig)
    requires IsRecord(v) && k < |v.members| && v.members[k].value == PrayerJson(p) && IsNormalPrayer(p)
    ensures PrayerOr(v.members[k].key, Render(v), base) == p
  {
    hide IsRecord, Render, ValueOf, ReadPrayer, IsNormalPrayer, PrayerMembers;
    FieldReads(v, k);
    PrayerRoundTrip(p, base);
  }

  lemma NotificationRoundTrip(c: Config, base: Config)
    requires IsNormalNotification(c)
    ensures ReadNotification(base, Render(Section(NotificationMembers(c))))
         == base.(timeout := c.timeout, urgency := c.urgency, sound := c.sound, soundAlarm := c.soundAlarm,
                  soundReminder := c.soundReminder, icon := c.icon)
  {
    hide IsRecord, IsDocument, KeysDiffer, Render, IntText, TextOr, ValueOf, LongOr, ModeOf, IsText;
    var v := Section(NotificationMembers(c));
    NotificationDocument(c);
    NotificationKeysDiffer(c);
    RecordOf(NotificationMembers(c), SECTION_LEAD, 1);
    LongReads(v, 0, "timeout", c.timeout, 0);
    NotificationTexts(v, c, base);
    FieldReads(v, 2);
  }

  lemma NotificationTexts(v: Json, c: Config, base: Config)
    requires IsRecord(v) && v == Section(NotificationMembers(c)) && IsNormalNotification(c)
    ensures TextOr("urgency", Render(v), WORD_MAX, base.urgency) == c.urgency
    ensures TextOr("sound_alarm", Render(v), WORD_MAX, base.soundAlarm) == c.soundAlarm
    ensures TextOr("sound_reminder", Render(v), WORD_MAX, base.soundReminder) == c.soundReminder
    ensures TextOr("icon", Render(v), ICON_MAX, base.icon) == c.icon
  {
    hide IsRecord, Render, IntText, TextOr;
    TextReads(v, 1, "urgency", c.urgency, WORD_MAX, base.urgency);
    TextReads(v, 3, "sound_alarm", c.soundAlarm, WORD_MAX, base.soundAlarm);
    TextReads(v, 4, "sound_reminder", c.soundReminder, WORD_MAX, base.soundReminder);
    TextReads(v, 5, "icon", c.icon, ICON_MAX, base.icon);
  }

  function AngleOf(c: Config, angle: real, base: real): real {
    if c.calculation == "custom" then Rounded(angle, 6) else base
  }

  lemma CalculationRoundTrip(c: Config, base: Config)
    requires IsText(c.calculation, METHOD_MAX) && IsText(c.madhab, WORD_MAX)
    ensures ReadCalculation(base, Render(Section(CalculationMembers(c))))
         == base.(calculation := c.calculation, madhab := c.madhab,
                  fajrAngle := AngleOf(c, c.fajrAngle, base.fajrAngle), ishaAngle := AngleOf(c, c.ishaAngle, base.ishaAngle))
  {
    hide IsRecord, IsDocument, KeysDiffer, Render, FixedText, TextOr, RealOr, Rounded;
    var v := Section(CalculationMembers(c));
    CalculationDocument(c);
    CalculationKeysDiffer(c);
    RecordOf(CalculationMembers(c), SECTION_LEAD, 1);
    TextReads(v, 0, "method", c.calculation, METHOD_MAX, base.calculation);
    TextReads(v, 1, "madhab", c.madhab, WORD_MAX, base.madhab);
    if c.calculation == "custom" {
      RealReads(v, 2, "fajr_angle", c.fajrAngle, base.fajrAngle);
      RealReads(v, 3, "isha_angle", c.ishaAngle, base.ishaAngle);
    } else {
      NoAngles(v, "fajr_angle", base.fajrAngle);
      NoAngles(v, "isha_angle", base.ishaAngle);
    }
  }

  lemma NoAngles(v: Json, key: string, base: real)
    requires IsRecord(v) && |v.members| == 2 && v.members[0].key == "method" && v.members[1].key == "madhab"
    requires key == "fajr_angle" || key == "isha_angle"
    ensures RealOr(key, Render(v), base) == base
  {
    hide ValueOf, WellFormed, Height, Render, StrToD;
    assert Render(v) + "" == Render(v);
    MissingReads(v, key, "");
  }

  lemma DisplayRoundTrip(c: Config, base: Config)
    requires c.timeFormat == 12 || c.timeFormat == 24
    ensures ReadDisplay(base, Render(Section(DisplayMembers(c)))) == base.(timeFormat := c.timeFormat)
  {
    hide IsRecord, IsDocument, Render, IntText, ValueOf, LongOr;
    var v := Section(DisplayMembers(c));
    DisplayDocument(c);
    RecordOf(DisplayMembers(c), SECTION_LEAD, 1);
    LongReads(v, 0, "time_format", c.timeFormat, 0);
  }

  // ---- The whole file ----

  /** What comes back of a configuration: the decimals as millionths, and the
      angles only for the custom method. */
  function Reloaded(c: Config): (r: Config) {
    c.(latitude := Rounded(c.latitude, 6), longitude := Rounded(c.longitude, 6),
       timezoneOffset := Rounded(c.timezoneOffset, 6),
       fajrAngle := AngleOf(c, c.fajrAngle, 0.0), ishaAngle := AngleOf(c, c.ishaAngle, 0.0))
  }

  function SectionJson(c: Config, section: SectionName): Json {
    match section
    case Location => Section(LocationMembers(c))
    case Prayers => Section(PrayersMembers(c))
    case Notification => Section(NotificationMembers(c))
    case Calculation => Section(CalculationMembers(c))
    case Display => Section(DisplayMembers(c))
  }

  /** Each section of the text is found, whatever white space follows the object. */
  lemma SectionsRead(c: Config, rest: string, k: nat)
    requires IsNormal(c) && AllSpace(rest) && k < |SECTIONS|
    ensures ValueOf(NameOf(SECTIONS[k]), Render(ConfigJson(c)) + rest) == Some(Render(SectionJson(c, SECTIONS[k])))
  {
    hide ValueOf, WellFormed, Height, Render, IsNormal, LocationMembers, PrayersMembers, NotificationMembers,
         CalculationMembers, DisplayMembers, AllSpace;
    ConfigDocument(c);
    ConfigKeysDiffer(c);
    MemberReads(ConfigJson(c), k, rest);
    ConfigMemberIs(c, k);
  }

  lemma ConfigMemberIs(c: Config, k: nat)
    requires k < |SECTIONS|
    ensures var m := ConfigMembers(c)[k];
            m.key == NameOf(SECTIONS[k]) && m.value == SectionJson(c, SECTIONS[k])
            && Reading(m.value) == Render(SectionJson(c, SECTIONS[k]))
  {
    hide Render, LocationMembers, PrayersMembers, NotificationMembers, CalculationMembers, DisplayMembers;
  }

  /** One section read over what the earlier ones gave. */
  lemma ReadSections(c: Config, rest: string)
    requires IsNormal(c) && AllSpace(rest)
    ensures ReadFrom(DEFAULT, Render(ConfigJson(c)) + rest, 0) == Reloaded(c)
  {
    hide ValueOf, Render, ConfigJson, IsNormalPrayer, AllSpace, ReadLocation, ReadPrayers, ReadNotification, ReadCalculation,
         ReadDisplay, Rounded, LocationMembers, PrayersMembers, NotificationMembers, CalculationMembers, DisplayMembers,
         AngleOf, Section;
    var s := Render(ConfigJson(c)) + rest;
    SectionsRead(c, rest, 0);
    SectionsRead(c, rest, 1);
    SectionsRead(c, rest, 2);
    SectionsRead(c, rest, 3);
    SectionsRead(c, rest, 4);
    var c1 := SectionOr(DEFAULT, Location, s);
    LocationRoundTrip(c, DEFAULT);
    var c2 := SectionOr(c1, Prayers, s);
    PrayersRoundTrip(c, c1);
    var c3 := SectionOr(c2, Notification, s);
    NotificationRoundTrip(c, c2);
    var c4 := SectionOr(c3, Calculation, s);
    CalculationRoundTrip(c, c3);
    var c5 := SectionOr(c4, Display, s);
    DisplayRoundTrip(c, c4);
    assert c5 == Reloaded(c);
    assert ReadFrom(DEFAULT, s, 0) == ReadFrom(c1, s, 1);
    assert ReadFrom(c1, s, 1) == ReadFrom(c2, s, 2);
    assert ReadFrom(c2, s, 2) == ReadFrom(c3, s, 3);
    assert ReadFrom(c3, s, 3) == ReadFrom(c4, s, 4);
    assert ReadFrom(c4, s, 4) == ReadFrom(c5, s, 5);
  }

  /** The text, cut off after `n` characters, is one whole object only when
      nothing but its last newline is missing. */
  lemma WholeExactly(c: Config, n: nat)
    requires IsNormal(c) && n <= |SaveText(c)|
    ensures IsWholeObject(SaveText(c)[..n]) <==> n + 1 >= |SaveText(c)|
  {
    hide Render, WellFormed, Height, IsNormal, MatchFrom, ConfigMembers, AllSpace;
    var s, v := SaveText(c), ConfigJson(c);
    ConfigDocument(c);
    AtFront(Render(v), "\n");
    MatchOfContainer(s, 0, v, DEPTH_LIMIT);
    if n > 0 {
      var t := s[..n];
      assert t[0] == s[0] == '{';
      SkipSpaceIs(t, 0, 0);
      MatchOfPrefix(s, 1, n, 1, '{', DEPTH_LIMIT);
      if n + 1 >= |s| {
        SkipSpaceIs(t, |Render(v)|, n);
      }
    }
  }

  /** Loading after saving: everything comes back, decimals as millionths. */
  lemma SaveThenLoad(c: Config)
    requires IsNormal(c)
    ensures ConfigFile.LoadText(SaveText(c)) == Some(Reloaded(c))
  {
    hide IsNormal, Render, IsWholeObject, ReadFrom, ConfigMembers, Reloaded;
    var s := SaveText(c);
    assert s[..|s|] == s;
    WholeExactly(c, |s|);
    NewlineIsSpace();
    ReadSections(c, "\n");
  }

  lemma NewlineIsSpace()
    ensures AllSpace("\n") && AllSpace("")
  {
  }

  /** A cut-off file is refused, unless only its last newline is missing; then it
      loads as the whole file does. So no cut brings back defaults. */
  lemma TruncationIsRefused(c: Config, n: nat)
    requires IsNormal(c) && n <= |SaveText(c)|
    ensures ConfigFile.LoadText(SaveText(c)[..n]) == if n + 1 >= |SaveText(c)| then Some(Reloaded(c)) else None
  {
    hide IsNormal, Render, IsWholeObject, ReadFrom, ConfigMembers, Reloaded;
    var s := SaveText(c);
    WholeExactly(c, n);
    if n == |s| {
      assert s[..n] == s;
      SaveThenLoad(c);
    } else if n + 1 == |s| {
      assert s[..n] == Render(ConfigJson(c)) + "";
      NewlineIsSpace();
      ReadSections(c, "");
    }
  }

  /** The values that survive the file unchanged: millionths, and no angles but
      for the custom method. */
  predicate IsWritable(c: Config) {
    && Rounded(c.latitude, 6) == c.latitude && Rounded(c.longitude, 6) == c.longitude
    && Rounded(c.timezoneOffset, 6) == c.timezoneOffset
    && (if c.calculation == "custom" then Rounded(c.fajrAngle, 6) == c.fajrAngle && Rounded(c.ishaAngle, 6) == c.ishaAngle
        else c.fajrAngle == 0.0 && c.ishaAngle == 0.0)
  }

  /** What has been through the file once stays as it is. */
  lemma ReloadedIsStable(c: Config)
    requires IsNormal(c)
    ensures IsNormal(Reloaded(c)) && IsWritable(Reloaded(c)) && (IsWritable(c) <==> Reloaded(c) == c)
  {
    hide IsNormalPrayer, Rounded, IsText;
    RoundedTwice(c.latitude, 6);
    RoundedTwice(c.longitude, 6);
    RoundedTwice(c.timezoneOffset, 6);
    RoundedTwice(c.fajrAngle, 6);
    RoundedTwice(c.ishaAngle, 6);
  }

  // ---- The size cap ----

  predicate AreDoubles(c: Config) {
    && IsDouble(c.latitude) && IsDouble(c.longitude) && IsDouble(c.timezoneOffset)
    && IsDouble(c.fajrAngle) && IsDouble(c.ishaAngle)
  }

  /** The length of an object of `n` members of at most `each` bytes. */
  lemma ObjectLength(ms: seq<Member>, tail: string, each: nat)
    requires forall k | 0 <= k < |ms| :: Size(ms[k]) <= each
    ensures |Render(Obj(ms, tail))| <= |ms| * each + |tail| + 2
  {
    hide RenderMembers, Size;
    MembersLength(ms, each, 0);
  }

  lemma LeafLength(v: Json)
    ensures v.Str? ==> |Render(v)| <= 6 * |v.contents| + 2
    ensures v.Scalar? ==> |Render(v)| == |v.text|
  {
  }

  lemma {:induction false} RemindersLength(rs: seq<int>, first: bool)
    requires forall k | 0 <= k < |rs| :: IsLead(rs[k])
    ensures |RenderItems(ReminderItems(rs, first))| <= 6 * |rs|
  {
    hide IntText, RenderItem;
    if rs != [] {
      var xs := ReminderItems(rs, first);
      assert IsLead(rs[0]);
      IntTextLength(rs[0], 4);
      assert Pow10(4) == 10000;
      RemindersLength(rs[1..], false);
      assert xs[1..] == ReminderItems(rs[1..], false);
      ReminderLength(rs[0], first, |xs| > 1);
    }
  }

  lemma ReminderLength(n: int, first: bool, more: bool)
    requires IsLead(n)
    ensures |RenderItem(Item(if first then "" else " ", Scalar(IntText(n)), ""), more)| <= 6
  {
    assert |IntText(n)| <= 4 by {
      assert Pow10(4) == 10000;
      DigitsLength(n, 4);
    }
    hide IntText;
    CommaLength(more);
    RenderLeaf(Scalar(IntText(n)));
  }

  lemma IntLength(n: int)
    requires LONG_MIN <= n <= LONG_MAX
    ensures |IntText(n)| <= 20
  {
    assert Pow10(10) == 10000000000;
    assert Pow10(15) == 100000 * Pow10(10);
    assert Pow10(19) == 10000 * Pow10(15);
    IntTextLength(n, 19);
  }

  lemma PrayerLength(p: PrayerConfig)
    requires IsNormalPrayer(p)
    ensures |Render(PrayerJson(p))| <= 16010
  {
    hide Size, RenderItems, IntText, IsLead, RemindersJson, Render;
    var ms := PrayerMembers(p);
    IntLength(p.offset);
    RemindersTextLength(p.reminders);
    forall k | 0 <= k < |ms| ensures Size(ms[k]) <= 3200 {
      FieldSize(ms[k].lead, ms[k].key, ms[k].value);
      LeafLength(ms[k].value);
    }
    ObjectLength(ms, FIELD_LEAD, 3200);
  }

  lemma RemindersTextLength(rs: seq<int>)
    requires |rs| <= MAX_REMINDERS && forall k | 0 <= k < |rs| :: IsLead(rs[k])
    ensures |Render(RemindersJson(rs))| <= 62
  {
    hide RenderItems;
    RemindersLength(rs, true);
  }

  lemma LocationLength(c: Config)
    requires IsNormalLocation(c) && AreDoubles(c)
    ensures |Render(Section(LocationMembers(c)))| <= 10000
  {
    hide Size, IntText, FixedText, Render, IsDouble;
    var ms := LocationMembers(c);
    DoubleTextLength(c.latitude, 6);
    DoubleTextLength(c.longitude, 6);
    DoubleTextLength(c.timezoneOffset, 6);
    IntLength(c.updatedAt);
    IntLength(c.refreshInterval);
    forall k | 0 <= k < |ms| ensures Size(ms[k]) <= 900 {
      FieldSize(ms[k].lead, ms[k].key, ms[k].value);
      LeafLength(ms[k].value);
    }
    ObjectLength(ms, SECTION_LEAD, 900);
  }

  lemma PrayersLength(c: Config)
    requires IsNormal(c)
    ensures |Render(Section(PrayersMembers(c)))| <= 81000
  {
    hide Size, Render, PrayerJson, IsNormalPrayer;
    var ms := PrayersMembers(c);
    PrayerLength(c.fajr);
    PrayerLength(c.dhuhr);
    PrayerLength(c.asr);
    PrayerLength(c.maghrib);
    PrayerLength(c.isha);
    forall k | 0 <= k < |ms| ensures Size(ms[k]) <= 16100 {
      FieldSize(ms[k].lead, ms[k].key, ms[k].value);
    }
    ObjectLength(ms, SECTION_LEAD, 16100);
  }

  lemma NotificationLength(c: Config)
    requires IsNormalNotification(c)
    ensures |Render(Section(NotificationMembers(c)))| <= 10000
  {
    hide Size, IntText, Render;
    var ms := NotificationMembers(c);
    IntLength(c.timeout);
    forall k | 0 <= k < |ms| ensures Size(ms[k]) <= 900 {
      FieldSize(ms[k].lead, ms[k].key, ms[k].value);
      LeafLength(ms[k].value);
    }
    ObjectLength(ms, SECTION_LEAD, 900);
  }

  lemma CalculationLength(c: Config)
    requires IsText(c.calculation, METHOD_MAX) && IsText(c.madhab, WORD_MAX) && AreDoubles(c)
    ensures |Render(Section(CalculationMembers(c)))| <= 10000
  {
    hide Size, FixedText, Render, IsDouble;
    var ms := CalculationMembers(c);
    DoubleTextLength(c.fajrAngle, 6);
    DoubleTextLength(c.ishaAngle, 6);
    forall k | 0 <= k < |ms| ensures Size(ms[k]) <= 900 {
      FieldSize(ms[k].lead, ms[k].key, ms[k].value);
      LeafLength(ms[k].value);
    }
    ObjectLength(ms, SECTION_LEAD, 900);
  }

  lemma DisplayLength(c: Config)
    requires c.timeFormat == 12 || c.timeFormat == 24
    ensures |Render(Section(DisplayMembers(c)))| <= 10000
  {
    hide Size, IntText, Render;
    var ms := DisplayMembers(c);
    IntLength(c.timeFormat);
    FieldSize(ms[0].lead, ms[0].key, ms[0].value);
    LeafLength(ms[0].value);
    ObjectLength(ms, SECTION_LEAD, 900);
  }

  /** A configuration in normal form prints to less than the size cap. */
  lemma SaveFitsCap(c: Config)
    requires IsNormal(c) && AreDoubles(c)
    ensures |SaveText(c)| < ConfigFile.MAX_FILE_BYTES
  {
    hide Size, Render, Section, LocationMembers, PrayersMembers, NotificationMembers, CalculationMembers, DisplayMembers,
         IsNormalPrayer, IsDouble;
    var ms := ConfigMembers(c);
    LocationLength(c);
    PrayersLength(c);
    NotificationLength(c);
    CalculationLength(c);
    DisplayLength(c);
    forall k | 0 <= k < |ms| ensures Size(ms[k]) <= 81100 {
      FieldSize(ms[k].lead, ms[k].key, ms[k].value);
    }
    ObjectLength(ms, "\n", 81100);
  }

  /** The loader accepts its own writer's file, and what was loaded once loads as
      itself from then on. */
  lemma FileRoundTrip(c: Config)
    requires IsNormal(c) && AreDoubles(c)
    ensures ConfigFile.Load(Some(SaveText(c))) == Some(Reloaded(c))
    ensures IsWritable(c) ==> ConfigFile.Load(Some(SaveText(c))) == Some(c)
  {
    hide IsNormal, Render, SaveText, ConfigFile.LoadText, Reloaded, AreDoubles, IsWritable;
    SaveFitsCap(c);
    SaveThenLoad(c);
    SavedTextHasNoNul(c);
    CStringOf(SaveText(c));
    ReloadedIsStable(c);
  }

  lemma SavedTextHasNoNul(c: Config)
    requires IsNormal(c)
    ensures '\0' !in SaveText(c)
  {
    hide WellFormed, Height, Render, ConfigJson, IsNormal;
    ConfigDocument(c);
    RenderHasNoNul(ConfigJson(c));
  }
}
