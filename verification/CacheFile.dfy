/** The trigger cache on disk: its printer, its reader, and their round trip. */
module CacheFile {
  import opened Basics
  import opened Numbers
  import opened JsonEscape
  import opened JsonScan
  import opened JsonTree
  import opened JsonPrint
  import opened TriggerCache

  const FORMAT_VERSION: int := 2
  const MAX_FILE_BYTES: nat := 1024 * 1024
  const PRAYER_MAX: nat := 15
  const ADHAN_MAX: nat := 511
  const DATE_MAX: nat := 15

  // ---- The document ----

  function TriggerMembers(t: Trigger): seq<Member> {
    [Field("", "prayer", Str(t.prayer)),
     Field(" ", "minute", Scalar(IntText(t.minute))),
     Field(" ", "minutes_before", Scalar(IntText(t.minutesBefore))),
     Field(" ", "prayer_time", Scalar(FixedText(t.prayerTime, 4))),
     Field(" ", "adhan_enabled", Scalar(Flag(t.adhanEnabled))),
     Field(" ", "adhan", Str(t.adhan))]
  }

  function TriggerJson(t: Trigger): Json {
    Obj(TriggerMembers(t), "")
  }

  function TriggerItems(ts: seq<Trigger>): (xs: seq<Item>)
    ensures |xs| == |ts|
  {
    if ts == [] then [] else [Item("\n    ", TriggerJson(ts[0]), "")] + TriggerItems(ts[1..])
  }

  function DayMembers(d: Day): seq<Member> {
    [Field("\n  ", "version", Scalar(IntText(FORMAT_VERSION))),
     Field("\n  ", "date", Str(d.date)),
     Field("\n  ", "triggers", Arr(TriggerItems(d.triggers), "\n  "))]
  }

  function DayJson(d: Day): Json {
    Obj(DayMembers(d), "\n")
  }

  /** The file `cache_save` writes. */
  function SaveText(d: Day): string {
    Render(DayJson(d)) + "\n"
  }

  // ---- The reader ----

  predicate InRange(minute: int, minutesBefore: int) {
    0 <= minute < MINUTES_PER_DAY && 0 <= minutesBefore <= MINUTES_PER_DAY
  }

  /** The trigger written as the object `o`; None rejects the file. */
  function TriggerOf(o: string): (r: Option<Trigger>) {
    match (ValueOf("prayer", o), ValueOf("minute", o), ValueOf("minutes_before", o),
           ValueOf("prayer_time", o), ValueOf("adhan_enabled", o), ValueOf("adhan", o))
    case (Some(prayer), Some(minute), Some(before), Some(time), Some(enabled), Some(adhan)) =>
      if InRange(StrToL(minute), StrToL(before)) then
        Some(Trigger(Clip(prayer, PRAYER_MAX), Clip(adhan, ADHAN_MAX), StrToL(minute), StrToL(before),
                     StrToD(time), enabled == "true"))
      else None
    case _ => None
  }

  function NextBrace(s: string, i: nat): (r: nat)
    requires i <= |s|
    ensures i <= r <= |s| && (r < |s| ==> s[r] == '{')
    decreases |s| - i
  {
    if i == |s| || s[i] == '{' then i else NextBrace(s, i + 1)
  }

  predicate IsBlank(c: char) {
    c == ' ' || c == '\t' || c == '\r' || c == '\n'
  }

  function SkipBlank(s: string, i: nat): (r: nat)
    requires i <= |s|
    ensures i <= r <= |s|
    decreases |s| - i
  {
    if i < |s| && IsBlank(s[i]) then SkipBlank(s, i + 1) else i
  }

  /** The brace that closes the object at `i`; nesting is not limited here. */
  function ObjectEnd(s: string, i: nat): (r: Option<nat>)
    requires i < |s|
    ensures r.Some? ==> i < r.value < |s|
  {
    MatchFrom(s, i + 1, 1, '{', |s| + 1)
  }

  /** What the loop makes of the text from `p` on: no further object, a corrupt
      one, or a trigger and where to go on. */
  datatype Step = Stop | Reject | Got(trigger: Trigger, next: nat)

  function ReadStep(s: string, p: nat): (r: Step)
    requires p < |s|
    ensures r.Got? ==> p < r.next <= |s|
  {
    var o := NextBrace(s, p);
    if o == |s| || ObjectEnd(s, o).None? then Stop
    else
      var e := ObjectEnd(s, o).value;
      var q := SkipBlank(s, e + 1);
      match TriggerOf(s[o..e + 1])
      case None => Reject
      case Some(t) =>
        if q < |s| && s[q] == ',' then Got(t, q + 1)
        else if q < |s| && s[q] == ']' then Got(t, q)
        else Reject
  }

  /** The triggers of the array text `s` from index `p` on, with `n` already
      read; None rejects the file. */
  function TriggersFrom(s: string, p: nat, n: nat): (r: Option<seq<Trigger>>)
    requires p <= |s|
    decreases |s| - p
  {
    if p == |s| || s[p] == ']' || n >= MAX_TRIGGERS then Some([])
    else
      match ReadStep(s, p)
      case Stop => Some([])
      case Reject => None
      case Got(t, next) =>
        match TriggersFrom(s, next, n + 1)
        case None => None
        case Some(ts) => Some([t] + ts)
  }

  /** What `cache_load` makes of the text of a file. */
  function LoadText(s: string): (r: Option<Day>) {
    match ValueOf("version", s)
    case None => None
    case Some(version) =>
      if StrToL(version) != FORMAT_VERSION then None
      else
        match (ValueOf("date", s), ValueOf("triggers", s))
        case (Some(date), Some(list)) =>
          if list == "" || list[0] != '[' then None
          else
            (match TriggersFrom(list, 1, 0)
             case None => None
             case Some(ts) => Some(Day(Clip(date, DATE_MAX), ts)))
        case _ => None
  }

  /** A missing file and a file over the size cap are refused; a file is read up
      to its first NUL. */
  function Load(file: Option<string>): (r: Option<Day>) {
    match file
    case None => None
    case Some(bytes) => if |bytes| > MAX_FILE_BYTES then None else LoadText(CString(bytes))
  }

  // ---- One trigger ----

  predicate IsInt(n: int) {
    -0x8000_0000 <= n < 0x8000_0000
  }

  /** What the fields of the C struct can hold. */
  predicate IsCTrigger(t: Trigger) {
    '\0' !in t.prayer && '\0' !in t.adhan && IsInt(t.minute) && IsInt(t.minutesBefore)
  }

  /** A trigger as it comes back from the file: the time to four decimals, the
      strings as long as their fields. */
  function Reloaded(t: Trigger): (r: Trigger) {
    t.(prayer := Clip(t.prayer, PRAYER_MAX), adhan := Clip(t.adhan, ADHAN_MAX), prayerTime := Rounded(t.prayerTime, 4))
  }

  lemma FieldsOfTrigger(t: Trigger)
    ensures var ms := TriggerMembers(t);
            && FirstValue(ms, "prayer") == Some(Str(t.prayer))
            && FirstValue(ms, "minute") == Some(Scalar(IntText(t.minute)))
            && FirstValue(ms, "minutes_before") == Some(Scalar(IntText(t.minutesBefore)))
            && FirstValue(ms, "prayer_time") == Some(Scalar(FixedText(t.prayerTime, 4)))
            && FirstValue(ms, "adhan_enabled") == Some(Scalar(Flag(t.adhanEnabled)))
            && FirstValue(ms, "adhan") == Some(Str(t.adhan))
  {
    hide FirstValue;
    var ms := TriggerMembers(t);
    FirstValueAt(ms, 0);
    FirstValueAt(ms, 1);
    FirstValueAt(ms, 2);
    FirstValueAt(ms, 3);
    FirstValueAt(ms, 4);
    FirstValueAt(ms, 5);
  }

  lemma TriggerIsWellFormed(t: Trigger)
    requires IsCTrigger(t)
    ensures WellFormed(TriggerJson(t)) && Height(TriggerJson(t)) == 1
  {
    hide IsDocument, IsGoodField, IsPlainKey, Field, IsScalarText, IntText, FixedText, Flag;
    PlainKeys();
    OneSpace();
    IntTextIsScalar(t.minute);
    IntTextIsScalar(t.minutesBefore);
    FixedTextIsScalar(t.prayerTime, 4);
    FlagIsScalar(t.adhanEnabled);
    LeafField("", "prayer", Str(t.prayer), 0);
    LeafField(" ", "minute", Scalar(IntText(t.minute)), 0);
    LeafField(" ", "minutes_before", Scalar(IntText(t.minutesBefore)), 0);
    LeafField(" ", "prayer_time", Scalar(FixedText(t.prayerTime, 4)), 0);
    LeafField(" ", "adhan_enabled", Scalar(Flag(t.adhanEnabled)), 0);
    LeafField(" ", "adhan", Str(t.adhan), 0);
    ObjectIsDocument(TriggerMembers(t), "", 0);
    DocumentIs(TriggerJson(t));
  }

  lemma OneSpace()
    ensures AllSpace("") && AllSpace(" ")
  {
  }

  lemma DocumentIs(v: Json)
    requires v.Obj? && IsDocument(v, 1)
    ensures WellFormed(v) && Height(v) == 1
  {
  }

  /** An object the printer wrote reads back as the trigger it was printed from,
      unless its minutes are out of range, and then it rejects the file. */
  lemma TriggerRoundTrip(t: Trigger)
    requires IsCTrigger(t)
    ensures TriggerOf(Render(TriggerJson(t))) == if InRange(t.minute, t.minutesBefore) then Some(Reloaded(t)) else None
  {
    hide ValueOf, WellFormed, Height, Render, TriggerMembers, StrToL, StrToD, IntText, FixedText, Rounded, FirstValue;
    var v := TriggerJson(t);
    TriggerIsWellFormed(t);
    FieldsOfTrigger(t);
    PrintedField(v, "prayer");
    PrintedField(v, "minute");
    PrintedField(v, "minutes_before");
    PrintedField(v, "prayer_time");
    PrintedField(v, "adhan_enabled");
    PrintedField(v, "adhan");
    StrToLOfIntText(t.minute);
    StrToLOfIntText(t.minutesBefore);
    StrToDOfFixedText(t.prayerTime, 4);
  }

  // ---- The list of triggers ----

  /** The triggers of a printed list as they come back, or None when one of them
      is out of range. */
  function ReloadAll(ts: seq<Trigger>): (r: Option<seq<Trigger>>) {
    if ts == [] then Some([])
    else if !InRange(ts[0].minute, ts[0].minutesBefore) then None
    else
      match ReloadAll(ts[1..])
      case None => None
      case Some(rest) => Some([Reloaded(ts[0])] + rest)
  }

  predicate AllCTriggers(ts: seq<Trigger>) {
    forall k | 0 <= k < |ts| :: IsCTrigger(ts[k])
  }

  lemma NextBraceOver(s: string, p: nat, ws: string)
    requires At(s, p, ws) && AllSpace(ws)
    ensures NextBrace(s, p) == NextBrace(s, p + |ws|)
    decreases |ws|
  {
    if ws != "" {
      AtHead(s, p, ws);
      assert forall k | 0 <= k < |ws[1..]| :: ws[1..][k] == ws[k + 1];
      NextBraceOver(s, p + 1, ws[1..]);
    }
  }

  const LIST_END: string := "\n  ]"

  lemma AtListEnd(s: string, p: nat)
    requires At(s, p, LIST_END) && |s| == p + 4
    ensures s[p] == '\n' && s[p + 1] == ' ' && s[p + 2] == ' ' && s[p + 3] == ']'
  {
    AtIndex(s, p, LIST_END, 0);
    AtIndex(s, p, LIST_END, 1);
    AtIndex(s, p, LIST_END, 2);
    AtIndex(s, p, LIST_END, 3);
  }

  lemma ListEndReads(s: string, p: nat)
    requires At(s, p, LIST_END) && |s| == p + 4
    ensures SkipBlank(s, p) == p + 3 && s[p + 3] == ']'
    ensures forall n :: TriggersFrom(s, p, n) == Some([]) && TriggersFrom(s, p + 3, n) == Some([])
  {
    AtListEnd(s, p);
    assert SkipBlank(s, p) == SkipBlank(s, p + 1) == SkipBlank(s, p + 2) == SkipBlank(s, p + 3);
    assert NextBrace(s, p) == NextBrace(s, p + 1) == NextBrace(s, p + 2) == NextBrace(s, p + 3) == NextBrace(s, p + 4);
  }

  /** Where the parts of one printed object of the list stand. */
  lemma ObjectStands(s: string, p: nat, v: Json, more: bool)
    requires At(s, p, RenderItem(Item("\n    ", v, ""), more))
    ensures At(s, p, "\n    ") && s[p] == '\n' && At(s, p + 5, Render(v))
    ensures s[p + 5..p + 5 + |Render(v)|] == Render(v)
    ensures |RenderItem(Item("\n    ", v, ""), more)| == 5 + |Render(v)| + (if more then 1 else 0)
    ensures more ==> var e := p + 5 + |Render(v)|; e < |s| && s[e] == ','
  {
    hide Render, RenderItem;
    var x := Item("\n    ", v, "");
    AtItem(s, p, x, more);
    AtIndex(s, p, "\n    ", 0);
    if more {
      AtIndex(s, p + 5 + |Render(v)|, ",", 0);
    }
  }

  lemma ItemLead()
    ensures AllSpace("\n    ") && |"\n    "| == 5
  {
  }

  /** One printed object, followed by a comma or by the end of the list. */
  lemma ObjectReads(s: string, p: nat, t: Trigger, more: bool)
    requires At(s, p, RenderItem(Item("\n    ", TriggerJson(t), ""), more)) && IsCTrigger(t)
    ensures p + 5 < |s| && s[p] == '\n' && NextBrace(s, p) == p + 5
    ensures ObjectEnd(s, p + 5) == Some(p + 4 + |Render(TriggerJson(t))|)
    ensures s[p + 5..p + 5 + |Render(TriggerJson(t))|] == Render(TriggerJson(t))
    ensures |RenderItem(Item("\n    ", TriggerJson(t), ""), more)| == 5 + |Render(TriggerJson(t))| + (if more then 1 else 0)
    ensures more ==> var e := p + 5 + |Render(TriggerJson(t))|; e < |s| && s[e] == ',' && SkipBlank(s, e) == e
  {
    hide Render, WellFormed, Height, MatchFrom, RenderItem, At, TriggerMembers, AllSpace, IsCTrigger;
    ObjectStands(s, p, TriggerJson(t), more);
    TriggerIsWellFormed(t);
    MatchOfContainer(s, p + 5, TriggerJson(t), |s| + 1);
    ItemLead();
    NextBraceOver(s, p, "\n    ");
  }

  /** Reading the list the printer wrote, from any object on. */
  lemma {:induction false} ListRoundTrip(s: string, p: nat, n: nat, ts: seq<Trigger>)
    requires ts != [] && n + |ts| <= MAX_TRIGGERS && AllCTriggers(ts)
    requires At(s, p, RenderItems(TriggerItems(ts)) + LIST_END)
    requires |s| == p + |RenderItems(TriggerItems(ts)) + LIST_END|
    ensures TriggersFrom(s, p, n) == ReloadAll(ts)
    decreases |ts|
  {
    hide Render, RenderItem, ObjectEnd, NextBrace, SkipBlank, TriggerOf, At, IsCTrigger, TriggerJson, Reloaded;
    var xs := TriggerItems(ts);
    var more := |ts| > 1;
    var text := Render(TriggerJson(ts[0]));
    assert xs[0] == Item("\n    ", TriggerJson(ts[0]), "") && xs[1..] == TriggerItems(ts[1..]);
    AtSplit(s, p, RenderItems(xs), LIST_END);
    AtItems(s, p, xs);
    ObjectReads(s, p, ts[0], more);
    TriggerRoundTrip(ts[0]);
    var e := p + 5 + |text|;
    if more {
      AtSplit(s, e + 1, RenderItems(xs[1..]), LIST_END);
      ListRoundTrip(s, e + 1, n + 1, ts[1..]);
    } else {
      assert RenderItems(xs[1..]) == "";
      ListEndReads(s, e);
    }
  }

  // ---- The whole file ----

  predicate IsCDay(d: Day) {
    '\0' !in d.date && AllCTriggers(d.triggers) && |d.triggers| <= MAX_TRIGGERS
  }

  lemma {:induction false} ItemsAreWellFormed(ts: seq<Trigger>)
    requires AllCTriggers(ts)
    ensures WellFormedItems(TriggerItems(ts)) && ItemsHeight(TriggerItems(ts)) <= 1
  {
    hide WellFormed, Height, IsCTrigger;
    if ts != [] {
      TriggerIsWellFormed(ts[0]);
      ItemsAreWellFormed(ts[1..]);
      var xs := TriggerItems(ts);
      assert xs[0] == Item("\n    ", TriggerJson(ts[0]), "") && xs[1..] == TriggerItems(ts[1..]);
    }
  }

  lemma DayIsWellFormed(d: Day)
    requires IsCDay(d)
    ensures WellFormedMembers(DayMembers(d)) && MembersHeight(DayMembers(d)) <= 2
    ensures WellFormed(DayJson(d)) && Height(DayJson(d)) <= 3
  {
    hide WellFormedMember, WellFormedMembers, MembersHeight, IntText, WellFormedItems, ItemsHeight;
    ItemsAreWellFormed(d.triggers);
    IntTextIsScalar(FORMAT_VERSION);
    FieldIsWellFormed("\n  ", "version", Scalar(IntText(FORMAT_VERSION)));
    FieldIsWellFormed("\n  ", "date", Str(d.date));
    FieldIsWellFormed("\n  ", "triggers", Arr(TriggerItems(d.triggers), "\n  "));
    MembersFromParts(DayMembers(d), 2);
  }

  lemma FieldsOfDay(d: Day)
    ensures var ms := DayMembers(d);
            && FirstValue(ms, "version") == Some(Scalar(IntText(FORMAT_VERSION)))
            && FirstValue(ms, "date") == Some(Str(d.date))
            && FirstValue(ms, "triggers") == Some(Arr(TriggerItems(d.triggers), "\n  "))
            && FirstValue(ms[..2], "triggers") == None
  {
    hide FirstValue;
    var ms := DayMembers(d);
    FirstValueAt(ms, 0);
    FirstValueAt(ms, 1);
    FirstValueAt(ms, 2);
    NoneNamed(ms[..2], "triggers");
  }

  /** What a saved day loads as. */
  function ReloadedDay(d: Day): (r: Option<Day>) {
    match ReloadAll(d.triggers)
    case None => None
    case Some(ts) => Some(Day(Clip(d.date, DATE_MAX), ts))
  }

  lemma NoItems()
    ensures RenderItems(TriggerItems([])) == ""
  {
  }

  lemma ListTextReads(ts: seq<Trigger>)
    requires AllCTriggers(ts) && |ts| <= MAX_TRIGGERS
    ensures var a := Render(Arr(TriggerItems(ts), "\n  ")); a != "" && a[0] == '[' && TriggersFrom(a, 1, 0) == ReloadAll(ts)
  {
    hide RenderItems, TriggerItems, TriggersFrom, At, IsCTrigger;
    var inner := RenderItems(TriggerItems(ts));
    var a := Render(Arr(TriggerItems(ts), "\n  "));
    assert a == "[" + (inner + LIST_END);
    AtFront("[", inner + LIST_END);
    if ts == [] {
      NoItems();
      assert inner + LIST_END == LIST_END;
      ListEndReads(a, 1);
    } else {
      ListRoundTrip(a, 1, 0, ts);
    }
  }

  /** Three members that read as a printed day make the text load as that day. */
  lemma LoadFromFields(s: string, d: Day)
    requires IsCDay(d)
    requires ValueOf("version", s) == Some(IntText(FORMAT_VERSION))
    requires ValueOf("date", s) == Some(d.date)
    requires ValueOf("triggers", s) == Some(Render(Arr(TriggerItems(d.triggers), "\n  ")))
    ensures LoadText(s) == ReloadedDay(d)
  {
    hide ValueOf, Render, TriggersFrom, StrToL, IntText;
    StrToLOfIntText(FORMAT_VERSION);
    ListTextReads(d.triggers);
  }

  /** The printed members of a day, at the head of a text and with a closing
      after them, make it load as that day. */
  lemma LoadFromMembers(s: string, d: Day)
    requires IsCDay(d) && |s| >= 1 && s[0] == '{'
    requires At(s, 1, RenderMembers(DayMembers(d))) && Closes(s, 1 + |RenderMembers(DayMembers(d))|)
    ensures LoadText(s) == ReloadedDay(d)
  {
    hide At, Closes, RenderMembers, DayMembers, ValueOf, FirstValue, WellFormedMembers, MembersHeight, LoadText;
    DayIsWellFormed(d);
    FieldsOfDay(d);
    ValueAmongMembers("version", s, DayMembers(d));
    ValueAmongMembers("date", s, DayMembers(d));
    ValueAmongMembers("triggers", s, DayMembers(d));
    LoadFromFields(s, d);
  }

  const DAY_END: string := "\n}\n"

  /** The cut file `s`, cut no earlier than the end of the trigger list. */
  lemma PrefixOfSave(d: Day, n: nat)
    requires n <= |SaveText(d)|
    ensures var m := |RenderMembers(DayMembers(d))|;
            |SaveText(d)| == m + 4 && SaveText(d) == "{" + (RenderMembers(DayMembers(d)) + DAY_END)
    ensures var m := |RenderMembers(DayMembers(d))|;
            n >= m + 1 ==>
              SaveText(d)[0] == '{' && At(SaveText(d)[..n], 1, RenderMembers(DayMembers(d)))
              && Closes(SaveText(d)[..n], 1 + m)
  {
    hide RenderMembers, DayMembers;
    var inner := RenderMembers(DayMembers(d));
    var s := SaveText(d);
    assert s == "{" + (inner + DAY_END);
    if n >= |inner| + 1 {
      var t := s[..n];
      assert t[1..1 + |inner|] == s[1..1 + |inner|] == (inner + DAY_END)[..|inner|] == inner;
      if n >= |inner| + 2 {
        assert t[1 + |inner|] == '\n';
        if n >= |inner| + 3 {
          assert t[2 + |inner|] == '}';
          SkipSpaceIs(t, 1 + |inner|, 2 + |inner|);
        }
      }
    }
  }

  /** `cache_load` inverts `cache_save`: the file reads back as the day that was
      saved, with times to four decimals. */
  lemma SaveThenLoad(d: Day)
    requires IsCDay(d)
    ensures LoadText(SaveText(d)) == ReloadedDay(d)
  {
    hide At, Closes, RenderMembers, DayMembers, LoadText, SaveText;
    var s := SaveText(d);
    PrefixOfSave(d, |s|);
    assert s[..|s|] == s;
    LoadFromMembers(s, d);
  }

  /** A file cut off inside the trigger list, or before it, is rejected; cut off
      later it loads as the whole file does. So no cut shortens the list. */
  lemma TruncationIsSafe(d: Day, n: nat)
    requires IsCDay(d) && n <= |SaveText(d)|
    ensures LoadText(SaveText(d)[..n]) == if n + 3 >= |SaveText(d)| then ReloadedDay(d) else None
  {
    hide At, Closes, RenderMembers, DayMembers, LoadText, SaveText;
    PrefixOfSave(d, n);
    if n + 3 >= |SaveText(d)| {
      LoadFromMembers(SaveText(d)[..n], d);
    } else {
      ListCutOff(d, n);
    }
  }

  lemma ListCutOff(d: Day, n: nat)
    requires IsCDay(d) && n + 3 < |SaveText(d)|
    ensures LoadText(SaveText(d)[..n]) == None
  {
    hide Closes, RenderMembers, ValueOf, FindKeyFrom, MatchFrom, SaveText, Render, FirstValue, WellFormed, Height,
         WellFormedMembers, MembersHeight, TriggersFrom;
    var s, ms := SaveText(d), DayMembers(d);
    var list := Arr(TriggerItems(d.triggers), "\n  ");
    PrefixOfSave(d, |s|);
    assert s[..|s|] == s;
    DayIsWellFormed(d);
    FieldsOfDay(d);
    FindStep("triggers", s, 0, 0);
    FindLastMember("triggers", s, 1, ms);
    FindAmongMembers("triggers", s, 1, ms);
    var p := |s| - 3 - |Render(list)|;
    assert FindKeyFrom("triggers", s, 0, 0) == Some(p);
    FindKeyOfPrefix("triggers", s, 0, 0, n);
    CutListReads(s, p, list, n);
  }

  /** A cut inside a printed list leaves nothing that reads as a list. */
  lemma CutListReads(s: string, p: nat, list: Json, n: nat)
    requires list.Arr? && StandsAt(s, p, list) && n < p + |Render(list)|
    requires n <= |s| && FindKeyFrom("triggers", s, 0, 0) == Some(p)
    ensures ValueOf("triggers", s[..n]) in {None, Some("")}
  {
    hide FindKeyFrom, MatchFrom, Render, WellFormed, Height, Unescape, StringEnd;
    var t := s[..n];
    FindKeyOfPrefix("triggers", s, 0, 0, n);
    if p < n {
      MatchOfContainer(s, p, list, DEPTH_LIMIT);
      MatchOfPrefix(s, p + 1, n, 1, '[', DEPTH_LIMIT);
      SkipSpaceIs(t, p, p);
    } else {
      assert ScalarEnd(t, n) == n && t[n..n] == "";
    }
  }

  // ---- The size cap ----

  /** What the buffers of the C struct hold. */
  predicate FitsFields(t: Trigger) {
    |t.prayer| <= PRAYER_MAX && |t.adhan| <= ADHAN_MAX && IsDouble(t.prayerTime)
  }

  lemma TriggerTextLength(t: Trigger)
    requires IsCTrigger(t) && FitsFields(t)
    ensures |Render(TriggerJson(t))| <= 5202
  {
    hide RenderMember, RenderMembers, IsDouble, FixedText, IntText, Size;
    var ms := TriggerMembers(t);
    DoubleTextLength(t.prayerTime, 4);
    IntTextLength(t.minute, 10);
    IntTextLength(t.minutesBefore, 10);
    forall k | 0 <= k < |ms| ensures Size(ms[k]) <= if k < 5 then 400 else 3200 {
      FieldSize(ms[k].lead, ms[k].key, ms[k].value);
    }
    MembersLength(ms, 400, 2800);
  }

  lemma {:induction false} ListTextLength(ts: seq<Trigger>)
    requires forall k | 0 <= k < |ts| :: IsCTrigger(ts[k]) && FitsFields(ts[k])
    ensures |RenderItems(TriggerItems(ts))| <= |ts| * 5208
  {
    hide IsCTrigger, FitsFields, Render;
    if ts != [] {
      TriggerTextLength(ts[0]);
      ListTextLength(ts[1..]);
      var xs := TriggerItems(ts);
      assert xs[0] == Item("\n    ", TriggerJson(ts[0]), "") && xs[1..] == TriggerItems(ts[1..]);
      assert |RenderItem(xs[0], |xs| > 1)| <= 5208;
    }
  }

  predicate FitsDay(d: Day) {
    IsCDay(d) && |d.date| <= DATE_MAX && forall k | 0 <= k < |d.triggers| :: FitsFields(d.triggers[k])
  }

  /** Whatever fits the struct prints to less than the size cap. */
  lemma SaveFitsCap(d: Day)
    requires FitsDay(d)
    ensures |SaveText(d)| < MAX_FILE_BYTES
  {
    hide RenderMember, RenderMembers, RenderItems, IsCTrigger, FitsFields, TriggerItems, Size;
    var ms := DayMembers(d);
    ListTextLength(d.triggers);
    var inner := RenderItems(TriggerItems(d.triggers));
    assert |Render(ms[2].value)| == |inner| + 5;
    IntTextLength(FORMAT_VERSION, 1);
    forall k | 0 <= k < |ms| ensures Size(ms[k]) <= if k < 2 then 300 else 300 + |inner| {
      FieldSize(ms[k].lead, ms[k].key, ms[k].value);
    }
    MembersLength(ms, 300, |inner|);
  }

  /** A day that fits the struct loads from its own file as itself, to four
      decimals, exactly when every minute is in range. */
  lemma FileRoundTrip(d: Day)
    requires FitsDay(d)
    ensures Load(Some(SaveText(d))) == ReloadedDay(d)
    ensures Load(Some(SaveText(d))).Some? <==> forall k | 0 <= k < |d.triggers| :: InRange(d.triggers[k].minute, d.triggers[k].minutesBefore)
  {
    hide LoadText, SaveText;
    SaveFitsCap(d);
    SaveThenLoad(d);
    SaveHasNoNul(d);
    assert SaveText(d) + ['\0'] + [] == SaveText(d) + ['\0'];
    CStringOf(SaveText(d));
    ReloadAllExactly(d.triggers);
  }

  lemma SaveHasNoNul(d: Day)
    requires IsCDay(d)
    ensures '\0' !in SaveText(d)
  {
    DayIsWellFormed(d);
    RenderHasNoNul(DayJson(d));
  }

  lemma {:induction false} ReloadAllExactly(ts: seq<Trigger>)
    ensures ReloadAll(ts).Some? <==> forall k | 0 <= k < |ts| :: InRange(ts[k].minute, ts[k].minutesBefore)
    ensures ReloadAll(ts).Some? ==> |ReloadAll(ts).value| == |ts|
                                    && forall k | 0 <= k < |ts| :: ReloadAll(ts).value[k] == Reloaded(ts[k])
  {
    hide Reloaded, InRange;
    if ts != [] {
      ReloadAllExactly(ts[1..]);
      assert forall k | 0 < k < |ts| :: ts[k] == ts[1..][k - 1];
    }
  }

  // ---- The writer ----

  lemma PlainKeys()
    ensures IsPlainKey("prayer") && IsPlainKey("minute") && IsPlainKey("minutes_before")
    ensures IsPlainKey("prayer_time") && IsPlainKey("adhan_enabled") && IsPlainKey("adhan")
  {
  }

  /** Writes one trigger object, as the loop body of `cache_save` does. */
  method WriteTrigger(before: string, t: Trigger) returns (out: string)
    ensures out == before + Render(TriggerJson(t))
  {
    hide Render, RenderMembers, Quoted, IntText, FixedText, IsPlainKey;
    ghost var open, ms := before + "{", TriggerMembers(t);
    NoParts();
    PlainKeys();
    forall k | 0 <= k < 6 {
      RenderLeaf(ms[k].value);
    }
    var prayer := WriteEscaped(t.prayer);
    var adhan := WriteEscaped(t.adhan);
    out := before + "{";
    out := WriteField(out, "", "prayer", prayer, open, ms, 0);
    out := WriteField(out, " ", "minute", IntText(t.minute), open, ms, 1);
    out := WriteField(out, " ", "minutes_before", IntText(t.minutesBefore), open, ms, 2);
    out := WriteField(out, " ", "prayer_time", FixedText(t.prayerTime, 4), open, ms, 3);
    out := WriteField(out, " ", "adhan_enabled", Flag(t.adhanEnabled), open, ms, 4);
    out := WriteField(out, " ", "adhan", adhan, open, ms, 5);
    assert ms[..6] == ms;
    CloseObject(out, before, ms, "");
    out := out + "}";
  }

  /** Writes the list of triggers, one line each. */
  method WriteList(before: string, cache: PrayerCache) returns (out: string)
    requires cache.Valid()
    ensures out == before + Render(Arr(TriggerItems(cache.Entries()), "\n  "))
  {
    hide Render, RenderItems, TriggerJson;
    ghost var xs := TriggerItems(cache.Entries());
    out := before + "[";
    NoParts();
    for i := 0 to cache.count
      invariant out == before + "[" + RenderItems(xs[..i])
    {
      ItemAt(cache.Entries(), i);
      AddItem(out, before + "[", xs[..i], "\n    ", TriggerJson(cache.triggers[i]));
      out := WriteTrigger(out + ((if i > 0 then "," else "") + "\n    "), cache.triggers[i]);
      assert xs[..i] + [xs[i]] == xs[..i + 1];
    }
    assert xs[..cache.count] == xs;
    CloseArray(out, before, xs, "\n  ");
    out := out + "\n  ]";
  }

  lemma {:induction false} ItemAt(ts: seq<Trigger>, i: nat)
    requires i < |ts|
    ensures TriggerItems(ts)[i] == Item("\n    ", TriggerJson(ts[i]), "")
  {
    if i > 0 {
      ItemAt(ts[1..], i - 1);
    }
  }

  /** `cache_save`: the text written to the file. */
  method Save(cache: PrayerCache) returns (out: string)
    requires cache.Valid()
    ensures out == SaveText(Day(cache.date, cache.Entries()))
  {
    hide Render, RenderMembers, Quoted, IntText, TriggerItems;
    ghost var d := Day(cache.date, cache.Entries());
    ghost var ms := DayMembers(d);
    NoParts();
    RenderLeaf(ms[0].value);
    RenderLeaf(ms[1].value);
    var date := WriteEscaped(cache.date);
    var list := WriteList("", cache);
    assert "" + list == list;
    out := "{";
    out := WriteField(out, "\n  ", "version", IntText(FORMAT_VERSION), "{", ms, 0);
    out := WriteField(out, "\n  ", "date", date, "{", ms, 1);
    out := WriteField(out, "\n  ", "triggers", list, "{", ms, 2);
    assert ms[..3] == ms;
    CloseObject(out, "", ms, "\n");
    assert "\n" + "}" == "\n}";
    out := out + "\n}" + "\n";
    assert "" + Render(DayJson(d)) == Render(DayJson(d));
  }

  // ---- The loading loop ----

  /** Reads one trigger object from a NUL-terminated text. */
  method ReadTrigger(o: string) returns (r: Option<Trigger>)
    requires '\0' !in o
    ensures r == TriggerOf(o)
  {
    hide ValueOf, StrToL, StrToD;
    var prayer := GetValue("prayer", o);
    var minuteText := GetValue("minute", o);
    var beforeText := GetValue("minutes_before", o);
    var time := GetValue("prayer_time", o);
    var enabled := GetValue("adhan_enabled", o);
    var adhan := GetValue("adhan", o);
    if prayer == None || minuteText == None || beforeText == None || time == None || enabled == None || adhan == None {
      return None;
    }
    var minute, before := StrToL(minuteText.value), StrToL(beforeText.value);
    if minute < 0 || minute >= MINUTES_PER_DAY || before < 0 || before > MINUTES_PER_DAY {
      return None;
    }
    return Some(Trigger(Clip(prayer.value, PRAYER_MAX), Clip(adhan.value, ADHAN_MAX), minute, before,
                        StrToD(time.value), enabled.value == "true"));
  }

  method FindBrace(s: string, p: nat) returns (r: nat)
    requires p <= |s|
    ensures r == NextBrace(s, p)
  {
    r := p;
    while r < |s| && s[r] != '{'
      invariant p <= r <= |s| && NextBrace(s, p) == NextBrace(s, r)
    {
      r := r + 1;
    }
  }

  /** The matching loop of `cache_load`: it steps over an escaped character at
      once and counts braces only. */
  method FindObjectEnd(s: string, o: nat) returns (r: Option<nat>)
    requires o < |s| && s[o] == '{'
    ensures r == ObjectEnd(s, o)
  {
    hide StringEnd;
    var q, depth, inString := o, 0, false;
    ghost var limit := |s| + 1;
    while q < |s|
      invariant o <= q && 0 <= depth <= q - o && (q == o ==> depth == 0) && (q > o ==> depth >= 1)
      invariant q > o ==> q <= |s|
      invariant q == o ==> !inString
      invariant q > o && !inString ==> ObjectEnd(s, o) == MatchFrom(s, q, depth, '{', limit)
      invariant q > o && inString ==> ObjectEnd(s, o) == AfterString(s, StringEnd(s, q), depth, '{', limit)
      decreases |s| - q
    {
      if inString {
        StringEndStep(s, q);
        if s[q] == '\\' && q + 1 < |s| {
          q := q + 1;
        } else if s[q] == '"' {
          inString := false;
        }
        q := q + 1;
        continue;
      }
      if s[q] == '"' {
        inString := true;
      } else if s[q] == '{' {
        depth := depth + 1;
      } else if s[q] == '}' {
        depth := depth - 1;
        if depth == 0 {
          return Some(q);
        }
      }
      q := q + 1;
    }
    StringEndStep(s, q);
    return None;
  }

  lemma StringEndStep(s: string, i: nat)
    requires i <= |s|
    ensures i == |s| || s[i] == '"' ==> StringEnd(s, i) == i
    ensures i < |s| && s[i] == '\\' && i + 1 < |s| ==> StringEnd(s, i) == StringEnd(s, i + 2)
    ensures i < |s| && s[i] == '\\' && i + 1 == |s| ==> StringEnd(s, i) == StringEnd(s, i + 1)
    ensures i < |s| && s[i] != '"' && s[i] != '\\' ==> StringEnd(s, i) == StringEnd(s, i + 1)
  {
  }

  /** Reads the object between `o` and `e` of the text in `buf`, cutting the
      buffer behind it with a NUL and putting the character back. */
  method ReadObject(buf: array<char>, ghost s: string, o: nat, e: nat) returns (r: Option<Trigger>)
    requires buf[..] == s + ['\0'] && '\0' !in s && o <= e < |s|
    modifies buf
    ensures buf[..] == old(buf[..]) && r == TriggerOf(s[o..e + 1])
  {
    var saved := buf[e + 1];
    buf[e + 1] := '\0';
    assert buf[o..] == s[o..e + 1] + ['\0'] + buf[e + 2..];
    CStringOfTerminated(s[o..e + 1], buf[e + 2..]);
    r := ReadTrigger(CString(buf[o..]));
    buf[e + 1] := saved;
    assert buf[..] == old(buf[..]);
  }

  /** One round of the loop of `cache_load`. */
  method ReadOne(buf: array<char>, list: string, p: nat) returns (r: Step)
    requires buf[..] == list + ['\0'] && '\0' !in list && p < |list|
    modifies buf
    ensures buf[..] == old(buf[..]) && r == ReadStep(list, p)
  {
    hide TriggerOf, ObjectEnd, NextBrace;
    var o := FindBrace(list, p);
    if o == |list| {
      return Stop;
    }
    var end := FindObjectEnd(list, o);
    if end.None? {
      return Stop;
    }
    var t := ReadObject(buf, list, o, end.value);
    var q: nat := end.value + 1;
    while q < |list| && IsBlank(list[q])
      invariant end.value < q <= |list| && SkipBlank(list, end.value + 1) == SkipBlank(list, q)
    {
      q := q + 1;
    }
    if t.None? || q == |list| || (list[q] != ',' && list[q] != ']') {
      return Reject;
    }
    return Got(t.value, if list[q] == ',' then q + 1 else q);
  }

  function WithRest(before: seq<Trigger>, rest: Option<seq<Trigger>>): Option<seq<Trigger>> {
    if rest.None? then None else Some(before + rest.value)
  }

  lemma WithRestStep(before: seq<Trigger>, t: Trigger, rest: Option<seq<Trigger>>)
    ensures WithRest(before + [t], rest) == WithRest(before, if rest.None? then None else Some([t] + rest.value))
  {
    if rest.Some? {
      assert before + ([t] + rest.value) == before + [t] + rest.value;
    }
  }

  lemma WithRestEnds(ts: seq<Trigger>, rest: Option<seq<Trigger>>)
    ensures WithRest([], rest) == rest && WithRest(ts, Some([])) == Some(ts)
  {
    assert ts + [] == ts;
    if rest.Some? {
      assert [] + rest.value == rest.value;
    }
  }

  /** The loop of `cache_load` over the text of the list. */
  method ReadTriggers(list: string, cache: PrayerCache) returns (ok: bool)
    requires cache.Valid() && cache.Entries() == [] && '\0' !in list && list != ""
    modifies cache`count, cache.triggers
    ensures cache.Valid()
    ensures TriggersFrom(list, 1, 0) == if ok then Some(cache.Entries()) else None
  {
    hide ReadStep, WithRest;
    var buf := new char[|list| + 1](i => if 0 <= i < |list| then list[i] else '\0');
    assert buf[..] == list + ['\0'];
    var p: nat := 1;
    WithRestEnds([], TriggersFrom(list, 1, 0));
    while p < |list| && list[p] != ']' && cache.count < MAX_TRIGGERS
      invariant p <= |list| && buf[..] == list + ['\0'] && fresh(buf)
      invariant cache.Valid()
      invariant TriggersFrom(list, 1, 0) == WithRest(cache.Entries(), TriggersFrom(list, p, cache.count))
      decreases |list| - p
    {
      var step := ReadOne(buf, list, p);
      match step {
        case Stop => break;
        case Reject =>
          WithRestNone(cache.Entries());
          return false;
        case Got(t, next) =>
          WithRestStep(cache.Entries(), t, TriggersFrom(list, next, cache.count + 1));
          var _ := cache.Append(t);
          p := next;
      }
    }
    WithRestEnds(cache.Entries(), None);
    return true;
  }

  lemma WithRestNone(ts: seq<Trigger>)
    ensures WithRest(ts, None) == None
  {
  }

  /** `cache_load`. A refused file leaves the cache in an unspecified state. */
  method LoadInto(file: Option<string>, cache: PrayerCache) returns (ok: bool)
    requires cache.Valid()
    modifies cache, cache.triggers
    ensures cache.Valid()
    ensures Load(file) == if ok then Some(Day(cache.date, cache.Entries())) else None
  {
    hide ValueOf, TriggersFrom, StrToL;
    if file.None? || |file.value| > MAX_FILE_BYTES {
      return false;
    }
    var content := CString(file.value);
    cache.Clear("");
    var version := GetValue("version", content);
    if version.None? || StrToL(version.value) != FORMAT_VERSION {
      return false;
    }
    var date := GetValue("date", content);
    if date.None? {
      return false;
    }
    cache.date := Clip(date.value, DATE_MAX);
    var list := GetValue("triggers", content);
    if list.None? || list.value == "" || list.value[0] != '[' {
      return false;
    }
    ok := ReadTriggers(list.value, cache);
  }
}
