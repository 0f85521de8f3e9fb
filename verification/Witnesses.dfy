/** Runs that show where announcements do repeat: settings that list a reminder
    twice, and a refresh in the minute of an earlier cycle. */
module Witnesses {
  import opened Basics
  import opened Numbers
  import opened Settings
  import opened TriggerCache
  import opened Picking
  import opened Schedule
  import opened Assembly
  import opened Calendar
  import opened Cycle
  import opened Runs
  import opened Delivery
  import opened Once
  import opened Capacity
  import ConfigFile
  import ConfigText
  import ConfigRoundTrip

  // ---- A build for every day ----

  function Placing(t: Trigger, ts: seq<Trigger>): seq<Trigger> {
    if ts == [] || t.minute <= ts[0].minute then [t] + ts else [ts[0]] + Placing(t, ts[1..])
  }

  function Ordered(ts: seq<Trigger>): seq<Trigger> {
    if ts == [] then [] else Placing(ts[0], Ordered(ts[1..]))
  }

  lemma {:induction false} PlacingKeepsOrder(t: Trigger, ts: seq<Trigger>)
    requires SortedByMinute(ts)
    ensures SortedByMinute(Placing(t, ts)) && multiset(Placing(t, ts)) == multiset(ts) + multiset{t}
  {
    if ts != [] && t.minute > ts[0].minute {
      var rest := ts[1..];
      assert ts == [ts[0]] + rest;
      PlacingKeepsOrder(t, rest);
      var r := Placing(t, rest);
      forall i | 0 <= i < |r| ensures ts[0].minute <= r[i].minute {
        assert r[i] in multiset(rest) + multiset{t};
      }
    }
  }

  lemma {:induction false} OrderedIsPermutation(ts: seq<Trigger>)
    ensures SortedByMinute(Ordered(ts)) && multiset(Ordered(ts)) == multiset(ts)
  {
    if ts != [] {
      assert ts == [ts[0]] + ts[1..];
      OrderedIsPermutation(ts[1..]);
      PlacingKeepsOrder(ts[0], Ordered(ts[1..]));
    }
  }

  lemma BuildExists(plan: Plan, day: int, now: int) returns (ts: seq<Trigger>)
    ensures IsBuild(plan, day, now, ts)
  {
    hide Placed;
    ts := Ordered(Placed(plan, day, now));
    OrderedIsPermutation(Placed(plan, day, now));
  }

  // ---- A day of one cycle ----

  function Plain(day: int, minute: int, refreshed: bool): Tick {
    Tick(day, minute, refreshed, true, false, true, true)
  }

  lemma OneCycleDay(plan: Plan, day: int, minute: int) returns (evs: seq<Event>, files: seq<Option<string>>)
    requires IsLoadedPlan(plan) && IsCalendarDay(day) && 0 <= minute < MINUTES_PER_DAY
    ensures IsQuietRun(plan, evs, files, day) && Minutes(evs) == [minute] && |evs| == 1
  {
    hide IsBuild, IsLoadedPlan, IsCalendarDay, Closed, IsToday, IsOurs;
    var ts := BuildExists(plan, day, minute);
    var c := Plain(day, minute, false);
    evs, files := [Cycled(c, ts)], [None, Closed(None, c, ts)];
    MissingIsNotToday(day);
    NothingIsOurs();
    assert Follows(plan, files[0], evs[0], files[1]);
    assert Minutes(evs[1..]) == [];
  }

  // ---- A reminder listed twice ----

  const NOON_LATITUDE: real := 21.4225
  const NOON_LONGITUDE: real := 39.8262

  // The settings were last refreshed half a minute into the epoch.
  const NOON_UPDATED: int := 30

  /** The defaults at a known place, with the given reminders for Dhuhr. */
  function NoonConfig(reminders: seq<int>): Config {
    ConfigFile.DEFAULT.(latitude := NOON_LATITUDE, longitude := NOON_LONGITUDE, updatedAt := NOON_UPDATED,
                        dhuhr := ConfigFile.DEFAULT_PRAYER.(reminders := reminders))
  }

  /** A cycle with these settings looks up no location first, and refreshes it from
      12:00:30 of the first day on: in one minute a cycle may come before and
      another after. Before that it works with the settings as they are. */
  lemma NoonSettles(reminders: seq<int>, retryAt: int, epoch: int)
    ensures !NeedsDetect(NoonConfig(reminders))
    ensures TriesRefresh(NoonConfig(reminders), retryAt, epoch) <==> epoch >= 43230 && epoch >= retryAt
  {
  }

  /** Only Dhuhr occurs, at noon. */
  function NoonPlan(reminders: seq<int>): Plan {
    Plan(NoonConfig(reminders), (s: int, p: Prayer) => if p == Dhuhr then Some(12.0) else None)
  }

  /** These settings load, from the very file the program writes for them. */
  lemma NoonLoads(reminders: seq<int>)
    requires |reminders| <= MAX_REMINDERS && forall k | 0 <= k < |reminders| :: ConfigFile.IsLead(reminders[k])
    ensures ConfigFile.Load(Some(ConfigText.SaveText(NoonConfig(reminders)))) == Some(NoonConfig(reminders))
    ensures IsLoadedPlan(NoonPlan(reminders))
  {
    hide ConfigFile.Load, ConfigText.SaveText, Rounded, IsDouble, ConfigFile.IsLead;
    var c := NoonConfig(reminders);
    ConfigFile.DefaultIsNormal();
    assert ConfigFile.IsNormalPrayer(c.dhuhr);
    assert ConfigFile.IsNormal(c);
    SmallDoubles();
    ConfigRoundTrip.FileRoundTrip(c);
    LoadedFileMakesLoadedPlan(NoonPlan(reminders), Some(ConfigText.SaveText(c)));
  }

  lemma SmallDoubles()
    ensures IsDouble(0.0) && IsDouble(12.0) && IsDouble(NOON_LATITUDE) && IsDouble(NOON_LONGITUDE)
    ensures Rounded(0.0, 6) == 0.0
    ensures Rounded(NOON_LATITUDE, 6) == NOON_LATITUDE && Rounded(NOON_LONGITUDE, 6) == NOON_LONGITUDE
  {
    hide Pow10, Scaled;
    assert Pow10(309) >= 100 by {
      PowersGrow(2, 309);
      SmallPowers();
    }
    Million();
    ScaledUnscaled(0, 6);
    ScaledUnscaled(21422500, 6);
    ScaledUnscaled(39826200, 6);
    assert Unscaled(0, 6) == 0.0 && Unscaled(21422500, 6) == NOON_LATITUDE && Unscaled(39826200, 6) == NOON_LONGITUDE;
  }

  lemma Million()
    ensures Pow10(6) == 1000000
  {
  }

  lemma {:induction false} PowersGrow(a: nat, b: nat)
    requires a <= b
    ensures Pow10(a) <= Pow10(b)
  {
    if a < b {
      PowersGrow(a, b - 1);
    }
  }

  const NOON_SLOT: nat := 6

  lemma NoonEntries(reminders: seq<int>, day: int, key: Key, x: Entry)
    requires key.prayer == Name(Dhuhr) && 0 <= key.minute && key.minute + key.lead == 720
    ensures Has(NoonPlan(reminders), day, key, x) <==>
              x.slot == NOON_SLOT && -1 <= x.reminder < |reminders| && key.minute < MINUTES_PER_DAY
              && key.lead == if x.reminder < 0 then 0 else reminders[x.reminder]
  {
    var plan := NoonPlan(reminders);
    if IsEntry(plan, x) && PrayerOf(x.slot) == Dhuhr {
      assert x.slot == 1 || x.slot == 6 || x.slot == 11;
      NoonInstant(reminders, day, DeltaOf(x.slot));
    }
  }

  lemma NoonInstant(reminders: seq<int>, day: int, delta: int)
    ensures Instant(NoonPlan(reminders), day, delta, Dhuhr) == Some(720 + MINUTES_PER_DAY * delta)
  {
    hide Ceil;
    assert (12.0 + 24.0 * delta as real) * 60.0 == 0.0 + (720 + MINUTES_PER_DAY * delta) as real;
    CeilPlus(0.0, 720 + MINUTES_PER_DAY * delta);
    CeilOfZero();
  }

  lemma CeilOfZero()
    ensures Ceil(0.0) == 0
  {
  }

  /** Reminders `[30, 30]`: the file loads, and one cycle in time announces the
      reminder twice. */
  lemma RepeatedReminderGoesOutTwice(day: int) returns (evs: seq<Event>, files: seq<Option<string>>)
    requires IsCalendarDay(day)
    ensures var plan, key := NoonPlan([30, 30]), Key("Dhuhr", 690, 30);
            && ConfigFile.Load(Some(ConfigText.SaveText(plan.config))) == Some(plan.config)
            && IsQuietRun(plan, evs, files, day) && Minutes(evs) == [690]
            && TallyOf(evs, day, key, |evs|).fires == 2
  {
    hide IsLoadedPlan, ConfigFile.Load, ConfigText.SaveText, IsQuietRun, Count, Assembled, Holders, Has, IsCalendarDay, TallyOf;
    var plan, key := NoonPlan([30, 30]), Key("Dhuhr", 690, 30);
    NoonLoads([30, 30]);
    evs, files := OneCycleDay(plan, day, 690);
    assert FiresAtFirst(Probe(key), [690]);
    FewReminders(plan, day, 690);
    DeliveredAsAssembled(plan, evs, files, day, key);
    AssembledCount(plan, day, key);
    forall x ensures Has(plan, day, key, x) <==> x == Entry(NOON_SLOT, 0) || x == Entry(NOON_SLOT, 1) {
      NoonEntries([30, 30], day, key, x);
    }
    ExactlyTwo(Holders(plan, day, key), Entry(NOON_SLOT, 0), Entry(NOON_SLOT, 1));
  }

  lemma ExactlyTwo(xs: seq<Entry>, a: Entry, b: Entry)
    requires AreDistinct(xs) && a != b && forall x :: x in xs <==> x == a || x == b
    ensures |xs| == 2
  {
    assert a in xs && b in xs;
    var i :| 0 <= i < |xs| && xs[i] == a;
    var j :| 0 <= j < |xs| && xs[j] == b;
    assert forall k | 0 <= k < |xs| :: xs[k] in xs;
    if |xs| > 2 {
      FirstThree(xs);
    }
  }

  lemma FirstThree(xs: seq<Entry>)
    requires AreDistinct(xs) && |xs| >= 2
    ensures xs[0] != xs[1]
    ensures |xs| > 2 ==> xs[0] != xs[2] && xs[1] != xs[2]
  {
  }

  // ---- A refresh in the same minute ----

  /** For every plan and every announcement: a cycle in its minute and then a
      refresh in the same minute announce all the cache holds of it twice. Nothing
      was deleted and every save succeeded. */
  lemma SameMinuteRefreshRepeats(plan: Plan, day: int, key: Key) returns (evs: seq<Event>, files: seq<Option<string>>)
    requires IsCalendarDay(day) && 0 <= key.minute < MINUTES_PER_DAY && key.lead >= 0
    ensures IsRun(plan, evs, files) && AllSaved(evs) && files[0] == None
    ensures |evs| == 2 && evs[0].Cycled? && evs[1].Cycled?
    ensures evs[0].tick == Plain(day, key.minute, false) && evs[1].tick == Plain(day, key.minute, true)
    ensures var t := TallyOf(evs, day, key, 2);
            t.fires == 2 * Count(Placed(plan, day, key.minute), key) && t.deletions == 0
  {
    hide IsBuild, IsCalendarDay, Closed, IsToday, Where, Count, Placed, Announced;
    var c, d := Plain(day, key.minute, false), Plain(day, key.minute, true);
    var ts := BuildExists(plan, day, key.minute);
    var again := Where(ts, From(key.minute));
    evs := [Cycled(c, ts), Cycled(d, again)];
    files := [None, Closed(None, c, ts), Closed(Closed(None, c, ts), d, again)];
    MissingIsNotToday(day);
    assert Opens(plan, files[1], d, again);
    assert Follows(plan, files[0], evs[0], files[1]);
    assert Follows(plan, files[1], evs[1], files[2]);
    CountFrom(ts, key.minute, key);
    OneCycleCounts(c, ts, key);
    OneCycleCounts(d, again, key);
    BuildCount(plan, day, key.minute, ts, key);
    TwoCycles(evs, day, key);
  }

  lemma BuildCount(plan: Plan, day: int, now: int, ts: seq<Trigger>, key: Key)
    requires IsBuild(plan, day, now, ts)
    ensures Count(ts, key) == Count(Placed(plan, day, now), key)
  {
    hide Placed, Count;
    CountOfPermutation(ts, Placed(plan, day, now), key);
  }

  lemma TwoCycles(evs: seq<Event>, day: int, key: Key)
    requires |evs| == 2 && evs[0].Cycled? && evs[1].Cycled? && evs[0].tick.day == evs[1].tick.day == day
    requires !evs[0].tick.deleted && !evs[1].tick.deleted
    ensures var t := TallyOf(evs, day, key, 2);
            && t.fires == Count(Announced(evs[0].tick, evs[0].triggers), key) + Count(Announced(evs[1].tick, evs[1].triggers), key)
            && t.deletions == 0
  {
    hide Announced, Count;
    assert TallyOf(evs, day, key, 0) == Tally(None, 0, 0);
    assert TallyOf(evs, day, key, 1) == Advance(TallyOf(evs, day, key, 0), evs[0], day, key);
  }

  /** So the adhan of noon goes out twice though only one entry yields it. */
  lemma NoonAdhanGoesOutTwice(day: int) returns (evs: seq<Event>, files: seq<Option<string>>)
    requires IsCalendarDay(day)
    ensures var plan, key := NoonPlan([]), Key("Dhuhr", 720, 0);
            && IsLoadedPlan(plan) && IsRun(plan, evs, files) && AllSaved(evs) && files[0] == None && |evs| == 2
            && !IsShared(plan, day, key)
            && TallyOf(evs, day, key, |evs|).fires == 2 && TallyOf(evs, day, key, |evs|).deletions == 0
  {
    hide IsLoadedPlan, ConfigFile.Load, ConfigText.SaveText, IsRun, Count, Assembled, Placed, Holders, Has, IsCalendarDay, TallyOf;
    var plan, key := NoonPlan([]), Key("Dhuhr", 720, 0);
    NoonLoads([]);
    evs, files := SameMinuteRefreshRepeats(plan, day, key);
    PlacedCount(plan, day, 720, key);
    AssembledLater(plan, day, 720);
    CountFrom(Assembled(plan, day, 0), 720 - CATCHUP_MAX_MIN, key);
    AssembledCount(plan, day, key);
    forall x ensures Has(plan, day, key, x) <==> x == Entry(NOON_SLOT, -1) {
      NoonEntries([], day, key, x);
    }
    ExactlyOne(Holders(plan, day, key), Entry(NOON_SLOT, -1));
  }

  lemma ExactlyOne(xs: seq<Entry>, a: Entry)
    requires AreDistinct(xs) && forall x :: x in xs <==> x == a
    ensures |xs| == 1
  {
    assert a in xs;
    assert forall k | 0 <= k < |xs| :: xs[k] in xs;
    if |xs| > 1 {
      FirstThree(xs);
    }
  }
}
