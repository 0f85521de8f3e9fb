/** Runs over many days: what a quiet day inside a run delivers, and the one day a
    prayer is announced on. */
module WholeRuns {
  import opened Basics
  import opened Settings
  import opened TriggerCache
  import opened Picking
  import opened Schedule
  import opened Assembly
  import opened Calendar
  import opened Cycle
  import opened Runs
  import opened Delivery
  import opened Once

  /** The cycles of `day` are the events from `a` to `b`, and they are quiet. Before
      and after, anything may happen on other days. */
  predicate IsQuietStretch(evs: seq<Event>, day: int, a: nat, b: nat) {
    && a < b <= |evs|
    && (forall i | a <= i < b :: IsQuiet(evs[i], day))
    && (forall i | 0 <= i < |evs| && !(a <= i < b) :: IsElsewhere(evs[i], day))
  }

  predicate IsElsewhere(e: Event, day: int) {
    e.Cycled? ==> e.tick.day != day
  }

  lemma {:induction false} NotYetToday(plan: Plan, evs: seq<Event>, files: seq<Option<string>>, day: int, n: nat)
    requires IsRun(plan, evs, files) && IsLoadedPlan(plan) && n <= |evs|
    requires IsOurs(files[0]) && IsCalendarDay(day) && !IsToday(files[0], day)
    requires forall i | 0 <= i < n :: IsElsewhere(evs[i], day)
    ensures IsOurs(files[n]) && !IsToday(files[n], day)
  {
    hide IsLoadedPlan, IsOurs, Opens, Closed, IsToday, IsCalendarDay;
    if n > 0 {
      NotYetToday(plan, evs, files, day, n - 1);
      assert Follows(plan, files[n - 1], evs[n - 1], files[n]);
      assert IsElsewhere(evs[n - 1], day);
      match evs[n - 1]
      case Deleted =>
        NothingIsOurs();
        MissingIsNotToday(day);
      case Cycled(c, ts) =>
        CycleIsSound(plan, files[n - 1], c, ts);
        StaysAnotherDay(plan, files[n - 1], c, ts, day);
    }
  }

  /** Only the stretch counts for its day. */
  lemma {:induction false} StretchTally(evs: seq<Event>, day: int, a: nat, b: nat, k: Key, n: nat)
    requires IsQuietStretch(evs, day, a, b) && n <= |evs|
    ensures TallyOf(evs, day, k, n).fires
         == TallyOf(evs[a..b], day, k, if n <= a then 0 else if n <= b then n - a else b - a).fires
  {
    hide Announced, Count;
    if n > 0 {
      StretchTally(evs, day, a, b, k, n - 1);
      if a < n <= b {
        assert evs[a..b][n - 1 - a] == evs[n - 1];
      } else {
        assert IsElsewhere(evs[n - 1], day);
      }
    }
  }

  lemma StretchIsQuietRun(plan: Plan, evs: seq<Event>, files: seq<Option<string>>, day: int, a: nat, b: nat)
    requires IsRun(plan, evs, files) && IsLoadedPlan(plan)
    requires IsOurs(files[0]) && IsCalendarDay(day) && !IsToday(files[0], day)
    requires IsQuietStretch(evs, day, a, b)
    ensures IsQuietRun(plan, evs[a..b], files[a..b + 1], day)
  {
    hide IsLoadedPlan, IsOurs, IsToday, IsCalendarDay, Follows, IsQuiet;
    NotYetToday(plan, evs, files, day, a);
    var es, fs := evs[a..b], files[a..b + 1];
    forall i | 0 <= i < |es| ensures Follows(plan, fs[i], es[i], fs[i + 1]) && IsQuiet(es[i], day) {
      assert Follows(plan, files[a + i], evs[a + i], files[a + i + 1]);
      assert IsQuiet(evs[a + i], day);
    }
  }

  /** Exact delivery inside a run of many days: a day whose own cycles are quiet
      delivers what its first cycle placed and what comes in time, whatever
      happened before and happens after. */
  lemma DeliveredInWholeRun(plan: Plan, evs: seq<Event>, files: seq<Option<string>>, day: int, a: nat, b: nat, k: Key)
    requires IsRun(plan, evs, files) && IsLoadedPlan(plan)
    requires IsOurs(files[0]) && IsCalendarDay(day) && !IsToday(files[0], day)
    requires IsQuietStretch(evs, day, a, b) && forall i | 0 <= i < |evs[a..b]| :: evs[a..b][i].Cycled?
    ensures TallyOf(evs, day, k, |evs|).fires
         == if FiresAtFirst(Probe(k), Minutes(evs[a..b])) then Count(Placed(plan, day, evs[a].tick.minute), k) else 0
  {
    hide Follows, IsLoadedPlan, IsOurs, IsToday, IsCalendarDay, TallyOf, Count, Placed, FiresAtFirst, IsQuietRun;
    StretchIsQuietRun(plan, evs, files, day, a, b);
    StretchTally(evs, day, a, b, k, |evs|);
    DeliveredExactly(plan, evs[a..b], files[a..b + 1], day, k);
  }

  // ---- The one day of a prayer ----

  /** The adhan of a prayer, as reminder -1, or one of its reminders. */
  predicate IsPart(plan: Plan, source: int, p: Prayer, reminder: int) {
    RoundedMinute(plan, source, p).Some? && -1 <= reminder < |Leads(plan, p)|
  }

  function PartLead(plan: Plan, p: Prayer, reminder: int): int
    requires -1 <= reminder < |Leads(plan, p)|
  {
    if reminder < 0 then 0 else Leads(plan, p)[reminder]
  }

  /** Its minute, counted from midnight of the source day. */
  function PartMinute(plan: Plan, source: int, p: Prayer, reminder: int): int
    requires IsPart(plan, source, p, reminder)
  {
    RoundedMinute(plan, source, p).value - PartLead(plan, p, reminder)
  }

  /** Its minute, counted from the start of day 0. */
  function AbsoluteMinute(plan: Plan, source: int, p: Prayer, reminder: int): int
    requires IsPart(plan, source, p, reminder)
  {
    source * MINUTES_PER_DAY + PartMinute(plan, source, p, reminder)
  }

  /** The same as an announcement of `day`. */
  function PartKey(plan: Plan, source: int, p: Prayer, reminder: int, day: int): Key
    requires IsPart(plan, source, p, reminder)
  {
    Key(Name(p), AbsoluteMinute(plan, source, p, reminder) - day * MINUTES_PER_DAY, PartLead(plan, p, reminder))
  }

  /** The day its minute falls on. */
  function HomeDay(plan: Plan, source: int, p: Prayer, reminder: int): int
    requires IsPart(plan, source, p, reminder)
  {
    AbsoluteMinute(plan, source, p, reminder) / MINUTES_PER_DAY
  }

  lemma OutsideTheDay(n: int, day: int)
    ensures 0 <= n - day * MINUTES_PER_DAY < MINUTES_PER_DAY <==> day == n / MINUTES_PER_DAY
  {
  }

  lemma HomeIsNear(plan: Plan, source: int, p: Prayer, reminder: int)
    requires IsPart(plan, source, p, reminder) && IsWithinADay(PartMinute(plan, source, p, reminder))
    ensures HomeDay(plan, source, p, reminder) == source + PartMinute(plan, source, p, reminder) / MINUTES_PER_DAY
    ensures -1 <= source - HomeDay(plan, source, p, reminder) <= 1
  {
    hide PartMinute;
    var r := PartMinute(plan, source, p, reminder);
    var q := r / MINUTES_PER_DAY;
    OutsideTheDay(source * MINUTES_PER_DAY + r, source + q);
    assert (source + q) * MINUTES_PER_DAY == source * MINUTES_PER_DAY + q * MINUTES_PER_DAY;
  }

  /** On every other day it never goes out, over every run. */
  lemma SilentOnOtherDays(plan: Plan, evs: seq<Event>, files: seq<Option<string>>, source: int, p: Prayer, reminder: int, day: int)
    requires IsRun(plan, evs, files) && IsLoadedPlan(plan) && InOrder(evs)
    requires IsOurs(files[0]) && IsCalendarDay(day) && !IsToday(files[0], day)
    requires IsPart(plan, source, p, reminder) && day != HomeDay(plan, source, p, reminder)
    ensures TallyOf(evs, day, PartKey(plan, source, p, reminder, day), |evs|).fires == 0
  {
    hide IsRun, IsLoadedPlan, IsOurs, IsToday, IsCalendarDay, PartMinute, PartLead, TallyOf, Count, Assembled, FailedSaves,
         Repeats, Holders, InOrder;
    var key := PartKey(plan, source, p, reminder, day);
    OutsideTheDay(AbsoluteMinute(plan, source, p, reminder), day);
    NothingIsAnnouncedTwice(plan, evs, files, day, key);
    AssembledCount(plan, day, key);
    assert forall x :: !Has(plan, day, key, x);
    NothingIn(Holders(plan, day, key));
  }

  lemma NothingIn(xs: seq<Entry>)
    requires forall x :: x !in xs
    ensures xs == []
  {
    if |xs| > 0 {
      HeadIsIn(xs);
    }
  }

  lemma HeadIsIn(xs: seq<Entry>)
    requires |xs| > 0
    ensures xs[0] in xs
  {
  }

  lemma HasAtHome(plan: Plan, source: int, p: Prayer, reminder: int)
    requires IsPart(plan, source, p, reminder) && IsWithinADay(PartMinute(plan, source, p, reminder))
    ensures var day := HomeDay(plan, source, p, reminder);
            -1 <= source - day <= 1
            && Has(plan, day, PartKey(plan, source, p, reminder, day), Entry(SlotOf(source - day, p), reminder))
  {
    hide RoundedMinute, Instant, PartLead;
    var day := HomeDay(plan, source, p, reminder);
    HomeIsNear(plan, source, p, reminder);
    OutsideTheDay(AbsoluteMinute(plan, source, p, reminder), day);
    OneSlot(plan, day, source, p, PartLead(plan, p, reminder));
    SlotLead(plan, SlotOf(source - day, p), p, reminder);
  }

  lemma SlotLead(plan: Plan, k: nat, p: Prayer, reminder: int)
    requires k < SLOTS && PrayerOf(k) == p && -1 <= reminder < |Leads(plan, p)|
    ensures IsEntry(plan, Entry(k, reminder)) && LeadOf(plan, Entry(k, reminder)) == PartLead(plan, p, reminder)
  {
  }

  /** Every adhan, and every reminder by its own minute, goes out on one day of a
      whole run, the day that minute falls on: on no other day does it go out, and
      there it does when the day's cycles are quiet and come in time for it, and
      for a reminder when there is room for all; and once exactly when no other
      entry shares it. */
  lemma PrayerGoesOutOnOneDay(plan: Plan, evs: seq<Event>, files: seq<Option<string>>, source: int, p: Prayer, reminder: int,
                              a: nat, b: nat)
    requires IsRun(plan, evs, files) && IsLoadedPlan(plan) && InOrder(evs) && files[0] == None
    requires IsPart(plan, source, p, reminder) && IsWithinADay(PartMinute(plan, source, p, reminder))
    requires var home := HomeDay(plan, source, p, reminder); IsCalendarDay(home) && IsQuietStretch(evs, home, a, b)
    requires forall i | 0 <= i < |evs[a..b]| :: evs[a..b][i].Cycled?
    requires FiresAtFirst(Probe(PartKey(plan, source, p, reminder, HomeDay(plan, source, p, reminder))), Minutes(evs[a..b]))
    requires reminder < 0
             || |Assembled(plan, HomeDay(plan, source, p, reminder), evs[a..b][0].tick.minute)| <= MAX_TRIGGERS
    ensures forall day | IsCalendarDay(day) ::
              TallyOf(evs, day, PartKey(plan, source, p, reminder, day), |evs|).fires > 0
              <==> day == HomeDay(plan, source, p, reminder)
    ensures var home := HomeDay(plan, source, p, reminder);
            var key := PartKey(plan, source, p, reminder, home);
            TallyOf(evs, home, key, |evs|).fires == 1 <==> !IsShared(plan, home, key)
  {
    hide Follows, IsLoadedPlan, IsOurs, IsToday, IsCalendarDay, IsPart, PartMinute, TallyOf, Count, Assembled, InOrder,
         FiresAtFirst, IsQuietStretch, IsShared, Has, IsQuietRun, HomeDay, PartKey, Holders;
    var home := HomeDay(plan, source, p, reminder);
    var key := PartKey(plan, source, p, reminder, home);
    NothingIsOurs();
    forall day | IsCalendarDay(day) && day != home
      ensures TallyOf(evs, day, PartKey(plan, source, p, reminder, day), |evs|).fires == 0
    {
      MissingIsNotToday(day);
      SilentOnOtherDays(plan, evs, files, source, p, reminder, day);
    }
    MissingIsNotToday(home);
    StretchBounds(evs, home, a, b);
    StretchIsQuietRun(plan, evs, files, home, a, b);
    StretchTally(evs, home, a, b, key, |evs|);
    AdhanKeyIsAdhan(plan, source, p, reminder, home);
    DeliveredAsAssembled(plan, evs[a..b], files[a..b + 1], home, key);
    HasAtHome(plan, source, p, reminder);
    AssembledCount(plan, home, key);
    assert Entry(SlotOf(source - home, p), reminder) in Holders(plan, home, key);
    RepeatedExactly(plan, home, key);
  }

  lemma StretchBounds(evs: seq<Event>, day: int, a: nat, b: nat)
    requires IsQuietStretch(evs, day, a, b)
    ensures a < b <= |evs|
  {
  }

  lemma AdhanKeyIsAdhan(plan: Plan, source: int, p: Prayer, reminder: int, day: int)
    requires IsPart(plan, source, p, reminder)
    ensures reminder < 0 ==> PartKey(plan, source, p, reminder, day).lead == 0
  {
    hide RoundedMinute;
  }
}
