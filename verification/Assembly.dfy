/** What the build promises: capacity, the catch-up gate, ranges, and the day each
    prayer is announced on. */
module Assembly {
  import opened Basics
  import opened Numbers
  import opened Settings
  import opened TriggerCache
  import opened Picking
  import opened Schedule
  import CacheFile
  import ConfigFile

  // ---- Capacity ----

  /** No adhan is ever dropped for lack of room, whatever the reminders: the cache
      holds all due adhans, at most fifteen, and then reminders in assembly order. */
  lemma AdhansComeFirst(plan: Plan, day: int, now: int)
    ensures var a := Adhans(plan, day, now, SLOTS);
            |a| <= 15 && Placed(plan, day, now) == a + First(Reminders(plan, day, now, SLOTS), MAX_TRIGGERS - |a|)
  {
    hide Adhans, Reminders;
  }

  // ---- The catch-up gate ----

  lemma {:induction false} AdhansLater(plan: Plan, day: int, now: int, k: nat)
    ensures Adhans(plan, day, now, k) == Where(Adhans(plan, day, 0, k), From(now - CATCHUP_MAX_MIN))
  {
    hide Instant, PrayerOf, DeltaOf, TimeOf, AdhanTrigger;
    if k > 0 {
      AdhansLater(plan, day, now, k - 1);
      WhereConcat(Adhans(plan, day, 0, k - 1), SlotAdhan(plan, day, 0, k - 1), From(now - CATCHUP_MAX_MIN));
      AdhanSlotLater(plan, day, now, k - 1);
    }
  }

  lemma AdhanSlotLater(plan: Plan, day: int, now: int, k: nat)
    ensures SlotAdhan(plan, day, now, k) == Where(SlotAdhan(plan, day, 0, k), From(now - CATCHUP_MAX_MIN))
  {
    hide Instant, PrayerOf, DeltaOf;
    InstantHasTime(plan, day, DeltaOf(k), PrayerOf(k));
  }

  lemma ReminderLater(plan: Plan, day: int, now: int, k: nat, j: nat)
    requires j < |Leads(plan, PrayerOf(k))|
    ensures SlotReminder(plan, day, now, k, j) == Where(SlotReminder(plan, day, 0, k, j), From(now - CATCHUP_MAX_MIN))
  {
    hide Instant, PrayerOf, DeltaOf;
    InstantHasTime(plan, day, DeltaOf(k), PrayerOf(k));
  }

  lemma {:induction false} SlotRemindersLater(plan: Plan, day: int, now: int, k: nat, j: nat)
    requires j <= |Leads(plan, PrayerOf(k))|
    ensures SlotReminders(plan, day, now, k, j) == Where(SlotReminders(plan, day, 0, k, j), From(now - CATCHUP_MAX_MIN))
  {
    hide SlotReminder, PrayerOf;
    if j > 0 {
      SlotRemindersLater(plan, day, now, k, j - 1);
      WhereConcat(SlotReminders(plan, day, 0, k, j - 1), SlotReminder(plan, day, 0, k, j - 1), From(now - CATCHUP_MAX_MIN));
      ReminderLater(plan, day, now, k, j - 1);
    }
  }

  lemma {:induction false} RemindersLater(plan: Plan, day: int, now: int, k: nat)
    ensures Reminders(plan, day, now, k) == Where(Reminders(plan, day, 0, k), From(now - CATCHUP_MAX_MIN))
  {
    hide SlotReminders, PrayerOf;
    if k > 0 {
      var n := |Leads(plan, PrayerOf(k - 1))|;
      RemindersLater(plan, day, now, k - 1);
      WhereConcat(Reminders(plan, day, 0, k - 1), SlotReminders(plan, day, 0, k - 1, n), From(now - CATCHUP_MAX_MIN));
      SlotRemindersLater(plan, day, now, k - 1, n);
    }
  }

  /** Assembling at `now` is assembling at midnight and leaving out what lies more
      than the catch-up window back. */
  lemma AssembledLater(plan: Plan, day: int, now: int)
    ensures Assembled(plan, day, now) == Where(Assembled(plan, day, 0), From(now - CATCHUP_MAX_MIN))
  {
    hide Adhans, Reminders, Where;
    AdhansLater(plan, day, now, SLOTS);
    RemindersLater(plan, day, now, SLOTS);
    WhereConcat(Adhans(plan, day, 0, SLOTS), Reminders(plan, day, 0, SLOTS), From(now - CATCHUP_MAX_MIN));
  }

  lemma FromIsKeptByCapacity(ts: seq<Trigger>, n: nat, k: Key)
    ensures Count(First(ts, n), k) <= Count(ts, k)
  {
    var r := First(ts, n);
    assert ts == r + ts[|r|..];
    CountConcat(r, ts[|r|..], k);
  }

  /** A cache built at any minute announces nothing more often than the whole day
      does. */
  lemma BuiltWithinDay(plan: Plan, day: int, now: int, ts: seq<Trigger>, k: Key)
    requires IsBuild(plan, day, now, ts)
    ensures Count(ts, k) <= Count(Assembled(plan, day, 0), k)
  {
    hide Where, Assembled, First;
    CountOfPermutation(ts, Placed(plan, day, now), k);
    FromIsKeptByCapacity(Assembled(plan, day, now), MAX_TRIGGERS, k);
    AssembledLater(plan, day, now);
    CountWhere(Assembled(plan, day, 0), From(now - CATCHUP_MAX_MIN), k);
  }

  // ---- Ranges ----

  /** What a loaded configuration guarantees of the fields the build reads, and
      what a `double` can hold. */
  ghost predicate IsLoadedPlan(plan: Plan) {
    && (forall p: Prayer :: '\0' !in ConfigOf(plan.config, p).adhan
                            && forall j | 0 <= j < |Leads(plan, p)| :: 1 <= Leads(plan, p)[j] <= 1440)
    && (forall s: int, p: Prayer :: plan.times(s, p).Some? ==> IsDouble(plan.times(s, p).value))
  }

  /** Whatever file the configuration came from, if it loaded it makes such a plan. */
  lemma LoadedFileMakesLoadedPlan(plan: Plan, file: Option<string>)
    requires ConfigFile.Load(file) == Some(plan.config)
    requires forall s: int, p: Prayer :: plan.times(s, p).Some? ==> IsDouble(plan.times(s, p).value)
    ensures IsLoadedPlan(plan)
  {
    hide ConfigFile.Load, IsDouble;
    ConfigFile.LoadedIsNormal(file);
    forall p: Prayer
      ensures '\0' !in ConfigOf(plan.config, p).adhan
      ensures forall j | 0 <= j < |Leads(plan, p)| :: 1 <= Leads(plan, p)[j] <= 1440
    {
      assert ConfigFile.IsNormalPrayer(ConfigOf(plan.config, p));
    }
  }

  predicate IsGood(t: Trigger) {
    CacheFile.IsCTrigger(t) && CacheFile.FitsFields(t) && CacheFile.InRange(t.minute, t.minutesBefore)
  }

  predicate AllGood(ts: seq<Trigger>) {
    forall k | 0 <= k < |ts| :: IsGood(ts[k])
  }

  lemma SlotAdhanIsGood(plan: Plan, day: int, now: int, k: nat)
    requires IsLoadedPlan(plan)
    ensures AllGood(SlotAdhan(plan, day, now, k))
  {
    hide Instant, PrayerOf, DeltaOf, IsDouble;
    InstantHasTime(plan, day, DeltaOf(k), PrayerOf(k));
    var adhan := ConfigOf(plan.config, PrayerOf(k)).adhan;
    assert forall c | c in Clip(adhan, CacheFile.ADHAN_MAX) :: c in adhan;
  }

  lemma SlotReminderIsGood(plan: Plan, day: int, now: int, k: nat, j: nat)
    requires IsLoadedPlan(plan) && j < |Leads(plan, PrayerOf(k))|
    ensures AllGood(SlotReminder(plan, day, now, k, j))
  {
    hide Instant, PrayerOf, DeltaOf, IsDouble;
    InstantHasTime(plan, day, DeltaOf(k), PrayerOf(k));
  }

  lemma {:induction false} SlotRemindersAreGood(plan: Plan, day: int, now: int, k: nat, j: nat)
    requires IsLoadedPlan(plan) && j <= |Leads(plan, PrayerOf(k))|
    ensures AllGood(SlotReminders(plan, day, now, k, j))
  {
    hide IsGood, SlotReminder, IsLoadedPlan, PrayerOf;
    if j > 0 {
      SlotRemindersAreGood(plan, day, now, k, j - 1);
      SlotReminderIsGood(plan, day, now, k, j - 1);
    }
  }

  lemma {:induction false} SlotsAreGood(plan: Plan, day: int, now: int, k: nat)
    requires IsLoadedPlan(plan)
    ensures AllGood(Adhans(plan, day, now, k)) && AllGood(Reminders(plan, day, now, k))
  {
    hide IsGood, SlotReminders, SlotAdhan, IsLoadedPlan, PrayerOf;
    if k > 0 {
      SlotsAreGood(plan, day, now, k - 1);
      SlotAdhanIsGood(plan, day, now, k - 1);
      SlotRemindersAreGood(plan, day, now, k - 1, |Leads(plan, PrayerOf(k - 1))|);
    }
  }

  /** Every trigger a build places fits its fields and the ranges the loader
      insists on. */
  lemma BuildIsGood(plan: Plan, day: int, now: int, ts: seq<Trigger>)
    requires IsLoadedPlan(plan) && IsBuild(plan, day, now, ts)
    ensures AllGood(ts) && |ts| <= MAX_TRIGGERS
  {
    hide IsGood, IsLoadedPlan, Adhans, Reminders;
    SlotsAreGood(plan, day, now, SLOTS);
    var placed := Placed(plan, day, now);
    PermutationLength(ts, placed);
    forall k | 0 <= k < |ts| ensures IsGood(ts[k]) {
      assert ts[k] in multiset(ts);
      assert ts[k] in placed;
    }
  }

  // ---- A reminder never stands without its adhan ----

  predicate IsAdhanOf(a: Trigger, e: Trigger) {
    a.minutesBefore == 0 && a.prayer == e.prayer && a.minute == e.minute + e.minutesBefore
  }

  /** Each reminder of a prayer that falls on this day comes with the adhan of
      that prayer. */
  predicate IsCovered(ts: seq<Trigger>) {
    forall e | e in ts && e.minutesBefore > 0 && e.minute + e.minutesBefore < MINUTES_PER_DAY ::
      exists a | a in ts :: IsAdhanOf(a, e)
  }

  /** What the adhans of a list answer for in another. */
  predicate Covers(adhans: seq<Trigger>, ts: seq<Trigger>) {
    forall e | e in ts && e.minutesBefore > 0 && e.minute + e.minutesBefore < MINUTES_PER_DAY ::
      exists a | a in adhans :: IsAdhanOf(a, e)
  }

  lemma ReminderIsCovered(plan: Plan, day: int, now: int, k: nat, j: nat)
    requires IsLoadedPlan(plan) && j < |Leads(plan, PrayerOf(k))|
    ensures Covers(SlotAdhan(plan, day, now, k), SlotReminder(plan, day, now, k, j))
  {
    hide Instant, PrayerOf, DeltaOf, IsDouble;
    InstantHasTime(plan, day, DeltaOf(k), PrayerOf(k));
    var r, a := SlotReminder(plan, day, now, k, j), SlotAdhan(plan, day, now, k);
    forall e | e in r && e.minutesBefore > 0 && e.minute + e.minutesBefore < MINUTES_PER_DAY
      ensures exists x | x in a :: IsAdhanOf(x, e)
    {
      assert e == r[0];
      assert IsAdhanOf(a[0], e);
    }
  }

  lemma CoversMore(a: seq<Trigger>, b: seq<Trigger>, s: seq<Trigger>, t: seq<Trigger>)
    requires Covers(a, s) && Covers(b, t)
    ensures Covers(a + b, s + t) && Covers(a, s + []) && Covers(a + b, s)
  {
    hide IsAdhanOf;
    forall e | e in s + t && e.minutesBefore > 0 && e.minute + e.minutesBefore < MINUTES_PER_DAY
      ensures exists x | x in a + b :: IsAdhanOf(x, e)
    {
      if e in s {
        var x :| x in a && IsAdhanOf(x, e);
        assert x in a + b;
      } else {
        var x :| x in b && IsAdhanOf(x, e);
        assert x in a + b;
      }
    }
    forall e | e in s && e.minutesBefore > 0 && e.minute + e.minutesBefore < MINUTES_PER_DAY
      ensures exists x | x in a + b :: IsAdhanOf(x, e)
    {
      var x :| x in a && IsAdhanOf(x, e);
      assert x in a + b;
    }
  }

  lemma CoversBoth(a: seq<Trigger>, s: seq<Trigger>, t: seq<Trigger>)
    requires Covers(a, s) && Covers(a, t)
    ensures Covers(a, s + t)
  {
    hide IsAdhanOf;
  }

  lemma {:induction false} SlotIsCovered(plan: Plan, day: int, now: int, k: nat, j: nat)
    requires IsLoadedPlan(plan) && j <= |Leads(plan, PrayerOf(k))|
    ensures Covers(SlotAdhan(plan, day, now, k), SlotReminders(plan, day, now, k, j))
  {
    hide IsLoadedPlan, PrayerOf, SlotAdhan, SlotReminder, IsAdhanOf;
    if j > 0 {
      SlotIsCovered(plan, day, now, k, j - 1);
      ReminderIsCovered(plan, day, now, k, j - 1);
      CoversBoth(SlotAdhan(plan, day, now, k), SlotReminders(plan, day, now, k, j - 1), SlotReminder(plan, day, now, k, j - 1));
    }
  }

  lemma {:induction false} SlotsAreCovered(plan: Plan, day: int, now: int, k: nat)
    requires IsLoadedPlan(plan)
    ensures Covers(Adhans(plan, day, now, k), Reminders(plan, day, now, k))
  {
    hide IsLoadedPlan, PrayerOf, SlotAdhan, SlotReminders, IsAdhanOf, Covers;
    if k == 0 {
      NothingToCover();
    } else {
      var n := |Leads(plan, PrayerOf(k - 1))|;
      SlotsAreCovered(plan, day, now, k - 1);
      SlotIsCovered(plan, day, now, k - 1, n);
      CoversMore(Adhans(plan, day, now, k - 1), SlotAdhan(plan, day, now, k - 1),
                 Reminders(plan, day, now, k - 1), SlotReminders(plan, day, now, k - 1, n));
    }
  }

  lemma NothingToCover()
    ensures Covers([], [])
  {
  }

  lemma SlotAdhansAreAdhans(plan: Plan, day: int, now: int, k: nat)
    ensures forall e | e in Adhans(plan, day, now, k) :: e.minutesBefore == 0
  {
    hide Instant, PrayerOf, DeltaOf;
    if k > 0 {
      SlotAdhansAreAdhans(plan, day, now, k - 1);
      InstantHasTime(plan, day, DeltaOf(k - 1), PrayerOf(k - 1));
      assert forall e | e in SlotAdhan(plan, day, now, k - 1) :: e.minutesBefore == 0;
    }
  }

  lemma {:induction false} RemindersAreNoAdhans(plan: Plan, day: int, now: int, k: nat)
    requires IsLoadedPlan(plan)
    ensures forall t | t in Reminders(plan, day, now, k) :: t.minutesBefore >= 1
  {
    hide SlotReminders, PrayerOf;
    if k > 0 {
      RemindersAreNoAdhans(plan, day, now, k - 1);
      SlotLeads(plan, day, now, k - 1, |Leads(plan, PrayerOf(k - 1))|);
    }
  }

  lemma {:induction false} SlotLeads(plan: Plan, day: int, now: int, k: nat, j: nat)
    requires IsLoadedPlan(plan) && j <= |Leads(plan, PrayerOf(k))|
    ensures forall t | t in SlotReminders(plan, day, now, k, j) :: t.minutesBefore >= 1
  {
    hide PrayerOf, Instant, DeltaOf, IsDouble;
    if j > 0 {
      SlotLeads(plan, day, now, k, j - 1);
      InstantHasTime(plan, day, DeltaOf(k), PrayerOf(k));
      assert forall t | t in SlotReminder(plan, day, now, k, j - 1) :: t.minutesBefore >= 1;
    }
  }

  /** A built cache never holds a reminder without the adhan it precedes, even
      when reminders were dropped for lack of room. */
  lemma BuildIsCovered(plan: Plan, day: int, now: int, ts: seq<Trigger>)
    requires IsLoadedPlan(plan) && IsBuild(plan, day, now, ts)
    ensures IsCovered(ts)
  {
    hide IsLoadedPlan, Adhans, Reminders, IsAdhanOf, First;
    var a, r := Adhans(plan, day, now, SLOTS), Reminders(plan, day, now, SLOTS);
    var placed := Placed(plan, day, now);
    AdhansComeFirst(plan, day, now);
    SlotsAreCovered(plan, day, now, SLOTS);
    SlotAdhansAreAdhans(plan, day, now, SLOTS);
    forall e | e in ts && e.minutesBefore > 0 && e.minute + e.minutesBefore < MINUTES_PER_DAY
      ensures exists x | x in ts :: IsAdhanOf(x, e)
    {
      assert e in multiset(placed);
      assert e !in a && e in r;
      var x :| x in a && IsAdhanOf(x, e);
      assert x in multiset(placed);
      assert x in ts;
    }
  }

  /** Covering survives every selection by a later minute. */
  lemma CoveredFrom(ts: seq<Trigger>, test: Test)
    requires IsCovered(ts) && (test.From? || (test.Acts? && test.action == Keep))
    ensures IsCovered(Where(ts, test))
  {
    hide Where;
    var w := Where(ts, test);
    forall e | e in w && e.minutesBefore > 0 && e.minute + e.minutesBefore < MINUTES_PER_DAY
      ensures exists x | x in w :: IsAdhanOf(x, e)
    {
      WhereIn(ts, test, e);
      var x :| x in ts && IsAdhanOf(x, e);
      WhereIn(ts, test, x);
    }
  }

  /** A reminder inside the catch-up window that is dropped because its prayer has
      passed is dropped in a cycle that fires that prayer's adhan. */
  lemma DroppedReminderHasItsAdhan(ts: seq<Trigger>, now: int, e: Trigger)
    requires IsCovered(ts) && e in ts && now < MINUTES_PER_DAY
    requires CatchUp(e.minute, e.minutesBefore, now) == Drop && now - e.minute <= CATCHUP_MAX_MIN
    ensures exists a | a in Where(ts, Acts(Fire, now)) :: IsAdhanOf(a, e)
  {
    hide Where;
    var a :| a in ts && IsAdhanOf(a, e);
    WhereIn(ts, Acts(Fire, now), a);
  }

  // ---- Building late ----

  /** When nothing is lost for lack of room, building at minute `now` and running
      the cycle of `now` announces and keeps what building at midnight would. */
  lemma LateBuildIsEarlyBuild(plan: Plan, day: int, now: int, late: seq<Trigger>, early: seq<Trigger>, action: Action)
    requires IsBuild(plan, day, now, late) && IsBuild(plan, day, 0, early)
    requires |Assembled(plan, day, 0)| <= MAX_TRIGGERS && action != Drop
    ensures multiset(Where(late, Acts(action, now))) == multiset(Where(early, Acts(action, now)))
  {
    hide Assembled, Where;
    var all := Assembled(plan, day, 0);
    AssembledLater(plan, day, now);
    AssembledLater(plan, day, 0);
    WhereWhere(all, From(now - CATCHUP_MAX_MIN), Acts(action, now), Acts(action, now));
    WhereOfPermutation(late, Assembled(plan, day, now), Acts(action, now));
    WhereOfPermutation(early, all, Acts(action, now));
  }

  // ---- Conservation across days ----

  function Index(p: Prayer): nat {
    match p case Fajr => 0 case Dhuhr => 1 case Asr => 2 case Maghrib => 3 case Isha => 4
  }

  function SlotOf(delta: int, p: Prayer): (k: nat)
    requires -1 <= delta <= 1
    ensures k < SLOTS && DeltaOf(k) == delta && PrayerOf(k) == p
  {
    (delta + 1) * PRAYER_COUNT + Index(p)
  }

  /** The adhan that the cache of `day` takes from the prayer `p` of `source`. */
  function AdhanFrom(plan: Plan, day: int, source: int, p: Prayer): (ts: seq<Trigger>) {
    if -1 <= source - day <= 1 then SlotAdhan(plan, day, 0, SlotOf(source - day, p)) else []
  }

  /** Reminder `j` that the cache of `day` takes from the prayer `p` of `source`. */
  function ReminderFrom(plan: Plan, day: int, source: int, p: Prayer, j: nat): (ts: seq<Trigger>)
    requires j < |Leads(plan, p)|
  {
    if -1 <= source - day <= 1 then SlotReminder(plan, day, 0, SlotOf(source - day, p), j) else []
  }

  predicate IsWithinADay(minute: int) {
    -MINUTES_PER_DAY <= minute < 2 * MINUTES_PER_DAY
  }

  lemma OneSlot(plan: Plan, day: int, source: int, p: Prayer, lead: int)
    requires RoundedMinute(plan, source, p).Some? && -1 <= source - day <= 1
    ensures var r := RoundedMinute(plan, source, p).value;
            var m := r + MINUTES_PER_DAY * (source - day);
            && Instant(plan, day, source - day, p) == Some(m)
            && (IsDue(m - lead, 0) <==> IsWithinADay(r - lead) && day == source + (r - lead) / MINUTES_PER_DAY)
  {
    hide Instant;
    InstantIsShifted(plan, day, source - day, p);
    var r := RoundedMinute(plan, source, p).value;
    var q := (r - lead) / MINUTES_PER_DAY;
    assert 0 <= r - lead - q * MINUTES_PER_DAY < MINUTES_PER_DAY;
  }

  lemma AdhanOfSlot(plan: Plan, day: int, k: nat, m: int)
    requires Instant(plan, day, DeltaOf(k), PrayerOf(k)) == Some(m)
    ensures var ts := SlotAdhan(plan, day, 0, k);
            (ts != [] <==> IsDue(m, 0)) && (ts != [] ==> |ts| == 1 && KeyOf(ts[0]) == Key(Name(PrayerOf(k)), m, 0))
  {
  }

  lemma ReminderOfSlot(plan: Plan, day: int, k: nat, j: nat, m: int)
    requires Instant(plan, day, DeltaOf(k), PrayerOf(k)) == Some(m) && j < |Leads(plan, PrayerOf(k))|
    ensures var ts := SlotReminder(plan, day, 0, k, j);
            var lead := Leads(plan, PrayerOf(k))[j];
            (ts != [] <==> IsDue(m - lead, 0))
            && (ts != [] ==> |ts| == 1 && KeyOf(ts[0]) == Key(Name(PrayerOf(k)), m - lead, lead))
  {
  }

  /** A prayer that spills over midnight is moved, never copied: exactly the one
      day its instant falls on announces it, at that instant; and no day does when
      it lies more than a day away from its own. */
  lemma AdhanOnOneDay(plan: Plan, day: int, source: int, p: Prayer)
    requires RoundedMinute(plan, source, p).Some?
    ensures var r := RoundedMinute(plan, source, p).value;
            var ts := AdhanFrom(plan, day, source, p);
            && (ts != [] <==> IsWithinADay(r) && day == source + r / MINUTES_PER_DAY)
            && (ts != [] ==> |ts| == 1 && ts[0] in Placed(plan, day, 0)
                             && KeyOf(ts[0]) == Key(Name(p), source * MINUTES_PER_DAY + r - day * MINUTES_PER_DAY, 0))
  {
    hide Instant, SlotAdhan, Placed, RoundedMinute, Adhans, Reminders, IsDue, First;
    var r := RoundedMinute(plan, source, p).value;
    if -1 <= source - day <= 1 {
      var k := SlotOf(source - day, p);
      OneSlot(plan, day, source, p, 0);
      AdhanOfSlot(plan, day, k, r + MINUTES_PER_DAY * (source - day));
      if SlotAdhan(plan, day, 0, k) != [] {
        SlotInAdhans(plan, day, 0, k, SLOTS);
        AdhansComeFirst(plan, day, 0);
      }
    }
  }

  lemma {:induction false} SlotInAdhans(plan: Plan, day: int, now: int, k: nat, n: nat)
    requires k < n
    ensures forall t | t in SlotAdhan(plan, day, now, k) :: t in Adhans(plan, day, now, n)
  {
    hide SlotAdhan;
    if k < n - 1 {
      SlotInAdhans(plan, day, now, k, n - 1);
    }
  }

  /** The same for each reminder, by its own minute; capacity may then drop it. */
  lemma ReminderOnOneDay(plan: Plan, day: int, source: int, p: Prayer, j: nat)
    requires RoundedMinute(plan, source, p).Some? && j < |Leads(plan, p)|
    ensures var lead := Leads(plan, p)[j];
            var r := RoundedMinute(plan, source, p).value - lead;
            var ts := ReminderFrom(plan, day, source, p, j);
            && (ts != [] <==> IsWithinADay(r) && day == source + r / MINUTES_PER_DAY)
            && (ts != [] ==> |ts| == 1 && ts[0] in Assembled(plan, day, 0)
                             && KeyOf(ts[0]) == Key(Name(p), source * MINUTES_PER_DAY + r - day * MINUTES_PER_DAY, lead))
  {
    hide Instant, SlotReminder, RoundedMinute, Adhans, Reminders, IsDue, Leads;
    if -1 <= source - day <= 1 {
      var k := SlotOf(source - day, p);
      OneSlot(plan, day, source, p, Leads(plan, p)[j]);
      ReminderOfSlot(plan, day, k, j, RoundedMinute(plan, source, p).value + MINUTES_PER_DAY * (source - day));
      if SlotReminder(plan, day, 0, k, j) != [] {
        ReminderInSlot(plan, day, 0, k, j, |Leads(plan, p)|);
        SlotInReminders(plan, day, 0, k, SLOTS);
      }
    }
  }

  lemma {:induction false} ReminderInSlot(plan: Plan, day: int, now: int, k: nat, j: nat, n: nat)
    requires j < n <= |Leads(plan, PrayerOf(k))|
    ensures forall t | t in SlotReminder(plan, day, now, k, j) :: t in SlotReminders(plan, day, now, k, n)
  {
    hide SlotReminder, PrayerOf;
    if j < n - 1 {
      ReminderInSlot(plan, day, now, k, j, n - 1);
    }
  }

  lemma {:induction false} SlotInReminders(plan: Plan, day: int, now: int, k: nat, n: nat)
    requires k < n
    ensures forall t | t in SlotReminders(plan, day, now, k, |Leads(plan, PrayerOf(k))|) :: t in Reminders(plan, day, now, n)
  {
    hide SlotReminders, PrayerOf;
    if k < n - 1 {
      SlotInReminders(plan, day, now, k, n - 1);
    }
  }
}
