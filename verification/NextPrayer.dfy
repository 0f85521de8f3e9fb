/** What comes next, and when: the countdown over three source days. */
module NextPrayer {
  import opened Basics
  import opened Settings
  import opened TriggerCache
  import opened Picking
  import opened Schedule
  import opened Assembly
  import opened Calendar
  import opened ClockTime

  datatype Next = Next(prayer: Prayer, minutesUntil: int, delta: int, time: real)

  /** The times of yesterday, today and tomorrow, each with the UTC offset its date
      is on. */
  datatype ThreeDays = ThreeDays(times: seq<Prayer -> Option<real>>, offsets: seq<real>)

  predicate IsThree(days: ThreeDays) {
    |days.times| == 3 && |days.offsets| == 3
  }

  /** The minutes by which the clocks of a source day differ from those of today. */
  function ShiftOf(days: ThreeDays, delta: int): int
    requires IsThree(days) && -1 <= delta <= 1
  {
    RoundHalfAway((days.offsets[delta + 1] - days.offsets[1]) * 60.0)
  }

  /** The prayer of slot `k` as a candidate: None when it is disabled or does not
      occur. A negative wait is a prayer that has passed. */
  function Candidate(config: Config, days: ThreeDays, now: int, k: nat): (r: Option<Next>)
    requires IsThree(days) && k < SLOTS
  {
    var p, delta := PrayerOf(k), DeltaOf(k);
    if !ConfigOf(config, p).enabled then None
    else
      match days.times[delta + 1](p)
      case None => None
      case Some(t) =>
        Some(Next(p, Ceil((t + 24.0 * delta as real) * 60.0) - now - ShiftOf(days, delta), delta, t))
  }

  /** A candidate still ahead of `now`. */
  predicate IsAhead(config: Config, days: ThreeDays, now: int, k: nat)
    requires IsThree(days) && k < SLOTS
  {
    var c := Candidate(config, days, now, k);
    c.Some? && c.value.minutesUntil >= 0
  }

  /** Slot `k` has the least wait of the first `n` slots, and is the first to. */
  ghost predicate IsFirstAhead(config: Config, days: ThreeDays, now: int, n: nat, k: nat)
    requires IsThree(days) && n <= SLOTS
  {
    && k < n && IsAhead(config, days, now, k)
    && forall j | 0 <= j < n && IsAhead(config, days, now, j) ::
         var w, v := Candidate(config, days, now, j).value.minutesUntil, Candidate(config, days, now, k).value.minutesUntil;
         v < w || (v == w && k <= j)
  }

  /** The answer after `n` slots. */
  ghost predicate IsNextOf(config: Config, days: ThreeDays, now: int, n: nat, best: Option<Next>)
    requires IsThree(days) && n <= SLOTS
  {
    && (best.None? ==> forall k | 0 <= k < n :: !IsAhead(config, days, now, k))
    && (best.Some? ==> exists k :: IsFirstAhead(config, days, now, n, k) && best == Candidate(config, days, now, k))
  }

  lemma NextStep(config: Config, days: ThreeDays, now: int, n: nat, best: Option<Next>, after: Option<Next>)
    requires IsThree(days) && n < SLOTS && IsNextOf(config, days, now, n, best)
    requires var c := Candidate(config, days, now, n);
             after == if IsAhead(config, days, now, n) && (best.None? || c.value.minutesUntil < best.value.minutesUntil)
                      then c else best
    ensures IsNextOf(config, days, now, n + 1, after)
  {
    hide Candidate;
    if after == best {
      if best.Some? {
        var k :| IsFirstAhead(config, days, now, n, k) && best == Candidate(config, days, now, k);
        assert IsFirstAhead(config, days, now, n + 1, k);
      }
    } else {
      if best.Some? {
        var k :| IsFirstAhead(config, days, now, n, k) && best == Candidate(config, days, now, k);
      }
      assert IsFirstAhead(config, days, now, n + 1, n);
    }
  }

  /** `prayer_next_from_days`: the least wait that is not negative, of all three
      days; of equal waits the one of the earlier day, then the earlier prayer;
      None when nothing lies ahead. */
  method NextFromDays(config: Config, days: ThreeDays, now: int) returns (best: Option<Next>)
    requires IsThree(days)
    ensures IsNextOf(config, days, now, SLOTS, best)
  {
    hide IsNextOf, RoundHalfAway, Ceil;
    best := None;
    NothingYet(config, days, now);
    for delta := -1 to 2
      invariant IsNextOf(config, days, now, (delta + 1) * PRAYER_COUNT, best)
    {
      for i := 0 to PRAYER_COUNT
        invariant IsNextOf(config, days, now, (delta + 1) * PRAYER_COUNT + i, best)
      {
        var p, k := PRAYERS[i], (delta + 1) * PRAYER_COUNT + i;
        assert DeltaOf(k) == delta && PrayerOf(k) == p;
        ghost var was := best;
        var time := days.times[delta + 1](p);
        if ConfigOf(config, p).enabled && time.Some? {
          var shift := RoundHalfAway((days.offsets[delta + 1] - days.offsets[1]) * 60.0);
          var until := Ceil((time.value + 24.0 * delta as real) * 60.0) - now - shift;
          if !(until < 0 || (best.Some? && until >= best.value.minutesUntil)) {
            best := Some(Next(p, until, delta, time.value));
          }
        }
        NextStep(config, days, now, k, was, best);
      }
    }
  }

  lemma NothingYet(config: Config, days: ThreeDays, now: int)
    requires IsThree(days)
    ensures IsNextOf(config, days, now, 0, None)
  {
  }

  // ---- The countdown and the instants ----

  predicate IsWholeMinutes(offset: real) {
    (offset * 60.0).Floor as real == offset * 60.0
  }

  lemma ShiftInSeconds(a: real, b: real)
    ensures var d := RoundHalfAway(a * 3600.0) - RoundHalfAway(b * 3600.0);
            var s := RoundHalfAway((a - b) * 60.0);
            -31 <= d - 60 * s <= 31 && (IsWholeMinutes(a) && IsWholeMinutes(b) ==> d == 60 * s)
  {
    hide RoundHalfAway;
    var ra, rb, s := RoundHalfAway(a * 3600.0), RoundHalfAway(b * 3600.0), RoundHalfAway((a - b) * 60.0);
    assert -0.5 <= s as real - (a - b) * 60.0 <= 0.5;
    assert -31.0 <= (ra - rb - 60 * s) as real <= 31.0;
    if IsWholeMinutes(a) && IsWholeMinutes(b) {
      var x, y := (a * 60.0).Floor, (b * 60.0).Floor;
      assert a * 3600.0 == (60 * x) as real && b * 3600.0 == (60 * y) as real && (a - b) * 60.0 == (x - y) as real;
      RoundOfInt(60 * x);
      RoundOfInt(60 * y);
      RoundOfInt(x - y);
    }
  }

  /** The rounded minute of a candidate, counted from midnight of its source day. */
  function SourceMinute(n: Next): int {
    Ceil(n.time * 60.0)
  }

  /** The instant the library names for the next prayer is the countdown ahead of
      now, both taken on the offset of their own date: to within 31 seconds
      whatever the offsets, and to the second when they are whole minutes. It is
      so exactly for prayers within a day of their source day. */
  lemma CountdownReachesTheInstant(config: Config, days: ThreeDays, now: int, serial: int, k: nat)
    requires IsThree(days) && k < SLOTS && Candidate(config, days, now, k).Some?
    ensures var n := Candidate(config, days, now, k).value;
            var offset := days.offsets[n.delta + 1];
            var there := TimeFromHours(Some(n.time), serial + n.delta, offset).value.instant;
            var ahead := there - InstantAt(serial, now, days.offsets[1]);
            && (-31 <= ahead - 60 * n.minutesUntil <= 31 <==> IsWithinADay(SourceMinute(n)))
            && (IsWholeMinutes(offset) && IsWholeMinutes(days.offsets[1]) ==>
                  (ahead == 60 * n.minutesUntil <==> IsWithinADay(SourceMinute(n))))
  {
    hide TimeFromHours, RoundHalfAway, Ceil, IsWholeMinutes, CivilFromDays, DaysFromCivil;
    var n := Candidate(config, days, now, k).value;
    var offset := days.offsets[n.delta + 1];
    TimeRejoins(n.time, serial + n.delta, offset);
    ShiftInSeconds(offset, days.offsets[1]);
    CeilOfDays(n.time, n.delta);
    var t := TimeFromHours(Some(n.time), serial + n.delta, offset).value;
    DaysApart(t.dayOffset, 60 * t.clock.hour + t.clock.minute, SourceMinute(n));
  }

  lemma DaysApart(d: int, minute: int, rounded: int)
    requires minute == rounded % MINUTES_PER_DAY
    ensures var gap := d * MINUTES_PER_DAY + minute - rounded; gap == 0 || gap >= MINUTES_PER_DAY || gap <= -MINUTES_PER_DAY
  {
    var q := rounded / MINUTES_PER_DAY;
    assert rounded == q * MINUTES_PER_DAY + minute;
    assert d * MINUTES_PER_DAY + minute - rounded == (d - q) * MINUTES_PER_DAY;
  }

  lemma CeilOfDays(t: real, delta: int)
    ensures Ceil((t + 24.0 * delta as real) * 60.0) == Ceil(t * 60.0) + MINUTES_PER_DAY * delta
  {
    hide Ceil;
    assert (t + 24.0 * delta as real) * 60.0 == t * 60.0 + (MINUTES_PER_DAY * delta) as real;
    CeilPlus(t * 60.0, MINUTES_PER_DAY * delta);
  }

  // ---- The countdown and the scheduler ----

  /** The three days the scheduler reads around `day`, all on one UTC offset. */
  ghost predicate AreDaysOf(days: ThreeDays, plan: Plan, day: int)
    requires IsThree(days)
  {
    && days.offsets[0] == days.offsets[1] == days.offsets[2]
    && forall d, p | 0 <= d < 3 :: days.times[d](p) == plan.times(day + d - 1, p)
  }

  lemma CandidateIsSlot(plan: Plan, days: ThreeDays, day: int, now: int, k: nat)
    requires IsThree(days) && AreDaysOf(days, plan, day) && k < SLOTS
    ensures Candidate(plan.config, days, now, k).Some? <==> Instant(plan, day, DeltaOf(k), PrayerOf(k)).Some?
    ensures Candidate(plan.config, days, now, k).Some? ==>
              var n := Candidate(plan.config, days, now, k).value;
              n.prayer == PrayerOf(k) && now + n.minutesUntil == Instant(plan, day, DeltaOf(k), PrayerOf(k)).value
  {
    hide Ceil;
    var d, p := DeltaOf(k), PrayerOf(k);
    assert -1 <= d <= 1;
    assert days.times[d + 1](p) == plan.times(day + d, p);
    RoundOfInt(0);
    assert (days.offsets[d + 1] - days.offsets[1]) * 60.0 == 0 as real;
  }

  /** An adhan of a cache, by the slot it came from. */
  ghost predicate IsFromSlot(plan: Plan, day: int, now: int, k: nat, t: Trigger) {
    k < SLOTS && t in SlotAdhan(plan, day, now, k)
  }

  lemma {:induction false} AdhanHasSlot(plan: Plan, day: int, now: int, n: nat, t: Trigger)
    requires n <= SLOTS && t in Adhans(plan, day, now, n)
    ensures exists k :: IsFromSlot(plan, day, now, k, t)
  {
    hide SlotAdhan;
    if t in SlotAdhan(plan, day, now, n - 1) {
      assert IsFromSlot(plan, day, now, n - 1, t);
    } else {
      AdhanHasSlot(plan, day, now, n - 1, t);
    }
  }

  lemma SlotAdhanIs(plan: Plan, day: int, now: int, k: nat, t: Trigger)
    requires t in SlotAdhan(plan, day, now, k)
    ensures t.prayer == Name(PrayerOf(k)) && t.minutesBefore == 0
    ensures Instant(plan, day, DeltaOf(k), PrayerOf(k)) == Some(t.minute) && IsDue(t.minute, now)
  {
    hide Instant, PrayerOf, DeltaOf;
    InstantHasTime(plan, day, DeltaOf(k), PrayerOf(k));
  }

  lemma DueSlotHasAdhan(plan: Plan, day: int, now: int, k: nat, m: int) returns (t: Trigger)
    requires k < SLOTS && Instant(plan, day, DeltaOf(k), PrayerOf(k)) == Some(m) && IsDue(m, now)
    ensures t in SlotAdhan(plan, day, now, k)
  {
    hide Instant, PrayerOf, DeltaOf;
    InstantHasTime(plan, day, DeltaOf(k), PrayerOf(k));
    t := SlotAdhan(plan, day, now, k)[0];
  }

  /** The adhans of a built cache are those of the slots. */
  lemma AdhansOfBuild(plan: Plan, day: int, now: int, ts: seq<Trigger>)
    requires IsLoadedPlan(plan) && IsBuild(plan, day, now, ts)
    ensures forall t :: t in ts && t.minutesBefore == 0 <==> t in Adhans(plan, day, now, SLOTS)
  {
    hide IsLoadedPlan, Adhans, Reminders, First, SortedByMinute;
    var a, r := Adhans(plan, day, now, SLOTS), Reminders(plan, day, now, SLOTS);
    AdhansComeFirst(plan, day, now);
    SlotAdhansAreAdhans(plan, day, now, SLOTS);
    RemindersAreNoAdhans(plan, day, now, SLOTS);
    var some := First(r, MAX_TRIGGERS - |a|);
    assert forall t | t in some :: t in r;
    forall t ensures t in ts <==> t in a || t in some {
      assert t in ts <==> t in multiset(ts);
      assert t in a + some <==> t in multiset(a + some);
    }
  }

  /** A trigger of the cache that announces an adhan not yet past. */
  predicate IsAdhanAhead(t: Trigger, now: int) {
    t.minutesBefore == 0 && t.minute >= now
  }

  /** The countdown and the scheduler agree. The countdown ends on the day itself
      exactly when the cache built now holds an adhan still ahead; it then ends at
      the minute of the first of them, and at that prayer's own. */
  lemma NextIsFirstAdhanOfCache(plan: Plan, days: ThreeDays, day: int, now: int, ts: seq<Trigger>, best: Option<Next>)
    requires IsLoadedPlan(plan) && IsThree(days) && AreDaysOf(days, plan, day) && now >= 0
    requires IsBuild(plan, day, now, ts) && IsNextOf(plan.config, days, now, SLOTS, best)
    ensures best.Some? && now + best.value.minutesUntil < MINUTES_PER_DAY <==> exists t :: t in ts && IsAdhanAhead(t, now)
    ensures best.Some? && now + best.value.minutesUntil < MINUTES_PER_DAY ==>
              && (exists t :: t in ts && IsAdhanAhead(t, now) && t.prayer == Name(best.value.prayer)
                              && t.minute == now + best.value.minutesUntil)
              && (forall t | t in ts && IsAdhanAhead(t, now) :: now + best.value.minutesUntil <= t.minute)
  {
    hide IsBuild, IsLoadedPlan, AreDaysOf, Candidate, SlotAdhan, Adhans, Instant, PrayerOf, DeltaOf;
    AdhansOfBuild(plan, day, now, ts);
    forall t | t in ts && IsAdhanAhead(t, now)
      ensures best.Some? && now + best.value.minutesUntil <= t.minute < MINUTES_PER_DAY
    {
      AheadInCache(plan, days, day, now, t);
      var j :| IsSlotOfMinute(plan.config, days, now, j, t.minute);
      assert IsAhead(plan.config, days, now, j);
    }
    if best.Some? && now + best.value.minutesUntil < MINUTES_PER_DAY {
      var k :| IsFirstAhead(plan.config, days, now, SLOTS, k) && best == Candidate(plan.config, days, now, k);
      CandidateIsSlot(plan, days, day, now, k);
      var t := DueSlotHasAdhan(plan, day, now, k, now + best.value.minutesUntil);
      SlotAdhanIs(plan, day, now, k, t);
      SlotInAdhans(plan, day, now, k, SLOTS);
      assert t in ts && IsAdhanAhead(t, now);
    }
  }

  /** Slot `k` is a candidate for minute `minute` of the day. */
  ghost predicate IsSlotOfMinute(config: Config, days: ThreeDays, now: int, k: nat, minute: int)
    requires IsThree(days)
  {
    k < SLOTS && Candidate(config, days, now, k).Some?
    && now + Candidate(config, days, now, k).value.minutesUntil == minute
  }

  lemma AheadInCache(plan: Plan, days: ThreeDays, day: int, now: int, t: Trigger)
    requires IsThree(days) && AreDaysOf(days, plan, day) && t in Adhans(plan, day, now, SLOTS)
    ensures t.minute < MINUTES_PER_DAY && exists k :: IsSlotOfMinute(plan.config, days, now, k, t.minute)
  {
    hide AreDaysOf, Candidate, SlotAdhan, Adhans, Instant, PrayerOf, DeltaOf;
    AdhanHasSlot(plan, day, now, SLOTS, t);
    var k :| IsFromSlot(plan, day, now, k, t);
    SlotAdhanIs(plan, day, now, k, t);
    CandidateIsSlot(plan, days, day, now, k);
    assert IsSlotOfMinute(plan.config, days, now, k, t.minute);
  }
}
