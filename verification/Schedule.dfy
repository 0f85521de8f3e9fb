/** The announcements of one day, assembled from three source days. */
module Schedule {
  import opened Basics
  import opened Settings
  import opened TriggerCache
  import opened Picking
  import opened Calendar
  import CacheFile

  /** The settings in force and the prayer times they give: hours after midnight
      of a source day, or None for a prayer the Sun never reaches. */
  datatype Plan = Plan(config: Config, times: (int, Prayer) -> Option<real>)

  function Ceil(x: real): (n: int)
    ensures n as real - 1.0 < x <= n as real
  {
    0 - (0.0 - x).Floor
  }

  /** The time of `p` on `source`, when it is enabled and occurs. */
  function TimeOf(plan: Plan, source: int, p: Prayer): (r: Option<real>) {
    if ConfigOf(plan.config, p).enabled then plan.times(source, p) else None
  }

  /** The minute of `day` on which the prayer `p` of `day + delta` falls; outside
      0..1440 it belongs to another day. */
  function Instant(plan: Plan, day: int, delta: int, p: Prayer): (r: Option<int>) {
    match TimeOf(plan, day + delta, p)
    case None => None
    case Some(t) => Some(Ceil((t + 24.0 * delta as real) * 60.0))
  }

  /** The minute of a prayer counted from midnight of its own source day. */
  function RoundedMinute(plan: Plan, source: int, p: Prayer): (r: Option<int>) {
    Instant(plan, source, 0, p)
  }

  lemma CeilPlus(x: real, n: int)
    ensures Ceil(x + n as real) == Ceil(x) + n
  {
    var a, b := Ceil(x + n as real), Ceil(x) + n;
    assert b as real == Ceil(x) as real + n as real;
    assert (a - b) as real < 1.0 && (b - a) as real < 1.0;
  }

  /** A source day moves the minute by whole days and nothing else. */
  lemma InstantIsShifted(plan: Plan, day: int, delta: int, p: Prayer)
    ensures Instant(plan, day, delta, p).Some? <==> RoundedMinute(plan, day + delta, p).Some?
    ensures Instant(plan, day, delta, p).Some? ==>
              Instant(plan, day, delta, p).value == RoundedMinute(plan, day + delta, p).value + MINUTES_PER_DAY * delta
  {
    match TimeOf(plan, day + delta, p)
    case None =>
    case Some(t) =>
      assert (t + 24.0 * delta as real) * 60.0 == (t + 24.0 * 0 as real) * 60.0 + (MINUTES_PER_DAY * delta) as real;
      CeilPlus((t + 24.0 * 0 as real) * 60.0, MINUTES_PER_DAY * delta);
  }

  // ---- The fifteen slots: three source days of five prayers ----

  const SLOTS: nat := 15

  function DeltaOf(k: nat): int {
    k / PRAYER_COUNT - 1
  }

  function PrayerOf(k: nat): Prayer {
    PRAYERS[k % PRAYER_COUNT]
  }

  /** A trigger goes into the cache of the day it falls on, up to the catch-up
      window back. */
  predicate IsDue(minute: int, now: int) {
    0 <= minute < MINUTES_PER_DAY && minute >= now - CATCHUP_MAX_MIN
  }

  function AdhanTrigger(plan: Plan, p: Prayer, minute: int, time: real): Trigger {
    var c := ConfigOf(plan.config, p);
    Trigger(Name(p), Clip(c.adhan, CacheFile.ADHAN_MAX), minute, 0, time, c.adhanEnabled)
  }

  function ReminderTrigger(p: Prayer, minute: int, lead: int, time: real): Trigger {
    Trigger(Name(p), "", minute, lead, time, false)
  }

  /** The adhan of slot `k`, if it is due: no trigger or one. */
  function SlotAdhan(plan: Plan, day: int, now: int, k: nat): (ts: seq<Trigger>)
    ensures |ts| <= 1
  {
    var p := PrayerOf(k);
    match Instant(plan, day, DeltaOf(k), p)
    case None => []
    case Some(m) =>
      if IsDue(m, now) then [AdhanTrigger(plan, p, m, TimeOf(plan, day + DeltaOf(k), p).value)] else []
  }

  function Leads(plan: Plan, p: Prayer): seq<int> {
    ConfigOf(plan.config, p).reminders
  }

  /** Reminder `j` of slot `k`, if it is due. */
  function SlotReminder(plan: Plan, day: int, now: int, k: nat, j: nat): (ts: seq<Trigger>)
    requires j < |Leads(plan, PrayerOf(k))|
    ensures |ts| <= 1
  {
    var p := PrayerOf(k);
    var lead := Leads(plan, p)[j];
    match Instant(plan, day, DeltaOf(k), p)
    case None => []
    case Some(m) =>
      if IsDue(m - lead, now) then [ReminderTrigger(p, m - lead, lead, TimeOf(plan, day + DeltaOf(k), p).value)] else []
  }

  /** The first `j` reminders of slot `k` that are due. */
  function SlotReminders(plan: Plan, day: int, now: int, k: nat, j: nat): (ts: seq<Trigger>)
    requires j <= |Leads(plan, PrayerOf(k))|
  {
    if j == 0 then [] else SlotReminders(plan, day, now, k, j - 1) + SlotReminder(plan, day, now, k, j - 1)
  }

  /** The due adhans of the first `k` slots. */
  function Adhans(plan: Plan, day: int, now: int, k: nat): (ts: seq<Trigger>)
    ensures |ts| <= k
  {
    if k == 0 then [] else Adhans(plan, day, now, k - 1) + SlotAdhan(plan, day, now, k - 1)
  }

  /** The due reminders of the first `k` slots. */
  function Reminders(plan: Plan, day: int, now: int, k: nat): (ts: seq<Trigger>) {
    if k == 0 then []
    else Reminders(plan, day, now, k - 1)
         + SlotReminders(plan, day, now, k - 1, |Leads(plan, PrayerOf(k - 1))|)
  }

  /** Everything due on `day` from `now` on: all adhans, then all reminders. */
  function Assembled(plan: Plan, day: int, now: int): (ts: seq<Trigger>) {
    Adhans(plan, day, now, SLOTS) + Reminders(plan, day, now, SLOTS)
  }

  function First(ts: seq<Trigger>, n: nat): (r: seq<Trigger>)
    ensures r <= ts && |r| == if |ts| <= n then |ts| else n
  {
    if |ts| <= n then ts else ts[..n]
  }

  /** What the capacity leaves of it. */
  function Placed(plan: Plan, day: int, now: int): (ts: seq<Trigger>) {
    First(Assembled(plan, day, now), MAX_TRIGGERS)
  }

  /** A cache as it may come out of the build: `qsort` promises an order by minute
      and says nothing about triggers of one minute. */
  predicate IsBuild(plan: Plan, day: int, now: int, ts: seq<Trigger>) {
    SortedByMinute(ts) && multiset(ts) == multiset(Placed(plan, day, now))
  }

  // ---- The build ----

  /** What has been met after `k` slots of a pass; the passes are the adhans, the
      reminders and, as pass 2, the end. */
  function Done(plan: Plan, day: int, now: int, pass: nat, k: nat): seq<Trigger> {
    if pass == 0 then Adhans(plan, day, now, k)
    else if pass == 1 then Adhans(plan, day, now, SLOTS) + Reminders(plan, day, now, k)
    else Assembled(plan, day, now)
  }

  lemma FirstAppend(a: seq<Trigger>, b: seq<Trigger>, n: nat)
    requires |b| <= 1
    ensures First(a + b, n) == if |a| < n then First(a, n) + b else First(a, n)
  {
    if b == [] {
      assert a + b == a;
    }
  }

  lemma InstantHasTime(plan: Plan, day: int, delta: int, p: Prayer)
    ensures Instant(plan, day, delta, p).Some? <==> TimeOf(plan, day + delta, p).Some?
  {
  }

  /** The adhan of one slot, in the first pass. */
  method BuildAdhan(cache: PrayerCache, plan: Plan, day: int, now: int, k: nat)
    requires cache.Valid() && k < SLOTS
    requires cache.Entries() == First(Adhans(plan, day, now, k), MAX_TRIGGERS)
    modifies cache`count, cache.triggers
    ensures cache.Valid()
    ensures cache.Entries() == First(Adhans(plan, day, now, k + 1), MAX_TRIGGERS)
  {
    hide IsDue, Instant, PrayerOf, DeltaOf, AdhanTrigger, TimeOf;
    var p := PrayerOf(k);
    FirstAppend(Adhans(plan, day, now, k), SlotAdhan(plan, day, now, k), MAX_TRIGGERS);
    var instant := Instant(plan, day, DeltaOf(k), p);
    InstantHasTime(plan, day, DeltaOf(k), p);
    if instant.Some? && IsDue(instant.value, now) {
      var _ := cache.Append(AdhanTrigger(plan, p, instant.value, TimeOf(plan, day + DeltaOf(k), p).value));
    }
  }

  /** One reminder of one slot. */
  method BuildReminder(cache: PrayerCache, plan: Plan, day: int, now: int, k: nat, j: nat, ghost before: seq<Trigger>)
    requires cache.Valid() && k < SLOTS && j < |Leads(plan, PrayerOf(k))|
    requires cache.Entries() == First(before, MAX_TRIGGERS)
    modifies cache`count, cache.triggers
    ensures cache.Valid()
    ensures cache.Entries() == First(before + SlotReminder(plan, day, now, k, j), MAX_TRIGGERS)
  {
    hide IsDue, Instant, PrayerOf, DeltaOf, ReminderTrigger, TimeOf, Leads;
    var p := PrayerOf(k);
    var lead := Leads(plan, p)[j];
    FirstAppend(before, SlotReminder(plan, day, now, k, j), MAX_TRIGGERS);
    var instant := Instant(plan, day, DeltaOf(k), p);
    InstantHasTime(plan, day, DeltaOf(k), p);
    if instant.Some? && IsDue(instant.value - lead, now) {
      var _ := cache.Append(ReminderTrigger(p, instant.value - lead, lead, TimeOf(plan, day + DeltaOf(k), p).value));
    }
  }

  /** The reminders of one slot, in the second pass. */
  method BuildReminders(cache: PrayerCache, plan: Plan, day: int, now: int, k: nat, ghost before: seq<Trigger>)
    requires cache.Valid() && k < SLOTS
    requires cache.Entries() == First(before, MAX_TRIGGERS)
    modifies cache`count, cache.triggers
    ensures cache.Valid()
    ensures cache.Entries() == First(before + SlotReminders(plan, day, now, k, |Leads(plan, PrayerOf(k))|), MAX_TRIGGERS)
  {
    hide SlotReminder, PrayerOf, First, Leads;
    assert before + [] == before;
    for j := 0 to |Leads(plan, PrayerOf(k))|
      invariant cache.Valid()
      invariant cache.Entries() == First(before + SlotReminders(plan, day, now, k, j), MAX_TRIGGERS)
    {
      ghost var sofar := before + SlotReminders(plan, day, now, k, j);
      BuildReminder(cache, plan, day, now, k, j, sofar);
      assert sofar + SlotReminder(plan, day, now, k, j) == before + SlotReminders(plan, day, now, k, j + 1);
    }
  }

  /** One slot of one pass, as the innermost loops handle it. */
  method BuildSlot(cache: PrayerCache, plan: Plan, day: int, now: int, pass: nat, k: nat)
    requires cache.Valid() && pass < 2 && k < SLOTS
    requires cache.Entries() == First(Done(plan, day, now, pass, k), MAX_TRIGGERS)
    modifies cache`count, cache.triggers
    ensures cache.Valid()
    ensures cache.Entries() == First(Done(plan, day, now, pass, k + 1), MAX_TRIGGERS)
  {
    hide First, SlotReminders, SlotAdhan, PrayerOf;
    if pass == 0 {
      BuildAdhan(cache, plan, day, now, k);
    } else {
      ghost var before := Done(plan, day, now, 1, k);
      BuildReminders(cache, plan, day, now, k, before);
      assert before + SlotReminders(plan, day, now, k, |Leads(plan, PrayerOf(k))|) == Done(plan, day, now, 1, k + 1);
    }
  }

  /** Orders the triggers by minute, in place. Stands for `qsort`; callers learn
      no more than `qsort` promises. */
  method Sort(cache: PrayerCache)
    requires cache.Valid()
    modifies cache.triggers
    ensures cache.Valid() && SortedByMinute(cache.Entries())
    ensures multiset(cache.Entries()) == multiset(old(cache.Entries()))
  {
    var a, n := cache.triggers, cache.count;
    for i := 0 to n
      invariant SortedByMinute(a[..n][..i]) && multiset(a[..n]) == multiset(old(a[..n]))
    {
      Insert(a, n, i);
    }
    assert a[..n][..n] == a[..n];
  }

  function Swapped(ts: seq<Trigger>, j: nat): (r: seq<Trigger>)
    requires 1 <= j < |ts|
    ensures |r| == |ts|
  {
    ts[j - 1 := ts[j]][j := ts[j - 1]]
  }

  lemma SwappedIsPermutation(ts: seq<Trigger>, j: nat)
    requires 1 <= j < |ts|
    ensures multiset(Swapped(ts, j)) == multiset(ts)
  {
  }

  /** The first `i + 1` triggers are in order but for the one at `j`, which still
      has to move down. */
  ghost predicate IsSinking(ts: seq<Trigger>, i: nat, j: nat)
    requires i < |ts|
  {
    && (forall x, y | 0 <= x < y <= i && x != j && y != j :: ts[x].minute <= ts[y].minute)
    && (forall y | j < y <= i :: ts[j].minute <= ts[y].minute)
  }

  lemma SinkStep(ts: seq<Trigger>, i: nat, j: nat)
    requires 1 <= j <= i < |ts| && IsSinking(ts, i, j) && ts[j - 1].minute > ts[j].minute
    ensures IsSinking(Swapped(ts, j), i, j - 1)
  {
    var r := Swapped(ts, j);
    forall x, y | 0 <= x < y <= i && x != j - 1 && y != j - 1 ensures r[x].minute <= r[y].minute {
      assert ts[if x == j then j - 1 else x].minute <= ts[if y == j then j - 1 else y].minute;
    }
  }

  lemma SinkEnd(ts: seq<Trigger>, i: nat, j: nat)
    requires j <= i < |ts| && IsSinking(ts, i, j) && (j > 0 ==> ts[j - 1].minute <= ts[j].minute)
    ensures SortedByMinute(ts[..i + 1])
  {
    forall x, y | 0 <= x < y <= i ensures ts[x].minute <= ts[y].minute {
      if y == j && x < j - 1 {
        assert ts[x].minute <= ts[j - 1].minute;
      }
    }
  }

  /** Moves the trigger at `i` down to its place among the ones before it. */
  method Insert(a: array<Trigger>, n: nat, i: nat)
    requires i < n <= a.Length && SortedByMinute(a[..n][..i])
    modifies a
    ensures SortedByMinute(a[..n][..i + 1]) && multiset(a[..n]) == multiset(old(a[..n]))
  {
    hide Swapped, SortedByMinute;
    var j := i;
    SinkStart(a[..n], i);
    while j > 0 && a[j - 1].minute > a[j].minute
      invariant 0 <= j <= i && IsSinking(a[..n], i, j)
      invariant multiset(a[..n]) == multiset(old(a[..n]))
    {
      SinkStep(a[..n], i, j);
      SwappedIsPermutation(a[..n], j);
      Swap(a, n, j);
      j := j - 1;
    }
    SinkEnd(a[..n], i, j);
  }

  lemma SinkStart(ts: seq<Trigger>, i: nat)
    requires i < |ts| && SortedByMinute(ts[..i])
    ensures IsSinking(ts, i, i)
  {
    forall x, y | 0 <= x < y < i ensures ts[x].minute <= ts[y].minute {
      assert ts[..i][x].minute <= ts[..i][y].minute;
    }
  }

  method Swap(a: array<Trigger>, n: nat, j: nat)
    requires 1 <= j < n <= a.Length
    modifies a
    ensures a[..n] == Swapped(old(a[..n]), j)
  {
    a[j - 1], a[j] := a[j], a[j - 1];
  }

  /** One pass over the three source days. */
  method BuildPass(cache: PrayerCache, plan: Plan, day: int, now: int, pass: nat)
    requires cache.Valid() && pass < 2
    requires cache.Entries() == First(Done(plan, day, now, pass, 0), MAX_TRIGGERS)
    modifies cache`count, cache.triggers
    ensures cache.Valid()
    ensures cache.Entries() == First(Done(plan, day, now, pass + 1, 0), MAX_TRIGGERS)
  {
    hide Done, First;
    DoneSteps(plan, day, now);
    for delta := -1 to 2
      invariant cache.Valid()
      invariant cache.Entries() == First(Done(plan, day, now, pass, (delta + 1) * PRAYER_COUNT), MAX_TRIGGERS)
    {
      for i := 0 to PRAYER_COUNT
        invariant cache.Valid()
        invariant cache.Entries() == First(Done(plan, day, now, pass, (delta + 1) * PRAYER_COUNT + i), MAX_TRIGGERS)
      {
        BuildSlot(cache, plan, day, now, pass, (delta + 1) * PRAYER_COUNT + i);
      }
    }
  }

  /** `cache_build_triggers`. A date that does not parse leaves the cache alone. */
  method Build(cache: PrayerCache, plan: Plan, now: int, date: string)
    requires cache.Valid()
    modifies cache, cache.triggers
    ensures cache.Valid()
    ensures match ParseDate(date)
            case None => cache.date == old(cache.date) && cache.Entries() == old(cache.Entries())
            case Some(c) => cache.date == Clip(date, CacheFile.DATE_MAX)
                            && IsBuild(plan, DaysFromCivil(c), now, cache.Entries())
  {
    hide ParseDate, DaysFromCivil, Done, First;
    var civil := ParseDate(date);
    if civil.None? {
      return;
    }
    var day := DaysFromCivil(civil.value);
    cache.Clear(Clip(date, CacheFile.DATE_MAX));
    DoneSteps(plan, day, now);
    for pass := 0 to 2
      invariant cache.Valid() && cache.date == Clip(date, CacheFile.DATE_MAX)
      invariant cache.Entries() == First(Done(plan, day, now, pass, 0), MAX_TRIGGERS)
    {
      BuildPass(cache, plan, day, now, pass);
    }
    Sort(cache);
  }

  lemma DoneSteps(plan: Plan, day: int, now: int)
    ensures First(Done(plan, day, now, 0, 0), MAX_TRIGGERS) == []
    ensures Done(plan, day, now, 0, SLOTS) == Done(plan, day, now, 1, 0)
    ensures Done(plan, day, now, 1, SLOTS) == Done(plan, day, now, 2, 0) == Assembled(plan, day, now)
  {
  }
}
