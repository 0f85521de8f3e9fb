/** What exactly is delivered on a day on which nobody interferes, and in what
    order. */
module Delivery {
  import opened Basics
  import opened TriggerCache
  import opened Picking
  import opened Schedule
  import opened Assembly
  import opened Calendar
  import opened Cycle
  import opened Runs
  import CacheFile

  /** A cycle of the day with a notifier that starts, saves that succeed and no
      deletion. */
  predicate IsBusy(e: Event, day: int) {
    e.Cycled? && e.tick.day == day && e.tick.initOk && !e.tick.deleted && e.tick.buildSaved && e.tick.residueSaved
  }

  /** Such cycles, at any minutes and with any refreshes. */
  ghost predicate IsBusyRun(plan: Plan, evs: seq<Event>, files: seq<Option<string>>, day: int) {
    && IsRun(plan, evs, files) && IsLoadedPlan(plan) && evs != [] && (forall i | 0 <= i < |evs| :: IsBusy(evs[i], day))
    && IsOurs(files[0]) && IsCalendarDay(day) && !IsToday(files[0], day)
  }

  /** Such cycles without a refresh. */
  predicate IsQuietDay(evs: seq<Event>, day: int) {
    evs != [] && forall i | 0 <= i < |evs| :: IsQuiet(evs[i], day)
  }

  predicate IsQuiet(e: Event, day: int) {
    IsBusy(e, day) && !e.tick.refreshed
  }

  function Minutes(evs: seq<Event>): (ms: seq<int>)
    requires forall i | 0 <= i < |evs| :: evs[i].Cycled?
    ensures |ms| == |evs| && forall i | 0 <= i < |evs| :: ms[i] == evs[i].tick.minute
  {
    if evs == [] then [] else [evs[0].tick.minute] + Minutes(evs[1..])
  }

  /** The run as far as its files are concerned. */
  ghost predicate IsQuietRun(plan: Plan, evs: seq<Event>, files: seq<Option<string>>, day: int) {
    && IsRun(plan, evs, files) && IsLoadedPlan(plan) && IsQuietDay(evs, day)
    && IsOurs(files[0]) && IsCalendarDay(day) && !IsToday(files[0], day)
  }

  lemma QuietIsBusy(plan: Plan, evs: seq<Event>, files: seq<Option<string>>, day: int)
    requires IsQuietRun(plan, evs, files, day)
    ensures IsBusyRun(plan, evs, files, day) && forall i | 0 <= i < |evs| :: IsBusy(evs[i], day) && !evs[i].tick.refreshed
  {
    hide IsRun, IsLoadedPlan, IsOurs, IsToday, IsCalendarDay, IsBusy;
    assert forall i | 0 <= i < |evs| :: IsQuiet(evs[i], day);
  }

  lemma {:induction false} FilesAreOurs(plan: Plan, evs: seq<Event>, files: seq<Option<string>>, day: int, n: nat)
    requires IsBusyRun(plan, evs, files, day) && n <= |evs|
    ensures IsOurs(files[n])
  {
    hide IsLoadedPlan, IsOurs, Opens, Closed, IsToday, IsCalendarDay;
    if n > 0 {
      FilesAreOurs(plan, evs, files, day, n - 1);
      assert Follows(plan, files[n - 1], evs[n - 1], files[n]) && IsBusy(evs[n - 1], day);
      CycleIsSound(plan, files[n - 1], evs[n - 1].tick, evs[n - 1].triggers);
    }
  }

  /** The first cycle builds the day's triggers. */
  lemma FirstBuilds(plan: Plan, evs: seq<Event>, files: seq<Option<string>>, day: int)
    requires IsBusyRun(plan, evs, files, day) && !evs[0].tick.refreshed
    ensures IsBuild(plan, day, evs[0].tick.minute, evs[0].triggers)
  {
    hide IsLoadedPlan, IsOurs, IsBuild, Closed, IsToday, IsCalendarDay;
    assert Follows(plan, files[0], evs[0], files[1]) && IsBusy(evs[0], day);
  }

  lemma BusyCycleIsOk(file: Option<string>, e: Event, day: int)
    requires IsBusy(e, day) && IsTick(e.tick)
    ensures !InitFails(e.tick, e.triggers) && !SaveFails(file, e.tick, e.triggers)
  {
    hide Where, Opened, Reuses, Residue, IsCalendarDay;
  }

  /** Every later cycle works on what the one before it left, unless it refreshes. */
  lemma NextWorksOnResidue(plan: Plan, evs: seq<Event>, files: seq<Option<string>>, day: int, i: nat)
    requires IsBusyRun(plan, evs, files, day) && i + 1 < |evs| && !evs[i + 1].tick.refreshed
    ensures SameKeys(Residue(evs[i].tick, evs[i].triggers), evs[i + 1].triggers)
  {
    hide IsLoadedPlan, IsOurs, IsBuild, Closed, IsSound, FileOf, CacheFile.Load, DateText, IsCalendarDay, Where;
    FilesAreOurs(plan, evs, files, day, i);
    assert Follows(plan, files[i], evs[i], files[i + 1]) && IsBusy(evs[i], day);
    assert Follows(plan, files[i + 1], evs[i + 1], files[i + 2]) && IsBusy(evs[i + 1], day);
    BusyCycleIsOk(files[i], evs[i], day);
    var rest := LeavesResidue(plan, files[i], evs[i].tick, evs[i].triggers);
    WrittenForOneDay(files[i + 1], day, day, rest);
    WrittenFileLoads(day, rest);
  }

  // ---- Exact delivery ----

  function Probe(k: Key): Trigger {
    Trigger(k.prayer, "", k.minute, k.lead, 0.0, false)
  }

  predicate Passed(minute: int, ms: seq<int>) {
    exists i | 0 <= i < |ms| :: ms[i] >= minute
  }

  lemma {:induction false} FiresAtFirstAppend(t: Trigger, ms: seq<int>, m: int)
    ensures FiresAtFirst(t, ms + [m])
         == if Passed(t.minute, ms) then FiresAtFirst(t, ms) else CatchUp(t.minute, t.minutesBefore, m) == Fire
    ensures !Passed(t.minute, ms) ==> !FiresAtFirst(t, ms)
    ensures Passed(t.minute, ms + [m]) <==> Passed(t.minute, ms) || m >= t.minute
    decreases |ms|
  {
    if ms == [] {
      assert ms + [m] == [m] && [m][1..] == [];
    } else {
      assert (ms + [m])[1..] == ms[1..] + [m] && (ms + [m])[0] == ms[0];
      FiresAtFirstAppend(t, ms[1..], m);
      assert Passed(t.minute, ms) <==> ms[0] >= t.minute || Passed(t.minute, ms[1..]);
    }
    assert (ms + [m])[|ms|] == m;
    assert forall i | 0 <= i < |ms| :: (ms + [m])[i] == ms[i];
  }

  /** Cycle `i` is the first at or after `minute`. */
  predicate IsFirstAfter(minute: int, ms: seq<int>, i: int) {
    0 <= i < |ms| && ms[i] >= minute && forall j | 0 <= j < i :: ms[j] < minute
  }

  /** At most fifteen minutes late, and for a reminder before its prayer. */
  predicate IsInTime(t: Trigger, m: int) {
    m <= t.minute + CATCHUP_MAX_MIN && (t.minutesBefore > 0 ==> m < t.minute + t.minutesBefore)
  }

  lemma FirstAfterInRest(minute: int, ms: seq<int>, i: int)
    requires ms != [] && ms[0] < minute
    ensures IsFirstAfter(minute, ms, i) <==> IsFirstAfter(minute, ms[1..], i - 1)
  {
    if IsFirstAfter(minute, ms[1..], i - 1) {
      forall j | 0 <= j < i ensures ms[j] < minute {
        assert j > 0 ==> ms[j] == ms[1..][j - 1];
      }
    }
    if IsFirstAfter(minute, ms, i) {
      assert forall j | 0 <= j < i - 1 :: ms[1..][j] == ms[j + 1];
    }
  }

  /** In the words of the design: the first cycle at or after the trigger's minute
      decides. An adhan goes out if that cycle is at most fifteen minutes late, a
      reminder if besides it comes before the prayer. */
  lemma {:induction false} FiresAtFirstMeans(t: Trigger, ms: seq<int>)
    ensures FiresAtFirst(t, ms) <==> exists i :: IsFirstAfter(t.minute, ms, i) && IsInTime(t, ms[i])
    decreases |ms|
  {
    if ms != [] {
      if ms[0] >= t.minute {
        assert forall i | IsFirstAfter(t.minute, ms, i) :: i == 0;
        assert IsFirstAfter(t.minute, ms, 0);
      } else {
        FiresAtFirstMeans(t, ms[1..]);
        forall i ensures IsFirstAfter(t.minute, ms, i) <==> IsFirstAfter(t.minute, ms[1..], i - 1) {
          FirstAfterInRest(t.minute, ms, i);
        }
        if i :| IsFirstAfter(t.minute, ms[1..], i) && IsInTime(t, ms[1..][i]) {
          assert IsFirstAfter(t.minute, ms, i + 1);
        }
      }
    }
  }

  lemma OneCycleCounts(c: Tick, ts: seq<Trigger>, k: Key)
    requires c.initOk
    ensures Count(Announced(c, ts), k) == if CatchUp(k.minute, k.lead, c.minute) == Fire then Count(ts, k) else 0
    ensures Count(Residue(c, ts), k) == if c.minute >= k.minute then 0 else Count(ts, k)
  {
    hide Where, Count;
    CountWhere(ts, Acts(Fire, c.minute), k);
    CountWhere(ts, Acts(Keep, c.minute), k);
  }

  lemma {:induction false} CountsOverDay(plan: Plan, evs: seq<Event>, files: seq<Option<string>>, day: int, k: Key, n: nat)
    requires IsQuietRun(plan, evs, files, day) && n <= |evs|
    ensures var first := Count(evs[0].triggers, k);
            && TallyOf(evs, day, k, n).fires == (if FiresAtFirst(Probe(k), Minutes(evs)[..n]) then first else 0)
            && (n < |evs| ==> Count(evs[n].triggers, k) == if Passed(k.minute, Minutes(evs)[..n]) then 0 else first)
  {
    hide IsLoadedPlan, IsOurs, IsRun, IsToday, IsCalendarDay, Where, FiresAtFirst, Passed, Count, Announced, Residue, CatchUp;
    var ms := Minutes(evs);
    if n == 0 {
      assert ms[..0] == [];
      NeverFires(Probe(k));
      NeverPassed(k.minute);
    } else {
      CountsOverDay(plan, evs, files, day, k, n - 1);
      QuietIsBusy(plan, evs, files, day);
      assert IsQuiet(evs[n - 1], day);
      var c, ts := evs[n - 1].tick, evs[n - 1].triggers;
      assert ms[..n] == ms[..n - 1] + [c.minute];
      FiresAtFirstAppend(Probe(k), ms[..n - 1], c.minute);
      OneCycleCounts(c, ts, k);
      if n < |evs| {
        NextWorksOnResidue(plan, evs, files, day, n - 1);
        SameKeysSameCount(Residue(c, ts), evs[n].triggers, k);
      }
    }
  }

  lemma NeverPassed(minute: int)
    ensures !Passed(minute, [])
  {
  }

  lemma NeverFires(t: Trigger)
    ensures !FiresAtFirst(t, [])
  {
  }

  /** Capacity takes no adhan away, and nothing at all when there is room. */
  lemma PlacedCount(plan: Plan, day: int, now: int, k: Key)
    requires IsLoadedPlan(plan)
    requires k.lead == 0 || |Assembled(plan, day, now)| <= MAX_TRIGGERS
    ensures Count(Placed(plan, day, now), k) == Count(Assembled(plan, day, now), k)
  {
    hide IsLoadedPlan, Adhans, Reminders, Count, First;
    if |Assembled(plan, day, now)| <= MAX_TRIGGERS {
      AllOfIt(Assembled(plan, day, now), MAX_TRIGGERS);
    } else {
      var a, r := Adhans(plan, day, now, SLOTS), Reminders(plan, day, now, SLOTS);
      var some := First(r, MAX_TRIGGERS - |a|);
      AdhansComeFirst(plan, day, now);
      RemindersAreNoAdhans(plan, day, now, SLOTS);
      NotCounted(r, k);
      assert forall t | t in some :: t in r;
      NotCounted(some, k);
      CountConcat(a, r, k);
      CountConcat(a, some, k);
    }
  }

  lemma AllOfIt(ts: seq<Trigger>, n: nat)
    requires |ts| <= n
    ensures First(ts, n) == ts
  {
  }

  /** Exact delivery: over a quiet day each announcement goes out as often as the
      day's first cycle placed it in the cache, if the first cycle at or after its
      minute comes in time, and otherwise not at all. What capacity dropped has no
      bearing on the rest. */
  lemma DeliveredExactly(plan: Plan, evs: seq<Event>, files: seq<Option<string>>, day: int, k: Key)
    requires IsQuietRun(plan, evs, files, day)
    ensures TallyOf(evs, day, k, |evs|).fires
         == if FiresAtFirst(Probe(k), Minutes(evs)) then Count(Placed(plan, day, evs[0].tick.minute), k) else 0
  {
    hide IsLoadedPlan, IsOurs, IsRun, IsToday, IsCalendarDay, Where, Count, Placed, FiresAtFirst;
    QuietIsBusy(plan, evs, files, day);
    FirstBuilds(plan, evs, files, day);
    CountsOverDay(plan, evs, files, day, k, |evs|);
    assert Minutes(evs)[..|evs|] == Minutes(evs);
    CountOfPermutation(evs[0].triggers, Placed(plan, day, evs[0].tick.minute), k);
  }

  /** For an adhan, whatever the reminders are, and for every announcement when
      there is room for all, that is as often as the whole day's assembly holds
      it. */
  lemma DeliveredAsAssembled(plan: Plan, evs: seq<Event>, files: seq<Option<string>>, day: int, k: Key)
    requires IsQuietRun(plan, evs, files, day)
    requires k.lead == 0 || |Assembled(plan, day, evs[0].tick.minute)| <= MAX_TRIGGERS
    ensures TallyOf(evs, day, k, |evs|).fires
         == if FiresAtFirst(Probe(k), Minutes(evs)) then Count(Assembled(plan, day, 0), k) else 0
  {
    hide IsLoadedPlan, IsOurs, IsRun, IsToday, IsCalendarDay, Where, Count, Assembled, Placed;
    var now := evs[0].tick.minute;
    DeliveredExactly(plan, evs, files, day, k);
    assert Minutes(evs)[0] == now;
    PlacedCount(plan, day, now, k);
    AssembledLater(plan, day, now);
    CountFrom(Assembled(plan, day, 0), now - CATCHUP_MAX_MIN, k);
  }

  // ---- Order ----

  function AllAnnounced(evs: seq<Event>, n: nat): (ts: seq<Trigger>)
    requires n <= |evs| && forall i | 0 <= i < |evs| :: evs[i].Cycled?
  {
    if n == 0 then [] else AllAnnounced(evs, n - 1) + Announced(evs[n - 1].tick, evs[n - 1].triggers)
  }

  predicate NotAfter(a: seq<Trigger>, b: seq<Trigger>) {
    forall x, y | x in a && y in b :: x.minute <= y.minute
  }

  lemma SortedConcat(a: seq<Trigger>, b: seq<Trigger>)
    requires SortedByMinute(a) && SortedByMinute(b) && NotAfter(a, b)
    ensures SortedByMinute(a + b)
  {
  }

  lemma SameKeysSorted(a: seq<Trigger>, b: seq<Trigger>)
    requires SameKeys(a, b) && SortedByMinute(a)
    ensures SortedByMinute(b)
  {
    assert forall i | 0 <= i < |b| :: KeyOf(a[i]) == KeyOf(b[i]);
  }

  lemma SameKeysNotAfter(x: seq<Trigger>, a: seq<Trigger>, b: seq<Trigger>)
    requires SameKeys(a, b) && NotAfter(x, a)
    ensures NotAfter(x, b)
  {
    forall t, u | t in x && u in b ensures t.minute <= u.minute {
      var i :| 0 <= i < |b| && b[i] == u;
      assert KeyOf(a[i]) == KeyOf(b[i]) && a[i] in a;
    }
  }

  lemma SelectionsOrdered(x: seq<Trigger>, ts: seq<Trigger>, now: int)
    requires NotAfter(x, ts)
    ensures NotAfter(x, Where(ts, Acts(Fire, now))) && NotAfter(x + Where(ts, Acts(Fire, now)), Where(ts, Acts(Keep, now)))
  {
    hide Where;
    forall t ensures t in Where(ts, Acts(Fire, now)) ==> t in ts && t.minute <= now
             ensures t in Where(ts, Acts(Keep, now)) ==> t in ts && t.minute > now {
      WhereIn(ts, Acts(Fire, now), t);
      WhereIn(ts, Acts(Keep, now), t);
    }
  }

  lemma {:induction false} OrderedSoFar(plan: Plan, evs: seq<Event>, files: seq<Option<string>>, day: int, n: nat)
    requires IsQuietRun(plan, evs, files, day) && n <= |evs|
    ensures SortedByMinute(AllAnnounced(evs, n))
    ensures n < |evs| ==> SortedByMinute(evs[n].triggers) && NotAfter(AllAnnounced(evs, n), evs[n].triggers)
  {
    hide IsLoadedPlan, IsOurs, IsRun, IsToday, IsCalendarDay, Where, SortedByMinute, NotAfter, SameKeys;
    if n == 0 {
      QuietIsBusy(plan, evs, files, day);
      FirstBuilds(plan, evs, files, day);
      NothingIsOrdered(evs[0].triggers);
    } else {
      OrderedSoFar(plan, evs, files, day, n - 1);
      QuietIsBusy(plan, evs, files, day);
      assert IsQuiet(evs[n - 1], day);
      var c, ts, before := evs[n - 1].tick, evs[n - 1].triggers, AllAnnounced(evs, n - 1);
      WhereSorted(ts, Acts(Fire, c.minute));
      WhereSorted(ts, Acts(Keep, c.minute));
      SelectionsOrdered(before, ts, c.minute);
      SortedConcat(before, Announced(c, ts));
      if n < |evs| {
        NextWorksOnResidue(plan, evs, files, day, n - 1);
        SameKeysSorted(Residue(c, ts), evs[n].triggers);
        SameKeysNotAfter(AllAnnounced(evs, n), Residue(c, ts), evs[n].triggers);
      }
    }
  }

  lemma NothingIsOrdered(ts: seq<Trigger>)
    ensures SortedByMinute([]) && NotAfter([], ts)
  {
  }

  /** The announcements of a quiet day go out in the order of their minutes,
      across all cycles, even when the clock goes back between two of them. */
  lemma AnnouncedInOrder(plan: Plan, evs: seq<Event>, files: seq<Option<string>>, day: int)
    requires IsQuietRun(plan, evs, files, day)
    ensures SortedByMinute(AllAnnounced(evs, |evs|))
  {
    hide IsLoadedPlan, IsOurs, IsRun, IsToday, IsCalendarDay;
    OrderedSoFar(plan, evs, files, day, |evs|);
  }

  // ---- What the refresh rule rests on ----

  /** A refresh announces again exactly the triggers of its own minute: those a
      cycle of the same minute has announced already. That is why a refresh has to
      come at a later minute. */
  lemma RefreshRepeatsItsOwnMinute(built: seq<Trigger>, now: int, t: Trigger)
    requires t.minutesBefore >= 0
    ensures t in Where(Where(built, From(now)), Acts(Fire, now)) <==> t in built && t.minute == now
    ensures t in built && t.minute == now ==> t in Where(built, Acts(Fire, now))
  {
    hide Where;
    WhereIn(Where(built, From(now)), Acts(Fire, now), t);
    WhereIn(built, From(now), t);
    WhereIn(built, Acts(Fire, now), t);
  }
}
