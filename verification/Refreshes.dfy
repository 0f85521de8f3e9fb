/** Days with refreshes: exactly how often an announcement goes out, and exactly
    when that is more than once. */
module Refreshes {
  import opened Basics
  import opened TriggerCache
  import opened Picking
  import opened Schedule
  import opened Assembly
  import opened Calendar
  import opened Cycle
  import opened Runs
  import opened Delivery
  import opened Once

  /** What a build at `minute` places of an announcement. */
  function PlacedAt(plan: Plan, day: int, minute: int, k: Key): nat {
    Count(Placed(plan, day, minute), k)
  }

  /** How often the triggers of cycle `n` of the day hold the announcement: as the
      day was built, or rebuilt without what lies behind, and not after a cycle has
      reached its minute. */
  function HeldAt(plan: Plan, day: int, k: Key, cs: seq<Tick>, n: nat): nat
    requires n < |cs|
  {
    if cs[n].refreshed then (if k.minute >= cs[n].minute then PlacedAt(plan, day, cs[n].minute, k) else 0)
    else if n == 0 then PlacedAt(plan, day, cs[0].minute, k)
    else if cs[n - 1].minute >= k.minute then 0
    else HeldAt(plan, day, k, cs, n - 1)
  }

  /** How often it goes out in the first `n` cycles. */
  function FiresOver(plan: Plan, day: int, k: Key, cs: seq<Tick>, n: nat): nat
    requires n <= |cs|
  {
    if n == 0 then 0
    else FiresOver(plan, day, k, cs, n - 1)
         + if CatchUp(k.minute, k.lead, cs[n - 1].minute) == Fire then HeldAt(plan, day, k, cs, n - 1) else 0
  }

  function Ticks(evs: seq<Event>): (cs: seq<Tick>)
    requires forall i | 0 <= i < |evs| :: evs[i].Cycled?
    ensures |cs| == |evs| && forall i | 0 <= i < |evs| :: cs[i] == evs[i].tick
  {
    if evs == [] then [] else [evs[0].tick] + Ticks(evs[1..])
  }

  lemma BusyIsCycled(plan: Plan, evs: seq<Event>, files: seq<Option<string>>, day: int)
    requires IsBusyRun(plan, evs, files, day)
    ensures evs != [] && forall i | 0 <= i < |evs| :: IsBusy(evs[i], day) && evs[i].Cycled?
  {
  }

  /** A refresh works on a fresh build without what lies behind it. */
  lemma RefreshRebuilds(plan: Plan, evs: seq<Event>, files: seq<Option<string>>, day: int, k: Key, n: nat)
    requires IsBusyRun(plan, evs, files, day) && n < |evs| && evs[n].tick.refreshed
    ensures var m := evs[n].tick.minute;
            Count(evs[n].triggers, k) == if k.minute >= m then PlacedAt(plan, day, m, k) else 0
  {
    hide IsLoadedPlan, IsOurs, IsBuild, Closed, IsToday, IsCalendarDay, Count, Where, Placed;
    assert Follows(plan, files[n], evs[n], files[n + 1]) && IsBusy(evs[n], day);
    var c := evs[n].tick;
    var built :| IsBuild(plan, c.day, c.minute, built) && evs[n].triggers == Where(built, From(c.minute));
    BuildHolds(plan, day, c.minute, built, k);
    CountFrom(built, c.minute, k);
  }

  lemma BuildHolds(plan: Plan, day: int, now: int, ts: seq<Trigger>, k: Key)
    requires IsBuild(plan, day, now, ts)
    ensures Count(ts, k) == PlacedAt(plan, day, now, k)
  {
    hide Placed, Count;
    CountOfPermutation(ts, Placed(plan, day, now), k);
  }

  /** The exact count over a day of cycles at any minutes with any refreshes. */
  lemma {:induction false} CountsOverBusyDay(plan: Plan, evs: seq<Event>, files: seq<Option<string>>, day: int, k: Key, n: nat)
    requires IsBusyRun(plan, evs, files, day) && n <= |evs|
    requires forall i | 0 <= i < |evs| :: evs[i].Cycled?
    ensures TallyOf(evs, day, k, n).fires == FiresOver(plan, day, k, Ticks(evs), n)
    ensures n < |evs| ==> Count(evs[n].triggers, k) == HeldAt(plan, day, k, Ticks(evs), n)
  {
    hide IsBusyRun, Count, Announced, Residue, CatchUp, PlacedAt;
    var cs := Ticks(evs);
    BusyIsCycled(plan, evs, files, day);
    if n > 0 {
      CountsOverBusyDay(plan, evs, files, day, k, n - 1);
      assert IsBusy(evs[n - 1], day);
      OneCycleCounts(evs[n - 1].tick, evs[n - 1].triggers, k);
    }
    if n < |evs| {
      if evs[n].tick.refreshed {
        RefreshRebuilds(plan, evs, files, day, k, n);
      } else if n == 0 {
        FirstBuilds(plan, evs, files, day);
        BuildHolds(plan, day, evs[0].tick.minute, evs[0].triggers, k);
      } else {
        NextWorksOnResidue(plan, evs, files, day, n - 1);
        SameKeysSameCount(Residue(evs[n - 1].tick, evs[n - 1].triggers), evs[n].triggers, k);
      }
    }
  }

  // ---- When it goes out twice ----

  /** The clock does not go back between the cycles. */
  predicate GoesForward(cs: seq<Tick>) {
    forall i, j | 0 <= i < j < |cs| :: cs[i].minute <= cs[j].minute
  }

  /** Of the first `n` cycles two are in `minute`, and the later one refreshes. */
  predicate RefreshesAgain(cs: seq<Tick>, minute: int, n: nat) {
    exists i, j :: 0 <= i < j < n <= |cs| && cs[i].minute == minute && cs[j].minute == minute && cs[j].refreshed
  }

  predicate Hits(cs: seq<Tick>, minute: int, n: nat) {
    exists i :: 0 <= i < n <= |cs| && cs[i].minute == minute
  }

  /** Every build up to its minute places the announcement, once; no build places it
      more often. */
  predicate IsPlacedOnce(plan: Plan, day: int, k: Key, cs: seq<Tick>) {
    forall i | 0 <= i < |cs| ::
      PlacedAt(plan, day, cs[i].minute, k) <= 1
      && (cs[i].minute <= k.minute ==> PlacedAt(plan, day, cs[i].minute, k) == 1)
  }

  lemma {:induction false} HeldBefore(plan: Plan, day: int, k: Key, cs: seq<Tick>, n: nat)
    requires IsPlacedOnce(plan, day, k, cs) && GoesForward(cs) && n < |cs|
    ensures HeldAt(plan, day, k, cs, n) <= 1
    ensures cs[n].minute <= k.minute && (n > 0 ==> cs[n - 1].minute < k.minute) ==> HeldAt(plan, day, k, cs, n) == 1
    ensures n > 0 && cs[n - 1].minute < k.minute && !cs[n].refreshed ==> HeldAt(plan, day, k, cs, n) == 1
  {
    hide PlacedAt;
    if n > 0 {
      HeldBefore(plan, day, k, cs, n - 1);
      if n > 1 {
        assert cs[n - 2].minute <= cs[n - 1].minute;
      }
    }
  }

  lemma OneMoreCycle(cs: seq<Tick>, minute: int, n: nat)
    requires n < |cs|
    ensures Hits(cs, minute, n + 1) <==> Hits(cs, minute, n) || cs[n].minute == minute
    ensures RefreshesAgain(cs, minute, n + 1) <==>
              RefreshesAgain(cs, minute, n) || (cs[n].minute == minute && cs[n].refreshed && Hits(cs, minute, n))
  {
    if Hits(cs, minute, n) {
      var i :| 0 <= i < n <= |cs| && cs[i].minute == minute;
      assert cs[n].minute == minute && cs[n].refreshed ==> RefreshesAgain(cs, minute, n + 1);
    }
    if RefreshesAgain(cs, minute, n) {
      var i, j :| 0 <= i < j < n <= |cs| && cs[i].minute == minute && cs[j].minute == minute && cs[j].refreshed;
    }
  }

  lemma FiresInTime(k: Key, now: int)
    ensures now < k.minute ==> CatchUp(k.minute, k.lead, now) == Keep
    ensures now == k.minute ==> CatchUp(k.minute, k.lead, now) == Fire
  {
  }

  /** The state of the count after `n` cycles. */
  lemma {:induction false} FiresSoFar(plan: Plan, day: int, k: Key, cs: seq<Tick>, n: nat)
    requires IsPlacedOnce(plan, day, k, cs) && GoesForward(cs) && n <= |cs|
    ensures var fires := FiresOver(plan, day, k, cs, n);
            && (n == 0 || cs[n - 1].minute < k.minute ==> fires == 0 && !Hits(cs, k.minute, n))
            && (RefreshesAgain(cs, k.minute, n) ==> fires >= 2 && Hits(cs, k.minute, n))
            && (!RefreshesAgain(cs, k.minute, n) ==> fires <= 1)
            && (Hits(cs, k.minute, n) ==> fires >= 1)
  {
    hide PlacedAt, HeldAt, CatchUp, Hits, RefreshesAgain, IsPlacedOnce;
    if n == 0 {
      NothingHit(cs, k.minute);
    } else {
      FiresSoFar(plan, day, k, cs, n - 1);
      OneMoreCycle(cs, k.minute, n - 1);
      HeldBefore(plan, day, k, cs, n - 1);
      FiresInTime(k, cs[n - 1].minute);
      if n > 1 {
        assert cs[n - 2].minute <= cs[n - 1].minute;
        if cs[n - 2].minute >= k.minute {
          HeldAfter(plan, day, k, cs, n - 1);
          if cs[n - 1].minute == k.minute {
            HitBefore(cs, k.minute, n - 1);
          }
        }
      }
    }
  }

  lemma NothingHit(cs: seq<Tick>, minute: int)
    ensures !Hits(cs, minute, 0) && !RefreshesAgain(cs, minute, 0)
  {
  }

  lemma HitBefore(cs: seq<Tick>, minute: int, n: nat)
    requires 0 < n <= |cs| && cs[n - 1].minute == minute
    ensures Hits(cs, minute, n)
  {
  }

  /** Once a cycle has reached its minute, only a refresh in that minute holds it. */
  lemma HeldAfter(plan: Plan, day: int, k: Key, cs: seq<Tick>, n: nat)
    requires IsPlacedOnce(plan, day, k, cs) && GoesForward(cs) && 0 < n < |cs| && cs[n - 1].minute >= k.minute
    ensures HeldAt(plan, day, k, cs, n) == if cs[n].refreshed && cs[n].minute == k.minute then 1 else 0
  {
    hide PlacedAt;
    assert cs[n - 1].minute <= cs[n].minute;
  }

  lemma PlacedWithin(plan: Plan, day: int, minute: int, k: Key)
    ensures PlacedAt(plan, day, minute, k) <= Count(Assembled(plan, day, 0), k)
  {
    hide Assembled, Count, Where, First;
    FromIsKeptByCapacity(Assembled(plan, day, minute), MAX_TRIGGERS, k);
    AssembledLater(plan, day, minute);
    CountFrom(Assembled(plan, day, 0), minute - CATCHUP_MAX_MIN, k);
  }

  /** The exact rule for refreshes. Take a day of cycles that go forward, no
      deletion, saves that succeed, a notifier that starts, any refreshes, and an
      announcement that no two entries share and that every build up to its minute
      places. It goes out at most once exactly when no refresh in its minute
      follows another cycle in that minute. */
  lemma RepeatsExactly(plan: Plan, evs: seq<Event>, files: seq<Option<string>>, day: int, k: Key)
    requires IsBusyRun(plan, evs, files, day) && forall i | 0 <= i < |evs| :: evs[i].Cycled?
    requires GoesForward(Ticks(evs)) && !IsShared(plan, day, k)
    requires forall i | 0 <= i < |evs| && evs[i].tick.minute <= k.minute :: PlacedAt(plan, day, evs[i].tick.minute, k) > 0
    ensures TallyOf(evs, day, k, |evs|).fires <= 1 <==>
              !exists i, j :: 0 <= i < j < |evs| && evs[i].tick.minute == k.minute && evs[j].tick.minute == k.minute
                              && evs[j].tick.refreshed
  {
    hide IsBusyRun, TallyOf, IsShared, PlacedAt, FiresOver, Assembled, Count;
    var cs := Ticks(evs);
    RepeatedExactly(plan, day, k);
    forall i | 0 <= i < |cs|
      ensures PlacedAt(plan, day, cs[i].minute, k) <= 1
      ensures cs[i].minute <= k.minute ==> PlacedAt(plan, day, cs[i].minute, k) == 1
    {
      PlacedWithin(plan, day, cs[i].minute, k);
      assert cs[i] == evs[i].tick;
    }
    CountsOverBusyDay(plan, evs, files, day, k, |evs|);
    FiresSoFar(plan, day, k, cs, |cs|);
  }

  /** For every adhan of the day, and for every announcement when there is room for
      all, the builds place it and the rule holds as it stands. */
  lemma DueRepeatsExactly(plan: Plan, evs: seq<Event>, files: seq<Option<string>>, day: int, k: Key, x: Entry)
    requires IsBusyRun(plan, evs, files, day) && forall i | 0 <= i < |evs| :: evs[i].Cycled?
    requires GoesForward(Ticks(evs)) && !IsShared(plan, day, k) && Has(plan, day, k, x)
    requires k.lead == 0
             || forall i | 0 <= i < |evs| && evs[i].tick.minute <= k.minute ::
                  |Assembled(plan, day, evs[i].tick.minute)| <= MAX_TRIGGERS
    ensures TallyOf(evs, day, k, |evs|).fires <= 1 <==>
              !exists i, j :: 0 <= i < j < |evs| && evs[i].tick.minute == k.minute && evs[j].tick.minute == k.minute
                              && evs[j].tick.refreshed
  {
    hide IsBusyRun, TallyOf, IsShared, PlacedAt, Assembled, GoesForward, Has;
    BusyPlan(plan, evs, files, day);
    forall i | 0 <= i < |evs| && evs[i].tick.minute <= k.minute ensures PlacedAt(plan, day, evs[i].tick.minute, k) > 0 {
      DueIsPlaced(plan, day, evs[i].tick.minute, k, x);
    }
    RepeatsExactly(plan, evs, files, day, k);
  }

  lemma BusyPlan(plan: Plan, evs: seq<Event>, files: seq<Option<string>>, day: int)
    requires IsBusyRun(plan, evs, files, day)
    ensures IsLoadedPlan(plan)
  {
  }

  lemma DueIsPlaced(plan: Plan, day: int, minute: int, k: Key, x: Entry)
    requires IsLoadedPlan(plan) && Has(plan, day, k, x) && minute <= k.minute
    requires k.lead == 0 || |Assembled(plan, day, minute)| <= MAX_TRIGGERS
    ensures PlacedAt(plan, day, minute, k) > 0
  {
    hide IsLoadedPlan, Has, Assembled, Placed, Count, Where, Holders;
    PlacedCount(plan, day, minute, k);
    AssembledLater(plan, day, minute);
    CountFrom(Assembled(plan, day, 0), minute - CATCHUP_MAX_MIN, k);
    AssembledCount(plan, day, k);
    assert x in Holders(plan, day, k);
  }
}
