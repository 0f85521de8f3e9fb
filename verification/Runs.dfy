/** Whole runs: cycles one after another on one cache file, mixed with deletions of
    the file by other processes. */
module Runs {
  import opened Basics
  import opened Numbers
  import opened TriggerCache
  import opened Picking
  import opened Schedule
  import opened Assembly
  import opened Calendar
  import opened Cycle
  import CacheFile

  /** One event, with the triggers a cycle worked on. */
  datatype Event = Cycled(tick: Tick, triggers: seq<Trigger>) | Deleted

  ghost predicate Follows(plan: Plan, file: Option<string>, e: Event, file': Option<string>) {
    match e
    case Deleted => file' == None
    case Cycled(c, ts) => IsTick(c) && Opens(plan, file, c, ts) && file' == Closed(file, c, ts)
  }

  /** `files[i]` is the cache file before event `i`. */
  ghost predicate IsRun(plan: Plan, evs: seq<Event>, files: seq<Option<string>>) {
    |files| == |evs| + 1 && forall i | 0 <= i < |evs| :: Follows(plan, files[i], evs[i], files[i + 1])
  }

  // ---- The file a cycle writes ----

  /** Triggers that a cycle may have written. */
  predicate IsSound(ts: seq<Trigger>) {
    AllGood(ts) && |ts| <= MAX_TRIGGERS && IsCovered(ts)
  }

  predicate SameKeys(a: seq<Trigger>, b: seq<Trigger>) {
    |a| == |b| && forall i | 0 <= i < |a| :: KeyOf(a[i]) == KeyOf(b[i])
  }

  lemma {:induction false} SameKeysSameCount(a: seq<Trigger>, b: seq<Trigger>, k: Key)
    requires SameKeys(a, b)
    ensures Count(a, k) == Count(b, k)
  {
    if a != [] {
      assert KeyOf(a[0]) == KeyOf(b[0]);
      forall i | 0 <= i < |a| - 1 ensures KeyOf(a[1..][i]) == KeyOf(b[1..][i]) {
        assert a[1..][i] == a[i + 1] && b[1..][i] == b[i + 1];
      }
      SameKeysSameCount(a[1..], b[1..], k);
    }
  }

  lemma SameKeysSameCover(a: seq<Trigger>, b: seq<Trigger>)
    requires SameKeys(a, b) && IsCovered(a)
    ensures IsCovered(b)
  {
    forall e | e in b && e.minutesBefore > 0 && e.minute + e.minutesBefore < MINUTES_PER_DAY
      ensures exists x | x in b :: IsAdhanOf(x, e)
    {
      var i :| 0 <= i < |b| && b[i] == e;
      assert KeyOf(a[i]) == KeyOf(b[i]) && a[i] in a;
      var x :| x in a && IsAdhanOf(x, a[i]);
      var j :| 0 <= j < |a| && a[j] == x;
      assert KeyOf(a[j]) == KeyOf(b[j]) && IsAdhanOf(b[j], e);
    }
  }

  lemma ReloadedIsGood(t: Trigger)
    requires IsGood(t)
    ensures KeyOf(CacheFile.Reloaded(t)) == KeyOf(t) && IsGood(CacheFile.Reloaded(t))
  {
    hide IsDouble;
    RoundedIsDouble(t.prayerTime, 4);
  }

  lemma DateIsClean(day: int)
    requires IsCalendarDay(day)
    ensures '\0' !in DateText(day)
  {
  }

  /** A file a cycle wrote is never rejected: it loads with its date, and with the
      same announcements. */
  lemma WrittenFileLoads(day: int, ts: seq<Trigger>)
    requires IsCalendarDay(day) && IsSound(ts)
    ensures var d := CacheFile.Load(Some(FileOf(day, ts)));
            d.Some? && d.value.date == DateText(day) && SameKeys(d.value.triggers, ts) && IsSound(d.value.triggers)
  {
    hide CacheFile.Load, CacheFile.SaveText, IsCalendarDay, IsCovered, CacheFile.Reloaded, DateText;
    var d := Day(DateText(day), ts);
    DateIsClean(day);
    CacheFile.FileRoundTrip(d);
    CacheFile.ReloadAllExactly(ts);
    var r := CacheFile.ReloadAll(ts).value;
    forall i | 0 <= i < |ts| ensures IsGood(r[i]) && KeyOf(r[i]) == KeyOf(ts[i]) {
      ReloadedIsGood(ts[i]);
    }
    SameKeysSameCover(ts, r);
  }

  /** The file is gone or was written by a cycle. */
  ghost predicate IsOurs(file: Option<string>) {
    file == None || exists day, ts :: IsCalendarDay(day) && IsSound(ts) && file == Some(FileOf(day, ts))
  }

  lemma SelectionIsSound(ts: seq<Trigger>, test: Test)
    requires IsSound(ts) && (test.From? || (test.Acts? && test.action == Keep))
    ensures IsSound(Where(ts, test))
  {
    hide Where, IsGood, IsCovered;
    CoveredFrom(ts, test);
    var w := Where(ts, test);
    forall k | 0 <= k < |w| ensures IsGood(w[k]) {
      WhereIn(ts, test, w[k]);
      assert w[k] in ts;
    }
  }

  lemma FreshIsSound(plan: Plan, file: Option<string>, c: Tick, ts: seq<Trigger>)
    requires IsLoadedPlan(plan) && IsTick(c) && Opens(plan, file, c, ts) && !Reuses(file, c)
    ensures IsSound(ts)
  {
    hide IsLoadedPlan, Where, IsGood, IsCovered, IsBuild;
    if c.refreshed {
      var built :| IsBuild(plan, c.day, c.minute, built) && ts == Where(built, From(c.minute));
      BuildIsGood(plan, c.day, c.minute, built);
      BuildIsCovered(plan, c.day, c.minute, built);
      SelectionIsSound(built, From(c.minute));
    } else {
      BuildIsGood(plan, c.day, c.minute, ts);
      BuildIsCovered(plan, c.day, c.minute, ts);
    }
  }

  lemma OursOf(day: int, ts: seq<Trigger>)
    requires IsCalendarDay(day) && IsSound(ts)
    ensures IsOurs(Some(FileOf(day, ts)))
  {
    hide IsSound, FileOf, IsCalendarDay;
  }

  lemma ClosedIs(file: Option<string>, c: Tick, ts: seq<Trigger>)
    requires IsTick(c)
    ensures Closed(file, c, ts) in {None, file, Some(FileOf(c.day, ts)), Some(FileOf(c.day, Residue(c, ts)))}
  {
    hide FileOf, IsCalendarDay, Residue;
  }

  lemma ReusedIsSound(file: Option<string>, day: int)
    requires IsOurs(file) && IsCalendarDay(day) && IsToday(file, day)
    ensures IsSound(CacheFile.Load(file).value.triggers)
  {
    hide IsSound, FileOf, IsCalendarDay, CacheFile.Load, DateText;
    MissingIsNotToday(day);
    var d, r :| IsCalendarDay(d) && IsSound(r) && file == Some(FileOf(d, r));
    WrittenFileLoads(d, r);
  }

  /** Whatever a cycle works on is sound, and so is the file it leaves. */
  lemma CycleIsSound(plan: Plan, file: Option<string>, c: Tick, ts: seq<Trigger>)
    requires IsLoadedPlan(plan) && IsOurs(file) && IsTick(c) && Opens(plan, file, c, ts)
    ensures IsSound(ts) && IsOurs(Closed(file, c, ts))
  {
    hide IsLoadedPlan, IsSound, FileOf, IsCalendarDay, CacheFile.Load, DateText, Where, IsOurs, Closed, IsToday;
    if Reuses(file, c) {
      ReusedIsSound(file, c.day);
    } else {
      FreshIsSound(plan, file, c, ts);
    }
    SelectionIsSound(ts, Acts(Keep, c.minute));
    ClosedIs(file, c, ts);
    OursOf(c.day, ts);
    OursOf(c.day, Residue(c, ts));
    NothingIsOurs();
  }

  /** Over every run from an empty cache, saves failing or not: each cycle works on
      triggers in which no reminder lacks its adhan, and each file left behind is
      one the next cycle can load. */
  lemma {:induction false} EveryRunIsSound(plan: Plan, evs: seq<Event>, files: seq<Option<string>>, n: nat)
    requires IsRun(plan, evs, files) && IsLoadedPlan(plan) && files[0] == None && n <= |evs|
    ensures IsOurs(files[n])
    ensures forall i | 0 <= i < n && evs[i].Cycled? :: IsSound(evs[i].triggers)
  {
    hide IsLoadedPlan, IsSound, IsOurs, Opens, Closed;
    if n == 0 {
      NothingIsOurs();
    } else {
      EveryRunIsSound(plan, evs, files, n - 1);
      assert Follows(plan, files[n - 1], evs[n - 1], files[n]);
      if evs[n - 1].Cycled? {
        CycleIsSound(plan, files[n - 1], evs[n - 1].tick, evs[n - 1].triggers);
      } else {
        NothingIsOurs();
      }
    }
  }

  lemma NothingIsOurs()
    ensures IsOurs(None)
  {
  }

  /** In every cycle of every run: a reminder dropped inside the catch-up window
      because its prayer has passed goes with the announcement of that prayer. */
  lemma DroppedRemindersAreNotMissed(plan: Plan, evs: seq<Event>, files: seq<Option<string>>, i: nat, e: Trigger)
    requires IsRun(plan, evs, files) && IsLoadedPlan(plan) && files[0] == None
    requires i < |evs| && evs[i].Cycled? && e in evs[i].triggers
    requires CatchUp(e.minute, e.minutesBefore, evs[i].tick.minute) == Drop
    requires evs[i].tick.minute - e.minute <= CATCHUP_MAX_MIN
    ensures exists a | a in Where(evs[i].triggers, Acts(Fire, evs[i].tick.minute)) :: IsAdhanOf(a, e)
  {
    hide IsLoadedPlan, Opens, Closed, Where;
    EveryRunIsSound(plan, evs, files, |evs|);
    assert Follows(plan, files[i], evs[i], files[i + 1]);
    DroppedReminderHasItsAdhan(evs[i].triggers, evs[i].tick.minute, e);
  }

  // ---- Counting over a run ----

  /** The counts for one day and one announcement: the day of the last cycle, how
      often it went out, and how often the file was deleted after the day's first
      cycle had begun. */
  datatype Tally = Tally(last: Option<int>, fires: nat, deletions: nat)

  function Advance(t: Tally, e: Event, day: int, k: Key): Tally {
    match e
    case Deleted => if t.last == Some(day) then t.(deletions := t.deletions + 1) else t
    case Cycled(c, ts) =>
      if c.day != day then t.(last := Some(c.day))
      else Tally(Some(day), t.fires + Count(Announced(c, ts), k), t.deletions + (if c.deleted then 1 else 0))
  }

  function TallyOf(evs: seq<Event>, day: int, k: Key, n: nat): Tally
    requires n <= |evs|
  {
    if n == 0 then Tally(None, 0, 0) else Advance(TallyOf(evs, day, k, n - 1), evs[n - 1], day, k)
  }

  /** A cycle of `day` that reports a failed save. */
  predicate IsFailedSave(file: Option<string>, e: Event, day: int) {
    && e.Cycled? && IsTick(e.tick) && e.tick.day == day
    && !InitFails(e.tick, e.triggers) && SaveFails(file, e.tick, e.triggers)
  }

  function FailedSaves(evs: seq<Event>, files: seq<Option<string>>, day: int, n: nat): nat
    requires n <= |evs| < |files|
  {
    if n == 0 then 0
    else FailedSaves(evs, files, day, n - 1) + if IsFailedSave(files[n - 1], evs[n - 1], day) then 1 else 0
  }

  predicate AllSaved(evs: seq<Event>) {
    forall i | 0 <= i < |evs| && evs[i].Cycled? :: evs[i].tick.buildSaved && evs[i].tick.residueSaved
  }

  /** A refresh on `day` in a minute up to that of an announcement which has gone
      out before: the rebuilt day holds it once more. */
  predicate IsRepeat(t: Tally, e: Event, day: int, k: Key) {
    e.Cycled? && e.tick.day == day && e.tick.refreshed && e.tick.minute <= k.minute && t.fires > 0
  }

  function Repeats(evs: seq<Event>, day: int, k: Key, n: nat): nat
    requires n <= |evs|
  {
    if n == 0 then 0
    else Repeats(evs, day, k, n - 1) + if IsRepeat(TallyOf(evs, day, k, n - 1), evs[n - 1], day, k) then 1 else 0
  }

  /** Dates never go back. Within a day the clock may do what it likes. */
  predicate InOrder(evs: seq<Event>) {
    forall i, j | 0 <= i < j < |evs| && evs[i].Cycled? && evs[j].Cycled? :: evs[i].tick.day <= evs[j].tick.day
  }

  lemma {:induction false} TallyInOrder(evs: seq<Event>, day: int, k: Key, n: nat, j: nat)
    requires InOrder(evs) && n <= j < |evs| && evs[j].Cycled?
    ensures var t := TallyOf(evs, day, k, n); t.last.Some? ==> t.last.value <= evs[j].tick.day
  {
    hide Announced, Count;
    if n > 0 {
      TallyInOrder(evs, day, k, n - 1, j);
      if evs[n - 1].Cycled? {
        assert evs[n - 1].tick.day <= evs[j].tick.day;
      }
    }
  }

  lemma CountSplits(ts: seq<Trigger>, now: int, k: Key)
    ensures Count(Where(ts, Acts(Keep, now)), k) + Count(Where(ts, Acts(Fire, now)), k) <= Count(ts, k)
    ensures k.minute > now ==> Count(Where(ts, Acts(Fire, now)), k) == 0
  {
    CountWhere(ts, Acts(Keep, now), k);
    CountWhere(ts, Acts(Fire, now), k);
  }

  lemma CountFrom(ts: seq<Trigger>, start: int, k: Key)
    ensures Count(Where(ts, From(start)), k) == if k.minute >= start then Count(ts, k) else 0
  {
    CountWhere(ts, From(start), k);
  }

  lemma SelectionLength(ts: seq<Trigger>, now: int)
    ensures |Where(ts, Acts(Keep, now))| + |Where(ts, Acts(Fire, now))| <= |ts|
    ensures |Where(ts, Acts(Keep, now))| == |ts| ==> Where(ts, Acts(Keep, now)) == ts
  {
    if ts != [] {
      SelectionLength(ts[1..], now);
    }
  }

  /** What is still in the file for the day. */
  ghost predicate Holding(file: Option<string>, day: int, rest: seq<Trigger>)
    requires IsCalendarDay(day)
  {
    IsSound(rest) && file == Some(FileOf(day, rest))
  }

  /** The invariant of the counts: what went out plus what is still in the file is
      within one day's worth, and one more for every deletion and for `extra`, every
      failed save and every refresh that repeats. */
  ghost predicate Within(plan: Plan, file: Option<string>, day: int, k: Key, t: Tally, extra: nat)
    requires IsCalendarDay(day)
  {
    var whole := Count(Assembled(plan, day, 0), k);
    match t.last
       case None => t.fires == 0 && t.deletions == 0 && !IsToday(file, day)
       case Some(last) =>
         if last < day then t.fires == 0 && t.deletions == 0 && !IsToday(file, day)
         else if last > day then t.fires <= (1 + t.deletions + extra) * whole
         else IsAccounted(file, day, k, t.fires, t.deletions + extra, whole)
  }

  /** `fires` announcements and those still in the file, against the allowance. */
  ghost predicate IsAccounted(file: Option<string>, day: int, k: Key, fires: nat, spare: nat, whole: nat)
    requires IsCalendarDay(day)
  {
    || (!IsToday(file, day) && fires <= spare * whole)
    || exists rest :: Holding(file, day, rest) && Count(rest, k) <= whole && fires + Count(rest, k) <= (1 + spare) * whole
  }

  /** A file written for one day is not another day's. */
  lemma WrittenForOneDay(file: Option<string>, c: int, day: int, ts: seq<Trigger>)
    requires IsCalendarDay(c) && IsCalendarDay(day) && IsSound(ts) && file == Some(FileOf(c, ts))
    ensures IsToday(file, day) <==> c == day
  {
    hide IsSound, FileOf, IsCalendarDay, CacheFile.Load, DateText;
    WrittenFileLoads(c, ts);
    if DateText(c) == DateText(day) {
      DateTextIsInjective(c, day);
    }
  }

  lemma NoneCounted(k: Key)
    ensures Count([], k) == 0
  {
  }

  lemma OpenedIsThere(file: Option<string>, c: Tick, ts: seq<Trigger>)
    requires IsTick(c) && (Reuses(file, c) || c.buildSaved)
    ensures Opened(file, c, ts).Some?
  {
    hide FileOf, IsToday;
    MissingIsNotToday(c.day);
  }

  lemma OpenedHolds(plan: Plan, file: Option<string>, c: Tick, ts: seq<Trigger>) returns (rest: seq<Trigger>)
    requires IsOurs(file) && IsTick(c) && Opens(plan, file, c, ts) && IsSound(ts)
    requires Reuses(file, c) || c.buildSaved
    ensures Holding(Opened(file, c, ts), c.day, rest) && SameKeys(ts, rest)
  {
    hide IsSound, FileOf, IsCalendarDay, CacheFile.Load, DateText, Where, IsBuild;
    if Reuses(file, c) {
      MissingIsNotToday(c.day);
      var day, r :| IsCalendarDay(day) && IsSound(r) && file == Some(FileOf(day, r));
      WrittenForOneDay(file, day, c.day, r);
      WrittenFileLoads(day, r);
      rest := r;
    } else {
      rest := ts;
    }
  }

  /** A cycle that returns OK leaves the file gone, when another process deleted it,
      or holding exactly what is still ahead. */
  lemma LeavesResidue(plan: Plan, file: Option<string>, c: Tick, ts: seq<Trigger>) returns (rest: seq<Trigger>)
    requires IsLoadedPlan(plan) && IsOurs(file) && IsTick(c) && Opens(plan, file, c, ts)
    requires !InitFails(c, ts) && !SaveFails(file, c, ts)
    ensures c.deleted ==> Closed(file, c, ts) == None
    ensures !c.deleted ==> Holding(Closed(file, c, ts), c.day, rest) && SameKeys(Residue(c, ts), rest)
  {
    hide IsLoadedPlan, IsSound, FileOf, IsCalendarDay, CacheFile.Load, DateText, Where, IsOurs, Opens, Reuses;
    CycleIsSound(plan, file, c, ts);
    SelectionIsSound(ts, Acts(Keep, c.minute));
    SelectionLength(ts, c.minute);
    if !c.deleted {
      SavedOrReused(file, c, ts);
      if Reuses(file, c) || c.buildSaved {
        OpenedIsThere(file, c, ts);
      }
    }
    rest := [];
    if |Residue(c, ts)| < |ts| {
      rest := Residue(c, ts);
    } else if !c.deleted {
      rest := OpenedHolds(plan, file, c, ts);
    }
  }

  lemma SavedOrReused(file: Option<string>, c: Tick, ts: seq<Trigger>)
    requires IsTick(c) && !c.deleted && !SaveFails(file, c, ts)
    ensures Reuses(file, c) || c.buildSaved || (|Residue(c, ts)| < |ts| && Opened(file, c, ts).Some? && c.residueSaved)
  {
    hide Residue, Opened, Reuses;
  }

  /** A cycle that does not return OK leaves the file gone, or as it was, or
      holding all it worked on. */
  lemma LeavesTheRest(file: Option<string>, c: Tick, ts: seq<Trigger>)
    requires IsTick(c) && (InitFails(c, ts) || SaveFails(file, c, ts))
    ensures Closed(file, c, ts) in {None, file, Some(FileOf(c.day, ts))}
    ensures InitFails(c, ts) && Closed(file, c, ts) == None ==> c.deleted || file == None
    ensures InitFails(c, ts) ==> Announced(c, ts) == []
  {
    hide FileOf, IsCalendarDay, Residue, Where, Reuses;
  }

  /** What a cycle announces and what it leaves in the file are together no more
      than what it worked on. */
  lemma NothingIsMadeUp(plan: Plan, file: Option<string>, c: Tick, ts: seq<Trigger>, k: Key)
    requires IsLoadedPlan(plan) && IsOurs(file) && IsTick(c) && Opens(plan, file, c, ts)
    requires !InitFails(c, ts) && !SaveFails(file, c, ts) && !c.deleted
    ensures exists rest :: Holding(Closed(file, c, ts), c.day, rest)
                           && Count(Announced(c, ts), k) + Count(rest, k) <= Count(ts, k)
  {
    hide IsLoadedPlan, IsSound, FileOf, IsCalendarDay, CacheFile.Load, DateText, Where, IsOurs, Opens, Count, Closed, Holding;
    CountSplits(ts, c.minute, k);
    NoneCounted(k);
    var rest := LeavesResidue(plan, file, c, ts);
    SameKeysSameCount(Residue(c, ts), rest, k);
  }

  /** What a cycle works on is within a day's worth, and within the bound together
      with what went out before. */
  lemma OpensWithin(plan: Plan, file: Option<string>, c: Tick, ts: seq<Trigger>, k: Key, t: Tally, extra: nat)
    requires IsLoadedPlan(plan) && IsOurs(file) && IsTick(c) && Opens(plan, file, c, ts)
    requires Within(plan, file, c.day, k, t, extra)
    requires t.last.Some? ==> t.last.value <= c.day
    ensures var whole := Count(Assembled(plan, c.day, 0), k);
            var again := if IsRepeat(t, Cycled(c, ts), c.day, k) then 1 else 0;
            Count(ts, k) <= whole && t.fires + Count(ts, k) <= (1 + t.deletions + extra + again) * whole
  {
    hide IsLoadedPlan, IsSound, FileOf, IsCalendarDay, CacheFile.Load, DateText, Where, IsBuild, Count, Assembled, IsAccounted;
    var whole := Count(Assembled(plan, c.day, 0), k);
    AccountedBefore(plan, file, c.day, k, t, extra);
    AccountedIsBounded(file, c.day, k, t.fires, t.deletions + extra, whole);
    TimesNext(t.deletions + extra, whole);
    TimesNext(1 + t.deletions + extra, whole);
    if Reuses(file, c) {
      var rest := AccountedAndHeld(file, c.day, k, t.fires, t.deletions + extra, whole);
      WrittenFileLoads(c.day, rest);
      SameKeysSameCount(ts, rest, k);
    } else if c.refreshed {
      var built :| IsBuild(plan, c.day, c.minute, built) && ts == Where(built, From(c.minute));
      BuiltWithinDay(plan, c.day, c.minute, built, k);
      CountFrom(built, c.minute, k);
    } else {
      BuiltWithinDay(plan, c.day, c.minute, ts, k);
      AccountedAndNotToday(file, c.day, k, t.fires, t.deletions + extra, whole);
    }
  }

  lemma AccountedAndHeld(file: Option<string>, day: int, k: Key, fires: nat, spare: nat, whole: nat) returns (rest: seq<Trigger>)
    requires IsCalendarDay(day) && IsAccounted(file, day, k, fires, spare, whole) && IsToday(file, day)
    ensures Holding(file, day, rest) && Count(rest, k) <= whole && fires + Count(rest, k) <= (1 + spare) * whole
  {
    hide IsCalendarDay, IsToday, Count, Holding;
    rest :| Holding(file, day, rest) && Count(rest, k) <= whole && fires + Count(rest, k) <= (1 + spare) * whole;
  }

  lemma AccountedAndNotToday(file: Option<string>, day: int, k: Key, fires: nat, spare: nat, whole: nat)
    requires IsCalendarDay(day) && IsAccounted(file, day, k, fires, spare, whole) && !IsToday(file, day)
    ensures fires <= spare * whole
  {
    hide IsCalendarDay, IsToday, Count, IsSound, FileOf;
    if rest :| Holding(file, day, rest) && Count(rest, k) <= whole && fires + Count(rest, k) <= (1 + spare) * whole {
      WrittenForOneDay(file, day, day, rest);
    }
  }

  /** Before a cycle of the day the counts are accounted for. */
  lemma AccountedBefore(plan: Plan, file: Option<string>, day: int, k: Key, t: Tally, extra: nat)
    requires IsCalendarDay(day) && Within(plan, file, day, k, t, extra)
    requires t.last.Some? ==> t.last.value <= day
    ensures IsAccounted(file, day, k, t.fires, t.deletions + extra, Count(Assembled(plan, day, 0), k))
  {
    hide IsCalendarDay, IsToday, Count, Assembled, Holding;
  }

  /** More allowance and as many more announcements. */
  lemma AccountedStill(file: Option<string>, day: int, k: Key, fires: nat, spare: nat, whole: nat, more: nat, gone: nat)
    requires IsCalendarDay(day) && IsAccounted(file, day, k, fires, spare, whole) && more <= gone * whole
    ensures IsAccounted(file, day, k, fires + more, spare + gone, whole)
  {
    hide IsCalendarDay, IsToday, Count, Holding;
    assert (spare + gone) * whole == spare * whole + gone * whole;
    assert (1 + spare + gone) * whole == (1 + spare) * whole + gone * whole;
    if exists rest :: Holding(file, day, rest) && Count(rest, k) <= whole && fires + Count(rest, k) <= (1 + spare) * whole {
      var rest :| Holding(file, day, rest) && Count(rest, k) <= whole && fires + Count(rest, k) <= (1 + spare) * whole;
      assert fires + more + Count(rest, k) <= (1 + spare + gone) * whole;
    }
  }

  /** A cycle of the day that returned OK keeps the counts accounted for. */
  lemma AccountedAfterOk(plan: Plan, file: Option<string>, c: Tick, ts: seq<Trigger>, k: Key, fires: nat, spare: nat, whole: nat)
    requires IsLoadedPlan(plan) && IsOurs(file) && IsTick(c) && Opens(plan, file, c, ts)
    requires !InitFails(c, ts) && !SaveFails(file, c, ts)
    requires Count(ts, k) <= whole && fires + Count(ts, k) <= (1 + spare) * whole
    ensures IsAccounted(Closed(file, c, ts), c.day, k, fires + Count(Announced(c, ts), k),
                        spare + (if c.deleted then 1 else 0), whole)
  {
    hide IsLoadedPlan, IsSound, FileOf, IsCalendarDay, IsToday, Where, Opens, Count, IsOurs, Holding, InitFails, SaveFails, Closed;
    CountSplits(ts, c.minute, k);
    NoneCounted(k);
    if c.deleted {
      var _ := LeavesResidue(plan, file, c, ts);
      MissingIsNotToday(c.day);
    } else {
      NothingIsMadeUp(plan, file, c, ts, k);
    }
  }

  /** So does one that did not, with one more allowed when it reports a failed
      save. */
  lemma AccountedAfterFailure(plan: Plan, file: Option<string>, c: Tick, ts: seq<Trigger>, k: Key, fires: nat, spare: nat, whole: nat)
    requires IsLoadedPlan(plan) && IsOurs(file) && IsTick(c) && Opens(plan, file, c, ts)
    requires InitFails(c, ts) || SaveFails(file, c, ts)
    requires IsAccounted(file, c.day, k, fires, spare, whole)
    requires Count(ts, k) <= whole && fires + Count(ts, k) <= (1 + spare) * whole
    ensures IsAccounted(Closed(file, c, ts), c.day, k, fires + Count(Announced(c, ts), k),
                        spare + (if c.deleted then 1 else 0) + (if InitFails(c, ts) then 0 else 1), whole)
  {
    hide IsLoadedPlan, IsSound, FileOf, IsCalendarDay, IsToday, Where, Opens, Count, IsOurs, InitFails, SaveFails, Closed, IsAccounted;
    var after, gone := Closed(file, c, ts), (if c.deleted then 1 else 0) + (if InitFails(c, ts) then 0 else 1);
    CountSplits(ts, c.minute, k);
    NoneCounted(k);
    LeavesTheRest(file, c, ts);
    var more := Count(Announced(c, ts), k);
    Allowance(more, gone, whole);
    if after == file {
      AccountedStill(file, c.day, k, fires, spare, whole, more, gone);
    } else if after == None {
      MissingIsNotToday(c.day);
      GoneIsAccounted(c.day, k, fires + more, spare + gone, whole, spare);
    } else {
      CycleIsSound(plan, file, c, ts);
      HeldIsAccounted(after, c.day, ts, k, fires, spare, whole);
      AccountedStill(after, c.day, k, fires, spare, whole, more, gone);
    }
  }

  lemma Allowance(more: nat, gone: nat, whole: nat)
    requires more <= whole && (gone == 0 ==> more == 0)
    ensures more <= gone * whole
  {
    if gone > 0 {
      TimesNext(gone - 1, whole);
    }
  }

  lemma GoneIsAccounted(day: int, k: Key, fires: nat, spare: nat, whole: nat, before: nat)
    requires IsCalendarDay(day) && !IsToday(None, day) && spare >= before + 1 && fires <= (1 + before) * whole
    ensures IsAccounted(None, day, k, fires, spare, whole)
  {
    hide IsToday, Holding, Count, IsCalendarDay;
    TimesMonotone(1 + before, spare, whole);
  }

  lemma HeldIsAccounted(file: Option<string>, day: int, ts: seq<Trigger>, k: Key, fires: nat, spare: nat, whole: nat)
    requires IsCalendarDay(day) && IsSound(ts) && file == Some(FileOf(day, ts))
    requires Count(ts, k) <= whole && fires + Count(ts, k) <= (1 + spare) * whole
    ensures IsAccounted(file, day, k, fires, spare, whole)
  {
    hide IsToday, Count, IsCalendarDay, IsSound, FileOf;
    assert Holding(file, day, ts);
  }

  /** A cycle of the day keeps the bound. */
  lemma WithinSameDay(plan: Plan, file: Option<string>, c: Tick, ts: seq<Trigger>, k: Key, t: Tally, extra: nat)
    requires IsLoadedPlan(plan) && IsOurs(file) && IsTick(c) && Opens(plan, file, c, ts)
    requires Within(plan, file, c.day, k, t, extra)
    requires t.last.Some? ==> t.last.value <= c.day
    ensures var e := Cycled(c, ts);
            Within(plan, Closed(file, c, ts), c.day, k, Advance(t, e, c.day, k),
                   extra + (if IsRepeat(t, e, c.day, k) then 1 else 0) + (if IsFailedSave(file, e, c.day) then 1 else 0))
  {
    hide IsLoadedPlan, FileOf, IsCalendarDay, IsToday, Where, Opens, Count, Assembled, IsOurs, InitFails, SaveFails, Closed, IsAccounted;
    var whole := Count(Assembled(plan, c.day, 0), k);
    OpensWithin(plan, file, c, ts, k, t, extra);
    AccountedBefore(plan, file, c.day, k, t, extra);
    CountSplits(ts, c.minute, k);
    NoneCounted(k);
    var again := if IsRepeat(t, Cycled(c, ts), c.day, k) then 1 else 0;
    var spare := t.deletions + extra + again;
    Allowance(0, again, whole);
    AccountedStill(file, c.day, k, t.fires, t.deletions + extra, whole, 0, again);
    if InitFails(c, ts) || SaveFails(file, c, ts) {
      AccountedAfterFailure(plan, file, c, ts, k, t.fires, spare, whole);
    } else {
      AccountedAfterOk(plan, file, c, ts, k, t.fires, spare, whole);
    }
  }

  lemma AccountedIsBounded(file: Option<string>, day: int, k: Key, fires: nat, spare: nat, whole: nat)
    requires IsCalendarDay(day) && IsAccounted(file, day, k, fires, spare, whole)
    ensures fires <= (1 + spare) * whole
  {
    hide IsToday, Count, IsCalendarDay, Holding;
    TimesNext(spare, whole);
  }

  /** A cycle of another day keeps the bound. */
  lemma WithinOtherDay(plan: Plan, file: Option<string>, c: Tick, ts: seq<Trigger>, day: int, k: Key, t: Tally, extra: nat)
    requires IsLoadedPlan(plan) && IsOurs(file) && IsTick(c) && Opens(plan, file, c, ts)
    requires IsCalendarDay(day) && c.day != day && Within(plan, file, day, k, t, extra)
    requires t.last.Some? ==> t.last.value <= c.day
    ensures Within(plan, Closed(file, c, ts), day, k, Advance(t, Cycled(c, ts), day, k), extra)
  {
    hide IsLoadedPlan, IsCalendarDay, IsToday, Count, Assembled, IsOurs, Closed, Opens, IsAccounted;
    if t.last == None || t.last.value < day {
      StaysAnotherDay(plan, file, c, ts, day);
    }
    if t.last == Some(day) {
      AccountedIsBounded(file, day, k, t.fires, t.deletions + extra, Count(Assembled(plan, day, 0), k));
    }
  }

  /** A cycle never makes the file that of another day. */
  lemma StaysAnotherDay(plan: Plan, file: Option<string>, c: Tick, ts: seq<Trigger>, day: int)
    requires IsLoadedPlan(plan) && IsOurs(file) && IsTick(c) && Opens(plan, file, c, ts)
    requires IsCalendarDay(day) && c.day != day && !IsToday(file, day)
    ensures !IsToday(Closed(file, c, ts), day)
  {
    hide IsLoadedPlan, IsSound, FileOf, IsCalendarDay, CacheFile.Load, DateText, Where, Opens, IsOurs, Closed, Residue;
    CycleIsSound(plan, file, c, ts);
    SelectionIsSound(ts, Acts(Keep, c.minute));
    ResidueIs(c, ts);
    ClosedIs(file, c, ts);
    WrittenForOneDay(Some(FileOf(c.day, ts)), c.day, day, ts);
    WrittenForOneDay(Some(FileOf(c.day, Residue(c, ts))), c.day, day, Residue(c, ts));
    MissingIsNotToday(day);
  }

  lemma ResidueIs(c: Tick, ts: seq<Trigger>)
    ensures Residue(c, ts) == Where(ts, Acts(Keep, c.minute))
  {
  }

  lemma MissingIsNotToday(day: int)
    requires IsCalendarDay(day)
    ensures !IsToday(None, day)
  {
  }

  /** A deletion keeps the bound. */
  lemma WithinDeletion(plan: Plan, file: Option<string>, day: int, k: Key, t: Tally, extra: nat)
    requires IsCalendarDay(day) && Within(plan, file, day, k, t, extra)
    ensures Within(plan, None, day, k, Advance(t, Deleted, day, k), extra)
  {
    hide IsToday, Count, Assembled, IsCalendarDay, IsAccounted;
    var whole := Count(Assembled(plan, day, 0), k);
    MissingIsNotToday(day);
    if t.last == Some(day) {
      AccountedIsBounded(file, day, k, t.fires, t.deletions + extra, whole);
      GoneIsAccounted(day, k, t.fires, t.deletions + 1 + extra, whole, t.deletions + extra);
    }
  }

  lemma {:induction false} RunIsWithin(plan: Plan, evs: seq<Event>, files: seq<Option<string>>, day: int, k: Key, n: nat)
    requires IsRun(plan, evs, files) && IsLoadedPlan(plan) && InOrder(evs)
    requires IsOurs(files[0]) && IsCalendarDay(day) && !IsToday(files[0], day) && n <= |evs|
    ensures IsOurs(files[n]) && Within(plan, files[n], day, k, TallyOf(evs, day, k, n),
                                       FailedSaves(evs, files, day, n) + Repeats(evs, day, k, n))
  {
    hide IsCalendarDay, IsLoadedPlan, IsOurs, Within, Opens, Closed, IsToday, Announced, InitFails, SaveFails;
    if n == 0 {
      StartsWithin(plan, files[0], day, k);
    } else {
      RunIsWithin(plan, evs, files, day, k, n - 1);
      assert Follows(plan, files[n - 1], evs[n - 1], files[n]);
      var t, extra := TallyOf(evs, day, k, n - 1), FailedSaves(evs, files, day, n - 1) + Repeats(evs, day, k, n - 1);
      match evs[n - 1]
      case Deleted =>
        NothingIsOurs();
        WithinDeletion(plan, files[n - 1], day, k, t, extra);
      case Cycled(c, ts) =>
        TallyInOrder(evs, day, k, n - 1, n - 1);
        CycleIsSound(plan, files[n - 1], c, ts);
        if c.day == day {
          WithinSameDay(plan, files[n - 1], c, ts, k, t, extra);
        } else {
          WithinOtherDay(plan, files[n - 1], c, ts, day, k, t, extra);
        }
    }
  }

  lemma StartsWithin(plan: Plan, file: Option<string>, day: int, k: Key)
    requires IsCalendarDay(day) && !IsToday(file, day)
    ensures Within(plan, file, day, k, Tally(None, 0, 0), 0)
  {
  }

  /** Nothing is announced twice. Over every run with fixed times, an announcement
      goes out on a day at most as often as the day's assembly holds it, and as
      often again for every deletion of the file after the day's first cycle, for
      every cycle of the day that reports a failed save, and for every refresh, once
      it has gone out, in a minute up to its own. Other refreshes and failed starts
      of the notifier add nothing. */
  lemma NothingIsAnnouncedTwice(plan: Plan, evs: seq<Event>, files: seq<Option<string>>, day: int, k: Key)
    requires IsRun(plan, evs, files) && IsLoadedPlan(plan) && InOrder(evs)
    requires IsOurs(files[0]) && IsCalendarDay(day) && !IsToday(files[0], day)
    ensures var t := TallyOf(evs, day, k, |evs|);
            t.fires <= (1 + t.deletions + FailedSaves(evs, files, day, |evs|) + Repeats(evs, day, k, |evs|))
                       * Count(Assembled(plan, day, 0), k)
  {
    hide IsLoadedPlan, IsOurs, IsToday, Count, Assembled, TallyOf, FailedSaves, Repeats, IsAccounted, IsCalendarDay;
    RunIsWithin(plan, evs, files, day, k, |evs|);
    var t, extra := TallyOf(evs, day, k, |evs|), FailedSaves(evs, files, day, |evs|) + Repeats(evs, day, k, |evs|);
    var whole := Count(Assembled(plan, day, 0), k);
    TimesNext(t.deletions + extra, whole);
    if t.last == Some(day) {
      AccountedIsBounded(files[|evs|], day, k, t.fires, t.deletions + extra, whole);
    }
  }

  // ---- Runs without repeats ----

  predicate HasAnnounced(e: Event, day: int, k: Key) {
    e.Cycled? && e.tick.day == day && Count(Announced(e.tick, e.triggers), k) > 0
  }

  /** Every refresh that comes after the announcement has gone out comes after its
      minute. */
  predicate RefreshesInTime(evs: seq<Event>, day: int, k: Key) {
    forall i, j | 0 <= i < j < |evs| && HasAnnounced(evs[i], day, k)
                  && evs[j].Cycled? && evs[j].tick.day == day && evs[j].tick.refreshed :: k.minute < evs[j].tick.minute
  }

  lemma {:induction false} FiredBefore(evs: seq<Event>, day: int, k: Key, n: nat)
    requires n <= |evs| && TallyOf(evs, day, k, n).fires > 0
    ensures exists i :: 0 <= i < n && HasAnnounced(evs[i], day, k)
  {
    hide Announced, Count;
    if TallyOf(evs, day, k, n - 1).fires > 0 {
      FiredBefore(evs, day, k, n - 1);
    } else {
      assert HasAnnounced(evs[n - 1], day, k);
    }
  }

  lemma {:induction false} RefreshesInTimeRepeatNothing(evs: seq<Event>, day: int, k: Key, n: nat)
    requires n <= |evs| && RefreshesInTime(evs, day, k)
    ensures Repeats(evs, day, k, n) == 0
  {
    hide HasAnnounced, TallyOf;
    if n > 0 {
      RefreshesInTimeRepeatNothing(evs, day, k, n - 1);
      if IsRepeat(TallyOf(evs, day, k, n - 1), evs[n - 1], day, k) {
        FiredBefore(evs, day, k, n - 1);
      }
    }
  }

  /** It is enough that every refresh comes at a later minute than every earlier
      cycle of its day. */
  predicate RefreshesComeLast(evs: seq<Event>) {
    forall i, j | 0 <= i < j < |evs| && evs[i].Cycled? && evs[j].Cycled? && evs[i].tick.day == evs[j].tick.day
                  && evs[j].tick.refreshed :: evs[i].tick.minute < evs[j].tick.minute
  }

  lemma RefreshesComeInTime(evs: seq<Event>, day: int, k: Key)
    requires RefreshesComeLast(evs)
    ensures RefreshesInTime(evs, day, k)
  {
    hide Announced, Count;
    forall i, j | 0 <= i < j < |evs| && HasAnnounced(evs[i], day, k)
                  && evs[j].Cycled? && evs[j].tick.day == day && evs[j].tick.refreshed
      ensures k.minute < evs[j].tick.minute
    {
      AnnouncedInItsTime(evs[i].tick, evs[i].triggers, k);
      assert evs[i].tick.minute < evs[j].tick.minute;
    }
  }

  lemma AnnouncedInItsTime(c: Tick, ts: seq<Trigger>, k: Key)
    requires Count(Announced(c, ts), k) > 0
    ensures k.minute <= c.minute
  {
    hide Where, Count;
    NoneCounted(k);
    CountSplits(ts, c.minute, k);
  }

  /** In a run whose saves succeed no cycle reports a failed one. */
  lemma {:induction false} SavedRunFailsNothing(plan: Plan, evs: seq<Event>, files: seq<Option<string>>, day: int, n: nat)
    requires IsRun(plan, evs, files) && AllSaved(evs) && n <= |evs|
    ensures FailedSaves(evs, files, day, n) == 0
  {
    hide Opens, Closed, Residue, Reuses, Opened, InitFails;
    if n > 0 {
      SavedRunFailsNothing(plan, evs, files, day, n - 1);
    }
  }
}
