/** Calling the cycle again and again: what the calls do to the file is a run, as
    the theorems on runs take it. */
module Driver {
  import opened Basics
  import opened Settings
  import opened TriggerCache
  import opened Picking
  import opened Schedule
  import opened Calendar
  import opened Cycle
  import opened Runs

  // ---- What a plan depends on ----

  /** The same prayer sections and the same times, whatever else the settings say. */
  ghost predicate AreAlike(a: Plan, b: Plan) {
    && (forall p: Prayer :: ConfigOf(a.config, p) == ConfigOf(b.config, p))
    && (forall s: int, p: Prayer :: a.times(s, p) == b.times(s, p))
  }

  lemma SlotsAlike(a: Plan, b: Plan, day: int, now: int, k: nat)
    requires AreAlike(a, b)
    ensures SlotAdhan(a, day, now, k) == SlotAdhan(b, day, now, k)
    ensures Leads(a, PrayerOf(k)) == Leads(b, PrayerOf(k))
    ensures forall j | 0 <= j < |Leads(a, PrayerOf(k))| :: SlotReminder(a, day, now, k, j) == SlotReminder(b, day, now, k, j)
  {
    hide PrayerOf, DeltaOf, Ceil, IsDue;
    assert a.times(day + DeltaOf(k), PrayerOf(k)) == b.times(day + DeltaOf(k), PrayerOf(k));
    assert ConfigOf(a.config, PrayerOf(k)) == ConfigOf(b.config, PrayerOf(k));
  }

  lemma {:induction false} SlotRemindersAlike(a: Plan, b: Plan, day: int, now: int, k: nat, j: nat)
    requires AreAlike(a, b) && j <= |Leads(a, PrayerOf(k))|
    ensures Leads(a, PrayerOf(k)) == Leads(b, PrayerOf(k))
    ensures SlotReminders(a, day, now, k, j) == SlotReminders(b, day, now, k, j)
  {
    hide AreAlike, PrayerOf, SlotReminder, SlotAdhan, Leads;
    SlotsAlike(a, b, day, now, k);
    if j > 0 {
      SlotRemindersAlike(a, b, day, now, k, j - 1);
    }
  }

  lemma {:induction false} AssemblyAlike(a: Plan, b: Plan, day: int, now: int, n: nat)
    requires AreAlike(a, b)
    ensures Adhans(a, day, now, n) == Adhans(b, day, now, n)
    ensures Reminders(a, day, now, n) == Reminders(b, day, now, n)
  {
    hide AreAlike, PrayerOf, SlotReminders, SlotAdhan, Leads;
    if n > 0 {
      AssemblyAlike(a, b, day, now, n - 1);
      SlotsAlike(a, b, day, now, n - 1);
      SlotRemindersAlike(a, b, day, now, n - 1, |Leads(a, PrayerOf(n - 1))|);
    }
  }

  /** What a cycle may work on depends on the prayer sections and the times only, so
      settings that differ elsewhere, as after a refresh, make no difference. */
  lemma OpensAlike(a: Plan, b: Plan, file: Option<string>, c: Tick, ts: seq<Trigger>)
    requires AreAlike(a, b) && IsTick(c)
    ensures Opens(a, file, c, ts) <==> Opens(b, file, c, ts)
  {
    hide Adhans, Reminders, AreAlike, Reuses, SortedByMinute, Where;
    AssemblyAlike(a, b, c.day, c.minute, SLOTS);
    assert forall built :: IsBuild(a, c.day, c.minute, built) <==> IsBuild(b, c.day, c.minute, built);
  }

  // ---- Settings along the way ----

  /** The plan a cycle makes of settings. */
  function PlanOf(cfg: Config, timesOf: Config -> (int, Prayer) -> Option<real>): Plan {
    Plan(cfg, timesOf(cfg))
  }

  ghost predicate KeepsPlan(plan: Plan, cfg: Option<Config>, timesOf: Config -> (int, Prayer) -> Option<real>) {
    cfg.Some? ==> AreAlike(plan, PlanOf(cfg.value, timesOf))
  }

  /** What a lookup answers, as the cycle stores it. */
  function Stored(found: Option<Config>): Option<Config> {
    if found.None? then None else Some(found.value.(autoDetect := true))
  }

  ghost predicate LookupsKeepPlan(plan: Plan, w: World, timesOf: Config -> (int, Prayer) -> Option<real>) {
    KeepsPlan(plan, Stored(w.firstDetect), timesOf) && KeepsPlan(plan, Stored(w.refreshDetect), timesOf)
  }

  lemma LocatedKeepsPlan(plan: Plan, timesOf: Config -> (int, Prayer) -> Option<real>, before: Option<Config>, retryBefore: int,
                         epoch: int, w: World, err: Error, cfg: Option<Config>, report: Report,
                         after: Option<Config>, retryAfter: int)
    requires IsLocated(before, retryBefore, epoch, w, err, cfg, report, after, retryAfter)
    requires KeepsPlan(plan, before, timesOf) && LookupsKeepPlan(plan, w, timesOf)
    ensures KeepsPlan(plan, cfg, timesOf) && KeepsPlan(plan, after, timesOf)
  {
    hide AreAlike, NeedsDetect, TriesRefresh;
    if err == Ok {
      assert Some(Detected(before.value, w)) == before || Some(Detected(before.value, w)) == Stored(w.firstDetect);
    }
  }

  // ---- The calls ----

  /** A call of the cycle, or another process deleting the cache file. */
  datatype Input = Call(day: int, minute: int, epoch: int, world: World) | Delete

  ghost predicate IsInput(plan: Plan, timesOf: Config -> (int, Prayer) -> Option<real>, x: Input) {
    x.Call? ==> IsCalendarDay(x.day) && 0 <= x.minute < MINUTES_PER_DAY && LookupsKeepPlan(plan, x.world, timesOf)
  }

  /** The event an input led to. */
  predicate Matches(x: Input, e: Event) {
    match e
    case Deleted => x.Delete?
    case Cycled(c, _) =>
      x.Call? && c.day == x.day && c.minute == x.minute && c.deleted == x.world.deleted && c.initOk == x.world.initOk
      && c.buildSaved == x.world.buildSaved && c.residueSaved == x.world.residueSaved
  }

  /** The events come from inputs, in their order; a call that settled no location
      leads to none. */
  predicate ComesFrom(inputs: seq<Input>, evs: seq<Event>, at: seq<nat>, n: nat) {
    && |at| == |evs| && n <= |inputs|
    && (forall i | 0 <= i < |evs| :: at[i] < n && Matches(inputs[at[i]], evs[i]))
    && (forall i, j | 0 <= i < j < |at| :: at[i] < at[j])
  }

  /** What the notifier was told over the events, each cycle under its settings. */
  function LogOf(evs: seq<Event>, cfgs: seq<Config>, n: nat): seq<Notice>
    requires n <= |evs| && |cfgs| == |evs|
  {
    if n == 0 then []
    else LogOf(evs, cfgs, n - 1)
         + match evs[n - 1]
           case Deleted => []
           case Cycled(c, ts) => Notices(cfgs[n - 1], c.minute, Announced(c, ts))
  }

  lemma {:induction false} LogOfMore(evs: seq<Event>, cfgs: seq<Config>, e: Event, cfg: Config, n: nat)
    requires n <= |evs| && |cfgs| == |evs|
    ensures LogOf(evs + [e], cfgs + [cfg], n) == LogOf(evs, cfgs, n)
  {
    hide Announced, Notices;
    if n > 0 {
      LogOfMore(evs, cfgs, e, cfg, n - 1);
    }
  }

  lemma RunGrows(plan: Plan, evs: seq<Event>, files: seq<Option<string>>, e: Event, file: Option<string>)
    requires IsRun(plan, evs, files) && Follows(plan, files[|evs|], e, file)
    ensures IsRun(plan, evs + [e], files + [file])
  {
    hide Follows;
  }

  /** A run so far: its events and files, where they come from, and the log. */
  ghost predicate IsDriven(plan: Plan, inputs: seq<Input>, n: nat, evs: seq<Event>, files: seq<Option<string>>,
                           cfgs: seq<Config>, at: seq<nat>) {
    IsRun(plan, evs, files) && |cfgs| == |evs| && ComesFrom(inputs, evs, at, n)
  }

  lemma DrivenOn(plan: Plan, inputs: seq<Input>, n: nat, evs: seq<Event>, files: seq<Option<string>>, cfgs: seq<Config>,
                 at: seq<nat>, e: Event, file: Option<string>, cfg: Config)
    requires IsDriven(plan, inputs, n, evs, files, cfgs, at) && n < |inputs|
    requires Follows(plan, files[|evs|], e, file) && Matches(inputs[n], e)
    ensures IsDriven(plan, inputs, n + 1, evs + [e], files + [file], cfgs + [cfg], at + [n])
    ensures LogOf(evs + [e], cfgs + [cfg], |evs| + 1)
         == LogOf(evs, cfgs, |evs|)
            + match e
              case Deleted => []
              case Cycled(c, ts) => Notices(cfg, c.minute, Announced(c, ts))
  {
    hide Follows, Matches, Announced, Notices;
    RunGrows(plan, evs, files, e, file);
    LogOfMore(evs, cfgs, e, cfg, |evs|);
  }

  /** Calls the cycle once for every input, as a timer does, with other processes in
      between. As long as the lookups keep the prayer sections and the times, the
      events are a run of the plan on the file, and the log is what its cycles
      announce. */
  method Drive(service: Service, inputs: seq<Input>, timesOf: Config -> (int, Prayer) -> Option<real>, ghost plan: Plan)
    returns (ghost evs: seq<Event>, ghost files: seq<Option<string>>, ghost cfgs: seq<Config>, ghost at: seq<nat>)
    requires KeepsPlan(plan, service.config, timesOf)
    requires forall i | 0 <= i < |inputs| :: IsInput(plan, timesOf, inputs[i])
    modifies service
    ensures IsDriven(plan, inputs, |inputs|, evs, files, cfgs, at)
    ensures files[0] == old(service.file) && files[|evs|] == service.file
    ensures service.log == old(service.log) + LogOf(evs, cfgs, |evs|)
  {
    hide Opens, Closed, Announced, Notices, IsLocated, InitFails, SaveFails, LogOf, IsDriven, Follows, AreAlike, IsCalendarDay,
         LookupsKeepPlan;
    evs, files, cfgs, at := [], [service.file], [], [];
    NothingDriven(plan, inputs, service.file);
    assert service.log + [] == service.log;
    for n := 0 to |inputs|
      invariant IsDriven(plan, inputs, n, evs, files, cfgs, at) && |files| == |evs| + 1 && |cfgs| == |evs|
      invariant files[0] == old(service.file) && files[|evs|] == service.file
      invariant KeepsPlan(plan, service.config, timesOf)
      invariant service.log == old(service.log) + LogOf(evs, cfgs, |evs|)
    {
      assert IsInput(plan, timesOf, inputs[n]);
      ghost var before := service.log;
      match inputs[n] {
        case Delete =>
          service.file := None;
          DeletionFollows(plan, files[|evs|]);
          DrivenOn(plan, inputs, n, evs, files, cfgs, at, Deleted, None, BLANK_CONFIG);
          assert before + [] == before;
          evs, files, cfgs, at := evs + [Deleted], files + [None], cfgs + [BLANK_CONFIG], at + [n];
        case Call(day, minute, epoch, w) =>
          ghost var config0, retry0 := service.config, service.retryAt;
          var err, report, cfg, ts := service.RunCycle(day, minute, epoch, w, timesOf);
          LocatedKeepsPlan(plan, timesOf, config0, retry0, epoch, w, if cfg.Some? then Ok else err, cfg,
                           report.(notifications := 0), service.config, service.retryAt);
          if cfg.Some? {
            ghost var c := Tick(day, minute, report.refreshed, w.initOk, w.deleted, w.buildSaved, w.residueSaved);
            ghost var e := Cycled(c, ts);
            CycleFollows(plan, PlanOf(cfg.value, timesOf), files[|evs|], c, ts, service.file);
            DrivenOn(plan, inputs, n, evs, files, cfgs, at, e, service.file, cfg.value);
            Together(old(service.log), LogOf(evs, cfgs, |evs|), Notices(cfg.value, minute, Announced(c, ts)));
            evs, files, cfgs, at := evs + [e], files + [service.file], cfgs + [cfg.value], at + [n];
          } else {
            NothingMore(plan, inputs, n, evs, files, cfgs, at);
          }
      }
    }
  }

  const BLANK_PRAYER := PrayerConfig(false, false, [], 0, "")

  // Stands beside a deletion, which happens under no settings.
  const BLANK_CONFIG := Config(0.0, 0.0, "", 0.0, false, false, "", "", 0, 0, BLANK_PRAYER, BLANK_PRAYER, BLANK_PRAYER,
                               BLANK_PRAYER, BLANK_PRAYER, 0, "", "", "", "", "", "", "", 0.0, 0.0, 0)

  lemma Together(a: seq<Notice>, b: seq<Notice>, c: seq<Notice>)
    ensures a + b + c == a + (b + c)
  {
  }

  lemma NothingDriven(plan: Plan, inputs: seq<Input>, file: Option<string>)
    ensures IsDriven(plan, inputs, 0, [], [file], [], []) && LogOf([], [], 0) == []
  {
  }

  lemma NothingMore(plan: Plan, inputs: seq<Input>, n: nat, evs: seq<Event>, files: seq<Option<string>>, cfgs: seq<Config>,
                    at: seq<nat>)
    requires IsDriven(plan, inputs, n, evs, files, cfgs, at) && n < |inputs|
    ensures IsDriven(plan, inputs, n + 1, evs, files, cfgs, at)
  {
    hide IsRun, Matches;
  }

  lemma DeletionFollows(plan: Plan, file: Option<string>)
    ensures Follows(plan, file, Deleted, None)
  {
  }

  lemma CycleFollows(plan: Plan, used: Plan, file: Option<string>, c: Tick, ts: seq<Trigger>, after: Option<string>)
    requires AreAlike(plan, used) && IsTick(c) && Opens(used, file, c, ts) && after == Closed(file, c, ts)
    ensures Follows(plan, file, Cycled(c, ts), after)
  {
    hide Opens, Closed, AreAlike;
    OpensAlike(plan, used, file, c, ts);
  }

  /** Calls whose dates never go back make a run whose dates never do, and saves that
      always succeed make one whose saves do. */
  lemma DrivenInOrder(inputs: seq<Input>, evs: seq<Event>, at: seq<nat>)
    requires ComesFrom(inputs, evs, at, |inputs|)
    requires forall i, j | 0 <= i < j < |inputs| && inputs[i].Call? && inputs[j].Call? :: inputs[i].day <= inputs[j].day
    ensures InOrder(evs)
    ensures (forall i | 0 <= i < |inputs| && inputs[i].Call? :: inputs[i].world.buildSaved && inputs[i].world.residueSaved)
            ==> AllSaved(evs)
  {
    forall i, j | 0 <= i < j < |evs| && evs[i].Cycled? && evs[j].Cycled? ensures evs[i].tick.day <= evs[j].tick.day {
      assert Matches(inputs[at[i]], evs[i]) && Matches(inputs[at[j]], evs[j]);
      assert at[i] < at[j];
    }
    assert forall i | 0 <= i < |evs| :: Matches(inputs[at[i]], evs[i]);
  }
}
