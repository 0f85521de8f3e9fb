/** One notification cycle, `muslimtify_run_cycle_at`, over the cache file. */
module Cycle {
  import opened Basics
  import opened Settings
  import opened TriggerCache
  import opened Picking
  import opened Schedule
  import opened Calendar
  import CacheFile

  // ---- What one cycle does to the cache file ----

  /** One cycle: its date and minute, whether it refreshed the location, and what
      the world outside did: whether the notifier started, whether the cache file
      was deleted while the cycle ran, whether the two saves succeeded. */
  datatype Tick = Tick(day: int, minute: int, refreshed: bool, initOk: bool, deleted: bool,
                       buildSaved: bool, residueSaved: bool)

  predicate IsTick(c: Tick) {
    IsCalendarDay(c.day) && 0 <= c.minute < MINUTES_PER_DAY
  }

  /** The file of a day's triggers. */
  function FileOf(day: int, ts: seq<Trigger>): (bytes: string)
    requires IsCalendarDay(day)
  {
    CacheFile.SaveText(Day(DateText(day), ts))
  }

  /** The file loads and carries today's date. */
  predicate IsToday(file: Option<string>, day: int)
    requires IsCalendarDay(day)
  {
    CacheFile.Load(file).Some? && CacheFile.Load(file).value.date == DateText(day)
  }

  predicate Reuses(file: Option<string>, c: Tick)
    requires IsTick(c)
  {
    !c.refreshed && IsToday(file, c.day)
  }

  /** The triggers a cycle works on: those of the file, or a fresh build, which
      after a refresh leaves out what already lies behind. */
  ghost predicate Opens(plan: Plan, file: Option<string>, c: Tick, ts: seq<Trigger>)
    requires IsTick(c)
  {
    if Reuses(file, c) then ts == CacheFile.Load(file).value.triggers
    else if c.refreshed then exists built :: IsBuild(plan, c.day, c.minute, built) && ts == Where(built, From(c.minute))
    else IsBuild(plan, c.day, c.minute, ts)
  }

  /** The file once the triggers are there. */
  function Opened(file: Option<string>, c: Tick, ts: seq<Trigger>): Option<string>
    requires IsTick(c)
  {
    if !Reuses(file, c) && c.buildSaved then Some(FileOf(c.day, ts)) else file
  }

  function Announced(c: Tick, ts: seq<Trigger>): (fired: seq<Trigger>) {
    if c.initOk then Where(ts, Acts(Fire, c.minute)) else []
  }

  predicate InitFails(c: Tick, ts: seq<Trigger>) {
    !c.initOk && Where(ts, Acts(Fire, c.minute)) != []
  }

  function Residue(c: Tick, ts: seq<Trigger>): seq<Trigger> {
    Where(ts, Acts(Keep, c.minute))
  }

  /** The file the cycle leaves. */
  function Closed(file: Option<string>, c: Tick, ts: seq<Trigger>): Option<string>
    requires IsTick(c)
  {
    var during := if c.deleted then None else Opened(file, c, ts);
    if !InitFails(c, ts) && |Residue(c, ts)| < |ts| && during.Some? && c.residueSaved
    then Some(FileOf(c.day, Residue(c, ts)))
    else during
  }

  /** The last save the cycle made failed: that of the residue if it was due, and
      otherwise that of the build. */
  predicate SaveFails(file: Option<string>, c: Tick, ts: seq<Trigger>)
    requires IsTick(c)
  {
    var during := if c.deleted then None else Opened(file, c, ts);
    if |Residue(c, ts)| < |ts| && during.Some? then !c.residueSaved else !Reuses(file, c) && !c.buildSaved
  }

  // ---- The service ----

  /** A call to the notifier. */
  datatype Notice =
    | AdhanCall(prayer: string, hours: real, path: string)
    | PrayerCall(prayer: string, hours: real, minutesBefore: int, urgency: string, sound: Option<string>)

  /** `trigger_plays_adhan` */
  predicate PlaysAdhan(t: Trigger, now: int) {
    t.minutesBefore == 0 && t.adhanEnabled && now <= t.minute
  }

  function NoticeOf(config: Config, now: int, t: Trigger): Notice {
    if PlaysAdhan(t, now) then AdhanCall(t.prayer, t.prayerTime, t.adhan)
    else
      PrayerCall(t.prayer, t.prayerTime, t.minutesBefore, config.urgency,
                 if config.sound == "off" then None
                 else Some(if t.minutesBefore == 0 then config.soundAlarm else config.soundReminder))
  }

  /** What a trigger that fires is announced as: the adhan is played on its own
      minute and never late; a reminder comes before its prayer; the sound is left
      out exactly when it is turned off. */
  lemma FiredNotice(config: Config, now: int, t: Trigger)
    requires CatchUp(t.minute, t.minutesBefore, now) == Fire && t.minutesBefore >= 0
    ensures var n := NoticeOf(config, now, t);
            && n.prayer == t.prayer && n.hours == t.prayerTime
            && (n.AdhanCall? <==> t.minutesBefore == 0 && t.adhanEnabled && now == t.minute)
            && (n.AdhanCall? ==> n.path == t.adhan)
            && (n.PrayerCall? ==> n.minutesBefore == t.minutesBefore
                                  && (n.minutesBefore > 0 ==> now < t.minute + t.minutesBefore)
                                  && (n.sound.None? <==> config.sound == "off"))
  {
  }

  function Notices(config: Config, now: int, ts: seq<Trigger>): (ns: seq<Notice>)
    ensures |ns| == |ts|
  {
    if ts == [] then [] else [NoticeOf(config, now, ts[0])] + Notices(config, now, ts[1..])
  }

  lemma {:induction false} NoticesAppend(config: Config, now: int, ts: seq<Trigger>, t: Trigger)
    ensures Notices(config, now, ts + [t]) == Notices(config, now, ts) + [NoticeOf(config, now, t)]
  {
    if ts == [] {
      assert ts + [t] == [t];
    } else {
      assert (ts + [t])[1..] == ts[1..] + [t];
      NoticesAppend(config, now, ts[1..], t);
    }
  }

  datatype Error = Ok | ConfigLoad | DetectFailed | ConfigSave | NotifyInit | CacheSave

  /** `MuslimtifyCycle` */
  datatype Report = Report(detected: bool, refreshed: bool, refreshFailed: bool, notifications: nat)

  const REFRESH_RETRY_SEC: int := 600

  predicate IsLatitude(x: real) {
    -90.0 <= x <= 90.0
  }

  predicate IsLongitude(x: real) {
    -180.0 <= x <= 180.0
  }

  predicate IsAlmostZero(x: real) {
    -0.000001 < x < 0.000001
  }

  predicate NeedsDetect(c: Config) {
    c.autoDetect && (!IsLatitude(c.latitude) || !IsLongitude(c.longitude)
                     || (IsAlmostZero(c.latitude) && IsAlmostZero(c.longitude)))
  }

  predicate IsStale(c: Config, epoch: int) {
    c.autoDetect && c.refreshInterval > 0 && epoch - c.updatedAt >= c.refreshInterval
  }

  /** What the outside world answers during one call. */
  datatype World = World(firstDetect: Option<Config>, firstSaved: bool, refreshDetect: Option<Config>, refreshSaved: bool,
                         initOk: bool, deleted: bool, buildSaved: bool, residueSaved: bool)

  /** The settings once a missing location has been looked up. */
  function Detected(c: Config, w: World): Config {
    if NeedsDetect(c) && w.firstDetect.Some? then w.firstDetect.value.(autoDetect := true) else c
  }

  /** A refresh is due, and the pause after the last failed one is over. */
  predicate TriesRefresh(c: Config, retryAt: int, epoch: int) {
    IsStale(c, epoch) && epoch >= retryAt
  }

  /** How the location is settled, from the stored settings and the end of the
      pause to the new ones. A failure stores nothing. A refresh that fails keeps
      the last location, starts a pause of ten minutes and is not fatal; one that
      cannot be stored is used all the same. */
  predicate IsLocated(before: Option<Config>, retryBefore: int, epoch: int, w: World,
                      err: Error, cfg: Option<Config>, report: Report, after: Option<Config>, retryAfter: int) {
    && (err == ConfigLoad <==> before.None?)
    && (err == DetectFailed <==> before.Some? && NeedsDetect(before.value) && w.firstDetect.None?)
    && (err == ConfigSave <==> before.Some? && NeedsDetect(before.value) && w.firstDetect.Some? && !w.firstSaved)
    && err in {Ok, ConfigLoad, DetectFailed, ConfigSave}
    && (err == Ok <==> cfg.Some?)
    && (err != Ok ==> after == before && retryAfter == retryBefore && report == Report(false, false, false, 0))
    && (err == Ok ==>
          var c := Detected(before.value, w);
          var tries := TriesRefresh(c, retryBefore, epoch);
          && report == Report(NeedsDetect(before.value), tries && w.refreshDetect.Some?,
                              tries && (w.refreshDetect.None? || !w.refreshSaved), 0)
          && cfg == Some(if report.refreshed then w.refreshDetect.value.(autoDetect := true) else c)
          && after == (if report.refreshed && w.refreshSaved then cfg else Some(c))
          && retryAfter == if tries && w.refreshDetect.None? then epoch + REFRESH_RETRY_SEC else retryBefore)
  }

  /** After a failed lookup no cycle of the next ten minutes tries again. */
  lemma RefreshPauses(before: Option<Config>, retryBefore: int, epoch: int, w: World,
                      err: Error, cfg: Option<Config>, report: Report, after: Option<Config>, retryAfter: int,
                      c: Config, later: int)
    requires IsLocated(before, retryBefore, epoch, w, err, cfg, report, after, retryAfter)
    requires report.refreshFailed && !report.refreshed && epoch <= later < epoch + REFRESH_RETRY_SEC
    ensures !TriesRefresh(c, retryAfter, later) && err == Ok && after == Some(Detected(before.value, w)) == cfg
  {
  }

  class Service {
    var config: Option<Config>
    var file: Option<string>
    var log: seq<Notice>
    var retryAt: int

    constructor ()
      ensures config == None && file == None && log == [] && retryAt == 0
    {
      config, file, log, retryAt := None, None, [], 0;
    }

    /** The part of a cycle that settles the location. */
    method Locate(epoch: int, w: World) returns (err: Error, cfg: Option<Config>, report: Report)
      modifies this`config, this`retryAt
      ensures IsLocated(old(config), old(retryAt), epoch, w, err, cfg, report, config, retryAt)
    {
      report := Report(false, false, false, 0);
      if config.None? {
        return ConfigLoad, None, report;
      }
      var c := config.value;
      if NeedsDetect(c) {
        if w.firstDetect.None? {
          return DetectFailed, None, report;
        }
        c := w.firstDetect.value.(autoDetect := true);
        if !w.firstSaved {
          return ConfigSave, None, report;
        }
        config := Some(c);
        report := report.(detected := true);
      }
      if IsStale(c, epoch) && epoch >= retryAt {
        if w.refreshDetect.None? {
          report := report.(refreshFailed := true);
          retryAt := epoch + REFRESH_RETRY_SEC;
        } else {
          c := w.refreshDetect.value.(autoDetect := true);
          report := report.(refreshed := true);
          if w.refreshSaved {
            config := Some(c);
          } else {
            report := report.(refreshFailed := true);
          }
        }
      }
      return Ok, Some(c), report;
    }

    /** The triggers of the cycle, loaded or rebuilt into `cache`. */
    method Open(cache: PrayerCache, plan: Plan, c: Tick) returns (saveFailed: bool)
      requires cache.Valid() && IsTick(c)
      modifies this`file, cache, cache.triggers
      ensures cache.Valid() && cache.date == DateText(c.day)
      ensures Opens(plan, old(file), c, cache.Entries())
      ensures file == Opened(old(file), c, cache.Entries())
      ensures saveFailed <==> !Reuses(old(file), c) && !c.buildSaved
    {
      hide IsBuild, CacheFile.Load, CacheFile.SaveText, DateText, ParseDate, Where;
      var today := DateText(c.day);
      saveFailed := false;
      var valid := false;
      if !c.refreshed {
        valid := CacheFile.LoadInto(file, cache);
      }
      if valid && cache.date == today {
        return;
      }
      DateTextReadsBack(c.day);
      Build(cache, plan, c.minute, today);
      if c.refreshed {
        ghost var built := cache.Entries();
        DropBefore(cache, c.minute);
        assert IsBuild(plan, c.day, c.minute, built);
      }
      if c.buildSaved {
        var text := CacheFile.Save(cache);
        file := Some(text);
      } else {
        saveFailed := true;
      }
    }

    /** The firing loop: announces what is due, consumes it and what is stale, and
        leaves what is still ahead. If the notifier will not start, it gives up at
        the first trigger that is due. */
    method Announce(cache: PrayerCache, cfg: Config, minute: int, initOk: bool)
      returns (initFailed: bool, sent: nat, dirty: bool)
      requires cache.Valid()
      modifies this`log, cache`count, cache.triggers
      ensures cache.Valid()
      ensures var ts := old(cache.Entries());
              var fire, keep := Where(ts, Acts(Fire, minute)), Where(ts, Acts(Keep, minute));
              && (initFailed <==> !initOk && fire != [])
              && log == old(log) + Notices(cfg, minute, if initFailed then [] else fire)
              && sent == |if initFailed then [] else fire|
              && (!initFailed ==> cache.Entries() == keep && (dirty <==> |keep| < |ts|))
    {
      hide Where, NoticeOf, CatchUp, Notices, Selects;
      ghost var rest, keep, fire: seq<Trigger> := cache.Entries(), [], [];
      ghost var was := rest;
      var notified, i := false, 0;
      sent, dirty, initFailed := 0, false, false;
      NothingTaken(was, minute);
      NoNotices(cfg, minute);
      assert log + [] == log;
      while i < cache.count
        invariant cache.Valid() && i == |keep| && cache.Entries() == keep + rest
        invariant Selects(was, rest, minute, keep, fire)
        invariant log == old(log) + Notices(cfg, minute, fire) && sent == |fire|
        invariant (fire != [] ==> notified) && (notified ==> initOk)
        invariant dirty <==> |keep| + |rest| < |was|
        invariant |keep| + |rest| <= |was|
        decreases |rest|
      {
        var t := cache.triggers[i];
        assert rest != [];
        SelectNext(was, rest, minute, keep, fire);
        var action := CatchUp(t.minute, t.minutesBefore, minute);
        if action == Keep {
          keep, rest := keep + [t], rest[1..];
          i := i + 1;
          continue;
        }
        if action == Fire {
          if !notified {
            if !initOk {
              return true, 0, dirty;
            }
            notified := true;
          }
          NoticesAppend(cfg, minute, fire, t);
          log := log + [NoticeOf(cfg, minute, t)];
          fire := fire + [t];
          sent := sent + 1;
        }
        Consume(cache, i, keep, rest);
        dirty, rest := true, rest[1..];
      }
      SelectEnds(was, rest, minute, keep, fire);
    }

    /** A cycle from the configuration in force on. */
    method RunTick(cfg: Config, plan: Plan, c: Tick) returns (err: Error, sent: nat, ghost ts: seq<Trigger>)
      requires IsTick(c)
      modifies this`file, this`log
      ensures Opens(plan, old(file), c, ts) && file == Closed(old(file), c, ts)
      ensures log == old(log) + Notices(cfg, c.minute, Announced(c, ts)) && sent == |Announced(c, ts)|
      ensures err == NotifyInit <==> InitFails(c, ts)
      ensures err in {Ok, NotifyInit, CacheSave}
      ensures err == CacheSave <==> !InitFails(c, ts) && SaveFails(old(file), c, ts)
    {
      hide Where, Opens, IsBuild, CacheFile.Load, FileOf, IsTick, Reuses, Notices;
      var cache := new PrayerCache();
      var saveFailed := Open(cache, plan, c);
      ts := cache.Entries();
      var initFailed, n, dirty := Announce(cache, cfg, c.minute, c.initOk);
      sent := n;
      if c.deleted {
        file := None;
      }
      if initFailed {
        err := NotifyInit;
        return;
      }
      if dirty && file.Some? {
        if c.residueSaved {
          file := SavedFile(cache, c);
          saveFailed := false;
        } else {
          saveFailed := true;
        }
      }
      err := if saveFailed then CacheSave else Ok;
    }

    /** `muslimtify_run_cycle_at`. The configuration in force and the triggers it
        worked on are named in the outcome. */
    method RunCycle(day: int, minute: int, epoch: int, w: World, timesOf: Config -> (int, Prayer) -> Option<real>)
      returns (err: Error, report: Report, cfg: Option<Config>, ghost ts: seq<Trigger>)
      requires IsCalendarDay(day) && 0 <= minute < MINUTES_PER_DAY
      modifies this
      ensures cfg.None? <==> err in {ConfigLoad, DetectFailed, ConfigSave}
      ensures IsLocated(old(config), old(retryAt), epoch, w, if cfg.Some? then Ok else err, cfg,
                        report.(notifications := 0), config, retryAt)
      ensures cfg.None? ==> file == old(file) && log == old(log) && report.notifications == 0
      ensures cfg.Some? ==>
                var c := Tick(day, minute, report.refreshed, w.initOk, w.deleted, w.buildSaved, w.residueSaved);
                && Opens(Plan(cfg.value, timesOf(cfg.value)), old(file), c, ts)
                && file == Closed(old(file), c, ts)
                && log == old(log) + Notices(cfg.value, minute, Announced(c, ts))
                && report.notifications == |Announced(c, ts)|
                && (err == NotifyInit <==> InitFails(c, ts))
                && (err == CacheSave <==> !InitFails(c, ts) && SaveFails(old(file), c, ts))
                && err in {Ok, NotifyInit, CacheSave}
    {
      hide Where, Opens, Closed, Announced, InitFails, SaveFails, IsCalendarDay, Notices, NeedsDetect, IsStale;
      err, cfg, report := Locate(epoch, w);
      ts := [];
      if cfg.Some? {
        var c := Tick(day, minute, report.refreshed, w.initOk, w.deleted, w.buildSaved, w.residueSaved);
        var sent;
        err, sent, ts := RunTick(cfg.value, Plan(cfg.value, timesOf(cfg.value)), c);
        report := report.(notifications := sent);
      }
    }
  }

  method SavedFile(cache: PrayerCache, c: Tick) returns (file: Option<string>)
    requires cache.Valid() && IsTick(c) && cache.date == DateText(c.day)
    ensures file == Some(FileOf(c.day, cache.Entries()))
  {
    var text := CacheFile.Save(cache);
    file := Some(text);
  }

  lemma NoNotices(config: Config, now: int)
    ensures Notices(config, now, []) == []
  {
  }

  /** `keep` and `fire` are the selections from what was read so far, `rest` is
      still to be read. */
  predicate Selects(was: seq<Trigger>, rest: seq<Trigger>, now: int, keep: seq<Trigger>, fire: seq<Trigger>) {
    && Where(was, Acts(Keep, now)) == keep + Where(rest, Acts(Keep, now))
    && Where(was, Acts(Fire, now)) == fire + Where(rest, Acts(Fire, now))
  }

  lemma NothingTaken(was: seq<Trigger>, now: int)
    ensures Selects(was, was, now, [], []) && [] + was == was
  {
  }

  lemma SelectNext(was: seq<Trigger>, rest: seq<Trigger>, now: int, keep: seq<Trigger>, fire: seq<Trigger>)
    requires rest != [] && Selects(was, rest, now, keep, fire)
    ensures (keep + rest)[|keep|] == rest[0] && keep + [rest[0]] + rest[1..] == keep + rest
    ensures var t := rest[0];
            match CatchUp(t.minute, t.minutesBefore, now)
            case Keep => Selects(was, rest[1..], now, keep + [t], fire)
            case Fire => Selects(was, rest[1..], now, keep, fire + [t]) && Where(was, Acts(Fire, now)) != []
            case Drop => Selects(was, rest[1..], now, keep, fire)
  {
    var t := rest[0];
    assert keep + ([t] + Where(rest[1..], Acts(Keep, now))) == keep + [t] + Where(rest[1..], Acts(Keep, now));
    assert fire + ([t] + Where(rest[1..], Acts(Fire, now))) == fire + [t] + Where(rest[1..], Acts(Fire, now));
  }

  lemma SelectEnds(was: seq<Trigger>, rest: seq<Trigger>, now: int, keep: seq<Trigger>, fire: seq<Trigger>)
    requires Selects(was, rest, now, keep, fire)
    ensures rest == [] ==> Where(was, Acts(Keep, now)) == keep && Where(was, Acts(Fire, now)) == fire && keep + rest == keep
  {
  }

  /** Removes the first trigger still to be read. */
  method Consume(cache: PrayerCache, i: nat, ghost keep: seq<Trigger>, ghost rest: seq<Trigger>)
    requires cache.Valid() && rest != [] && i == |keep| && cache.Entries() == keep + rest
    modifies cache`count, cache.triggers
    ensures cache.Valid() && cache.Entries() == keep + rest[1..]
  {
    cache.Remove(i);
    assert (keep + rest)[..i] == keep && (keep + rest)[i + 1..] == rest[1..];
  }

  lemma WhereFromNext(rest: seq<Trigger>, minute: int)
    requires rest != []
    ensures Where(rest, From(minute))
         == if rest[0].minute < minute then Where(rest[1..], From(minute)) else [rest[0]] + Where(rest[1..], From(minute))
  {
  }

  lemma Regroup(a: seq<Trigger>, t: Trigger, b: seq<Trigger>)
    ensures a + ([t] + b) == a + [t] + b && (a + ([t] + b))[|a|] == t
  {
  }

  lemma HeadAndTail(ts: seq<Trigger>)
    requires ts != []
    ensures ts == [ts[0]] + ts[1..]
  {
  }

  lemma DropNext(kept: seq<Trigger>, rest: seq<Trigger>, minute: int)
    requires rest != []
    ensures (kept + rest)[|kept|] == rest[0] && kept + [rest[0]] + rest[1..] == kept + rest
    ensures kept + Where(rest, From(minute))
         == (if rest[0].minute < minute then kept else kept + [rest[0]]) + Where(rest[1..], From(minute))
  {
    hide Where;
    WhereFromNext(rest, minute);
    HeadAndTail(rest);
    Regroup(kept, rest[0], rest[1..]);
    Regroup(kept, rest[0], Where(rest[1..], From(minute)));
  }

  /** Removes, in place, every trigger before `minute`. */
  method DropBefore(cache: PrayerCache, minute: int)
    requires cache.Valid()
    modifies cache`count, cache.triggers
    ensures cache.Valid() && cache.Entries() == Where(old(cache.Entries()), From(minute))
  {
    hide Where;
    ghost var was := cache.Entries();
    ghost var kept, rest: seq<Trigger> := [], was;
    var j := 0;
    assert [] + was == was && [] + Where(was, From(minute)) == Where(was, From(minute));
    while j < cache.count
      invariant cache.Valid() && j == |kept| && cache.Entries() == kept + rest
      invariant Where(was, From(minute)) == kept + Where(rest, From(minute))
      decreases |rest|
    {
      DropNext(kept, rest, minute);
      if cache.triggers[j].minute < minute {
        Consume(cache, j, kept, rest);
      } else {
        kept := kept + [rest[0]];
        j := j + 1;
      }
      rest := rest[1..];
    }
    WhereNone([], From(minute));
    assert rest == [] && kept + [] == kept;
  }
}
