/** How often a day's assembly holds one announcement, and so how often it goes
    out: exactly when each goes out at most once. */
module Once {
  import opened Basics
  import opened Settings
  import opened TriggerCache
  import opened Picking
  import opened Schedule
  import opened Assembly
  import opened Calendar
  import opened Cycle
  import opened Runs
  import opened Delivery

  // ---- The entries of a day ----

  /** The adhan of a slot, as reminder -1, or one of its reminders. */
  datatype Entry = Entry(slot: nat, reminder: int)

  predicate IsEntry(plan: Plan, x: Entry) {
    x.slot < SLOTS && -1 <= x.reminder < |Leads(plan, PrayerOf(x.slot))|
  }

  function LeadOf(plan: Plan, x: Entry): int
    requires IsEntry(plan, x)
  {
    if x.reminder < 0 then 0 else Leads(plan, PrayerOf(x.slot))[x.reminder]
  }

  /** The minute of `day` an entry is announced on, when its prayer occurs. */
  function MinuteOf(plan: Plan, day: int, x: Entry): Option<int>
    requires IsEntry(plan, x)
  {
    match Instant(plan, day, DeltaOf(x.slot), PrayerOf(x.slot))
    case None => None
    case Some(m) => Some(m - LeadOf(plan, x))
  }

  /** The entry is announced on `day`, and as `key`. */
  predicate Has(plan: Plan, day: int, key: Key, x: Entry) {
    && IsEntry(plan, x) && Name(PrayerOf(x.slot)) == key.prayer && LeadOf(plan, x) == key.lead
    && MinuteOf(plan, day, x) == Some(key.minute) && 0 <= key.minute < MINUTES_PER_DAY
  }

  /** Two different entries of the day are announced as `key`. */
  ghost predicate IsShared(plan: Plan, day: int, key: Key) {
    exists x, y :: x != y && Has(plan, day, key, x) && Has(plan, day, key, y)
  }

  /** No two entries of the day share prayer, minute and lead. */
  ghost predicate HasOwnKeys(plan: Plan, day: int) {
    forall key, x, y | Has(plan, day, key, x) && Has(plan, day, key, y) :: x == y
  }

  // ---- The entries announced as one key ----

  function AdhanHolders(plan: Plan, day: int, key: Key, n: nat): seq<Entry> {
    if n == 0 then []
    else AdhanHolders(plan, day, key, n - 1) + (if Has(plan, day, key, Entry(n - 1, -1)) then [Entry(n - 1, -1)] else [])
  }

  function SlotHolders(plan: Plan, day: int, key: Key, k: nat, j: nat): seq<Entry> {
    if j == 0 then []
    else SlotHolders(plan, day, key, k, j - 1) + (if Has(plan, day, key, Entry(k, j - 1)) then [Entry(k, j - 1)] else [])
  }

  function ReminderHolders(plan: Plan, day: int, key: Key, n: nat): seq<Entry> {
    if n == 0 then []
    else ReminderHolders(plan, day, key, n - 1) + SlotHolders(plan, day, key, n - 1, |Leads(plan, PrayerOf(n - 1))|)
  }

  /** The entries announced as `key`, in assembly order. */
  function Holders(plan: Plan, day: int, key: Key): seq<Entry> {
    AdhanHolders(plan, day, key, SLOTS) + ReminderHolders(plan, day, key, SLOTS)
  }

  lemma {:induction false} InAdhanHolders(plan: Plan, day: int, key: Key, n: nat)
    ensures forall x :: x in AdhanHolders(plan, day, key, n) <==> x.slot < n && x.reminder == -1 && Has(plan, day, key, x)
  {
    hide Has;
    if n > 0 {
      InAdhanHolders(plan, day, key, n - 1);
    }
  }

  lemma {:induction false} InSlotHolders(plan: Plan, day: int, key: Key, k: nat, j: nat)
    ensures forall x :: x in SlotHolders(plan, day, key, k, j)
                        <==> x.slot == k && 0 <= x.reminder < j && Has(plan, day, key, x)
  {
    hide Has;
    if j > 0 {
      InSlotHolders(plan, day, key, k, j - 1);
    }
  }

  lemma {:induction false} InReminderHolders(plan: Plan, day: int, key: Key, n: nat)
    ensures forall x :: x in ReminderHolders(plan, day, key, n) <==> x.slot < n && x.reminder >= 0 && Has(plan, day, key, x)
  {
    hide Has, SlotHolders, PrayerOf;
    if n > 0 {
      InReminderHolders(plan, day, key, n - 1);
      InSlotHolders(plan, day, key, n - 1, |Leads(plan, PrayerOf(n - 1))|);
      HasIsEntry(plan, day, key);
    }
  }

  lemma HasIsEntry(plan: Plan, day: int, key: Key)
    ensures forall x | Has(plan, day, key, x) :: x.slot < SLOTS && -1 <= x.reminder < |Leads(plan, PrayerOf(x.slot))|
  {
  }

  lemma InHolders(plan: Plan, day: int, key: Key)
    ensures forall x :: x in Holders(plan, day, key) <==> Has(plan, day, key, x)
  {
    hide Has, AdhanHolders, ReminderHolders;
    InAdhanHolders(plan, day, key, SLOTS);
    InReminderHolders(plan, day, key, SLOTS);
    HasIsEntry(plan, day, key);
  }

  ghost predicate AreDistinct(xs: seq<Entry>) {
    forall i, j | 0 <= i < j < |xs| :: xs[i] != xs[j]
  }

  lemma DistinctConcat(a: seq<Entry>, b: seq<Entry>)
    requires AreDistinct(a) && AreDistinct(b) && forall x | x in a :: x !in b
    ensures AreDistinct(a + b)
  {
    forall i, j | 0 <= i < j < |a + b| ensures (a + b)[i] != (a + b)[j] {
      if i < |a| <= j {
        assert (a + b)[i] in a && (a + b)[j] in b;
      }
    }
  }

  lemma {:induction false} AdhanHoldersAreDistinct(plan: Plan, day: int, key: Key, n: nat)
    ensures AreDistinct(AdhanHolders(plan, day, key, n))
  {
    hide Has;
    if n > 0 {
      AdhanHoldersAreDistinct(plan, day, key, n - 1);
      InAdhanHolders(plan, day, key, n - 1);
      DistinctConcat(AdhanHolders(plan, day, key, n - 1),
                     if Has(plan, day, key, Entry(n - 1, -1)) then [Entry(n - 1, -1)] else []);
    }
  }

  lemma {:induction false} SlotHoldersAreDistinct(plan: Plan, day: int, key: Key, k: nat, j: nat)
    ensures AreDistinct(SlotHolders(plan, day, key, k, j))
  {
    hide Has;
    if j > 0 {
      SlotHoldersAreDistinct(plan, day, key, k, j - 1);
      InSlotHolders(plan, day, key, k, j - 1);
      DistinctConcat(SlotHolders(plan, day, key, k, j - 1),
                     if Has(plan, day, key, Entry(k, j - 1)) then [Entry(k, j - 1)] else []);
    }
  }

  lemma {:induction false} ReminderHoldersAreDistinct(plan: Plan, day: int, key: Key, n: nat)
    ensures AreDistinct(ReminderHolders(plan, day, key, n))
  {
    hide Has, SlotHolders, PrayerOf, AreDistinct;
    if n == 0 {
      NoneAreDistinct();
    } else {
      var j := |Leads(plan, PrayerOf(n - 1))|;
      ReminderHoldersAreDistinct(plan, day, key, n - 1);
      SlotHoldersAreDistinct(plan, day, key, n - 1, j);
      InReminderHolders(plan, day, key, n - 1);
      InSlotHolders(plan, day, key, n - 1, j);
      DistinctConcat(ReminderHolders(plan, day, key, n - 1), SlotHolders(plan, day, key, n - 1, j));
    }
  }

  lemma NoneAreDistinct()
    ensures AreDistinct([])
  {
  }

  lemma HoldersAreDistinct(plan: Plan, day: int, key: Key)
    ensures AreDistinct(Holders(plan, day, key))
  {
    hide Has, AdhanHolders, ReminderHolders, AreDistinct;
    AdhanHoldersAreDistinct(plan, day, key, SLOTS);
    ReminderHoldersAreDistinct(plan, day, key, SLOTS);
    InAdhanHolders(plan, day, key, SLOTS);
    InReminderHolders(plan, day, key, SLOTS);
    DistinctConcat(AdhanHolders(plan, day, key, SLOTS), ReminderHolders(plan, day, key, SLOTS));
  }

  // ---- Counting the assembly ----

  lemma CountOne(t: Trigger, key: Key)
    ensures Count([t], key) == if KeyOf(t) == key then 1 else 0
    ensures Count([], key) == 0
  {
  }

  lemma SlotAdhanCount(plan: Plan, day: int, k: nat, key: Key)
    requires k < SLOTS
    ensures Count(SlotAdhan(plan, day, 0, k), key) == if Has(plan, day, key, Entry(k, -1)) then 1 else 0
  {
    hide Instant, PrayerOf, DeltaOf, Count;
    InstantHasTime(plan, day, DeltaOf(k), PrayerOf(k));
    var ts := SlotAdhan(plan, day, 0, k);
    CountOne(if ts == [] then BLANK else ts[0], key);
    if ts != [] {
      assert ts == [ts[0]];
    }
  }

  lemma {:induction false} AdhansCount(plan: Plan, day: int, key: Key, n: nat)
    requires n <= SLOTS
    ensures Count(Adhans(plan, day, 0, n), key) == |AdhanHolders(plan, day, key, n)|
  {
    hide SlotAdhan, Has, Count;
    if n == 0 {
      CountOne(BLANK, key);
    } else {
      AdhansCount(plan, day, key, n - 1);
      SlotAdhanCount(plan, day, n - 1, key);
      CountConcat(Adhans(plan, day, 0, n - 1), SlotAdhan(plan, day, 0, n - 1), key);
    }
  }

  lemma SlotReminderCount(plan: Plan, day: int, k: nat, j: nat, key: Key)
    requires k < SLOTS && j < |Leads(plan, PrayerOf(k))|
    ensures Count(SlotReminder(plan, day, 0, k, j), key) == if Has(plan, day, key, Entry(k, j)) then 1 else 0
  {
    hide Instant, PrayerOf, DeltaOf, Count;
    InstantHasTime(plan, day, DeltaOf(k), PrayerOf(k));
    var ts := SlotReminder(plan, day, 0, k, j);
    CountOne(if ts == [] then BLANK else ts[0], key);
    if ts != [] {
      assert ts == [ts[0]];
    }
  }

  lemma {:induction false} SlotRemindersCount(plan: Plan, day: int, k: nat, j: nat, key: Key)
    requires k < SLOTS && j <= |Leads(plan, PrayerOf(k))|
    ensures Count(SlotReminders(plan, day, 0, k, j), key) == |SlotHolders(plan, day, key, k, j)|
  {
    hide SlotReminder, Has, Count, PrayerOf, Leads;
    if j == 0 {
      CountOne(BLANK, key);
    } else {
      SlotRemindersCount(plan, day, k, j - 1, key);
      SlotReminderCount(plan, day, k, j - 1, key);
      CountConcat(SlotReminders(plan, day, 0, k, j - 1), SlotReminder(plan, day, 0, k, j - 1), key);
    }
  }

  lemma {:induction false} RemindersCount(plan: Plan, day: int, key: Key, n: nat)
    requires n <= SLOTS
    ensures Count(Reminders(plan, day, 0, n), key) == |ReminderHolders(plan, day, key, n)|
  {
    hide SlotReminders, SlotHolders, Count, PrayerOf, Leads;
    if n == 0 {
      CountOne(BLANK, key);
    } else {
      var j := |Leads(plan, PrayerOf(n - 1))|;
      RemindersCount(plan, day, key, n - 1);
      SlotRemindersCount(plan, day, n - 1, j, key);
      CountConcat(Reminders(plan, day, 0, n - 1), SlotReminders(plan, day, 0, n - 1, j), key);
    }
  }

  /** A day's assembly holds an announcement once for every entry announced so:
      every source day, and every time a reminder is listed. */
  lemma AssembledCount(plan: Plan, day: int, key: Key)
    ensures Count(Assembled(plan, day, 0), key) == |Holders(plan, day, key)|
    ensures forall x :: x in Holders(plan, day, key) <==> Has(plan, day, key, x)
    ensures AreDistinct(Holders(plan, day, key))
  {
    hide Adhans, Reminders, Count, AdhanHolders, ReminderHolders, AreDistinct, Has;
    AdhansCount(plan, day, key, SLOTS);
    RemindersCount(plan, day, key, SLOTS);
    CountConcat(Adhans(plan, day, 0, SLOTS), Reminders(plan, day, 0, SLOTS), key);
    InHolders(plan, day, key);
    HoldersAreDistinct(plan, day, key);
  }

  /** It holds one more than once exactly when two entries share it. */
  lemma RepeatedExactly(plan: Plan, day: int, key: Key)
    ensures Count(Assembled(plan, day, 0), key) >= 2 <==> IsShared(plan, day, key)
  {
    hide Count, Assembled, Has, Holders;
    AssembledCount(plan, day, key);
    var xs := Holders(plan, day, key);
    if |xs| >= 2 {
      assert xs[0] in xs && xs[1] in xs && xs[0] != xs[1];
    }
    if IsShared(plan, day, key) {
      var x, y :| x != y && Has(plan, day, key, x) && Has(plan, day, key, y);
      assert x in xs && y in xs;
    }
  }

  /** A day's assembly holds nothing twice exactly when no two of its entries
      share prayer, minute and lead. */
  lemma NothingRepeatedExactly(plan: Plan, day: int)
    ensures (forall key :: Count(Assembled(plan, day, 0), key) <= 1) <==> HasOwnKeys(plan, day)
  {
    hide Count, Assembled, Has;
    forall key ensures Count(Assembled(plan, day, 0), key) >= 2 <==> IsShared(plan, day, key) {
      RepeatedExactly(plan, day, key);
    }
    if HasOwnKeys(plan, day) {
      assert forall key :: !IsShared(plan, day, key);
    }
    if forall key :: Count(Assembled(plan, day, 0), key) <= 1 {
      forall key, x, y | Has(plan, day, key, x) && Has(plan, day, key, y) ensures x == y {
        assert Count(Assembled(plan, day, 0), key) <= 1;
      }
    }
  }

  /** How two entries come to share. Both are adhans or both are reminders, of one
      prayer. Reminders of one source day are one lead listed twice; otherwise the
      prayer falls on one minute from two source days. */
  lemma SharedMeans(plan: Plan, day: int, key: Key, x: Entry, y: Entry)
    requires x != y && Has(plan, day, key, x) && Has(plan, day, key, y)
    requires forall p: Prayer, j | 0 <= j < |Leads(plan, p)| :: Leads(plan, p)[j] > 0
    ensures PrayerOf(x.slot) == PrayerOf(y.slot)
    ensures x.reminder < 0 <==> key.lead == 0
    ensures y.reminder < 0 <==> key.lead == 0
    ensures if x.slot == y.slot
            then key.lead > 0 && x.reminder != y.reminder
                 && Leads(plan, PrayerOf(x.slot))[x.reminder] == Leads(plan, PrayerOf(x.slot))[y.reminder]
            else DeltaOf(x.slot) != DeltaOf(y.slot)
                 && Instant(plan, day, DeltaOf(x.slot), PrayerOf(x.slot)) == Instant(plan, day, DeltaOf(y.slot), PrayerOf(x.slot))
  {
    hide Instant;
    assert x.slot % PRAYER_COUNT == y.slot % PRAYER_COUNT;
  }

  // ---- Going out ----

  /** An announcement that no two entries of its day share goes out at most once on
      that day, and once more for every deletion of the cache file after the day's
      first cycle, for every cycle of the day that reports a failed save, and for
      every refresh, once it has gone out, in a minute up to its own: over every run
      with fixed times. */
  lemma EachIsAnnouncedOnce(plan: Plan, evs: seq<Event>, files: seq<Option<string>>, day: int, key: Key)
    requires IsRun(plan, evs, files) && IsLoadedPlan(plan) && InOrder(evs)
    requires IsOurs(files[0]) && IsCalendarDay(day) && !IsToday(files[0], day)
    requires !IsShared(plan, day, key)
    ensures var t := TallyOf(evs, day, key, |evs|);
            t.fires <= 1 + t.deletions + FailedSaves(evs, files, day, |evs|) + Repeats(evs, day, key, |evs|)
  {
    hide IsLoadedPlan, IsOurs, IsToday, Count, Assembled, TallyOf, IsShared, FailedSaves, Repeats, IsCalendarDay;
    NothingIsAnnouncedTwice(plan, evs, files, day, key);
    RepeatedExactly(plan, day, key);
    TimesMonotone(Count(Assembled(plan, day, 0), key), 1,
                  1 + TallyOf(evs, day, key, |evs|).deletions + FailedSaves(evs, files, day, |evs|)
                  + Repeats(evs, day, key, |evs|));
  }

  /** And that is the only case: on a quiet day whose cycles come in time for it, an
      announcement goes out at most once exactly when no two entries share it. For
      reminders when there is room for all; otherwise exactly when the cache holds
      it at most once. */
  lemma AnnouncedOnceExactly(plan: Plan, evs: seq<Event>, files: seq<Option<string>>, day: int, key: Key)
    requires IsQuietRun(plan, evs, files, day) && FiresAtFirst(Probe(key), Minutes(evs))
    ensures TallyOf(evs, day, key, |evs|).fires <= 1 <==> Count(Placed(plan, day, evs[0].tick.minute), key) <= 1
    ensures key.lead == 0 || |Assembled(plan, day, evs[0].tick.minute)| <= MAX_TRIGGERS ==>
              (TallyOf(evs, day, key, |evs|).fires <= 1 <==> !IsShared(plan, day, key))
  {
    hide IsQuietRun, Count, Assembled, Placed, TallyOf, IsShared, FiresAtFirst;
    NotEmpty(plan, evs, files, day);
    DeliveredExactly(plan, evs, files, day, key);
    if key.lead == 0 || |Assembled(plan, day, evs[0].tick.minute)| <= MAX_TRIGGERS {
      DeliveredAsAssembled(plan, evs, files, day, key);
      RepeatedExactly(plan, day, key);
    }
  }

  lemma NotEmpty(plan: Plan, evs: seq<Event>, files: seq<Option<string>>, day: int)
    requires IsQuietRun(plan, evs, files, day)
    ensures evs != [] && forall i | 0 <= i < |evs| :: evs[i].Cycled?
  {
  }
}
