/** When a day has room for everything that falls on it. */
module Capacity {
  import opened Settings
  import opened TriggerCache
  import opened Schedule

  // ---- Few reminders ----

  /** With at most three reminders a prayer, as by default, nothing is ever dropped
      for lack of room. */
  lemma FewReminders(plan: Plan, day: int, now: int)
    requires forall p: Prayer :: |Leads(plan, p)| <= 3
    ensures |Assembled(plan, day, now)| <= MAX_TRIGGERS
  {
    hide Adhans, Reminders;
    RemindersOfSlots(plan, day, now, SLOTS);
  }

  lemma {:induction false} RemindersOfSlots(plan: Plan, day: int, now: int, n: nat)
    requires forall p: Prayer :: |Leads(plan, p)| <= 3
    ensures |Reminders(plan, day, now, n)| <= 3 * n
  {
    hide SlotReminders, Leads, PrayerOf;
    if n > 0 {
      RemindersOfSlots(plan, day, now, n - 1);
      RemindersOfSlot(plan, day, now, n - 1, |Leads(plan, PrayerOf(n - 1))|);
    }
  }

  lemma {:induction false} RemindersOfSlot(plan: Plan, day: int, now: int, k: nat, j: nat)
    requires j <= |Leads(plan, PrayerOf(k))|
    ensures |SlotReminders(plan, day, now, k, j)| <= j
  {
    hide SlotReminder, Leads, PrayerOf;
    if j > 0 {
      RemindersOfSlot(plan, day, now, k, j - 1);
    }
  }

  // ---- Few prayers twice ----

  /** How many of three come after the first. */
  function Again(a: nat, b: nat, c: nat): (n: nat)
    ensures a + b + c <= 1 + n
  {
    if a + b + c == 0 then 0 else a + b + c - 1
  }

  lemma SamePrayer(i: nat)
    requires i < PRAYER_COUNT
    ensures PrayerOf(i) == PrayerOf(i + 5) == PrayerOf(i + 10)
  {
  }

  /** The reminders, of the first `j` of prayer `i`, that fall on the day from a
      second source day. */
  function RemindersAgain(plan: Plan, day: int, now: int, i: nat, j: nat): nat
    requires i < PRAYER_COUNT && j <= |Leads(plan, PrayerOf(i))|
  {
    SamePrayer(i);
    if j == 0 then 0
    else RemindersAgain(plan, day, now, i, j - 1)
         + Again(|SlotReminder(plan, day, now, i, j - 1)|, |SlotReminder(plan, day, now, i + 5, j - 1)|,
                 |SlotReminder(plan, day, now, i + 10, j - 1)|)
  }

  /** The adhan and the reminders of prayer `i` that do. */
  function PrayerAgain(plan: Plan, day: int, now: int, i: nat): nat
    requires i < PRAYER_COUNT
  {
    Again(|SlotAdhan(plan, day, now, i)|, |SlotAdhan(plan, day, now, i + 5)|, |SlotAdhan(plan, day, now, i + 10)|)
    + RemindersAgain(plan, day, now, i, |Leads(plan, PrayerOf(i))|)
  }

  /** The adhans and reminders of all prayers that do. */
  function FallingAgain(plan: Plan, day: int, now: int): nat {
    PrayerAgain(plan, day, now, 0) + PrayerAgain(plan, day, now, 1) + PrayerAgain(plan, day, now, 2)
    + PrayerAgain(plan, day, now, 3) + PrayerAgain(plan, day, now, 4)
  }

  /** What one slot puts into the assembly. */
  function SlotLength(plan: Plan, day: int, now: int, k: nat): nat {
    |SlotAdhan(plan, day, now, k)| + |SlotReminders(plan, day, now, k, |Leads(plan, PrayerOf(k))|)|
  }

  function SlotsLength(plan: Plan, day: int, now: int, n: nat): nat {
    if n == 0 then 0 else SlotsLength(plan, day, now, n - 1) + SlotLength(plan, day, now, n - 1)
  }

  lemma {:induction false} AssembledLength(plan: Plan, day: int, now: int, n: nat)
    ensures |Adhans(plan, day, now, n)| + |Reminders(plan, day, now, n)| == SlotsLength(plan, day, now, n)
  {
    hide SlotAdhan, SlotReminders, PrayerOf, Leads;
    if n > 0 {
      AssembledLength(plan, day, now, n - 1);
    }
  }

  lemma FiveMore(plan: Plan, day: int, now: int, n: nat)
    ensures SlotsLength(plan, day, now, n + 5)
         == SlotsLength(plan, day, now, n) + SlotLength(plan, day, now, n) + SlotLength(plan, day, now, n + 1)
            + SlotLength(plan, day, now, n + 2) + SlotLength(plan, day, now, n + 3) + SlotLength(plan, day, now, n + 4)
  {
    hide SlotLength;
    assert SlotsLength(plan, day, now, n + 1) == SlotsLength(plan, day, now, n) + SlotLength(plan, day, now, n);
    assert SlotsLength(plan, day, now, n + 2) == SlotsLength(plan, day, now, n + 1) + SlotLength(plan, day, now, n + 1);
    assert SlotsLength(plan, day, now, n + 3) == SlotsLength(plan, day, now, n + 2) + SlotLength(plan, day, now, n + 2);
    assert SlotsLength(plan, day, now, n + 4) == SlotsLength(plan, day, now, n + 3) + SlotLength(plan, day, now, n + 3);
  }

  lemma {:induction false} RemindersFall(plan: Plan, day: int, now: int, i: nat, j: nat)
    requires i < PRAYER_COUNT && j <= |Leads(plan, PrayerOf(i))|
    ensures PrayerOf(i) == PrayerOf(i + 5) == PrayerOf(i + 10)
    ensures |SlotReminders(plan, day, now, i, j)| + |SlotReminders(plan, day, now, i + 5, j)|
            + |SlotReminders(plan, day, now, i + 10, j)| <= j + RemindersAgain(plan, day, now, i, j)
  {
    hide SlotReminder, PrayerOf, Leads, Again;
    SamePrayer(i);
    if j > 0 {
      RemindersFall(plan, day, now, i, j - 1);
    }
  }

  lemma PrayerFalls(plan: Plan, day: int, now: int, i: nat)
    requires i < PRAYER_COUNT
    ensures SlotLength(plan, day, now, i) + SlotLength(plan, day, now, i + 5) + SlotLength(plan, day, now, i + 10)
            <= 1 + |Leads(plan, PrayerOf(i))| + PrayerAgain(plan, day, now, i)
  {
    hide SlotAdhan, SlotReminders, PrayerOf, Leads, Again;
    RemindersFall(plan, day, now, i, |Leads(plan, PrayerOf(i))|);
  }

  /** Nothing is dropped while at most nine adhans and reminders fall on the day from
      a second source day: the five adhans and fifty reminders of one source day
      leave room for them. */
  lemma RoomForNineAgain(plan: Plan, day: int, now: int)
    requires forall p: Prayer :: |Leads(plan, p)| <= MAX_REMINDERS
    requires FallingAgain(plan, day, now) <= 9
    ensures |Assembled(plan, day, now)| <= MAX_TRIGGERS
  {
    hide Adhans, Reminders, SlotLength, PrayerAgain, Leads, PrayerOf, SlotsLength;
    AssembledLength(plan, day, now, SLOTS);
    NoSlots(plan, day, now);
    FiveMore(plan, day, now, 0);
    FiveMore(plan, day, now, 5);
    FiveMore(plan, day, now, 10);
    PrayerFalls(plan, day, now, 0);
    PrayerFalls(plan, day, now, 1);
    PrayerFalls(plan, day, now, 2);
    PrayerFalls(plan, day, now, 3);
    PrayerFalls(plan, day, now, 4);
  }

  lemma NoSlots(plan: Plan, day: int, now: int)
    ensures SlotsLength(plan, day, now, 0) == 0
  {
  }
}
