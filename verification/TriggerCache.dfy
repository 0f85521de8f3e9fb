/** One day's announcements, in the fixed array of `PrayerCache`. */
module TriggerCache {

  const MAX_TRIGGERS: nat := 64
  const MINUTES_PER_DAY: int := 1440

  datatype Trigger = Trigger(prayer: string, adhan: string, minute: int, minutesBefore: int,
                             prayerTime: real, adhanEnabled: bool)

  const BLANK := Trigger("", "", 0, 0, 0.0, false)

  datatype Day = Day(date: string, triggers: seq<Trigger>)

  class PrayerCache {
    var date: string
    const triggers: array<Trigger>
    var count: nat

    ghost predicate Valid()
      reads this
    {
      triggers.Length == MAX_TRIGGERS && count <= MAX_TRIGGERS
    }

    ghost function Entries(): (ts: seq<Trigger>)
      reads this, triggers
      requires Valid()
    {
      triggers[..count]
    }

    constructor ()
      ensures Valid() && fresh(triggers) && date == "" && Entries() == []
    {
      date, count := "", 0;
      triggers := new Trigger[MAX_TRIGGERS](_ => BLANK);
    }

    method Clear(newDate: string)
      requires Valid()
      modifies this, triggers
      ensures Valid() && date == newDate && Entries() == []
    {
      date, count := newDate, 0;
      forall i | 0 <= i < triggers.Length {
        triggers[i] := BLANK;
      }
    }

    /** Appends, unless the array is full. */
    method Append(t: Trigger) returns (ok: bool)
      requires Valid()
      modifies this`count, triggers
      ensures Valid() && ok == (|old(Entries())| < MAX_TRIGGERS)
      ensures Entries() == if ok then old(Entries()) + [t] else old(Entries())
    {
      ok := count < MAX_TRIGGERS;
      if ok {
        triggers[count] := t;
        count := count + 1;
      }
    }

    /** Removes the trigger at `index` by shifting the ones behind it down; an
        index outside the list changes nothing. */
    method Remove(index: int)
      requires Valid()
      modifies this`count, triggers
      ensures Valid()
      ensures 0 <= index < |old(Entries())| ==>
                Entries() == old(Entries())[..index] + old(Entries())[index + 1..]
      ensures !(0 <= index < |old(Entries())|) ==> Entries() == old(Entries())
    {
      if index < 0 || index >= count {
        return;
      }
      ghost var was := Entries();
      for i := index to count - 1
        invariant count == |was| && Valid()
        invariant triggers[..index] == was[..index]
        invariant forall k | index <= k < i :: triggers[k] == was[k + 1]
        invariant forall k | i <= k < count :: triggers[k] == was[k]
      {
        triggers[i] := triggers[i + 1];
      }
      count := count - 1;
      ghost var left := was[..index] + was[index + 1..];
      assert forall k | 0 <= k < index :: triggers[k] == triggers[..index][k] == was[k] == left[k];
      assert forall k | index <= k < count :: triggers[k] == was[k + 1] == left[k];
      assert Entries() == left;
    }
  }
}
