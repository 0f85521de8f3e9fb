/** Selections from a list of triggers, and how often an announcement occurs. */
module Picking {
  import opened TriggerCache

  const CATCHUP_MAX_MIN: int := 15

  datatype Action = Keep | Fire | Drop

  /** `trigger_catchup_action` */
  function CatchUp(minute: int, minutesBefore: int, now: int): (a: Action) {
    if minute > now then Keep
    else if now - minute > CATCHUP_MAX_MIN then Drop
    else if minutesBefore > 0 && minute + minutesBefore <= now then Drop
    else Fire
  }

  /** What identifies an announcement within one day. */
  datatype Key = Key(prayer: string, minute: int, lead: int)

  function KeyOf(t: Trigger): Key {
    Key(t.prayer, t.minute, t.minutesBefore)
  }

  datatype Test =
    | Acts(action: Action, now: int)
    | From(start: int)
    | HasKey(key: Key)
    | IsAdhan
    | Delivered(minutes: seq<int>)

  /** The first of `minutes` that is at or after `minute` decides: a trigger is
      delivered when it fires in that cycle. */
  predicate FiresAtFirst(t: Trigger, minutes: seq<int>) {
    minutes != []
    && if minutes[0] >= t.minute then CatchUp(t.minute, t.minutesBefore, minutes[0]) == Fire
       else FiresAtFirst(t, minutes[1..])
  }

  predicate Holds(test: Test, t: Trigger) {
    match test
    case Acts(a, now) => CatchUp(t.minute, t.minutesBefore, now) == a
    case From(start) => t.minute >= start
    case HasKey(k) => KeyOf(t) == k
    case IsAdhan => t.minutesBefore == 0
    case Delivered(minutes) => FiresAtFirst(t, minutes)
  }

  /** The triggers that pass, in their order. */
  function Where(ts: seq<Trigger>, test: Test): (r: seq<Trigger>)
    ensures |r| <= |ts|
  {
    if ts == [] then []
    else if Holds(test, ts[0]) then [ts[0]] + Where(ts[1..], test)
    else Where(ts[1..], test)
  }

  lemma {:induction false} WhereConcat(a: seq<Trigger>, b: seq<Trigger>, test: Test)
    ensures Where(a + b, test) == Where(a, test) + Where(b, test)
  {
    hide Holds;
    if a == [] {
      assert a + b == b;
    } else {
      assert (a + b)[1..] == a[1..] + b;
      WhereConcat(a[1..], b, test);
    }
  }

  lemma {:induction false} WhereCount(ts: seq<Trigger>, test: Test, t: Trigger)
    ensures multiset(Where(ts, test))[t] == if Holds(test, t) then multiset(ts)[t] else 0
  {
    hide Holds;
    if ts != [] {
      assert ts == [ts[0]] + ts[1..];
      WhereCount(ts[1..], test, t);
    }
  }

  lemma WhereIn(ts: seq<Trigger>, test: Test, t: Trigger)
    ensures t in Where(ts, test) <==> t in ts && Holds(test, t)
  {
    WhereCount(ts, test, t);
    assert t in Where(ts, test) <==> multiset(Where(ts, test))[t] > 0;
    assert t in ts <==> multiset(ts)[t] > 0;
  }

  /** Selecting does not depend on the order. */
  lemma WhereOfPermutation(a: seq<Trigger>, b: seq<Trigger>, test: Test)
    requires multiset(a) == multiset(b)
    ensures multiset(Where(a, test)) == multiset(Where(b, test))
  {
    hide Holds, Where;
    forall t ensures multiset(Where(a, test))[t] == multiset(Where(b, test))[t] {
      WhereCount(a, test, t);
      WhereCount(b, test, t);
    }
  }

  lemma PermutationLength(a: seq<Trigger>, b: seq<Trigger>)
    requires multiset(a) == multiset(b)
    ensures |a| == |b|
  {
    assert |multiset(a)| == |a|;
  }

  lemma {:induction false} WhereNone(ts: seq<Trigger>, test: Test)
    requires forall k | 0 <= k < |ts| :: !Holds(test, ts[k])
    ensures Where(ts, test) == []
  {
    hide Holds;
    if ts != [] {
      WhereNone(ts[1..], test);
    }
  }

  /** Selecting twice is selecting with both tests at once. */
  lemma {:induction false} WhereWhere(ts: seq<Trigger>, a: Test, b: Test, both: Test)
    requires forall k | 0 <= k < |ts| :: Holds(both, ts[k]) <==> Holds(a, ts[k]) && Holds(b, ts[k])
    ensures Where(Where(ts, a), b) == Where(ts, both)
  {
    hide Holds;
    if ts != [] {
      WhereWhere(ts[1..], a, b, both);
      assert Holds(both, ts[0]) <==> Holds(a, ts[0]) && Holds(b, ts[0]);
    }
  }

  // ---- Counting ----

  /** How often the announcement `k` occurs. */
  function Count(ts: seq<Trigger>, k: Key): nat {
    |Where(ts, HasKey(k))|
  }

  lemma CountConcat(a: seq<Trigger>, b: seq<Trigger>, k: Key)
    ensures Count(a + b, k) == Count(a, k) + Count(b, k)
  {
    WhereConcat(a, b, HasKey(k));
  }

  lemma CountOfPermutation(a: seq<Trigger>, b: seq<Trigger>, k: Key)
    requires multiset(a) == multiset(b)
    ensures Count(a, k) == Count(b, k)
  {
    WhereOfPermutation(a, b, HasKey(k));
    PermutationLength(Where(a, HasKey(k)), Where(b, HasKey(k)));
  }

  /** A selection holds an announcement as often as the list, or not at all,
      when the test looks at nothing but the key. */
  lemma NotCounted(ts: seq<Trigger>, k: Key)
    requires forall t | t in ts :: KeyOf(t) != k
    ensures Count(ts, k) == 0
  {
    hide Where;
    WhereNone(ts, HasKey(k));
  }

  lemma {:induction false} CountWhere(ts: seq<Trigger>, test: Test, k: Key)
    requires !test.HasKey?
    ensures Count(Where(ts, test), k) == if Holds(test, Trigger(k.prayer, "", k.minute, k.lead, 0.0, false)) then Count(ts, k) else 0
  {
    var probe := Trigger(k.prayer, "", k.minute, k.lead, 0.0, false);
    if ts != [] {
      CountWhere(ts[1..], test, k);
      if KeyOf(ts[0]) == k {
        SameKeySameTest(ts[0], probe, test);
      }
    }
  }

  lemma {:induction false} SameKeySameTest(a: Trigger, b: Trigger, test: Test)
    requires a.minute == b.minute && a.minutesBefore == b.minutesBefore && !test.HasKey?
    ensures Holds(test, a) <==> Holds(test, b)
    decreases if test.Delivered? then |test.minutes| else 0
  {
    if test.Delivered? && test.minutes != [] {
      SameKeySameTest(a, b, Delivered(test.minutes[1..]));
    }
  }

  // ---- Order ----

  predicate SortedByMinute(ts: seq<Trigger>) {
    forall i, j | 0 <= i < j < |ts| :: ts[i].minute <= ts[j].minute
  }

  lemma {:induction false} WhereSorted(ts: seq<Trigger>, test: Test)
    requires SortedByMinute(ts)
    ensures SortedByMinute(Where(ts, test))
  {
    hide Holds;
    if ts != [] {
      var rest := Where(ts[1..], test);
      WhereSorted(ts[1..], test);
      forall k | 0 <= k < |rest| ensures ts[0].minute <= rest[k].minute {
        WhereIn(ts[1..], test, rest[k]);
        assert rest[k] in ts[1..];
      }
    }
  }
}
