/** Civil dates and day serials, as the vendored prayer-time header converts them,
    and the text of a date. */
module Calendar {
  import opened Basics
  import opened Numbers

  datatype Civil = Civil(year: int, month: int, day: int)

  /** Days from the first of March of year 0 of a 400-year era to the start of
      its year `yoe`, counting years from March. */
  function YearStart(yoe: int): int {
    yoe * 365 + yoe / 4 - yoe / 100
  }

  /** Days since 1970-01-01. */
  function DaysFromCivil(c: Civil): int {
    var y := if c.month <= 2 then c.year - 1 else c.year;
    var era := y / 400;
    var doy := (153 * (c.month + if c.month > 2 then -3 else 9) + 2) / 5 + c.day - 1;
    era * 146097 + (YearStart(y - era * 400) + doy) - 719468
  }

  function YearOfEra(doe: int): int {
    (doe - doe / 1460 + doe / 36524 - doe / 146096) / 365
  }

  function CivilFromDays(z: int): (c: Civil) {
    var era := (z + 719468) / 146097;
    var doe := z + 719468 - era * 146097;
    var yoe := YearOfEra(doe);
    var doy := doe - YearStart(yoe);
    var mp := (5 * doy + 2) / 153;
    var month := if mp < 10 then mp + 3 else mp - 9;
    Civil(yoe + era * 400 + (if month <= 2 then 1 else 0), month, doy - (153 * mp + 2) / 5 + 1)
  }

  /** A day of the era is day `r` of four-year span `q` of century `c`. */
  lemma YearOfEraSplit(c: int, q: int, r: int)
    requires 0 <= c <= 3 && 0 <= q <= 24 && 0 <= r < 1461 && q * 1461 + r < 36524
    ensures var w := (r - (24 * c + q + r) / 1460) / 365;
            0 <= w <= 3 && YearOfEra(c * 36524 + q * 1461 + r) == 100 * c + 4 * q + w && 0 <= r - 365 * w <= 365
  {
    var doe := c * 36524 + q * 1461 + r;
    var e := (24 * c + q + r) / 1460;
    assert doe / 1460 == 25 * c + q + e;
    assert doe / 36524 == c;
    assert doe / 146096 == 0;
    assert (doe - doe / 1460 + doe / 36524) == 365 * (100 * c + 4 * q) + (r - e);
  }

  /** The year of the era that holds day `doe` of the era. */
  lemma YearOfEraIsRight(doe: int)
    requires 0 <= doe < 146097
    ensures 0 <= YearOfEra(doe) < 400
    ensures 0 <= doe - YearStart(YearOfEra(doe)) <= 365
  {
    if doe == 146096 {
      assert YearOfEra(doe) == 399;
    } else {
      var c := doe / 36524;
      var x := doe - c * 36524;
      var q := x / 1461;
      var r := x - q * 1461;
      YearOfEraSplit(c, q, r);
      var w := (r - (24 * c + q + r) / 1460) / 365;
      YearStartSplit(c, q, w);
    }
  }

  lemma YearStartSplit(c: int, q: int, w: int)
    requires 0 <= c <= 3 && 0 <= q <= 24 && 0 <= w <= 3
    ensures YearStart(100 * c + 4 * q + w) == c * 36524 + q * 1461 + 365 * w
  {
    assert (100 * c + 4 * q + w) / 4 == 25 * c + q;
    assert (100 * c + 4 * q + w) / 100 == c;
  }

  /** The two conversions are inverse: no two days share a date. */
  lemma DaysOfCivilOfDays(z: int)
    ensures DaysFromCivil(CivilFromDays(z)) == z
    ensures 1 <= CivilFromDays(z).month <= 12
    ensures 1 <= CivilFromDays(z).day <= 31
  {
    var era := (z + 719468) / 146097;
    var doe := z + 719468 - era * 146097;
    YearOfEraIsRight(doe);
    var yoe := YearOfEra(doe);
    hide YearOfEra, YearStart;
    var doy := doe - YearStart(yoe);
    var mp := (5 * doy + 2) / 153;
    var c := CivilFromDays(z);
    assert 0 <= mp <= 11;
    assert c.month + (if c.month > 2 then -3 else 9) == mp;
    var y := if c.month <= 2 then c.year - 1 else c.year;
    assert y == yoe + era * 400;
    assert y / 400 == era;
  }

  // The first day of year 0 and the last day of year 9999.
  const FIRST_DAY: int := -719528
  const LAST_DAY: int := 2932896

  /** The days whose year the text of a date can hold on four digits. */
  predicate IsCalendarDay(day: int) {
    FIRST_DAY <= day <= LAST_DAY
  }

  /** The year of a day, from its era and the day of the era. */
  lemma YearOfDay(day: int, era: int, doe: int)
    requires 0 <= doe < 146097 && day + 719468 == era * 146097 + doe
    ensures var yoe := YearOfEra(doe);
            && 0 <= yoe < 400 && (doe >= 146037 ==> yoe == 399)
            && CivilFromDays(day).year
               == yoe + era * 400 + if yoe == 399 then (if doe >= 146037 then 1 else 0)
                                    else if doe - YearStart(yoe) >= 306 then 1 else 0
  {
    hide YearOfEra;
    YearOfEraIsRight(doe);
    EraOf(day + 719468, era, doe);
    var yoe := YearOfEra(doe);
    YearStartBelow(yoe);
    MonthPart(doe - YearStart(yoe));
  }

  lemma EraOf(n: int, era: int, doe: int)
    requires 0 <= doe < 146097 && n == era * 146097 + doe
    ensures n / 146097 == era
  {
  }

  lemma YearStartBelow(yoe: int)
    requires 0 <= yoe < 400
    ensures YearStart(399) == 145731 && (yoe < 399 ==> YearStart(yoe) + 365 <= YearStart(399))
  {
  }

  /** The tenth and eleventh month from March are January and February. */
  lemma MonthPart(doy: int)
    requires 0 <= doy <= 365
    ensures var mp := (5 * doy + 2) / 153; 0 <= mp <= 11 && (mp >= 10 <==> doy >= 306)
  {
  }

  lemma YearHasFourDigits(day: int)
    ensures IsCalendarDay(day) <==> 0 <= CivilFromDays(day).year <= 9999
  {
    hide CivilFromDays, YearOfEra;
    var era := (day + 719468) / 146097;
    var doe := day + 719468 - era * 146097;
    YearOfDay(day, era, doe);
  }

  /** `%04d-%02d-%02d` */
  function DateText(day: int): (s: string)
    requires IsCalendarDay(day)
    ensures |s| == 10
  {
    DaysOfCivilOfDays(day);
    YearHasFourDigits(day);
    var c := CivilFromDays(day);
    Padded(c.year, 4) + ("-" + (Padded(c.month, 2) + ("-" + Padded(c.day, 2))))
  }

  /** One `%d` of `sscanf`, with the index behind it. */
  function ScanInt(s: string, i: nat): (r: Option<(int, nat)>)
    requires i <= |s|
    ensures r.Some? ==> i < r.value.1 <= |s|
  {
    var j := SkipSpace(s, i);
    var d := if HasSign(s, j) then j + 1 else j;
    var e := DigitsEnd(s, d);
    if e == d then None
    else Some((if HasSign(s, j) && s[j] == '-' then 0 - Value(s[d..e]) else Value(s[d..e]), e))
  }

  function ScanDash(s: string, i: nat): (r: Option<nat>)
    requires i <= |s|
    ensures r.Some? ==> i < r.value <= |s|
  {
    if i < |s| && s[i] == '-' then Some(i + 1) else None
  }

  /** `sscanf(s, "%d-%d-%d", ...)`, when it converts all three numbers. */
  function ParseDate(s: string): (r: Option<Civil>) {
    match ScanInt(s, 0)
    case None => None
    case Some((year, i)) =>
      match ScanDash(s, i)
      case None => None
      case Some(j) =>
        match ScanInt(s, j)
        case None => None
        case Some((month, k)) =>
          match ScanDash(s, k)
          case None => None
          case Some(l) =>
            match ScanInt(s, l)
            case None => None
            case Some((day, _)) => Some(Civil(year, month, day))
  }

  lemma ScanPadded(s: string, i: nat, n: nat, k: nat)
    requires k >= 1 && At(s, i, Padded(n, k)) && n < Pow10(k)
    requires i + k == |s| || !IsDigit(s[i + k])
    ensures ScanInt(s, i) == Some((n, i + k))
  {
    var p := Padded(n, k);
    AtIndex(s, i, p, 0);
    assert IsDigit(p[0]) && s[i + 0] == p[0];
    SkipSpaceIs(s, i, i);
    assert s[i..i + k] == p;
    DigitsEndIs(s, i, i + k);
    ValueOfPadded(n, k);
  }

  lemma ParseParts(s: string, y: nat, m: nat, d: nat)
    requires y < Pow10(4) && m < Pow10(2) && d < Pow10(2)
    requires s == Padded(y, 4) + ("-" + (Padded(m, 2) + ("-" + Padded(d, 2))))
    ensures ParseDate(s) == Some(Civil(y, m, d))
  {
    hide Padded, Pow10, ScanInt;
    var c := "-" + Padded(d, 2);
    var b := "-" + (Padded(m, 2) + c);
    assert s[0..0 + |s|] == s;
    AtSplit(s, 0, Padded(y, 4), b);
    AtSplit(s, 4, "-", Padded(m, 2) + c);
    AtSplit(s, 5, Padded(m, 2), c);
    AtSplit(s, 7, "-", Padded(d, 2));
    AtIndex(s, 4, "-", 0);
    AtIndex(s, 7, "-", 0);
    ScanPadded(s, 0, y, 4);
    ScanPadded(s, 5, m, 2);
    ScanPadded(s, 8, d, 2);
  }

  /** A date reads back as the day it was printed for. */
  lemma DateTextReadsBack(day: int)
    requires IsCalendarDay(day)
    ensures ParseDate(DateText(day)).Some? && DaysFromCivil(ParseDate(DateText(day)).value) == day
  {
    hide ParseDate, Padded;
    DaysOfCivilOfDays(day);
    YearHasFourDigits(day);
    var c := CivilFromDays(day);
    assert Pow10(4) == 10000 && Pow10(2) == 100 by {
      SmallPowers();
    }
    ParseParts(DateText(day), c.year, c.month, c.day);
  }

  lemma SmallPowers()
    ensures Pow10(4) == 10000 && Pow10(2) == 100
  {
    assert Pow10(1) == 10 * Pow10(0) && Pow10(2) == 10 * Pow10(1) && Pow10(3) == 10 * Pow10(2);
  }

  /** Two days with the same text are the same day. */
  lemma DateTextIsInjective(a: int, b: int)
    requires IsCalendarDay(a) && IsCalendarDay(b) && DateText(a) == DateText(b)
    ensures a == b
  {
    hide DateText, ParseDate;
    DateTextReadsBack(a);
    DateTextReadsBack(b);
  }
}
