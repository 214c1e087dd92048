/**
 `generateOrderNumber`: the UTC date of a clock reading, and one more than the
 orders created since the server's local midnight.  Time is in milliseconds since
 1970; orders are created one at a time on one non-decreasing clock.
 */
module OrderNumbers {
  import Strings
  import Sums

  const DAY: int := 86_400_000

  /* ----- dates ----- */

  datatype Date = Date(year: nat, month: nat, day: nat)

  predicate Leap(year: nat) {
    year % 4 == 0 && (year % 100 != 0 || year % 400 == 0)
  }

  function DaysIn(year: nat, month: nat): (n: nat)
    ensures 28 <= n <= 31
  {
    if month == 2 then (if Leap(year) then 29 else 28)
    else if month in {4, 6, 9, 11} then 30
    else 31
  }

  function NextDay(d: Date): Date {
    if d.day < DaysIn(d.year, d.month) then d.(day := d.day + 1)
    else if d.month < 12 then Date(d.year, d.month + 1, 1)
    else Date(d.year + 1, 1, 1)
  }

  // Days are counted from 1970-01-01.
  function DateOf(day: nat): (d: Date)
    ensures 1970 <= d.year && 1 <= d.month <= 12 && 1 <= d.day <= DaysIn(d.year, d.month)
  {
    if day == 0 then Date(1970, 1, 1) else NextDay(DateOf(day - 1))
  }

  function DaysBeforeMonth(year: nat, month: nat): nat
    requires 1 <= month <= 12
  {
    [0, 31, 59, 90, 120, 151, 181, 212, 243, 273, 304, 334][month - 1] + (if Leap(year) && 2 < month then 1 else 0)
  }

  // Leap years from year 1 to the one before this.
  function LeapsBefore(year: nat): int
    requires 1 <= year
  {
    (year - 1) / 4 - (year - 1) / 100 + (year - 1) / 400
  }

  // The Gregorian calendar, counted in closed form.
  function DayNumber(d: Date): int
    requires 1970 <= d.year && 1 <= d.month <= 12
  {
    365 * (d.year - 1970) + LeapsBefore(d.year) - LeapsBefore(1970) + DaysBeforeMonth(d.year, d.month) + d.day - 1
  }

  lemma NextYear(year: nat)
    requires 1970 <= year
    ensures LeapsBefore(year + 1) == LeapsBefore(year) + if Leap(year) then 1 else 0
  {
    assert year / 4 == (year - 1) / 4 + if year % 4 == 0 then 1 else 0;
    assert year / 100 == (year - 1) / 100 + if year % 100 == 0 then 1 else 0;
    assert year / 400 == (year - 1) / 400 + if year % 400 == 0 then 1 else 0;
    assert year % 400 == 0 ==> year % 100 == 0;
    assert year % 100 == 0 ==> year % 4 == 0;
  }

  lemma NextDayNumber(d: Date)
    requires 1970 <= d.year && 1 <= d.month <= 12 && 1 <= d.day <= DaysIn(d.year, d.month)
    ensures DayNumber(NextDay(d)) == DayNumber(d) + 1
  {
    hide LeapsBefore, Leap;
    NextYear(d.year);
  }

  // DateOf is the inverse of the closed form.
  lemma {:induction false} DayOfDate(day: nat)
    ensures DayNumber(DateOf(day)) == day
    decreases day
  {
    if day > 0 {
      hide DayNumber, NextDay;
      DayOfDate(day - 1);
      NextDayNumber(DateOf(day - 1));
    }
  }

  function Stamp(d: Date): nat { 10000 * d.year + 100 * d.month + d.day }

  lemma {:induction false} LaterDate(m: nat, n: nat)
    requires m < n
    ensures Stamp(DateOf(m)) < Stamp(DateOf(n))
    decreases n
  {
    if m < n - 1 { LaterDate(m, n - 1); }
  }

  // toISOString().slice(0, 10) without the dashes, for years of four digits.
  function DateString(d: Date): string {
    Strings.PadStart(Strings.Decimal(d.year), 4)
    + Strings.PadStart(Strings.Decimal(d.month), 2)
    + Strings.PadStart(Strings.Decimal(d.day), 2)
  }

  lemma DecimalLength(n: nat)
    ensures n < 100 ==> |Strings.Decimal(n)| <= 2
    ensures n < 10000 ==> |Strings.Decimal(n)| <= 4
    ensures n < 100000 <==> |Strings.Decimal(n)| <= 5
  {
    assert n / 10 / 10 / 10 == n / 1000 && n / 10 / 10 / 10 / 10 == n / 10000;
    assert n >= 10 ==> |Strings.Decimal(n)| == |Strings.Decimal(n / 10)| + 1;
    assert n / 10 >= 10 ==> |Strings.Decimal(n / 10)| == |Strings.Decimal(n / 10 / 10)| + 1;
    assert n / 10 / 10 >= 10 ==> |Strings.Decimal(n / 10 / 10)| == |Strings.Decimal(n / 10 / 10 / 10)| + 1;
    assert n / 1000 >= 10 ==> |Strings.Decimal(n / 1000)| == |Strings.Decimal(n / 10000)| + 1;
    assert n / 10000 >= 10 ==> |Strings.Decimal(n / 10000)| > 1;
  }

  lemma DateStringLength(d: Date)
    requires d.year <= 9999 && d.month <= 12 && d.day <= 31
    ensures |DateString(d)| == 8
  {
    DecimalLength(d.year);
    DecimalLength(d.month);
    DecimalLength(d.day);
  }

  lemma DateStringInjective(d: Date, e: Date)
    requires d.year <= 9999 && d.month <= 12 && d.day <= 31
    requires e.year <= 9999 && e.month <= 12 && e.day <= 31
    requires DateString(d) == DateString(e)
    ensures d == e
  {
    hide Strings.PadStart;
    DecimalLength(d.year);
    DecimalLength(d.month);
    DecimalLength(d.day);
    DecimalLength(e.year);
    DecimalLength(e.month);
    DecimalLength(e.day);
    var dy, ey := Strings.PadStart(Strings.Decimal(d.year), 4), Strings.PadStart(Strings.Decimal(e.year), 4);
    var dm, em := Strings.PadStart(Strings.Decimal(d.month), 2), Strings.PadStart(Strings.Decimal(e.month), 2);
    var dd, ed := Strings.PadStart(Strings.Decimal(d.day), 2), Strings.PadStart(Strings.Decimal(e.day), 2);
    assert dy == DateString(d)[..4] == ey;
    assert dm == DateString(d)[4..6] == em;
    assert dd == DateString(d)[6..] == ed;
    Strings.PaddedInjective(d.year, e.year, 4);
    Strings.PaddedInjective(d.month, e.month, 2);
    Strings.PaddedInjective(d.day, e.day, 2);
  }

  /* ----- numbers ----- */

  // The clock is read for the number, then the row gets its creation time.
  datatype Placed = Placed(reading: nat, createdAt: nat)

  // Midnight before t on a clock that is `offset` ahead of UTC.
  function StartOfDay(t: int, offset: int): (start: int)
    ensures start <= t < start + DAY && (start + offset) % DAY == 0
  {
    (t + offset) / DAY * DAY - offset
  }

  function Since(start: int): Placed -> int {
    (p: Placed) => if start <= p.createdAt then 1 else 0
  }

  function CountSince(history: seq<Placed>, start: int): (n: nat) {
    Sums.NonNegative(Since(start), history);
    Sums.Sum(Since(start), history)
  }

  function Sequence(count: nat): string {
    Strings.PadStart(Strings.Decimal(count + 1), 5)
  }

  function OrderNumber(reading: nat, count: nat): string {
    "ORD-" + DateString(DateOf(reading / DAY)) + "-" + Sequence(count)
  }

  function NumberOf(history: seq<Placed>, j: nat, offset: int): string
    requires j < |history|
  {
    OrderNumber(history[j].reading, CountSince(history[..j], StartOfDay(history[j].reading, offset)))
  }

  predicate FourDigitYear(t: nat) {
    DateOf(t / DAY).year <= 9999
  }

  // One order after the other, on one clock.
  predicate Serial(history: seq<Placed>) {
    && (forall p <- history :: p.reading <= p.createdAt && FourDigitYear(p.reading))
    && (forall i, j | 0 <= i < j < |history| :: history[i].createdAt <= history[j].reading)
  }

  lemma OrderNumberInjective(t: nat, m: nat, u: nat, n: nat)
    requires FourDigitYear(t) && FourDigitYear(u)
    requires OrderNumber(t, m) == OrderNumber(u, n)
    ensures t / DAY == u / DAY && m == n
  {
    hide DateString, Strings.PadStart, DateOf;
    var d, e := DateOf(t / DAY), DateOf(u / DAY);
    DateStringLength(d);
    DateStringLength(e);
    assert DateString(d) == OrderNumber(t, m)[4..12] == DateString(e);
    assert Sequence(m) == OrderNumber(t, m)[13..] == Sequence(n);
    DateStringInjective(d, e);
    Strings.PaddedInjective(m + 1, n + 1, 5);
    if t / DAY < u / DAY {
      LaterDate(t / DAY, u / DAY);
    } else if u / DAY < t / DAY {
      LaterDate(u / DAY, t / DAY);
    }
  }

  // ORD-, the UTC date, a dash and one more than the count, each with its zeros.
  ghost predicate Reads(number: string, t: nat, count: nat) {
    var d := DateOf(t / DAY);
    && |number| >= 18 && number[..4] == "ORD-" && number[12] == '-'
    && Strings.Value(number[4..8]) == d.year && Strings.Value(number[8..10]) == d.month
    && Strings.Value(number[10..12]) == d.day && Strings.Value(number[13..]) == count + 1
    && (count < 99999 <==> |number| == 18)
    && forall i | 4 <= i < |number| && i != 12 :: '0' <= number[i] <= '9'
  }

  // An order placed since midnight raises the count for the next one.
  lemma {:induction false} CountGrows(history: seq<Placed>, i: nat, j: nat, start: int)
    requires i < j <= |history| && start <= history[i].createdAt
    ensures CountSince(history[..i], start) < CountSince(history[..j], start)
  {
    assert history[..j][..j - 1] == history[..j - 1];
    if i < j - 1 { CountGrows(history, i, j - 1, start); }
  }

  // With local midnight at UTC midnight no two orders get the same number, over
  // any run and past 99999 orders a day.
  lemma NumbersDiffer(history: seq<Placed>, i: nat, j: nat, offset: int)
    requires Serial(history) && i < j < |history| && offset % DAY == 0
    ensures NumberOf(history, i, offset) != NumberOf(history, j, offset)
  {
    hide OrderNumber, CountSince;
    if NumberOf(history, i, offset) == NumberOf(history, j, offset) {
      var t, u := history[i].reading, history[j].reading;
      assert history[i] in history && history[j] in history;
      var start := StartOfDay(t, offset);
      SameMidnight(t, offset);
      SameMidnight(u, offset);
      OrderNumberInjective(t, CountSince(history[..i], start), u, CountSince(history[..j], StartOfDay(u, offset)));
      CountGrows(history, i, j, start);
    }
  }

  lemma SameMidnight(t: nat, offset: int)
    requires offset % DAY == 0
    ensures StartOfDay(t, offset) == t / DAY * DAY <= t
  {
    assert offset == offset / DAY * DAY;
    assert (t + offset) / DAY == t / DAY + offset / DAY;
  }

  // One order just before the server's midnight and one at it, on the same UTC date.
  function AroundMidnight(offset: int): seq<Placed>
    requires offset % DAY != 0
  {
    var midnight := DAY - offset % DAY;
    [Placed(midnight - 1, midnight - 1), Placed(midnight, midnight)]
  }

  lemma MidnightRepeats(offset: int)
    requires offset % DAY != 0
    ensures var h := AroundMidnight(offset);
      Serial(h) && NumberOf(h, 0, offset) == NumberOf(h, 1, offset)
  {
    hide DateString, Sequence;
    var h := AroundMidnight(offset);
    var midnight := h[1].reading;
    assert midnight / DAY == 0 && (midnight - 1) / DAY == 0;
    assert DateOf(0).year == 1970;
    assert h[..0] == [] && h[..1] == [h[0]];
    assert midnight + offset == (1 + offset / DAY) * DAY;
    assert StartOfDay(midnight, offset) == midnight;
    Sums.Push(Since(midnight), [], h[0]);
    assert [] + [h[0]] == [h[0]];
    assert CountSince(h[..1], midnight) == 0;
    assert CountSince(h[..0], StartOfDay(midnight - 1, offset)) == 0;
  }

  predicate NeverRepeats(history: seq<Placed>, offset: int) {
    forall i, j | 0 <= i < j < |history| :: NumberOf(history, i, offset) != NumberOf(history, j, offset)
  }

  // Serially placed orders never share a number exactly when the server's midnight is UTC's.
  lemma NeverRepeatsIff(offset: int)
    ensures (forall history: seq<Placed> | Serial(history) :: NeverRepeats(history, offset)) <==> offset % DAY == 0
  {
    if offset % DAY == 0 {
      forall history: seq<Placed> | Serial(history) ensures NeverRepeats(history, offset) {
        forall i, j | 0 <= i < j < |history|
          ensures NumberOf(history, i, offset) != NumberOf(history, j, offset)
        {
          NumbersDiffer(history, i, j, offset);
        }
      }
    } else {
      MidnightRepeats(offset);
      assert !NeverRepeats(AroundMidnight(offset), offset);
    }
  }

  lemma NumberReads(t: nat, count: nat)
    requires FourDigitYear(t)
    ensures Reads(OrderNumber(t, count), t, count)
  {
    hide Strings.PadStart, Strings.Decimal, Strings.Value;
    var d, number := DateOf(t / DAY), OrderNumber(t, count);
    DateStringLength(d);
    DecimalLength(d.year);
    DecimalLength(d.month);
    DecimalLength(d.day);
    DecimalLength(count + 1);
    var year, month := Strings.PadStart(Strings.Decimal(d.year), 4), Strings.PadStart(Strings.Decimal(d.month), 2);
    var day := Strings.PadStart(Strings.Decimal(d.day), 2);
    assert number[4..8] == year && number[8..10] == month && number[10..12] == day;
    assert number == "ORD-" + year + month + day + "-" + Sequence(count);
    assert number[13..] == Sequence(count);
    Strings.ValueOfNumeral(d.year, 4);
    Strings.ValueOfNumeral(d.month, 2);
    Strings.ValueOfNumeral(d.day, 2);
    Strings.ValueOfNumeral(count + 1, 5);
    forall i | 4 <= i < |number| && i != 12 ensures '0' <= number[i] <= '9' {
      assert number[i] in (if i < 12 then year + month + day else Sequence(count));
    }
  }

  /* ----- the repository ----- */

  class OrderRepository {
    var createdAt: seq<nat>
    ghost var history: seq<Placed>
    const offset: int

    ghost predicate Valid()
      reads this
    {
      && Serial(history) && |createdAt| == |history|
      && forall i | 0 <= i < |history| :: createdAt[i] == history[i].createdAt
    }

    constructor (offset: int)
      ensures Valid() && history == [] && this.offset == offset
    {
      createdAt, history, this.offset := [], [], offset;
    }

    method GenerateOrderNumber(today: nat) returns (orderNumber: string)
      requires Valid()
      ensures orderNumber == OrderNumber(today, CountSince(history, StartOfDay(today, offset)))
      ensures FourDigitYear(today) ==> Reads(orderNumber, today, CountSince(history, StartOfDay(today, offset)))
    {
      hide Reads;
      if FourDigitYear(today) { NumberReads(today, CountSince(history, StartOfDay(today, offset))); }
      var dateStr := DateString(DateOf(today / DAY));
      var startOfDay := StartOfDay(today, offset);
      var count := 0;
      var i := 0;
      assert history[..0] == [];
      while i < |createdAt|
        invariant 0 <= i <= |createdAt|
        invariant count == CountSince(history[..i], startOfDay)
      {
        assert history[..i + 1][..i] == history[..i];
        if createdAt[i] >= startOfDay {
          count := count + 1;
        }
        i := i + 1;
      }
      assert history[..|history|] == history;
      orderNumber := "ORD-" + dateStr + "-" + Strings.PadStart(Strings.Decimal(count + 1), 5);
    }

    // The row goes in under the number generated for it.
    method Place(today: nat, now: nat) returns (orderNumber: string)
      requires Valid() && FourDigitYear(today) && today <= now
      requires forall p <- history :: p.createdAt <= today
      modifies this`createdAt, this`history
      ensures Valid() && history == old(history) + [Placed(today, now)]
      ensures orderNumber == NumberOf(history, |history| - 1, offset)
    {
      orderNumber := GenerateOrderNumber(today);
      createdAt := createdAt + [now];
      history := history + [Placed(today, now)];
      assert history[..|history| - 1] == old(history);
    }
  }
}
