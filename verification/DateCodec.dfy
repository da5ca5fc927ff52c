/**
  The day-number codec of occurrencetobin: `g` turns a Gregorian date into a day number
  and `d` turns the number back, in closed form and with the tuned constant 14780.

  The reference is the calendar itself: leap years, month lengths and "the next day".
  Years are counted from 1 March, so YearStart(y) is the number of 1 March of year y.
*/
module DateCodec {

  datatype Date = Date(year: int, month: int, day: int)

  // ---------- the calendar ----------

  predicate IsLeap(y: int) {
    y % 4 == 0 && (y % 100 != 0 || y % 400 == 0)
  }

  function DaysInMonth(y: int, m: int): int {
    if m == 2 then (if IsLeap(y) then 29 else 28)
    else if m == 4 || m == 6 || m == 9 || m == 11 then 30
    else 31
  }

  predicate ValidDate(t: Date) {
    1 <= t.month <= 12 && 1 <= t.day <= DaysInMonth(t.year, t.month)
  }

  function NextDay(t: Date): Date {
    if t.day < DaysInMonth(t.year, t.month) then t.(day := t.day + 1)
    else if t.month < 12 then Date(t.year, t.month + 1, 1)
    else Date(t.year + 1, 1, 1)
  }

  // ---------- the code ----------
  //
  // Every quotient below has a non-negative dividend, where C++ division and Dafny division
  // agree: the dates start with 1 March of year 0 and the day numbers with 0.

  /** Number of 1 March of year y. */
  function YearStart(y: int): int {
    365 * y + y / 4 - y / 100 + y / 400
  }

  /** Months since March. */
  function MarchMonth(m: int): int { (m + 9) % 12 }

  /** Position inside a March-based year of the first day of month mi (March is 0). */
  function MonthStart(mi: int): int { (mi * 306 + 5) / 10 }

  function G(t: Date): int {
    var m := MarchMonth(t.month);
    YearStart(t.year - m / 10) + MonthStart(m) + (t.day - 1)
  }

  function D(n: int): Date {
    var y0 := (10000 * n + 14780) / 3652425;
    var y := if n - YearStart(y0) < 0 then y0 - 1 else y0;
    WithinYear(y, n - YearStart(y))
  }

  /** The date at position ddd of the March-based year y. */
  function WithinYear(y: int, ddd: int): Date {
    var mi := (100 * ddd + 52) / 3060;
    Date(y + (mi + 2) / 12, (mi + 2) % 12 + 1, ddd - MonthStart(mi) + 1)
  }

  // ---------- the March-based year ----------

  /** YearStart in the digits of the 400-year cycle: centuries, leap cycles and single years. */
  lemma YearDigits(y: int) returns (c: int, b: int, a: int, q: int)
    requires y >= 0
    ensures c >= 0 && 0 <= b <= 3 && 0 <= a <= 24 && 0 <= q <= 3
    ensures y == 400 * c + 100 * b + 4 * a + q
    ensures YearStart(y) == 146097 * c + 36524 * b + 1461 * a + 365 * q
  {
    c := y / 400;
    var r := y - 400 * c;
    b := r / 100;
    var s := r - 100 * b;
    a := s / 4;
    q := s - 4 * a;
    DigitsAre(y, c, b, a, q);
  }

  lemma DigitsAre(y: int, c: int, b: int, a: int, q: int)
    requires c >= 0 && 0 <= b <= 3 && 0 <= a <= 24 && 0 <= q <= 3
    requires y == 400 * c + 100 * b + 4 * a + q
    ensures y / 400 == c && y / 100 == 4 * c + b && y / 4 == 100 * c + 25 * b + a
    ensures YearStart(y) == 146097 * c + 36524 * b + 1461 * a + 365 * q
    ensures IsLeap(y) <==> q == 0 && (a != 0 || b == 0)
  {
    assert y / 400 == c;
    assert y / 100 == 4 * c + b;
    assert y / 4 == 100 * c + 25 * b + a;
    assert y % 4 == q;
    assert y % 100 == 4 * a + q;
    assert y % 400 == 100 * b + 4 * a + q;
  }

  /** A year counted from 1 March is a day longer exactly when the February that ends it is leap. */
  lemma YearLength(y: int)
    requires y >= 0
    ensures YearStart(y + 1) - YearStart(y) == if IsLeap(y + 1) then 366 else 365
  {
    var c, b, a, q := YearDigits(y);
    if q < 3 { DigitsAre(y + 1, c, b, a, q + 1); }
    else if a < 24 { DigitsAre(y + 1, c, b, a + 1, 0); }
    else if b < 3 { DigitsAre(y + 1, c, b + 1, 0, 0); }
    else { DigitsAre(y + 1, c + 1, 0, 0, 0); }
  }

  lemma YearStartMonotone(y: int, z: int)
    requires 0 <= y < z
    ensures YearStart(y) + 365 <= YearStart(z)
    decreases z
  {
    YearLength(z - 1);
    if y < z - 1 { YearStartMonotone(y, z - 1); }
  }

  /**
    The window the constant 14780 has to hit: the scaled first day of a year is at most
    14775 short of the scaled mean (year 303 of the cycle attains it), and the last day
    stays below the year after next.
  */
  lemma ScaledYearStart(y: int)
    requires y >= 0
    ensures 3652425 * y <= 10000 * YearStart(y) + 14775
    ensures 10000 * YearStart(y) <= 3652425 * y + 7200
    ensures y % 400 == 303 ==> 3652425 * y == 10000 * YearStart(y) + 14775
  {
    var c, b, a, q := YearDigits(y);
    if y % 400 == 303 { assert b == 3 && a == 0 && q == 3; }
  }

  /** The division by the mean year length lands on the right year or on the one after. */
  lemma YearGuess(y: int, n: int)
    requires y >= 0 && YearStart(y) <= n < YearStart(y + 1)
    ensures y <= (10000 * n + 14780) / 3652425 <= y + 1
  {
    ScaledYearStart(y);
    ScaledYearStart(y + 1);
  }

  /** Every day number belongs to exactly one March-based year. */
  lemma YearOfDay(n: int) returns (y: int)
    requires n >= 0
    ensures 0 <= y && YearStart(y) <= n < YearStart(y + 1)
  {
    y := 0;
    while YearStart(y + 1) <= n
      invariant 0 <= y && YearStart(y) <= n
      decreases n - YearStart(y)
    {
      YearLength(y);
      y := y + 1;
    }
  }

  lemma DecodeYear(y: int, n: int)
    requires y >= 0 && YearStart(y) <= n < YearStart(y + 1)
    ensures 0 <= n - YearStart(y) <= 365
    ensures D(n) == WithinYear(y, n - YearStart(y))
  {
    YearLength(y);
    YearGuess(y, n);
    YearStartMonotone(y, y + 1);
  }

  // ---------- the month table ----------

  /** The March-based year a date belongs to. */
  function MarchYear(t: Date): int {
    if t.month <= 2 then t.year - 1 else t.year
  }

  /** The rounded multiples of 30.6 are the lengths of the months from March on. */
  lemma MonthTable(y: int, m: int)
    requires 1 <= m <= 12
    ensures m != 2 ==> MonthStart(MarchMonth(m)) + DaysInMonth(y, m) == MonthStart(MarchMonth(m) + 1)
    ensures m == 2 ==> MonthStart(MarchMonth(m)) == 337
    ensures 0 <= MonthStart(MarchMonth(m)) <= 337 && 0 <= MarchMonth(m) <= 11
    ensures MarchMonth(m) == 0 <==> m == 3
    ensures MonthStart(0) == 0
  {
    var k := MarchMonth(m);
    assert k == if m <= 2 then m + 9 else m - 3;
    if m == 1 {} else if m == 2 {} else if m == 3 {} else if m == 4 {}
    else if m == 5 {} else if m == 6 {} else if m == 7 {} else if m == 8 {}
    else if m == 9 {} else if m == 10 {} else if m == 11 {} else { assert m == 12; }
  }

  /** The month index is found from the day's position in the year by one division. */
  lemma MonthOfDay(mi: int, e: int)
    requires 0 <= mi <= 11 && MonthStart(mi) <= e <= 365
    requires mi < 11 ==> e < MonthStart(mi + 1)
    ensures (100 * e + 52) / 3060 == mi
  {
    assert 306 * mi - 4 <= 10 * MonthStart(mi) <= 306 * mi + 5;
    if mi < 11 { assert 10 * MonthStart(mi + 1) <= 306 * mi + 311; }
    if mi == 0 {} else if mi == 1 {} else if mi == 2 {} else if mi == 3 {} else if mi == 4 {}
    else if mi == 5 {} else if mi == 6 {} else if mi == 7 {} else if mi == 8 {}
    else if mi == 9 {} else if mi == 10 {} else { assert mi == 11; }
  }

  // ---------- encoding ----------

  function PositionInYear(t: Date): int {
    MonthStart(MarchMonth(t.month)) + t.day - 1
  }

  /** A valid date sits inside its month, and decoding that position inside its year gives it back. */
  lemma MonthPosition(t: Date)
    requires ValidDate(t)
    ensures 0 <= PositionInYear(t) <= if IsLeap(MarchYear(t) + 1) then 365 else 364
    ensures WithinYear(MarchYear(t), PositionInYear(t)) == t
  {
    MonthTable(t.year, t.month);
    var mi := MarchMonth(t.month);
    if mi < 11 { MonthStartBelow(mi + 1); }
    MonthOfDay(mi, PositionInYear(t));
  }

  lemma MonthStartBelow(mi: int)
    requires 0 <= mi <= 11
    ensures 0 <= MonthStart(mi) <= 337
  {
    assert 0 <= mi * 306 + 5 <= 3371;
  }

  lemma EncodeIsPosition(t: Date)
    requires 1 <= t.month <= 12
    ensures G(t) == YearStart(MarchYear(t)) + PositionInYear(t)
  {
    assert MarchMonth(t.month) / 10 == if t.month <= 2 then 1 else 0;
  }

  /** Decoding undoes encoding for every valid date from 1 March of year 0 on. */
  lemma DecodeEncode(t: Date)
    requires ValidDate(t) && MarchYear(t) >= 0
    ensures D(G(t)) == t && G(t) >= 0
  {
    var n, y, e := EncodeLocates(t);
    DecodePosition(t, y, e, n);
  }

  lemma EncodeLocates(t: Date) returns (n: int, y: int, e: int)
    requires ValidDate(t) && MarchYear(t) >= 0
    ensures n == G(t) && y >= 0 && 0 <= e <= (if IsLeap(y + 1) then 365 else 364)
    ensures WithinYear(y, e) == t && n == YearStart(y) + e
  {
    n, y, e := G(t), MarchYear(t), PositionInYear(t);
    EncodeIsPosition(t);
    MonthPosition(t);
  }

  lemma DecodePosition(t: Date, y: int, e: int, n: int)
    requires y >= 0 && 0 <= e <= (if IsLeap(y + 1) then 365 else 364)
    requires WithinYear(y, e) == t && n == YearStart(y) + e
    ensures D(n) == t && n >= 0
  {
    PositionBounds(y, e, n);
    DecodeYear(y, n);
  }

  lemma PositionBounds(y: int, e: int, n: int)
    requires y >= 0 && 0 <= e <= (if IsLeap(y + 1) then 365 else 364)
    requires n == YearStart(y) + e
    ensures YearStart(y) <= n < YearStart(y + 1) && n >= 0
  {
    YearLength(y);
    if y > 0 { YearStartMonotone(0, y); }
  }

  /** Encoding undoes decoding for every non-negative day number, and decoding gives a valid date. */
  lemma EncodeDecode(n: int)
    requires n >= 0
    ensures ValidDate(D(n)) && MarchYear(D(n)) >= 0 && G(D(n)) == n
  {
    var y := YearOfDay(n);
    YearLength(y);
    DecodeYear(y, n);
    var t := DateAt(y, n - YearStart(y));
    MonthPosition(t);
    EncodeIsPosition(t);
  }

  /** Every position inside a March-based year is the position of a valid date. */
  lemma DateAt(y: int, e: int) returns (t: Date)
    requires y >= 0 && 0 <= e <= if IsLeap(y + 1) then 365 else 364
    ensures ValidDate(t) && MarchYear(t) == y && PositionInYear(t) == e && t.year >= 0
  {
    t := Date(y, 3, 1);
    MonthTable(y, 3);
    while PositionInYear(t) < e
      invariant ValidDate(t) && MarchYear(t) == y && PositionInYear(t) <= e && t.year >= 0
      decreases e - PositionInYear(t)
    {
      NextDayPosition(t);
      t := NextDay(t);
    }
  }

  predicate EndsMarchYear(t: Date) { t.month == 2 && t.day == DaysInMonth(t.year, 2) }

  /** The next day is one position on, or the first day of the next March-based year. */
  lemma NextDayPosition(t: Date)
    requires ValidDate(t)
    ensures ValidDate(NextDay(t))
    ensures !EndsMarchYear(t) ==>
              MarchYear(NextDay(t)) == MarchYear(t) && PositionInYear(NextDay(t)) == PositionInYear(t) + 1
    ensures EndsMarchYear(t) ==>
              MarchYear(NextDay(t)) == MarchYear(t) + 1 && PositionInYear(NextDay(t)) == 0
              && PositionInYear(t) == if IsLeap(MarchYear(t) + 1) then 365 else 364
  {
    if t.day == DaysInMonth(t.year, t.month) { MonthEnd(t); }
  }

  lemma MonthEnd(t: Date)
    requires ValidDate(t) && t.day == DaysInMonth(t.year, t.month)
    ensures t.month != 2 ==> PositionInYear(NextDay(t)) == PositionInYear(t) + 1
    ensures t.month == 2 ==> PositionInYear(NextDay(t)) == 0
                             && PositionInYear(t) == if IsLeap(t.year) then 365 else 364
  {
    MonthTable(t.year, t.month);
    assert t.month != 2 ==> MarchMonth(NextDay(t).month) == MarchMonth(t.month) + 1;
  }

  /** Consecutive dates get consecutive numbers. */
  lemma NextDayNumber(t: Date)
    requires ValidDate(t) && MarchYear(t) >= 0
    ensures ValidDate(NextDay(t)) && G(NextDay(t)) == G(t) + 1
  {
    NextDayPosition(t);
    EncodeIsPosition(t);
    EncodeIsPosition(NextDay(t));
    YearLength(MarchYear(t));
  }

  /** The numbers count from 1 March of year 0. */
  lemma NumberingStarts(t: Date)
    requires t.year == 0 && t.month == 3 && t.day == 1
    ensures G(t) == 0
  {
    EncodeIsPosition(t);
    FirstPosition(t);
  }

  lemma FirstPosition(t: Date)
    requires t.year == 0 && t.month == 3 && t.day == 1
    ensures YearStart(MarchYear(t)) == 0 && PositionInYear(t) == 0
  {}

  /** Counting up the day numbers walks the calendar one day at a time. */
  lemma DecodeWalksCalendar(n: int)
    requires n >= 0
    ensures D(n + 1) == NextDay(D(n))
  {
    var t := EncodeDecodeAs(n);
    DecodeNext(t, n);
  }

  lemma DecodeNext(t: Date, n: int)
    requires ValidDate(t) && MarchYear(t) >= 0 && n == G(t)
    ensures D(n + 1) == NextDay(t)
  {
    var u := NextDayAs(t);
    DecodeEncode(u);
  }

  lemma EncodeDecodeAs(n: int) returns (t: Date)
    requires n >= 0
    ensures t == D(n) && ValidDate(t) && MarchYear(t) >= 0 && n == G(t)
  {
    EncodeDecode(n);
    t := D(n);
  }

  lemma NextDayAs(t: Date) returns (u: Date)
    requires ValidDate(t) && MarchYear(t) >= 0
    ensures u == NextDay(t) && ValidDate(u) && MarchYear(u) >= 0 && G(u) == G(t) + 1
  {
    NextDayNumber(t);
    NextDayPosition(t);
    u := NextDay(t);
  }

  lemma YearSurvives(t: Date, id: int)
    requires id == G(t)
    ensures ValidDate(t) && t.year >= 1 ==> D(id) == t
  {
    if ValidDate(t) && t.year >= 1 { DecodeEncode(t); }
  }

  // ---------- occ_doit ----------

  newtype Positive = n: int | n >= 1 witness 1

  /** A row of the csv file; its fields are read as positive numbers, valid as a date or not. */
  datatype OccurrenceRow = OccurrenceRow(event_id: int, period_no: int, year: Positive, month: Positive,
                                         day: Positive) {
    function date(): Date { Date(year as int, month as int, day as int) }
  }
  datatype Occurrence = Occurrence(event_id: int, period_no: int, occ_date_id: int)

  /** The row was written as it was read, and a valid date can be read back from its day number. */
  ghost predicate Converted(o: Occurrence, r: OccurrenceRow) {
    && o.event_id == r.event_id && o.period_no == r.period_no
    && (ValidDate(r.date()) ==> D(o.occ_date_id) == r.date())
  }

  /**
    The conversion loop for rows that carry a date. It stops at the first row whose period
    exceeds the number of periods. yearMismatch is the self-check on the decoded year: it
    stays silent as long as every date is a valid one.
  */
  method OccDoit(rows: seq<OccurrenceRow>, numberOfPeriods: int)
      returns (written: seq<Occurrence>, fatal: bool, yearMismatch: bool)
    ensures yearMismatch ==> exists r :: r in rows && !ValidDate(r.date())
    ensures fatal <==> exists r :: r in rows && r.period_no > numberOfPeriods
    ensures |written| <= |rows| && (!fatal ==> |written| == |rows|)
    ensures fatal ==> |written| < |rows| && rows[|written|].period_no > numberOfPeriods
    ensures forall k :: 0 <= k < |written| ==>
              Converted(written[k], rows[k]) && rows[k].period_no <= numberOfPeriods
  {
    written, yearMismatch := [], false;
    for i := 0 to |rows|
      invariant |written| == i
      invariant yearMismatch ==> exists r :: r in rows && !ValidDate(r.date())
      invariant forall k :: 0 <= k < i ==>
                  Converted(written[k], rows[k]) && rows[k].period_no <= numberOfPeriods
    {
      var r := rows[i];
      assert r in rows;
      if numberOfPeriods < r.period_no {
        return written, true, yearMismatch;
      }
      var o, mismatch := Convert(r);
      yearMismatch := yearMismatch || mismatch;
      written := written + [o];
    }
    fatal := false;
  }

  /** One row: encode the date, decode it again and compare the years. */
  method Convert(r: OccurrenceRow) returns (o: Occurrence, mismatch: bool)
    ensures Converted(o, r)
    ensures mismatch ==> !ValidDate(r.date())
  {
    var t := r.date();
    var id := G(t);
    YearSurvives(t, id);
    var decoded := D(id);
    o := Occurrence(r.event_id, r.period_no, id);
    mismatch := decoded.year != t.year;
  }
}
