/**
 The order of rows by creation time and id means what it says: a row sorts as older if and only if it was created
 earlier, in microseconds on the calendar, or at the same time with the smaller id.
 */
module Calendar {
  import opened FixedText
  import opened Cursors
  import opened Paging

  // ---------------------------------------------------------------- time as a number

  function DaysInYear(year: nat): nat {
    if IsLeap(year) then 366 else 365
  }

  function DaysBeforeYear(year: nat): nat {
    if year == 0 then 0 else DaysBeforeYear(year - 1) + DaysInYear(year - 1)
  }

  function DaysBeforeMonth(year: nat, month: nat): nat {
    if month <= 1 then 0 else DaysBeforeMonth(year, month - 1) + DaysIn(year, month - 1)
  }

  function DayNumber(t: DateTime): int {
    DaysBeforeYear(t.year) + DaysBeforeMonth(t.year, t.month) + t.day - 1
  }

  function TimeOfDay(t: DateTime): nat {
    ((t.hour * 60 + t.minute) * 60 + t.second) * 1000000 + t.micro
  }

  /** Microseconds since the beginning of the calendar. */
  function Micros(t: DateTime): int {
    DayNumber(t) * 86400000000 + TimeOfDay(t)
  }

  /** The 128 bits of an id as a number. */
  function IdNumber(u: Uuid): nat {
    (((u.low * 0x1_0000 + u.mid) * 0x1_0000 + u.high) * 0x1_0000 + u.clock) * 0x1_0000_0000_0000 + u.node
  }

  lemma MonthsFillYear(year: nat)
    ensures DaysBeforeMonth(year, 13) == DaysInYear(year)
  {
    assert DaysBeforeMonth(year, 2) == 31;
    assert DaysBeforeMonth(year, 3) == 31 + DaysIn(year, 2);
    assert DaysBeforeMonth(year, 5) == DaysBeforeMonth(year, 3) + 61;
    assert DaysBeforeMonth(year, 7) == DaysBeforeMonth(year, 5) + 61;
    assert DaysBeforeMonth(year, 9) == DaysBeforeMonth(year, 7) + 62;
    assert DaysBeforeMonth(year, 11) == DaysBeforeMonth(year, 9) + 61;
  }

  lemma {:induction false} MonthsGrow(year: nat, m: nat, n: nat)
    requires m <= n
    ensures DaysBeforeMonth(year, m) <= DaysBeforeMonth(year, n)
    decreases n
  {
    if m < n {
      MonthsGrow(year, m, n - 1);
    }
  }

  lemma {:induction false} YearsGrow(y: nat, z: nat)
    requires y <= z
    ensures DaysBeforeYear(y) <= DaysBeforeYear(z)
    decreases z
  {
    if y < z {
      YearsGrow(y, z - 1);
    }
  }

  /** A day lies within its month and its year. */
  lemma DayIsInYear(t: DateTime)
    requires ValidTime(t)
    ensures DaysBeforeYear(t.year) <= DayNumber(t) < DaysBeforeYear(t.year + 1)
    ensures DaysBeforeYear(t.year) + DaysBeforeMonth(t.year, t.month) <= DayNumber(t)
            < DaysBeforeYear(t.year) + DaysBeforeMonth(t.year, t.month + 1)
  {
    MonthsFillYear(t.year);
    MonthsGrow(t.year, t.month + 1, 13);
  }

  predicate DayBefore(t: DateTime, u: DateTime) {
    || t.year < u.year
    || (t.year == u.year && t.month < u.month)
    || (t.year == u.year && t.month == u.month && t.day < u.day)
  }

  lemma EarlierDayIsSmaller(t: DateTime, u: DateTime)
    requires ValidTime(t) && ValidTime(u) && DayBefore(t, u)
    ensures DayNumber(t) < DayNumber(u)
  {
    DayIsInYear(t);
    DayIsInYear(u);
    if t.year < u.year {
      YearsGrow(t.year + 1, u.year);
    } else if t.month < u.month {
      MonthsGrow(t.year, t.month + 1, u.month);
    }
  }

  predicate ClockBefore(t: DateTime, u: DateTime) {
    || t.hour < u.hour
    || (t.hour == u.hour && t.minute < u.minute)
    || (t.hour == u.hour && t.minute == u.minute && t.second < u.second)
    || (t.hour == u.hour && t.minute == u.minute && t.second == u.second && t.micro < u.micro)
  }

  lemma EarlierClockIsSmaller(t: DateTime, u: DateTime)
    requires ValidTime(t) && ValidTime(u)
    ensures TimeOfDay(t) < 86400000000
    ensures ClockBefore(t, u) ==> TimeOfDay(t) < TimeOfDay(u)
  {
  }

  predicate SameDay(t: DateTime, u: DateTime) {
    t.year == u.year && t.month == u.month && t.day == u.day
  }

  predicate TimeBefore(t: DateTime, u: DateTime) {
    DayBefore(t, u) || (SameDay(t, u) && ClockBefore(t, u))
  }

  lemma TimeBeforeIsSmaller(t: DateTime, u: DateTime)
    requires ValidTime(t) && ValidTime(u) && TimeBefore(t, u)
    ensures Micros(t) < Micros(u)
  {
    EarlierClockIsSmaller(t, u);
    if DayBefore(t, u) {
      EarlierDayIsSmaller(t, u);
    }
  }

  /** Times compare part by part as they compare in microseconds. */
  lemma TimeBeforeIff(t: DateTime, u: DateTime)
    requires ValidTime(t) && ValidTime(u)
    ensures TimeBefore(t, u) <==> Micros(t) < Micros(u)
    ensures t == u <==> Micros(t) == Micros(u)
  {
    if TimeBefore(t, u) {
      TimeBeforeIsSmaller(t, u);
    } else if TimeBefore(u, t) {
      TimeBeforeIsSmaller(u, t);
    }
  }

  // ---------------------------------------------------------------- ids as numbers

  predicate IdBefore(u: Uuid, v: Uuid) {
    || u.low < v.low
    || (u.low == v.low && u.mid < v.mid)
    || (u.low == v.low && u.mid == v.mid && u.high < v.high)
    || (u.low == v.low && u.mid == v.mid && u.high == v.high && u.clock < v.clock)
    || (u.low == v.low && u.mid == v.mid && u.high == v.high && u.clock == v.clock && u.node < v.node)
  }

  lemma IdBeforeIff(u: Uuid, v: Uuid)
    requires ValidUuid(u) && ValidUuid(v)
    ensures IdBefore(u, v) <==> IdNumber(u) < IdNumber(v)
  {
  }

  // ---------------------------------------------------------------- the order of rows

  lemma LessIdColumns(u: Uuid, v: Uuid)
    ensures Less(Cons(u.low, Cons(u.mid, Cons(u.high, Cons(u.clock, Cons(u.node, Nil))))),
                 Cons(v.low, Cons(v.mid, Cons(v.high, Cons(v.clock, Cons(v.node, Nil))))))
            == IdBefore(u, v)
  {
    assert Less(Cons(u.node, Nil), Cons(v.node, Nil)) <==> u.node < v.node;
    var (x, y) := (Cons(u.clock, Cons(u.node, Nil)), Cons(v.clock, Cons(v.node, Nil)));
    assert Less(x, y) <==> u.clock < v.clock || (u.clock == v.clock && u.node < v.node);
    assert Less(Cons(u.high, x), Cons(v.high, y)) <==> u.high < v.high || (u.high == v.high && Less(x, y));
    assert Less(Cons(u.mid, Cons(u.high, x)), Cons(v.mid, Cons(v.high, y))) <==>
           u.mid < v.mid || (u.mid == v.mid && Less(Cons(u.high, x), Cons(v.high, y)));
  }

  /** The columns of the time of day, before any others. */
  lemma LessClockColumns(t: DateTime, u: DateTime, x: Values, y: Values)
    ensures Less(Cons(t.hour, Cons(t.minute, Cons(t.second, Cons(t.micro, x)))),
                 Cons(u.hour, Cons(u.minute, Cons(u.second, Cons(u.micro, y)))))
            == (ClockBefore(t, u)
                || (t.hour == u.hour && t.minute == u.minute && t.second == u.second && t.micro == u.micro
                    && Less(x, y)))
  {
    var (a, b) := (Cons(t.second, Cons(t.micro, x)), Cons(u.second, Cons(u.micro, y)));
    assert Less(Cons(t.micro, x), Cons(u.micro, y)) <==> t.micro < u.micro || (t.micro == u.micro && Less(x, y));
    assert Less(a, b) <==>
           t.second < u.second || (t.second == u.second && Less(Cons(t.micro, x), Cons(u.micro, y)));
    assert Less(Cons(t.minute, a), Cons(u.minute, b)) <==>
           t.minute < u.minute || (t.minute == u.minute && Less(a, b));
  }

  lemma LessDayColumns(t: DateTime, u: DateTime, x: Values, y: Values)
    ensures Less(Cons(t.year, Cons(t.month, Cons(t.day, x))), Cons(u.year, Cons(u.month, Cons(u.day, y)))) <==>
            DayBefore(t, u) || (SameDay(t, u) && Less(x, y))
  {
    assert Less(Cons(t.day, x), Cons(u.day, y)) <==> t.day < u.day || (t.day == u.day && Less(x, y));
  }

  /** For all rows, sorting as older is having been created earlier, or at the same time with the smaller id. */
  lemma OlderIsEarlier(p: Position, q: Position)
    requires ValidPosition(p) && ValidPosition(q)
    ensures Older(p, q) <==>
            Micros(p.at) < Micros(q.at) || (Micros(p.at) == Micros(q.at) && IdNumber(p.id) < IdNumber(q.id))
  {
    var (t, u) := (p.at, q.at);
    var (x, y) := (SortColumns(p).tail.tail.tail, SortColumns(q).tail.tail.tail);
    LessDayColumns(t, u, x, y);
    LessClockColumns(t, u, x.tail.tail.tail.tail, y.tail.tail.tail.tail);
    LessIdColumns(p.id, q.id);
    TimeBeforeIff(t, u);
    IdBeforeIff(p.id, q.id);
  }

  /** Newest first: along a listing creation times never increase, and ids decrease where times are equal. */
  lemma NewestFirstIsByTime(items: seq<Position>, i: nat, j: nat)
    requires i < j < |items| && NewestFirst(items) && forall p :: p in items ==> ValidPosition(p)
    ensures Micros(items[j].at) <= Micros(items[i].at)
    ensures Micros(items[j].at) == Micros(items[i].at) ==> IdNumber(items[j].id) < IdNumber(items[i].id)
  {
    assert items[i] in items && items[j] in items;
    OlderIsEarlier(items[j], items[i]);
  }
}
