/** The pure helpers of services/dataService.ts, plus the date-only string conventions the
    engine relies on (a date-only string is a UTC-midnight day number; `toISOString()` is
    cut at its 'T'). */
module DataService {
  import opened Types
  import opened Seqs

  /** calculateRevenue: the sum of the bookings' totalAmount. */
  function CalculateRevenue(bookings: seq<Booking>): (r: int)
    ensures bookings == [] ==> r == 0
    ensures (forall b :: b in bookings ==> b.totalAmount >= 0) ==> r >= 0
  {
    if bookings == [] then 0 else bookings[0].totalAmount + CalculateRevenue(bookings[1..])
  }

  /** The revenue of two lists together is the sum of their revenues, so the reduce
      does not depend on how the list is split. */
  lemma {:induction false} RevenueAppend(a: seq<Booking>, b: seq<Booking>)
    ensures CalculateRevenue(a + b) == CalculateRevenue(a) + CalculateRevenue(b)
  {
    if a == [] {
      assert a + b == b;
    } else {
      assert (a + b)[0] == a[0] && (a + b)[1..] == a[1..] + b;
      RevenueAppend(a[1..], b);
    }
  }

  datatype EquipmentStats = EquipmentStats(total: int, available: int, rented: int, maintenance: int)

  /** How many pieces of equipment have status `st` (`filter(e => e.status === st).length`). */
  function CountStatus(equipment: seq<Equipment>, st: EquipmentStatus): (n: nat)
    ensures n <= |equipment|
  {
    |Filter(equipment, (e: Equipment) => e.status == st)|
  }

  /** The four statuses partition the equipment list. */
  lemma {:induction false} StatusPartition(equipment: seq<Equipment>)
    ensures CountStatus(equipment, Available) + CountStatus(equipment, Rented)
          + CountStatus(equipment, Maintenance) + CountStatus(equipment, Retired) == |equipment|
  {
    if equipment != [] {
      StatusPartition(equipment[1..]);
    }
  }

  /** getEquipmentStats. Retired equipment is counted in `total` only. */
  function GetEquipmentStats(equipment: seq<Equipment>): (r: EquipmentStats)
    ensures r.total == |equipment|
    ensures r.available + r.rented + r.maintenance <= r.total
    ensures r.available + r.rented + r.maintenance == r.total
            <==> forall e :: e in equipment ==> e.status != Retired
  {
    StatusPartition(equipment);
    assert CountStatus(equipment, Retired) == 0 <==> forall e :: e in equipment ==> e.status != Retired by {
      var retired := Filter(equipment, (e: Equipment) => e.status == Retired);
      if CountStatus(equipment, Retired) != 0 {
        assert retired[0] in retired;
      }
    }
    EquipmentStats(|equipment|, CountStatus(equipment, Available),
                   CountStatus(equipment, Rented), CountStatus(equipment, Maintenance))
  }

  /** calculateDays on two date-only values given as day numbers: the absolute difference
      in days, except that a zero difference counts as one day. */
  function CalculateDays(start: int, end: int): (r: int)
    ensures r >= 1
    ensures start != end ==> r == end - start || r == start - end
    ensures r >= end - start && r >= start - end
  {
    var diff := if end >= start then end - start else start - end;
    if diff == 0 then 1 else diff
  }

  lemma DaysSymmetric(start: int, end: int)
    ensures CalculateDays(start, end) == CalculateDays(end, start)
  {
  }

  lemma DaysSameDate(d: int)
    ensures CalculateDays(d, d) == 1
  {
  }

  /** A Gregorian calendar date as `new Date("YYYY-MM-DD")` accepts it. */
  predicate ValidDate(y: int, m: int, d: int)
  {
    1 <= m <= 12 && 1 <= d <= DaysInMonth(y, m)
  }

  function DaysInMonth(y: int, m: int): int
    requires 1 <= m <= 12
  {
    if m == 2 then (if (y % 4 == 0 && y % 100 != 0) || y % 400 == 0 then 29 else 28)
    else if m == 4 || m == 6 || m == 9 || m == 11 then 30
    else 31
  }

  /** The day number (days since 1970-01-01) that a date-only string parses to:
      `new Date("YYYY-MM-DD").getTime()` divided by 86 400 000. */
  function DayNumber(y: int, m: int, d: int): int
    requires ValidDate(y, m, d)
  {
    var y' := if m <= 2 then y - 1 else y;
    var era := y' / 400;
    var yoe := y' - era * 400;
    var mp := if m > 2 then m - 3 else m + 9;
    var doy := (153 * mp + 2) / 5 + d - 1;
    var doe := yoe * 365 + yoe / 4 - yoe / 100 + doy;
    era * 146097 + doe - 719468
  }

  /** Within one month the day numbers differ by the difference of the days, so
      calculateDays there is the distance in days (or one for the same date). */
  lemma SameMonthDays(y: int, m: int, d1: int, d2: int)
    requires ValidDate(y, m, d1) && ValidDate(y, m, d2)
    ensures DayNumber(y, m, d2) - DayNumber(y, m, d1) == d2 - d1
    ensures CalculateDays(DayNumber(y, m, d1), DayNumber(y, m, d2))
            == if d1 == d2 then 1 else if d2 > d1 then d2 - d1 else d1 - d2
  {
  }

  /** The documented example: 2024-01-01 to 2024-01-03 is two days, and the seed
      booking's 2023-10-25 to 2023-10-30 is five. */
  lemma DaysExamples()
    ensures DayNumber(1970, 1, 1) == 0
    ensures CalculateDays(DayNumber(2024, 1, 1), DayNumber(2024, 1, 3)) == 2
    ensures CalculateDays(DayNumber(2023, 10, 25), DayNumber(2023, 10, 30)) == 5
  {
  }

  /** `iso.split('T')[0]`: the text before the first 'T' (all of it when there is none). */
  function DatePart(iso: string): (r: string)
    ensures r <= iso
    ensures 'T' !in r
    ensures |r| < |iso| ==> iso[|r|] == 'T'
  {
    if iso == [] || iso[0] == 'T' then [] else [iso[0]] + DatePart(iso[1..])
  }

  /** Cutting at 'T' is idempotent: a date-only string passes through unchanged. */
  lemma DatePartIdempotent(iso: string)
    ensures DatePart(DatePart(iso)) == DatePart(iso)
  {
    DatePartOfPlain(DatePart(iso));
  }

  lemma {:induction false} DatePartOfPlain(s: string)
    requires 'T' !in s
    ensures DatePart(s) == s
  {
    if s != [] {
      DatePartOfPlain(s[1..]);
    }
  }

  lemma {:induction false} DatePartPrefix(date: string, rest: string)
    requires 'T' !in date && rest != [] && rest[0] == 'T'
    ensures DatePart(date + rest) == date
  {
    if date == [] {
      assert date + rest == rest;
    } else {
      assert (date + rest)[1..] == date[1..] + rest;
      DatePartPrefix(date[1..], rest);
    }
  }
}
