/**
 * The figures of `src/components/Dashboard.tsx`: which fines are unpaid, overdue
 * and due soon, the unpaid total, the four stats and the two three-entry panels.
 * The current time `now` and dates are milliseconds since the epoch; `parse` is
 * `new Date(s)`, `None` for an invalid date.
 */
module Dashboard {
  import opened Wrappers
  import opened Seqs
  import opened Fines

  const DAY_MS: nat := 24 * 60 * 60 * 1000

  /**
   * `differenceInDays(due, now)`: the whole days from `now` to `due`, truncated
   * toward zero, so negative once `due` is a full day past.
   */
  function DaysUntil(due: int, now: int): (d: int)
    ensures due >= now ==> d >= 0 && d * DAY_MS <= due - now < d * DAY_MS + DAY_MS
    ensures due < now ==> d <= 0 && d * DAY_MS - DAY_MS < due - now <= d * DAY_MS
  {
    var diff := due - now;
    if diff >= 0 then diff / DAY_MS else -((-diff) / DAY_MS)
  }

  predicate IsUnpaid(f: Fine) {
    f.status == Unpaid
  }

  /** Marked overdue, or unpaid with `now` after a valid due date. */
  predicate IsOverdue(f: Fine, now: int, parse: string -> Option<int>) {
    f.status == Overdue || (f.status == Unpaid && parse(f.dueDate).Some? && now > parse(f.dueDate).value)
  }

  /** Unpaid with a valid due date between 0 and 7 whole days away. */
  predicate IsDueSoon(f: Fine, now: int, parse: string -> Option<int>) {
    f.status == Unpaid && parse(f.dueDate).Some? && 0 <= DaysUntil(parse(f.dueDate).value, now) <= 7
  }

  /** `unpaidFines`. */
  function UnpaidFines(fines: seq<Fine>): seq<Fine> {
    Filter(fines, IsUnpaid)
  }

  /** `overdueFines`. */
  function OverdueFines(fines: seq<Fine>, now: int, parse: string -> Option<int>): seq<Fine> {
    Filter(fines, (f: Fine) => IsOverdue(f, now, parse))
  }

  /** `upcomingFines`. */
  function UpcomingFines(fines: seq<Fine>, now: int, parse: string -> Option<int>): seq<Fine> {
    Filter(fines, (f: Fine) => IsDueSoon(f, now, parse))
  }

  /** The sum of the amounts, as `reduce((sum, fine) => sum + fine.amount, 0)`. */
  function Sum(fines: seq<Fine>): int {
    if fines == [] then 0 else fines[0].amount + Sum(fines[1..])
  }

  /** `totalUnpaidAmount`. */
  function TotalUnpaid(fines: seq<Fine>): int {
    Sum(UnpaidFines(fines))
  }

  /** The amounts of the unpaid fines, summed over the whole list with 0 for the others. */
  function UnpaidAmounts(fines: seq<Fine>): int {
    if fines == [] then 0
    else (if IsUnpaid(fines[0]) then fines[0].amount else 0) + UnpaidAmounts(fines[1..])
  }

  /**
   * `unpaidFines` holds exactly the unpaid fines, in order, and `totalUnpaidAmount`
   * is the sum of their amounts.
   */
  lemma {:induction false} TotalUnpaidIsUnpaidAmounts(fines: seq<Fine>)
    ensures TotalUnpaid(fines) == UnpaidAmounts(fines)
    decreases |fines|
  {
    if fines != [] {
      TotalUnpaidIsUnpaidAmounts(fines[1..]);
      if IsUnpaid(fines[0]) {
        var r := UnpaidFines(fines);
        assert r == [fines[0]] + UnpaidFines(fines[1..]);
        assert r[0] == fines[0] && r[1..] == UnpaidFines(fines[1..]);
      }
    }
  }

  /** The unpaid total of two lists one after the other is the sum of their totals. */
  lemma {:induction false} TotalUnpaidAppend(a: seq<Fine>, b: seq<Fine>)
    ensures TotalUnpaid(a + b) == TotalUnpaid(a) + TotalUnpaid(b)
  {
    TotalUnpaidIsUnpaidAmounts(a + b);
    TotalUnpaidIsUnpaidAmounts(a);
    TotalUnpaidIsUnpaidAmounts(b);
    UnpaidAmountsAppend(a, b);
  }

  lemma {:induction false} UnpaidAmountsAppend(a: seq<Fine>, b: seq<Fine>)
    ensures UnpaidAmounts(a + b) == UnpaidAmounts(a) + UnpaidAmounts(b)
    decreases |a|
  {
    if a == [] {
      assert a + b == b;
    } else {
      assert (a + b)[0] == a[0] && (a + b)[1..] == a[1..] + b;
      UnpaidAmountsAppend(a[1..], b);
    }
  }

  /** Membership of the three lists: each holds exactly the fines of its rule, and due-soon fines are unpaid. */
  lemma Classification(fines: seq<Fine>, now: int, parse: string -> Option<int>, f: Fine)
    ensures f in UnpaidFines(fines) <==> f in fines && f.status == Unpaid
    ensures f in OverdueFines(fines, now, parse) <==> f in fines && IsOverdue(f, now, parse)
    ensures f in UpcomingFines(fines, now, parse) <==> f in fines && IsDueSoon(f, now, parse)
    ensures f in UpcomingFines(fines, now, parse) ==> f.status == Unpaid
    ensures f.status == Paid || f.status == Disputed ==>
      f !in OverdueFines(fines, now, parse) && f !in UpcomingFines(fines, now, parse)
  {
    var p := (g: Fine) => IsOverdue(g, now, parse);
    var q := (g: Fine) => IsDueSoon(g, now, parse);
    if f in OverdueFines(fines, now, parse) {
      var i :| 0 <= i < |Filter(fines, p)| && Filter(fines, p)[i] == f;
    }
    if f in UpcomingFines(fines, now, parse) {
      var i :| 0 <= i < |Filter(fines, q)| && Filter(fines, q)[i] == f;
    }
    if f in UnpaidFines(fines) {
      var i :| 0 <= i < |Filter(fines, IsUnpaid)| && Filter(fines, IsUnpaid)[i] == f;
    }
  }

  /**
   * A fine due one millisecond ago is both overdue and due soon: the whole-day
   * count truncates to 0, so both panels list it.
   */
  lemma OverdueAndDueSoon(f: Fine, now: int, parse: string -> Option<int>)
    requires f.status == Unpaid && parse(f.dueDate) == Some(now - 1)
    ensures IsOverdue(f, now, parse) && IsDueSoon(f, now, parse)
  {
    assert DaysUntil(now - 1, now) == 0;
  }

  /** The four stats: total unpaid, overdue count, due-soon count and the number of fines. */
  datatype Stats = Stats(totalUnpaid: int, overdue: nat, dueSoon: nat, total: nat)

  /** `stats`: the counts are of the filtered lists, so neither exceeds the number of fines. */
  function StatsOf(fines: seq<Fine>, now: int, parse: string -> Option<int>): (s: Stats)
    ensures s.total == |fines|
    ensures s.overdue == Count(fines, (f: Fine) => IsOverdue(f, now, parse))
    ensures s.dueSoon == Count(fines, (f: Fine) => IsDueSoon(f, now, parse))
    ensures s.overdue <= s.total && s.dueSoon <= s.total
    ensures s.totalUnpaid == UnpaidAmounts(fines)
  {
    TotalUnpaidIsUnpaidAmounts(fines);
    Stats(TotalUnpaid(fines), |OverdueFines(fines, now, parse)|, |UpcomingFines(fines, now, parse)|, |fines|)
  }

  /** `overdueFines.slice(0, 3)`: at most three, the first of the overdue list. */
  function OverduePanel(fines: seq<Fine>, now: int, parse: string -> Option<int>): (r: seq<Fine>)
    ensures |r| <= 3 && r <= OverdueFines(fines, now, parse)
    ensures |OverdueFines(fines, now, parse)| >= 3 ==> |r| == 3
    ensures |OverdueFines(fines, now, parse)| < 3 ==> r == OverdueFines(fines, now, parse)
    ensures forall i :: 0 <= i < |r| ==> IsOverdue(r[i], now, parse)
  {
    Take(OverdueFines(fines, now, parse), 3)
  }

  /** `upcomingFines.slice(0, 3)`: at most three, the first of the due-soon list. */
  function UpcomingPanel(fines: seq<Fine>, now: int, parse: string -> Option<int>): (r: seq<Fine>)
    ensures |r| <= 3 && r <= UpcomingFines(fines, now, parse)
    ensures |UpcomingFines(fines, now, parse)| >= 3 ==> |r| == 3
    ensures |UpcomingFines(fines, now, parse)| < 3 ==> r == UpcomingFines(fines, now, parse)
    ensures forall i :: 0 <= i < |r| ==> IsDueSoon(r[i], now, parse)
  {
    Take(UpcomingFines(fines, now, parse), 3)
  }
}
