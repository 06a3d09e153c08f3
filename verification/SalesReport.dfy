/** Local days and the sales report. Times are whole microseconds of UTC; the restaurant's clock is
    a fixed offset ahead of it, as in Nairobi. Days are numbered as they follow one another. */
module SalesReport {
  type Time = int
  type PayMethod = string

  datatype Payment = Payment(at: Time, cents: int, means: PayMethod)

  /** The local date of a timestamp: `to_local(t).date()`. */
  function LocalDay(off: int, t: Time): int { (t + off) / 86_400_000_000 }

  /** Local midnight at the start of a day, in UTC. */
  function Midnight(off: int, day: int): Time { day * 86_400_000_000 - off }

  /** `day_bounds_utc`. */
  function DayBounds(off: int, t: Time): (Time, Time) {
    var start := Midnight(off, LocalDay(off, t));
    (start, start + 86_400_000_000)
  }

  /** `days_ago_utc`: the start of the local day that the clock showed so many days ago. */
  function DaysAgo(off: int, now: Time, days: int): Time { DayBounds(off, now - days * 86_400_000_000).0 }

  /** Consecutive local days tile the time line: a time lies within the bounds of a day exactly if
      its local date is that day, and a day ends where the next one starts. */
  lemma DaysTile(off: int, t: Time, u: Time)
    ensures var (start, end) := DayBounds(off, t);
            && start <= t < end
            && (start <= u < end <==> LocalDay(off, u) == LocalDay(off, t))
            && DayBounds(off, end) == (end, end + 86_400_000_000)
            && LocalDay(off, end) == LocalDay(off, t) + 1
  {
    MidnightStarts(off, LocalDay(off, t), t);
    MidnightStarts(off, LocalDay(off, t), u);
    MidnightStarts(off, LocalDay(off, t) + 1, DayBounds(off, t).1);
  }

  lemma MidnightStarts(off: int, day: int, t: Time)
    ensures Midnight(off, day) <= t < Midnight(off, day + 1) <==> LocalDay(off, t) == day
    ensures Midnight(off, day) <= t <==> day <= LocalDay(off, t)
  {
  }

  lemma DaysAgoIsMidnight(off: int, now: Time, days: int)
    ensures DaysAgo(off, now, days) == Midnight(off, LocalDay(off, now) - days)
  {
    assert (now - days * 86_400_000_000 + off) / 86_400_000_000 == (now + off) / 86_400_000_000 - days;
  }

  /** Nairobi is three hours ahead: there, the last three hours of a UTC day belong to the next one. */
  lemma NairobiIsAhead(day: int, x: int)
    requires 0 <= x < 86_400_000_000
    ensures LocalDay(10_800_000_000, day * 86_400_000_000 + x) == if x < 75_600_000_000 then day else day + 1
    ensures Midnight(10_800_000_000, day) == (day - 1) * 86_400_000_000 + 75_600_000_000
  {
    MidnightStarts(10_800_000_000, if x < 75_600_000_000 then day else day + 1, day * 86_400_000_000 + x);
  }

  // --------------------------------------------------------------------- the report

  /** Payments of the first n that were received from start on and before end. */
  function Between(ps: seq<Payment>, n: nat, start: Time, end: Time): int
    requires n <= |ps|
  {
    if n == 0 then 0
    else Between(ps, n - 1, start, end) + if start <= ps[n - 1].at < end then ps[n - 1].cents else 0
  }

  /** Gross revenue: everything from the window's start on. */
  function Gross(ps: seq<Payment>, n: nat, start: Time): int
    requires n <= |ps|
  {
    if n == 0 then 0 else Gross(ps, n - 1, start) + if start <= ps[n - 1].at then ps[n - 1].cents else 0
  }

  function WindowStart(off: int, now: Time, days: nat): Time { DaysAgo(off, now, days - 1) }

  function Today(off: int, now: Time): int { LocalDay(off, now) }

  /** A key for every day of the window. */
  method EmptySeries(first: int, days: nat) returns (daily: map<int, int>)
    ensures forall d :: d in daily <==> first <= d < first + days
    ensures forall d :: d in daily ==> daily[d] == 0
  {
    daily := map[];
    for i := 0 to days
      invariant forall d :: d in daily <==> first <= d < first + i
      invariant forall d :: d in daily ==> daily[d] == 0
    {
      daily := daily[first + i := 0];
    }
  }

  /** The payments of a day, among the first n. */
  function OnDay(off: int, ps: seq<Payment>, n: nat, day: int): int
    requires n <= |ps|
  {
    Between(ps, n, Midnight(off, day), Midnight(off, day + 1))
  }

  lemma OneMorePayment(off: int, ps: seq<Payment>, k: nat, day: int)
    requires k < |ps|
    ensures OnDay(off, ps, k + 1, day) == OnDay(off, ps, k, day) + if LocalDay(off, ps[k].at) == day then ps[k].cents else 0
  {
    MidnightStarts(off, day, ps[k].at);
  }

  /** The daily series: a key for every day of the window, and every payment of the window whose
      date has a key added to that day. */
  method DailySeries(off: int, now: Time, days: nat, ps: seq<Payment>) returns (daily: map<int, int>)
    ensures forall d :: d in daily <==> Today(off, now) - days < d <= Today(off, now)
    ensures forall d :: d in daily ==> daily[d] == OnDay(off, ps, |ps|, d)
  {
    var start := WindowStart(off, now, days);
    var first := LocalDay(off, start);
    DaysAgoIsMidnight(off, now, days - 1);
    MidnightStarts(off, Today(off, now) - days + 1, start);
    daily := EmptySeries(first, days);
    for k := 0 to |ps|
      invariant forall d :: d in daily <==> first <= d < first + days
      invariant forall d :: d in daily ==> daily[d] == OnDay(off, ps, k, d)
    {
      forall d ensures OnDay(off, ps, k + 1, d) == OnDay(off, ps, k, d) + if LocalDay(off, ps[k].at) == d then ps[k].cents else 0 {
        OneMorePayment(off, ps, k, d);
      }
      if ps[k].at >= start {
        var key := LocalDay(off, ps[k].at);
        if key in daily {
          daily := daily[key := daily[key] + ps[k].cents];
        }
      } else {
        MidnightStarts(off, first, ps[k].at);
      }
    }
  }

  /** The series, summed over n days from the first. */
  function SumSeries(daily: map<int, int>, first: int, n: nat): int
    requires forall d :: first <= d < first + n ==> d in daily
  {
    if n == 0 then 0 else SumSeries(daily, first, n - 1) + daily[first + n - 1]
  }

  lemma {:induction false} SplitAt(ps: seq<Payment>, n: nat, a: Time, b: Time, c: Time)
    requires n <= |ps| && a <= b <= c
    ensures Between(ps, n, a, b) + Between(ps, n, b, c) == Between(ps, n, a, c)
    decreases n
  {
    if n > 0 { SplitAt(ps, n - 1, a, b, c); }
  }

  lemma {:induction false} GrossSplitsAt(ps: seq<Payment>, n: nat, a: Time, b: Time)
    requires n <= |ps| && a <= b
    ensures Between(ps, n, a, b) + Gross(ps, n, b) == Gross(ps, n, a)
    decreases n
  {
    if n > 0 { GrossSplitsAt(ps, n - 1, a, b); }
  }

  lemma {:induction false} NothingBetween(ps: seq<Payment>, n: nat, a: Time)
    requires n <= |ps|
    ensures Between(ps, n, a, a) == 0
    decreases n
  {
    if n > 0 { NothingBetween(ps, n - 1, a); }
  }

  lemma {:induction false} SeriesIsBetween(off: int, ps: seq<Payment>, daily: map<int, int>, first: int, n: nat)
    requires forall d :: first <= d < first + n ==>
               d in daily && daily[d] == OnDay(off, ps, |ps|, d)
    ensures SumSeries(daily, first, n) == Between(ps, |ps|, Midnight(off, first), Midnight(off, first + n))
    decreases n
  {
    if n == 0 {
      NothingBetween(ps, |ps|, Midnight(off, first));
    } else {
      SeriesIsBetween(off, ps, daily, first, n - 1);
      SplitAt(ps, |ps|, Midnight(off, first), Midnight(off, first + n - 1), Midnight(off, first + n));
    }
  }

  lemma {:induction false} NoFuturePayments(ps: seq<Payment>, n: nat, now: Time, end: Time)
    requires n <= |ps| && now < end && forall k :: 0 <= k < n ==> ps[k].at <= now
    ensures Gross(ps, n, end) == 0
    decreases n
  {
    if n > 0 { NoFuturePayments(ps, n - 1, now, end); }
  }

  /** Every payment from the window's start to the end of today lands in exactly one day: the daily
      series sums to those payments, and to gross revenue exactly when the payments dated after
      today sum to nothing; in particular when every payment was stamped before the report. */
  lemma SeriesSumsToGross(off: int, now: Time, days: nat, ps: seq<Payment>, daily: map<int, int>)
    requires 1 <= days
    requires forall d :: d in daily <==> Today(off, now) - days < d <= Today(off, now)
    requires forall d :: d in daily ==> daily[d] == OnDay(off, ps, |ps|, d)
    ensures var start, end := WindowStart(off, now, days), DayBounds(off, now).1;
            var series := SumSeries(daily, Today(off, now) - days + 1, days);
            && start <= now < end
            && series == Between(ps, |ps|, start, end)
            && (series == Gross(ps, |ps|, start) <==> Gross(ps, |ps|, end) == 0)
            && ((forall k :: 0 <= k < |ps| ==> ps[k].at <= now) ==> series == Gross(ps, |ps|, start))
  {
    var first := Today(off, now) - days + 1;
    DaysAgoIsMidnight(off, now, days - 1);
    MidnightStarts(off, Today(off, now), now);
    MidnightStarts(off, first, now);
    SeriesIsBetween(off, ps, daily, first, days);
    GrossSplitsAt(ps, |ps|, WindowStart(off, now, days), DayBounds(off, now).1);
    if forall k :: 0 <= k < |ps| ==> ps[k].at <= now { NoFuturePayments(ps, |ps|, now, DayBounds(off, now).1); }
  }

  // ------------------------------------------------------------------ the method split

  /** One group of `GROUP BY method`. */
  function Paid(ps: seq<Payment>, n: nat, start: Time, means: PayMethod): int
    requires n <= |ps|
  {
    if n == 0 then 0
    else
      var p := ps[n - 1];
      Paid(ps, n - 1, start, means) + if start <= p.at && p.means == means then p.cents else 0
  }

  function SumGroups(groups: seq<PayMethod>, m: nat, ps: seq<Payment>, n: nat, start: Time): int
    requires m <= |groups| && n <= |ps|
  {
    if m == 0 then 0 else SumGroups(groups, m - 1, ps, n, start) + Paid(ps, n, start, groups[m - 1])
  }

  /** One more payment counts in the one group of its method. */
  lemma {:induction false} GroupsOneMore(groups: seq<PayMethod>, m: nat, ps: seq<Payment>, n: nat, start: Time)
    requires m <= |groups| && 0 < n <= |ps|
    requires forall i, j :: 0 <= i < j < |groups| ==> groups[i] != groups[j]
    ensures SumGroups(groups, m, ps, n, start) - SumGroups(groups, m, ps, n - 1, start) ==
            if start <= ps[n - 1].at && ps[n - 1].means in groups[..m] then ps[n - 1].cents else 0
    decreases m
  {
    if m > 0 {
      GroupsOneMore(groups, m - 1, ps, n, start);
      assert groups[..m] == groups[..m - 1] + [groups[m - 1]];
    }
  }

  lemma {:induction false} NoGroups(groups: seq<PayMethod>, m: nat, ps: seq<Payment>, start: Time)
    requires m <= |groups|
    ensures SumGroups(groups, m, ps, 0, start) == 0
    decreases m
  {
    if m > 0 { NoGroups(groups, m - 1, ps, start); }
  }

  /** The split by payment method sums to gross revenue, whatever the methods are, as long as every
      method used in the window has its row and none has two. */
  lemma {:induction false} MethodSplitSumsToGross(groups: seq<PayMethod>, ps: seq<Payment>, n: nat, start: Time)
    requires n <= |ps|
    requires forall i, j :: 0 <= i < j < |groups| ==> groups[i] != groups[j]
    requires forall k :: 0 <= k < n && start <= ps[k].at ==> ps[k].means in groups
    ensures SumGroups(groups, |groups|, ps, n, start) == Gross(ps, n, start)
    decreases n
  {
    if n == 0 {
      NoGroups(groups, |groups|, ps, start);
    } else {
      MethodSplitSumsToGross(groups, ps, n - 1, start);
      GroupsOneMore(groups, |groups|, ps, n, start);
      assert groups[..|groups|] == groups;
    }
  }
}
