/** The accountability report: who is carrying unpaid money, by name. Amounts stay in cents. */
module Accountability {
  import opened Options
  import M = OrderMoney
  import T = Till

  type Name = string
  type Time = int

  /** An order with its server's name, and the times its debts were recorded. */
  datatype Filed = Filed(placedAt: Time, server: Option<Name>, money: M.Money, debtAt: seq<Time>)

  /** One person's figures, or what a single row adds to them. */
  datatype Figures = Figures(served: int, sales: int, unpaidOrders: int, unpaid: int, creditGiven: int, credit: int)

  datatype Entry = Entry(name: Name, figures: Figures)

  const Zero := Figures(0, 0, 0, 0, 0, 0)

  datatype Column = Served | Sales | UnpaidOrders | Unpaid | CreditGiven | Credit

  function At(f: Figures, c: Column): int {
    match c
    case Served => f.served
    case Sales => f.sales
    case UnpaidOrders => f.unpaidOrders
    case Unpaid => f.unpaid
    case CreditGiven => f.creditGiven
    case Credit => f.credit
  }

  function Plus(a: Figures, b: Figures): Figures {
    Figures(a.served + b.served, a.sales + b.sales, a.unpaidOrders + b.unpaidOrders, a.unpaid + b.unpaid,
            a.creditGiven + b.creditGiven, a.credit + b.credit)
  }

  /** An absent or empty name. */
  function Slot(name: Option<Name>): Name {
    if name.Some? && name.value != "" then name.value else "Unattributed"
  }

  predicate Reported(o: Filed, since: Time) { o.placedAt >= since && !o.money.status.Cancelled? }

  function Shortfall(o: M.Money): int { o.total - M.SumPayments(o.payments) - M.Owed(o.debts) }

  function OrderEntry(o: Filed): Entry {
    var short := Shortfall(o.money);
    Entry(Slot(o.server),
          Figures(1, M.SumPayments(o.money.payments), if short > 0 then 1 else 0, M.Max(short, 0), 0, 0))
  }

  /** names holds the users that still exist. */
  function DebtEntry(o: Filed, d: M.Debt, names: map<M.UserId, Name>): Entry {
    var who := if d.recordedBy in names then Some(names[d.recordedBy]) else o.server;
    Entry(Slot(who), Figures(0, 0, 0, 0, 1, M.OutstandingOn(d)))
  }

  function OrderEntries(filed: seq<Filed>, since: Time): seq<Entry> {
    if filed == [] then []
    else
      var o := filed[|filed| - 1];
      OrderEntries(filed[..|filed| - 1], since) + if Reported(o, since) then [OrderEntry(o)] else []
  }

  predicate WellFiled(o: Filed) { |o.debtAt| == |o.money.debts| }

  /** The first n debts of the order, those recorded in the window. */
  function DebtEntriesOf(o: Filed, n: nat, names: map<M.UserId, Name>, since: Time): seq<Entry>
    requires WellFiled(o) && n <= |o.debtAt|
  {
    if n == 0 then []
    else
      DebtEntriesOf(o, n - 1, names, since)
      + if o.debtAt[n - 1] >= since then [DebtEntry(o, o.money.debts[n - 1], names)] else []
  }

  function DebtEntries(filed: seq<Filed>, names: map<M.UserId, Name>, since: Time): seq<Entry>
    requires forall i :: 0 <= i < |filed| ==> WellFiled(filed[i])
  {
    if filed == [] then []
    else
      var o := filed[|filed| - 1];
      DebtEntries(filed[..|filed| - 1], names, since) + DebtEntriesOf(o, |o.debtAt|, names, since)
  }

  function Entries(filed: seq<Filed>, names: map<M.UserId, Name>, since: Time): seq<Entry>
    requires forall i :: 0 <= i < |filed| ==> WellFiled(filed[i])
  {
    OrderEntries(filed, since) + DebtEntries(filed, names, since)
  }

  /** Everything entered in one column under one name. */
  function Tally(entries: seq<Entry>, name: Name, c: Column): int {
    if entries == [] then 0
    else
      var e := entries[|entries| - 1];
      Tally(entries[..|entries| - 1], name, c) + if e.name == name then At(e.figures, c) else 0
  }

  function Tallies(entries: seq<Entry>, name: Name): Figures {
    Figures(Tally(entries, name, Served), Tally(entries, name, Sales), Tally(entries, name, UnpaidOrders),
            Tally(entries, name, Unpaid), Tally(entries, name, CreditGiven), Tally(entries, name, Credit))
  }

  /** The sum of one column. */
  function Sum(entries: seq<Entry>, c: Column): int {
    if entries == [] then 0 else Sum(entries[..|entries| - 1], c) + At(entries[|entries| - 1].figures, c)
  }

  predicate Mentions(entries: seq<Entry>, name: Name) { exists i :: 0 <= i < |entries| && entries[i].name == name }

  /** The report: one row per name entered, with exactly what was entered under it. */
  ghost predicate ReportOk(rows: seq<Entry>, entries: seq<Entry>) {
    && (forall i, j :: 0 <= i < j < |rows| ==> rows[i].name != rows[j].name)
    && (forall i :: 0 <= i < |rows| ==> rows[i].figures == Tallies(entries, rows[i].name))
    && (forall name :: Mentions(rows, name) <==> Mentions(entries, name))
  }

  // --------------------------------------------------------------- reconciliation

  function TotalOf(filed: seq<Filed>, since: Time): int {
    if filed == [] then 0
    else
      var o := filed[|filed| - 1];
      TotalOf(filed[..|filed| - 1], since) + if Reported(o, since) then o.money.total else 0
  }

  /** Outstanding credit on the orders of the report. */
  function CreditOnReported(filed: seq<Filed>, since: Time): int {
    if filed == [] then 0
    else
      var o := filed[|filed| - 1];
      CreditOnReported(filed[..|filed| - 1], since) + if Reported(o, since) then M.Owed(o.money.debts) else 0
  }

  function CreditSince(o: Filed, n: nat, since: Time): int
    requires WellFiled(o) && n <= |o.debtAt|
  {
    if n == 0 then 0
    else CreditSince(o, n - 1, since) + if o.debtAt[n - 1] >= since then M.OutstandingOn(o.money.debts[n - 1]) else 0
  }

  /** Credit the report lists although the order it was given on is older or cancelled. */
  function StrayCredit(filed: seq<Filed>, since: Time): int
    requires forall i :: 0 <= i < |filed| ==> WellFiled(filed[i])
  {
    if filed == [] then 0
    else
      var o := filed[|filed| - 1];
      StrayCredit(filed[..|filed| - 1], since) + if Reported(o, since) then 0 else CreditSince(o, |o.debtAt|, since)
  }

  /** The money is in order, and no debt was recorded before its order was placed. */
  ghost predicate FiledOk(o: Filed) {
    WellFiled(o) && M.MoneyInv(o.money) && forall i :: 0 <= i < |o.debtAt| ==> o.placedAt <= o.debtAt[i]
  }

  /** Appending a row's entry when the row is in the report. */
  lemma AppendSums(entries: seq<Entry>, e: Entry, listed: bool)
    ensures forall c :: Sum(entries + if listed then [e] else [], c) == Sum(entries, c) + if listed then At(e.figures, c) else 0
  {
    assert (entries + [e])[..|entries|] == entries;
    assert entries + [] == entries;
  }

  lemma {:induction false} ConcatSum(xs: seq<Entry>, ys: seq<Entry>, c: Column)
    ensures Sum(xs + ys, c) == Sum(xs, c) + Sum(ys, c)
    decreases |ys|
  {
    if ys == [] {
      assert xs + ys == xs;
    } else {
      ConcatSum(xs, ys[..|ys| - 1], c);
      assert (xs + ys)[..|xs + ys| - 1] == xs + ys[..|ys| - 1];
    }
  }

  lemma ConcatSums(xs: seq<Entry>, ys: seq<Entry>)
    ensures forall c :: Sum(xs + ys, c) == Sum(xs, c) + Sum(ys, c)
  {
    forall c ensures Sum(xs + ys, c) == Sum(xs, c) + Sum(ys, c) { ConcatSum(xs, ys, c); }
  }

  /** An order splits into paid, unpaid and credit, with nothing in two parts. */
  lemma OrderSplits(o: Filed)
    requires FiledOk(o)
    ensures var f := OrderEntry(o).figures;
            && f.sales + f.unpaid + M.Owed(o.money.debts) == o.money.total && f.credit == 0
            && 0 <= f.unpaid == Shortfall(o.money)
  {
  }

  lemma {:induction false} OrdersSplit(filed: seq<Filed>, since: Time)
    requires forall i :: 0 <= i < |filed| ==> FiledOk(filed[i])
    ensures var es := OrderEntries(filed, since);
            && Sum(es, Sales) + Sum(es, Unpaid) + CreditOnReported(filed, since) == TotalOf(filed, since)
            && Sum(es, Credit) == 0
    decreases |filed|
  {
    if filed != [] {
      OrdersSplit(filed[..|filed| - 1], since);
      OneMoreOrder(filed, since);
    }
  }

  lemma OneMoreOrder(filed: seq<Filed>, since: Time)
    requires filed != [] && FiledOk(filed[|filed| - 1])
    ensures var front := filed[..|filed| - 1]; var before, es := OrderEntries(front, since), OrderEntries(filed, since);
            && Sum(es, Sales) + Sum(es, Unpaid) - Sum(before, Sales) - Sum(before, Unpaid)
               == TotalOf(filed, since) - TotalOf(front, since) - CreditOnReported(filed, since) + CreditOnReported(front, since)
            && Sum(es, Credit) == Sum(before, Credit)
  {
    var front, o := filed[..|filed| - 1], filed[|filed| - 1];
    OrderSplits(o);
    AppendSums(OrderEntries(front, since), OrderEntry(o), Reported(o, since));
  }

  lemma {:induction false} DebtsOfOrder(o: Filed, n: nat, names: map<M.UserId, Name>, since: Time)
    requires WellFiled(o) && n <= |o.debtAt|
    ensures var es := DebtEntriesOf(o, n, names, since);
            Sum(es, Sales) == 0 && Sum(es, Unpaid) == 0 && Sum(es, Credit) == CreditSince(o, n, since)
    decreases n
  {
    if n > 0 {
      DebtsOfOrder(o, n - 1, names, since);
      OneMoreDebt(o, n, names, since);
    }
  }

  lemma OneMoreDebt(o: Filed, n: nat, names: map<M.UserId, Name>, since: Time)
    requires WellFiled(o) && 0 < n <= |o.debtAt|
    ensures var before, es := DebtEntriesOf(o, n - 1, names, since), DebtEntriesOf(o, n, names, since);
            && Sum(es, Sales) == Sum(before, Sales) && Sum(es, Unpaid) == Sum(before, Unpaid)
            && Sum(es, Credit) == Sum(before, Credit) + CreditSince(o, n, since) - CreditSince(o, n - 1, since)
  {
    AppendSums(DebtEntriesOf(o, n - 1, names, since), DebtEntry(o, o.money.debts[n - 1], names), o.debtAt[n - 1] >= since);
  }

  /** On a reported order every debt is in the window, and both ways of counting credit agree. */
  lemma {:induction false} CreditAgrees(o: Filed, n: nat, since: Time)
    requires FiledOk(o) && o.placedAt >= since && n <= |o.debtAt|
    ensures CreditSince(o, n, since) == M.Owed(o.money.debts[..n])
    decreases n
  {
    if n > 0 {
      CreditAgrees(o, n - 1, since);
      assert o.money.debts[..n][..n - 1] == o.money.debts[..n - 1];
      assert M.DebtOk(o.money.debts[n - 1]);
    }
  }

  /** The debts of one order: its outstanding credit if it is reported, else stray. */
  lemma DebtsOfFiled(o: Filed, names: map<M.UserId, Name>, since: Time)
    requires WellFiled(o) && FiledOk(o)
    ensures var es := DebtEntriesOf(o, |o.debtAt|, names, since);
            && Sum(es, Sales) == 0 && Sum(es, Unpaid) == 0
            && Sum(es, Credit) == if Reported(o, since) then M.Owed(o.money.debts) else CreditSince(o, |o.debtAt|, since)
  {
    DebtsOfOrder(o, |o.debtAt|, names, since);
    if Reported(o, since) {
      CreditAgrees(o, |o.debtAt|, since);
      assert o.money.debts[..|o.debtAt|] == o.money.debts;
    }
  }

  lemma {:induction false} DebtsSplit(filed: seq<Filed>, names: map<M.UserId, Name>, since: Time)
    requires forall i :: 0 <= i < |filed| ==> WellFiled(filed[i]) && FiledOk(filed[i])
    ensures var es := DebtEntries(filed, names, since);
            && Sum(es, Sales) == 0 && Sum(es, Unpaid) == 0
            && Sum(es, Credit) == CreditOnReported(filed, since) + StrayCredit(filed, since)
    decreases |filed|
  {
    if filed != [] {
      var front, o := filed[..|filed| - 1], filed[|filed| - 1];
      DebtsSplit(front, names, since);
      DebtsOfFiled(o, names, since);
      ConcatSums(DebtEntries(front, names, since), DebtEntriesOf(o, |o.debtAt|, names, since));
    }
  }

  // -------------------------------------------------------- rows against entries

  function SumTallies(names: seq<Name>, entries: seq<Entry>, c: Column): int {
    if names == [] then 0 else SumTallies(names[..|names| - 1], entries, c) + Tally(entries, names[|names| - 1], c)
  }

  predicate Distinct(names: seq<Name>) { forall i, j :: 0 <= i < j < |names| ==> names[i] != names[j] }

  /** One more entry counts once if its name is listed. */
  lemma {:induction false} TallyOneMore(names: seq<Name>, front: seq<Entry>, e: Entry, c: Column)
    requires Distinct(names)
    ensures SumTallies(names, front + [e], c) == SumTallies(names, front, c) + if e.name in names then At(e.figures, c) else 0
    decreases |names|
  {
    if names != [] {
      var before, name := names[..|names| - 1], names[|names| - 1];
      TallyOneMore(before, front, e, c);
      assert names == before + [name] && (front + [e])[..|front|] == front;
    }
  }

  lemma {:induction false} NothingTallied(names: seq<Name>, c: Column)
    ensures SumTallies(names, [], c) == 0
    decreases |names|
  {
    if names != [] { NothingTallied(names[..|names| - 1], c); }
  }

  lemma {:induction false} TalliesCoverEntries(names: seq<Name>, entries: seq<Entry>, c: Column)
    requires Distinct(names)
    requires forall i :: 0 <= i < |entries| ==> entries[i].name in names
    ensures SumTallies(names, entries, c) == Sum(entries, c)
    decreases |entries|
  {
    if entries == [] {
      NothingTallied(names, c);
    } else {
      var front, e := entries[..|entries| - 1], entries[|entries| - 1];
      TalliesCoverEntries(names, front, c);
      TallyOneMore(names, front, e, c);
      assert entries == front + [e];
    }
  }

  function Names(rows: seq<Entry>): seq<Name> { seq(|rows|, i requires 0 <= i < |rows| => rows[i].name) }

  lemma {:induction false} RowsAreTallies(rows: seq<Entry>, entries: seq<Entry>, c: Column)
    requires forall i :: 0 <= i < |rows| ==> rows[i].figures == Tallies(entries, rows[i].name)
    ensures Sum(rows, c) == SumTallies(Names(rows), entries, c)
    decreases |rows|
  {
    if rows != [] {
      RowsAreTallies(rows[..|rows| - 1], entries, c);
      assert Names(rows)[..|rows| - 1] == Names(rows[..|rows| - 1]);
    }
  }

  /** Summed over people, nothing entered is lost and nothing is counted twice. */
  lemma RowsSumToEntries(rows: seq<Entry>, entries: seq<Entry>, c: Column)
    requires ReportOk(rows, entries)
    ensures Sum(rows, c) == Sum(entries, c)
  {
    forall i | 0 <= i < |entries| ensures entries[i].name in Names(rows) {
      assert Mentions(entries, entries[i].name) && Mentions(rows, entries[i].name);
      var j :| 0 <= j < |rows| && rows[j].name == entries[i].name;
      assert Names(rows)[j] == entries[i].name;
    }
    RowsAreTallies(rows, entries, c);
    TalliesCoverEntries(Names(rows), entries, c);
  }

  /** The report reconciles to the cent. Sales, unpaid value and the outstanding credit on the
      reported orders add up to those orders' totals; and with the credit column instead, the three
      columns add up to the totals exactly when no credit is listed for an order outside the
      report. */
  lemma ReportReconciles(filed: seq<Filed>, names: map<M.UserId, Name>, since: Time, rows: seq<Entry>)
    requires forall i :: 0 <= i < |filed| ==> WellFiled(filed[i]) && FiledOk(filed[i])
    requires ReportOk(rows, Entries(filed, names, since))
    ensures Sum(rows, Sales) + Sum(rows, Unpaid) + CreditOnReported(filed, since) == TotalOf(filed, since)
    ensures Sum(rows, Credit) == CreditOnReported(filed, since) + StrayCredit(filed, since)
    ensures Sum(rows, Sales) + Sum(rows, Unpaid) + Sum(rows, Credit) == TotalOf(filed, since) <==> StrayCredit(filed, since) == 0
  {
    forall c ensures Sum(rows, c) == Sum(Entries(filed, names, since), c) {
      RowsSumToEntries(rows, Entries(filed, names, since), c);
    }
    ConcatSums(OrderEntries(filed, since), DebtEntries(filed, names, since));
    OrdersSplit(filed, since);
    DebtsSplit(filed, names, since);
  }

  /** So does the report on the orders of any run of the till. */
  lemma AnyRunReconciles(t: T.State, rs: seq<T.Request>, filed: seq<Filed>, names: map<M.UserId, Name>, since: Time, rows: seq<Entry>)
    requires T.Inv(t) && forall i :: 0 <= i < |rs| ==> T.WellFormed(rs[i])
    requires |filed| == |T.HandleAll(t, rs).orders|
    requires forall i :: 0 <= i < |filed| ==> WellFiled(filed[i]) && filed[i].money == T.HandleAll(t, rs).orders[i]
    requires forall i, j :: 0 <= i < |filed| && 0 <= j < |filed[i].debtAt| ==> filed[i].placedAt <= filed[i].debtAt[j]
    requires ReportOk(rows, Entries(filed, names, since))
    ensures Sum(rows, Sales) + Sum(rows, Unpaid) + CreditOnReported(filed, since) == TotalOf(filed, since)
    ensures Sum(rows, Sales) + Sum(rows, Unpaid) + Sum(rows, Credit) == TotalOf(filed, since) + StrayCredit(filed, since)
  {
    T.BooksStayStraight(t, rs);
    ReportReconciles(filed, names, since, rows);
  }

  // --------------------------------------------------------------------- the method

  /** people holds what was entered, by name. */
  ghost predicate PeopleOk(people: map<Name, Figures>, entries: seq<Entry>) {
    && (forall name :: name in people <==> Mentions(entries, name))
    && (forall name :: name in people ==> people[name] == Tallies(entries, name))
  }

  /** `slot` and the additions to the row it returns. */
  method AddTo(people: map<Name, Figures>, e: Entry, ghost entries: seq<Entry>) returns (more: map<Name, Figures>)
    requires PeopleOk(people, entries)
    ensures PeopleOk(more, entries + [e])
  {
    var row := if e.name in people then people[e.name] else Zero;
    more := people[e.name := Plus(row, e.figures)];
    MentionsAppend(entries, e);
    assert row == Tallies(entries, e.name) by {
      if e.name !in people { NothingFor(entries, e.name); }
    }
    forall name | name in more ensures more[name] == Tallies(entries + [e], name) { TalliesAppend(entries, e, name); }
  }

  lemma TalliesAppend(entries: seq<Entry>, e: Entry, name: Name)
    ensures Tallies(entries + [e], name) == if e.name == name then Plus(Tallies(entries, name), e.figures) else Tallies(entries, name)
  {
    assert (entries + [e])[..|entries|] == entries;
  }

  lemma NothingFor(entries: seq<Entry>, name: Name)
    requires !Mentions(entries, name)
    ensures Tallies(entries, name) == Zero
  {
    forall c ensures Tally(entries, name, c) == 0 { UnmentionedIsZero(entries, name, c); }
  }

  lemma {:induction false} UnmentionedIsZero(entries: seq<Entry>, name: Name, c: Column)
    requires !Mentions(entries, name)
    ensures Tally(entries, name, c) == 0
    decreases |entries|
  {
    if entries != [] {
      var front, e := entries[..|entries| - 1], entries[|entries| - 1];
      assert entries == front + [e];
      MentionsAppend(front, e);
      UnmentionedIsZero(front, name, c);
    }
  }

  method AddOrders(filed: seq<Filed>, since: Time) returns (people: map<Name, Figures>)
    ensures PeopleOk(people, OrderEntries(filed, since))
  {
    people := map[];
    for k := 0 to |filed|
      invariant PeopleOk(people, OrderEntries(filed[..k], since))
    {
      assert filed[..k + 1][..k] == filed[..k];
      if Reported(filed[k], since) {
        people := AddTo(people, OrderEntry(filed[k]), OrderEntries(filed[..k], since));
      } else {
        assert OrderEntries(filed[..k + 1], since) == OrderEntries(filed[..k], since);
      }
    }
    assert filed[..|filed|] == filed;
  }

  method AddDebtsOf(people: map<Name, Figures>, o: Filed, names: map<M.UserId, Name>, since: Time, ghost entries: seq<Entry>)
    returns (more: map<Name, Figures>)
    requires WellFiled(o) && PeopleOk(people, entries)
    ensures PeopleOk(more, entries + DebtEntriesOf(o, |o.debtAt|, names, since))
  {
    more := people;
    assert entries + [] == entries;
    for n := 0 to |o.debtAt|
      invariant PeopleOk(more, entries + DebtEntriesOf(o, n, names, since))
    {
      ghost var sofar := DebtEntriesOf(o, n, names, since);
      var e := DebtEntry(o, o.money.debts[n], names);
      if o.debtAt[n] >= since {
        more := AddTo(more, e, entries + sofar);
        assert (entries + sofar) + [e] == entries + (sofar + [e]);
      } else {
        assert sofar + [] == sofar;
      }
    }
  }

  /** `accountability`: the order pass, the debt pass, and the rows, in some order. */
  method Report(filed: seq<Filed>, names: map<M.UserId, Name>, since: Time) returns (rows: seq<Entry>)
    requires forall i :: 0 <= i < |filed| ==> WellFiled(filed[i])
    ensures ReportOk(rows, Entries(filed, names, since))
  {
    var people := AddOrders(filed, since);
    ghost var first := OrderEntries(filed, since);
    assert first + [] == first;
    for k := 0 to |filed|
      invariant PeopleOk(people, first + DebtEntries(filed[..k], names, since))
    {
      assert filed[..k + 1][..k] == filed[..k];
      ghost var sofar := DebtEntries(filed[..k], names, since);
      people := AddDebtsOf(people, filed[k], names, since, first + sofar);
      ghost var more := DebtEntriesOf(filed[k], |filed[k].debtAt|, names, since);
      assert (first + sofar) + more == first + (sofar + more);
    }
    assert filed[..|filed|] == filed;
    rows := Rows(people, Entries(filed, names, since));
  }

  /** The rows list the people who are not left. */
  ghost predicate Lists(rows: seq<Entry>, people: map<Name, Figures>, left: set<Name>) {
    && (forall i, j :: 0 <= i < j < |rows| ==> rows[i].name != rows[j].name)
    && (forall i :: 0 <= i < |rows| ==> rows[i].name in people && rows[i].figures == people[rows[i].name])
    && (forall name :: Mentions(rows, name) <==> name in people && name !in left)
  }

  lemma ListOneMore(rows: seq<Entry>, people: map<Name, Figures>, left: set<Name>, name: Name)
    requires Lists(rows, people, left) && name in left && name in people
    ensures Lists(rows + [Entry(name, people[name])], people, left - {name})
  {
    MentionsAppend(rows, Entry(name, people[name]));
    forall i | 0 <= i < |rows| ensures rows[i].name != name {
      assert Mentions(rows, rows[i].name);
    }
  }

  method Rows(people: map<Name, Figures>, ghost entries: seq<Entry>) returns (rows: seq<Entry>)
    requires PeopleOk(people, entries)
    ensures ReportOk(rows, entries)
  {
    rows := [];
    var left := people.Keys;
    while left != {}
      invariant left <= people.Keys && Lists(rows, people, left)
      decreases |left|
    {
      var name :| name in left;
      ListOneMore(rows, people, left, name);
      rows := rows + [Entry(name, people[name])];
      left := left - {name};
    }
  }

  lemma MentionsAppend(rows: seq<Entry>, e: Entry)
    ensures forall name :: Mentions(rows + [e], name) <==> Mentions(rows, name) || name == e.name
  {
    assert (rows + [e])[|rows|] == e;
    forall name | Mentions(rows, name) ensures Mentions(rows + [e], name) {
      var i :| 0 <= i < |rows| && rows[i].name == name;
      assert (rows + [e])[i].name == name;
    }
  }
}
