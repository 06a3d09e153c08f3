/** Whose row an amount lands in, said of the orders and debts themselves. */
module Attribution {
  import opened Options
  import M = OrderMoney
  import A = Accountability

  /** The order was served under that name. */
  predicate ServedBy(o: A.Filed, name: A.Name) {
    match o.server
    case Some(server) => name == if server == "" then "Unattributed" else server
    case None => name == "Unattributed"
  }

  /** The credit was given under that name: that of the user who recorded the debt, as long as there is
      such a user, else the server's. */
  predicate LentBy(o: A.Filed, d: M.Debt, names: map<M.UserId, A.Name>, name: A.Name) {
    if d.recordedBy in names then
      name == if names[d.recordedBy] == "" then "Unattributed" else names[d.recordedBy]
    else ServedBy(o, name)
  }

  /** Placed in the window and not cancelled. */
  predicate Counts(o: A.Filed, since: A.Time) { since <= o.placedAt && o.money.status != M.Cancelled }

  /** Neither paid nor lent. */
  function Missing(o: M.Money): int { o.total - M.SumPayments(o.payments) - M.Owed(o.debts) }

  function OrdersServed(filed: seq<A.Filed>, n: nat, since: A.Time, name: A.Name): int
    requires n <= |filed|
  {
    if n == 0 then 0
    else
      var o := filed[n - 1];
      OrdersServed(filed, n - 1, since, name) + if Counts(o, since) && ServedBy(o, name) then 1 else 0
  }

  function MoneyTaken(filed: seq<A.Filed>, n: nat, since: A.Time, name: A.Name): int
    requires n <= |filed|
  {
    if n == 0 then 0
    else
      var o := filed[n - 1];
      MoneyTaken(filed, n - 1, since, name) +
      if Counts(o, since) && ServedBy(o, name) then M.SumPayments(o.money.payments) else 0
  }

  function OrdersMissing(filed: seq<A.Filed>, n: nat, since: A.Time, name: A.Name): int
    requires n <= |filed|
  {
    if n == 0 then 0
    else
      var o := filed[n - 1];
      OrdersMissing(filed, n - 1, since, name) +
      if Counts(o, since) && ServedBy(o, name) && Missing(o.money) > 0 then 1 else 0
  }

  function MoneyMissing(filed: seq<A.Filed>, n: nat, since: A.Time, name: A.Name): int
    requires n <= |filed|
  {
    if n == 0 then 0
    else
      var o := filed[n - 1];
      MoneyMissing(filed, n - 1, since, name) +
      if Counts(o, since) && ServedBy(o, name) && Missing(o.money) > 0 then Missing(o.money) else 0
  }

  /** The j-th debt of the order was recorded in the window, under that name. */
  predicate LentInWindow(o: A.Filed, j: nat, names: map<M.UserId, A.Name>, since: A.Time, name: A.Name)
    requires A.WellFiled(o) && j < |o.debtAt|
  {
    since <= o.debtAt[j] && LentBy(o, o.money.debts[j], names, name)
  }

  function DebtsLentOn(o: A.Filed, n: nat, names: map<M.UserId, A.Name>, since: A.Time, name: A.Name): int
    requires A.WellFiled(o) && n <= |o.debtAt|
  {
    if n == 0 then 0
    else DebtsLentOn(o, n - 1, names, since, name) + if LentInWindow(o, n - 1, names, since, name) then 1 else 0
  }

  /** What is still to be repaid of them. */
  function MoneyLentOn(o: A.Filed, n: nat, names: map<M.UserId, A.Name>, since: A.Time, name: A.Name): int
    requires A.WellFiled(o) && n <= |o.debtAt|
  {
    if n == 0 then 0
    else
      var d := o.money.debts[n - 1];
      MoneyLentOn(o, n - 1, names, since, name) +
      if LentInWindow(o, n - 1, names, since, name) && d.cents > d.paidCents then d.cents - d.paidCents else 0
  }

  ghost predicate AllWellFiled(filed: seq<A.Filed>) { forall i :: 0 <= i < |filed| ==> A.WellFiled(filed[i]) }

  ghost function DebtsLent(filed: seq<A.Filed>, n: nat, names: map<M.UserId, A.Name>, since: A.Time, name: A.Name): int
    requires n <= |filed| && AllWellFiled(filed)
  {
    if n == 0 then 0
    else DebtsLent(filed, n - 1, names, since, name) + DebtsLentOn(filed[n - 1], |filed[n - 1].debtAt|, names, since, name)
  }

  ghost function MoneyLent(filed: seq<A.Filed>, n: nat, names: map<M.UserId, A.Name>, since: A.Time, name: A.Name): int
    requires n <= |filed| && AllWellFiled(filed)
  {
    if n == 0 then 0
    else MoneyLent(filed, n - 1, names, since, name) + MoneyLentOn(filed[n - 1], |filed[n - 1].debtAt|, names, since, name)
  }

  // ------------------------------------------------------------------- the proof

  /** One more entry, if it is entered at all. */
  lemma TallyOneMore(entries: seq<A.Entry>, e: A.Entry, listed: bool, name: A.Name, c: A.Column)
    ensures A.Tally(entries + (if listed then [e] else []), name, c) ==
            A.Tally(entries, name, c) + if listed && e.name == name then A.At(e.figures, c) else 0
  {
    assert (entries + [e])[..|entries|] == entries;
    assert entries + [] == entries;
  }

  lemma {:induction false} TallyConcat(xs: seq<A.Entry>, ys: seq<A.Entry>, name: A.Name, c: A.Column)
    ensures A.Tally(xs + ys, name, c) == A.Tally(xs, name, c) + A.Tally(ys, name, c)
    decreases |ys|
  {
    if ys == [] {
      assert xs + ys == xs;
    } else {
      TallyConcat(xs, ys[..|ys| - 1], name, c);
      assert (xs + ys)[..|xs + ys| - 1] == xs + ys[..|ys| - 1];
    }
  }

  /** What the first n orders put under the name. */
  ghost function OrderPart(filed: seq<A.Filed>, n: nat, since: A.Time, name: A.Name, c: A.Column): int
    requires n <= |filed|
  {
    match c
    case Served => OrdersServed(filed, n, since, name)
    case Sales => MoneyTaken(filed, n, since, name)
    case UnpaidOrders => OrdersMissing(filed, n, since, name)
    case Unpaid => MoneyMissing(filed, n, since, name)
    case CreditGiven => 0
    case Credit => 0
  }

  ghost function DebtPartOf(o: A.Filed, n: nat, names: map<M.UserId, A.Name>, since: A.Time, name: A.Name, c: A.Column): int
    requires A.WellFiled(o) && n <= |o.debtAt|
  {
    match c
    case CreditGiven => DebtsLentOn(o, n, names, since, name)
    case Credit => MoneyLentOn(o, n, names, since, name)
    case _ => 0
  }

  ghost function DebtPart(filed: seq<A.Filed>, n: nat, names: map<M.UserId, A.Name>, since: A.Time, name: A.Name, c: A.Column): int
    requires n <= |filed| && AllWellFiled(filed)
  {
    match c
    case CreditGiven => DebtsLent(filed, n, names, since, name)
    case Credit => MoneyLent(filed, n, names, since, name)
    case _ => 0
  }

  lemma OneMoreOrder(filed: seq<A.Filed>, n: nat, since: A.Time, name: A.Name, c: A.Column)
    requires 0 < n <= |filed|
    ensures A.Tally(A.OrderEntries(filed[..n], since), name, c) - A.Tally(A.OrderEntries(filed[..n - 1], since), name, c)
            == OrderPart(filed, n, since, name, c) - OrderPart(filed, n - 1, since, name, c)
  {
    var o := filed[n - 1];
    assert filed[..n][..n - 1] == filed[..n - 1];
    TallyOneMore(A.OrderEntries(filed[..n - 1], since), A.OrderEntry(o), A.Reported(o, since), name, c);
  }

  lemma {:induction false} OrdersTally(filed: seq<A.Filed>, n: nat, since: A.Time, name: A.Name, c: A.Column)
    requires n <= |filed|
    ensures A.Tally(A.OrderEntries(filed[..n], since), name, c) == OrderPart(filed, n, since, name, c)
    decreases n
  {
    if n > 0 {
      OrdersTally(filed, n - 1, since, name, c);
      OneMoreOrder(filed, n, since, name, c);
    }
  }

  /** What a debt puts into a column. */
  function Amount(d: M.Debt, c: A.Column): int {
    match c
    case CreditGiven => 1
    case Credit => if d.cents > d.paidCents then d.cents - d.paidCents else 0
    case _ => 0
  }

  /** The name and the figures entered for a debt. */
  lemma OneDebt(o: A.Filed, d: M.Debt, names: map<M.UserId, A.Name>, name: A.Name, c: A.Column)
    ensures var e := A.DebtEntry(o, d, names); (e.name == name <==> LentBy(o, d, names, name)) && A.At(e.figures, c) == Amount(d, c)
  {
  }

  lemma DebtPartOneMore(o: A.Filed, n: nat, names: map<M.UserId, A.Name>, since: A.Time, name: A.Name, c: A.Column)
    requires A.WellFiled(o) && 0 < n <= |o.debtAt|
    ensures DebtPartOf(o, n, names, since, name, c) - DebtPartOf(o, n - 1, names, since, name, c)
            == if LentInWindow(o, n - 1, names, since, name) then Amount(o.money.debts[n - 1], c) else 0
  {
  }

  lemma TallyOneMoreDebt(o: A.Filed, n: nat, names: map<M.UserId, A.Name>, since: A.Time, name: A.Name, c: A.Column)
    requires A.WellFiled(o) && 0 < n <= |o.debtAt|
    ensures var e := A.DebtEntry(o, o.money.debts[n - 1], names);
            A.Tally(A.DebtEntriesOf(o, n, names, since), name, c) - A.Tally(A.DebtEntriesOf(o, n - 1, names, since), name, c)
            == if o.debtAt[n - 1] >= since && e.name == name then A.At(e.figures, c) else 0
  {
    TallyOneMore(A.DebtEntriesOf(o, n - 1, names, since), A.DebtEntry(o, o.money.debts[n - 1], names),
                 o.debtAt[n - 1] >= since, name, c);
  }

  lemma OneMoreDebt(o: A.Filed, n: nat, names: map<M.UserId, A.Name>, since: A.Time, name: A.Name, c: A.Column)
    requires A.WellFiled(o) && 0 < n <= |o.debtAt|
    ensures A.Tally(A.DebtEntriesOf(o, n, names, since), name, c) - A.Tally(A.DebtEntriesOf(o, n - 1, names, since), name, c)
            == DebtPartOf(o, n, names, since, name, c) - DebtPartOf(o, n - 1, names, since, name, c)
  {
    TallyOneMoreDebt(o, n, names, since, name, c);
    DebtPartOneMore(o, n, names, since, name, c);
    OneDebt(o, o.money.debts[n - 1], names, name, c);
  }

  lemma {:induction false} DebtsOfTally(o: A.Filed, n: nat, names: map<M.UserId, A.Name>, since: A.Time, name: A.Name, c: A.Column)
    requires A.WellFiled(o) && n <= |o.debtAt|
    ensures A.Tally(A.DebtEntriesOf(o, n, names, since), name, c) == DebtPartOf(o, n, names, since, name, c)
    decreases n
  {
    if n > 0 {
      DebtsOfTally(o, n - 1, names, since, name, c);
      OneMoreDebt(o, n, names, since, name, c);
    }
  }

  lemma {:induction false} DebtsTally(filed: seq<A.Filed>, n: nat, names: map<M.UserId, A.Name>, since: A.Time, name: A.Name, c: A.Column)
    requires n <= |filed| && AllWellFiled(filed)
    ensures A.Tally(A.DebtEntries(filed[..n], names, since), name, c) == DebtPart(filed, n, names, since, name, c)
    decreases n
  {
    if n > 0 {
      var o := filed[n - 1];
      DebtsTally(filed, n - 1, names, since, name, c);
      DebtsOfTally(o, |o.debtAt|, names, since, name, c);
      assert filed[..n][..n - 1] == filed[..n - 1];
      TallyConcat(A.DebtEntries(filed[..n - 1], names, since), A.DebtEntriesOf(o, |o.debtAt|, names, since), name, c);
    }
  }

  lemma EntriesTally(filed: seq<A.Filed>, names: map<M.UserId, A.Name>, since: A.Time, name: A.Name, c: A.Column)
    requires AllWellFiled(filed)
    ensures A.Tally(A.Entries(filed, names, since), name, c) ==
            OrderPart(filed, |filed|, since, name, c) + DebtPart(filed, |filed|, names, since, name, c)
  {
    OrdersTally(filed, |filed|, since, name, c);
    DebtsTally(filed, |filed|, names, since, name, c);
    assert filed[..|filed|] == filed;
    TallyConcat(A.OrderEntries(filed, since), A.DebtEntries(filed, names, since), name, c);
  }

  /** A row of the report belongs to its name: sales, unpaid value and the two counts are those of the
      reported orders served under it, and credit is what is left of the debts recorded under it in the
      window, whoever served and whenever the order was placed. */
  lemma RowsBelongToTheirNames(filed: seq<A.Filed>, names: map<M.UserId, A.Name>, since: A.Time, rows: seq<A.Entry>, k: nat)
    requires AllWellFiled(filed) && A.ReportOk(rows, A.Entries(filed, names, since)) && k < |rows|
    ensures var name, f := rows[k].name, rows[k].figures;
            && f.served == OrdersServed(filed, |filed|, since, name)
            && f.sales == MoneyTaken(filed, |filed|, since, name)
            && f.unpaidOrders == OrdersMissing(filed, |filed|, since, name)
            && f.unpaid == MoneyMissing(filed, |filed|, since, name)
            && f.creditGiven == DebtsLent(filed, |filed|, names, since, name)
            && f.credit == MoneyLent(filed, |filed|, names, since, name)
  {
    var name := rows[k].name;
    forall c ensures A.At(rows[k].figures, c) ==
                     OrderPart(filed, |filed|, since, name, c) + DebtPart(filed, |filed|, names, since, name, c)
    {
      EntriesTally(filed, names, since, name, c);
    }
    assert forall c :: A.At(rows[k].figures, c) ==
                       OrderPart(filed, |filed|, since, name, c) + DebtPart(filed, |filed|, names, since, name, c);
    var f := rows[k].figures;
    assert f.served == A.At(f, A.Served) && f.sales == A.At(f, A.Sales) && f.unpaidOrders == A.At(f, A.UnpaidOrders);
    assert f.unpaid == A.At(f, A.Unpaid) && f.creditGiven == A.At(f, A.CreditGiven) && f.credit == A.At(f, A.Credit);
  }

  // ---------------------------------------------------------------- who has a row

  /** The name served an order of the report. */
  predicate Serves(filed: seq<A.Filed>, n: nat, since: A.Time, name: A.Name)
    requires n <= |filed|
  {
    exists i :: 0 <= i < n && Counts(filed[i], since) && ServedBy(filed[i], name)
  }

  predicate LendsOn(o: A.Filed, n: nat, names: map<M.UserId, A.Name>, since: A.Time, name: A.Name)
    requires A.WellFiled(o) && n <= |o.debtAt|
  {
    exists j :: 0 <= j < n && LentInWindow(o, j, names, since, name)
  }

  /** The name gave credit in the window. */
  ghost predicate Lends(filed: seq<A.Filed>, n: nat, names: map<M.UserId, A.Name>, since: A.Time, name: A.Name)
    requires n <= |filed| && AllWellFiled(filed)
  {
    exists i :: 0 <= i < n && LendsOn(filed[i], |filed[i].debtAt|, names, since, name)
  }

  lemma MentionsOneMore(entries: seq<A.Entry>, e: A.Entry, listed: bool, name: A.Name)
    ensures A.Mentions(entries + (if listed then [e] else []), name) <==> A.Mentions(entries, name) || (listed && e.name == name)
  {
    A.MentionsAppend(entries, e);
    assert entries + [] == entries;
  }

  lemma MentionsConcat(xs: seq<A.Entry>, ys: seq<A.Entry>, name: A.Name)
    ensures A.Mentions(xs + ys, name) <==> A.Mentions(xs, name) || A.Mentions(ys, name)
  {
    if A.Mentions(xs, name) {
      var i :| 0 <= i < |xs| && xs[i].name == name;
      assert (xs + ys)[i].name == name;
    }
    if A.Mentions(ys, name) {
      var i :| 0 <= i < |ys| && ys[i].name == name;
      assert (xs + ys)[|xs| + i].name == name;
    }
  }

  lemma {:induction false} OrdersMention(filed: seq<A.Filed>, n: nat, since: A.Time, name: A.Name)
    requires n <= |filed|
    ensures A.Mentions(A.OrderEntries(filed[..n], since), name) <==> Serves(filed, n, since, name)
    decreases n
  {
    if n > 0 {
      var o := filed[n - 1];
      OrdersMention(filed, n - 1, since, name);
      assert filed[..n][..n - 1] == filed[..n - 1];
      MentionsOneMore(A.OrderEntries(filed[..n - 1], since), A.OrderEntry(o), A.Reported(o, since), name);
      assert Serves(filed, n, since, name) <==> Serves(filed, n - 1, since, name) || (Counts(o, since) && ServedBy(o, name));
    }
  }

  lemma {:induction false} DebtsOfMention(o: A.Filed, n: nat, names: map<M.UserId, A.Name>, since: A.Time, name: A.Name)
    requires A.WellFiled(o) && n <= |o.debtAt|
    ensures A.Mentions(A.DebtEntriesOf(o, n, names, since), name) <==> LendsOn(o, n, names, since, name)
    decreases n
  {
    if n > 0 {
      DebtsOfMention(o, n - 1, names, since, name);
      MentionsOneMore(A.DebtEntriesOf(o, n - 1, names, since), A.DebtEntry(o, o.money.debts[n - 1], names),
                      o.debtAt[n - 1] >= since, name);
      assert LendsOn(o, n, names, since, name) <==>
             LendsOn(o, n - 1, names, since, name) || LentInWindow(o, n - 1, names, since, name);
    }
  }

  lemma {:induction false} DebtsMention(filed: seq<A.Filed>, n: nat, names: map<M.UserId, A.Name>, since: A.Time, name: A.Name)
    requires n <= |filed| && AllWellFiled(filed)
    ensures A.Mentions(A.DebtEntries(filed[..n], names, since), name) <==> Lends(filed, n, names, since, name)
    decreases n
  {
    if n > 0 {
      var o := filed[n - 1];
      DebtsMention(filed, n - 1, names, since, name);
      DebtsOfMention(o, |o.debtAt|, names, since, name);
      assert filed[..n][..n - 1] == filed[..n - 1];
      MentionsConcat(A.DebtEntries(filed[..n - 1], names, since), A.DebtEntriesOf(o, |o.debtAt|, names, since), name);
      assert Lends(filed, n, names, since, name) <==>
             Lends(filed, n - 1, names, since, name) || LendsOn(o, |o.debtAt|, names, since, name);
    }
  }

  /** A name has a row exactly if it served an order of the report or gave credit in the window, and
      never two. */
  lemma RowsAreForThoseInvolved(filed: seq<A.Filed>, names: map<M.UserId, A.Name>, since: A.Time, rows: seq<A.Entry>, name: A.Name)
    requires AllWellFiled(filed) && A.ReportOk(rows, A.Entries(filed, names, since))
    ensures A.Mentions(rows, name) <==> Serves(filed, |filed|, since, name) || Lends(filed, |filed|, names, since, name)
    ensures forall i, j :: 0 <= i < |rows| && 0 <= j < |rows| && rows[i].name == rows[j].name ==> i == j
  {
    OrdersMention(filed, |filed|, since, name);
    DebtsMention(filed, |filed|, names, since, name);
    assert filed[..|filed|] == filed;
    MentionsConcat(A.OrderEntries(filed, since), A.DebtEntries(filed, names, since), name);
  }
}
