/** What the order routes do, said of requests and rows. */
module OrderRecords {
  import opened Options
  import M = OrderMoney
  import S = StockLedger
  import T = Till

  // ----------------------------------------------------------------- placing an order

  /** Totals of lines add up, and one line is its price times its quantity. */
  lemma {:induction false} SubtotalAdds(xs: seq<M.Line>, ys: seq<M.Line>, l: M.Line)
    ensures M.Subtotal(xs + ys) == M.Subtotal(xs) + M.Subtotal(ys)
    ensures M.Subtotal([l]) == l.unitPrice * l.quantity && M.Subtotal([]) == 0
    decreases |ys|
  {
    assert [l][..0] == [] && M.Subtotal([]) == 0;
    if ys == [] {
      assert xs + ys == xs;
    } else {
      SubtotalAdds(xs, ys[..|ys| - 1], l);
      assert (xs + ys)[..|xs + ys| - 1] == xs + ys[..|ys| - 1];
    }
  }

  predicate AllLive(menu: map<M.DishId, int>, wanted: seq<S.Sold>) {
    forall i :: 0 <= i < |wanted| ==> wanted[i].dish in menu
  }

  /** Menu price times plates, over the first n wishes. */
  function Charge(menu: map<M.DishId, int>, wanted: seq<S.Sold>, n: nat): int
    requires n <= |wanted| && AllLive(menu, wanted)
  {
    if n == 0 then 0 else Charge(menu, wanted, n - 1) + menu[wanted[n - 1].dish] * wanted[n - 1].quantity
  }

  /** What is charged for: a line for every wish, at the menu's price. */
  ghost predicate LinesAsWanted(lines: seq<M.Line>, menu: map<M.DishId, int>, wanted: seq<S.Sold>) {
    && |lines| == |wanted|
    && forall i :: 0 <= i < |wanted| ==>
         && wanted[i].dish in menu
         && lines[i] == M.Line(wanted[i].dish, menu[wanted[i].dish], wanted[i].quantity)
  }

  /** An order is taken exactly when every dish is live and a discount comes from a manager. It then has
      a line per wish at the menu's price and starts unpaid; any other request leaves everything as it
      was. */
  lemma PlacedExactly(t: T.State, menu: map<M.DishId, int>, wanted: seq<S.Sold>, discount: nat, manager: bool)
    ensures var t' := T.Handle(t, T.Place(menu, wanted, discount, manager));
            if (discount > 0 ==> manager) && forall i :: 0 <= i < |wanted| ==> wanted[i].dish in menu then
              && |t'.orders| == |t.orders| + 1 && t'.orders[..|t.orders|] == t.orders
              && var o := t'.orders[|t.orders|];
              && LinesAsWanted(o.lines, menu, wanted) && o.discount == discount
              && o.status.Pending? && o.paymentStatus.Unpaid? && o.payments == [] && o.debts == []
            else t' == t
  {
  }

  lemma {:induction false} LinesCost(lines: seq<M.Line>, menu: map<M.DishId, int>, wanted: seq<S.Sold>, n: nat)
    requires n <= |wanted| && LinesAsWanted(lines, menu, wanted) && AllLive(menu, wanted)
    ensures M.Subtotal(lines[..n]) == Charge(menu, wanted, n)
    decreases n
  {
    if n > 0 {
      LinesCost(lines, menu, wanted, n - 1);
      assert lines[..n] == lines[..n - 1] + [lines[n - 1]];
      SubtotalAdds(lines[..n - 1], [lines[n - 1]], lines[n - 1]);
    }
  }

  /** It costs menu price times plates, summed over what was wanted, less the discount, but never less
      than nothing. */
  lemma PlacedCosts(t: T.State, r: T.Request, t': T.State)
    requires r.Place? && AllLive(r.menu, r.wanted) && t' == T.Handle(t, r) && |t'.orders| > |t.orders|
    ensures t'.orders[|t.orders|].total == M.Max(Charge(r.menu, r.wanted, |r.wanted|) - r.discount, 0)
  {
    var lines := T.Priced(r.menu, r.wanted);
    LinesCost(lines, r.menu, r.wanted, |r.wanted|);
    assert lines[..|r.wanted|] == lines;
  }

  /** How many plates of the dish the first n wishes ask for. */
  function PlatesOf(wanted: seq<S.Sold>, n: nat, dish: M.DishId): int
    requires n <= |wanted|
  {
    if n == 0 then 0 else PlatesOf(wanted, n - 1, dish) + if wanted[n - 1].dish == dish then wanted[n - 1].quantity else 0
  }

  /** Menu price times all plates of the dish, over the first m dishes. */
  function ChargeByDish(menu: map<M.DishId, int>, wanted: seq<S.Sold>, n: nat, dishes: seq<M.DishId>, m: nat): int
    requires n <= |wanted| && m <= |dishes| && forall d :: d in dishes ==> d in menu
  {
    if m == 0 then 0
    else ChargeByDish(menu, wanted, n, dishes, m - 1) + menu[dishes[m - 1]] * PlatesOf(wanted, n, dishes[m - 1])
  }

  /** One more wish adds its plates to its dish. */
  lemma {:induction false} OneMoreWish(menu: map<M.DishId, int>, wanted: seq<S.Sold>, n: nat, dishes: seq<M.DishId>, m: nat)
    requires n < |wanted| && m <= |dishes| && (forall d :: d in dishes ==> d in menu) && wanted[n].dish in menu
    requires forall i, j :: 0 <= i < j < |dishes| ==> dishes[i] != dishes[j]
    ensures ChargeByDish(menu, wanted, n + 1, dishes, m) - ChargeByDish(menu, wanted, n, dishes, m) ==
            if wanted[n].dish in dishes[..m] then menu[wanted[n].dish] * wanted[n].quantity else 0
    decreases m
  {
    if m > 0 {
      var d := dishes[m - 1];
      OneMoreWish(menu, wanted, n, dishes, m - 1);
      assert dishes[..m] == dishes[..m - 1] + [d];
      if d == wanted[n].dish {
        MorePlates(menu[d], PlatesOf(wanted, n, d), wanted[n].quantity);
        assert d !in dishes[..m - 1];
      }
    }
  }

  lemma MorePlates(price: int, plates: int, more: int)
    ensures price * (plates + more) == price * plates + price * more
  {
  }

  lemma {:induction false} NothingCharged(menu: map<M.DishId, int>, wanted: seq<S.Sold>, dishes: seq<M.DishId>, m: nat)
    requires m <= |dishes| && forall d :: d in dishes ==> d in menu
    ensures ChargeByDish(menu, wanted, 0, dishes, m) == 0
    decreases m
  {
    if m > 0 { NothingCharged(menu, wanted, dishes, m - 1); }
  }

  /** Which is what the dishes cost, each priced once for all its plates, in whatever order and however
      split the wishes come. */
  lemma {:induction false} ChargedByDish(menu: map<M.DishId, int>, wanted: seq<S.Sold>, n: nat, dishes: seq<M.DishId>)
    requires n <= |wanted| && AllLive(menu, wanted) && forall d :: d in dishes ==> d in menu
    requires forall i, j :: 0 <= i < j < |dishes| ==> dishes[i] != dishes[j]
    requires forall i :: 0 <= i < |wanted| ==> wanted[i].dish in dishes
    ensures Charge(menu, wanted, n) == ChargeByDish(menu, wanted, n, dishes, |dishes|)
    decreases n
  {
    if n == 0 {
      NothingCharged(menu, wanted, dishes, |dishes|);
    } else {
      ChargedByDish(menu, wanted, n - 1, dishes);
      OneMoreWish(menu, wanted, n - 1, dishes, |dishes|);
      assert dishes[..|dishes|] == dishes;
    }
  }

  // ------------------------------------------------------------------ orders and stock

  /** The dishes and plates of the order. */
  ghost predicate SoldAs(sold: seq<S.Sold>, o: M.Money) {
    && |sold| == |o.lines|
    && forall i :: 0 <= i < |sold| ==> sold[i].dish == o.lines[i].dish && sold[i].quantity == o.lines[i].quantity
  }

  /** What wishes need of an item adds up; */
  lemma {:induction false} NeedAdds(recipes: seq<S.RecipeLine>, xs: seq<S.Sold>, ys: seq<S.Sold>, id: S.ItemId)
    ensures S.Need(recipes, xs + ys, id) == S.Need(recipes, xs, id) + S.Need(recipes, ys, id) && S.Need(recipes, [], id) == 0
    decreases |ys|
  {
    if ys == [] {
      assert xs + ys == xs;
    } else {
      NeedAdds(recipes, xs, ys[..|ys| - 1], id);
      assert (xs + ys)[..|xs + ys| - 1] == xs + ys[..|ys| - 1];
    }
  }

  /** and one wish needs its plates times the amount on the recipe line of its dish, or nothing. */
  lemma {:induction false} NeedOfOne(recipes: seq<S.RecipeLine>, s: S.Sold, id: S.ItemId)
    requires S.Unique(recipes)
    ensures forall j :: 0 <= j < |recipes| && recipes[j].dish == s.dish && recipes[j].item == id ==>
              S.Need(recipes, [s], id) == recipes[j].milli * s.quantity
    ensures !S.Linked(recipes, s.dish, id) ==> S.Need(recipes, [s], id) == 0
  {
    assert [s][..0] == [] && recipes[..|recipes|] == recipes;
    if S.Linked(recipes, s.dish, id) {
      forall j | 0 <= j < |recipes| && recipes[j].dish == s.dish && recipes[j].item == id
        ensures S.Need(recipes, [s], id) == recipes[j].milli * s.quantity
      {
        S.OnlyLine(recipes, |recipes|, j, s.dish, id);
      }
    } else {
      S.OnlyLine(recipes, |recipes|, -1, s.dish, id);
    }
  }

  /** Placing takes from the shelf what the recipes need for what was wanted. */
  lemma PlacingTakes(t: T.State, r: T.Request, id: S.ItemId)
    requires r.Place? && id in t.stock.items
    ensures var t' := T.Handle(t, r);
            && id in t'.stock.items && t'.stock.recipes == t.stock.recipes
            && t.stock.items[id].quantity - t'.stock.items[id].quantity ==
               if |t'.orders| > |t.orders| && !t.stock.items[id].archived then S.Need(t.stock.recipes, r.wanted, id) else 0
  {
    if T.Placeable(r) {
      assert T.Dishes(T.Priced(r.menu, r.wanted)) == r.wanted;
      S.MoveTouchesOnce(t.stock, r.wanted, -1, id);
    }
  }

  /** Cancelling is accepted unless the order is fully paid or already cancelled; it changes the status
      alone and puts back what the order's lines need. */
  lemma CancelledOrder(t: T.State, k: nat, sold: seq<S.Sold>, id: S.ItemId)
    requires T.Inv(t) && k < |t.orders| && SoldAs(sold, t.orders[k]) && id in t.stock.items
    ensures var o, t' := t.orders[k], T.Handle(t, T.Cancel(k)); var collected := M.SumPayments(o.payments);
            if !o.status.Cancelled? && !(collected > 0 && collected >= o.total) then
              && t'.orders == t.orders[k := o.(status := M.Cancelled)]
              && id in t'.stock.items && t'.stock.recipes == t.stock.recipes
              && t'.stock.items[id].quantity - t.stock.items[id].quantity ==
                 if t.stock.items[id].archived then 0 else S.Need(t.stock.recipes, sold, id)
            else t' == t
  {
    assert M.MoneyInv(t.orders[k]);
    if M.Cancel(t.orders[k]).Ok? {
      assert T.Dishes(t.orders[k].lines) == sold;
      S.MoveTouchesOnce(t.stock, sold, 1, id);
    }
  }

  /** A status request on an order that exists leaves exactly the requested status, and everything else
      as it was. */
  lemma StatusIsSet(t: T.State, k: nat, status: M.OrderStatus)
    ensures var t' := T.Handle(t, T.SetStatus(k, status));
            && t'.stock == t.stock && |t'.orders| == |t.orders|
            && (forall j :: 0 <= j < |t.orders| && j != k ==> t'.orders[j] == t.orders[j])
            && (k < |t.orders| ==>
                  var o, o' := t.orders[k], t'.orders[k];
                  && o'.status == status
                  && o'.lines == o.lines && o'.discount == o.discount && o'.total == o.total
                  && o'.paymentStatus == o.paymentStatus && o'.payments == o.payments && o'.debts == o.debts)
  {
  }

  /** Which order a request is about. */
  predicate About(r: T.Request, k: nat) {
    match r
    case Pay(order, _, _, _, _) => order == k
    case Repay(order, _, _, _) => order == k
    case SetStatus(order, _) => order == k
    case Cancel(order) => order == k
    case Place(_, _, _, _) => false
    case OnStock(_) => false
  }

  /** Orders are apart: a request about others leaves this one, and money never moves stock. */
  lemma OrdersAreApart(t: T.State, r: T.Request, k: nat)
    requires k < |t.orders| && !About(r, k)
    ensures k < |T.Handle(t, r).orders| && T.Handle(t, r).orders[k] == t.orders[k]
    ensures r.Pay? || r.Repay? ==> T.Handle(t, r).stock == t.stock
  {
  }

  lemma {:induction false} RunsAreApart(t: T.State, rs: seq<T.Request>, k: nat)
    requires k < |t.orders| && forall i :: 0 <= i < |rs| ==> !About(rs[i], k)
    ensures k < |T.HandleAll(t, rs).orders| && T.HandleAll(t, rs).orders[k] == t.orders[k]
    decreases |rs|
  {
    if rs != [] {
      OrdersAreApart(t, rs[0], k);
      RunsAreApart(T.Handle(t, rs[0]), rs[1..], k);
    }
  }

  // -------------------------------------------------------------------- money records

  /** The payment status, read off what was collected. */
  predicate StatusMeans(o: M.Money) {
    var collected := M.SumPayments(o.payments);
    && (o.paymentStatus.Unpaid? <==> collected == 0)
    && (o.paymentStatus.Partial? <==> 0 < collected < o.total)
    && (o.paymentStatus.Paid? <==> 0 < collected == o.total)
  }

  /** In every run of the till the payment status of every order says what was collected for it. */
  lemma StatusIsEarned(t: T.State, rs: seq<T.Request>, k: nat)
    requires T.Inv(t) && forall i :: 0 <= i < |rs| ==> T.WellFormed(rs[i])
    requires k < |T.HandleAll(t, rs).orders|
    ensures StatusMeans(T.HandleAll(t, rs).orders[k])
  {
    T.BooksStayStraight(t, rs);
    M.MoneyInvSays(T.HandleAll(t, rs).orders[k]);
  }

  /** A payment request: what it appends, or why it is refused. */
  lemma PaymentExactly(o: M.Money, means: M.Means, cents: nat, named: bool, user: M.UserId)
    requires M.MoneyInv(o)
    ensures var r := M.RecordPayment(o, means, cents, named, user);
            if M.SumPayments(o.payments) + M.Owed(o.debts) + cents > o.total then r == M.Refused(M.ExceedsBalance)
            else if means.Credit? && !named then r == M.Refused(M.NameRequired)
            else if means.Unknown? then r == M.Refused(M.InvalidMethod)
            else
              && r.Ok? && M.SameBill(o, r.order) && StatusMeans(r.order)
              && r.order.payments == o.payments + (if means.Credit? then [] else [M.Payment(means, cents, Some(user))])
              && r.order.debts == o.debts + (if means.Credit? then [M.Debt(cents, 0, false, user)] else [])
  {
    M.SumsNonNegative(o);
    M.RecordPaymentEffect(o, means, cents, named, user);
    var r := M.RecordPayment(o, means, cents, named, user);
    if r.Ok? {
      M.MoneyInvSays(r.order);
      assert o.payments + [] == o.payments && o.debts + [] == o.debts;
    }
  }

  /** A repayment: it is logged as revenue by cash, M-Pesa or card, cash if the means are none of these,
      and the debt is settled when nothing of it is left; or why it is refused. */
  lemma RepaymentExactly(o: M.Money, k: nat, cents: int, means: M.Means)
    requires M.MoneyInv(o)
    ensures var r := M.PayDebt(o, k, cents, means);
            if k >= |o.debts| then r == M.Refused(M.DebtNotFound)
            else
              var d := o.debts[k];
              var left := d.cents - d.paidCents - cents;
              if d.settled then r == M.Refused(M.AlreadySettled)
              else if cents <= 0 then r == M.Refused(M.NotPositive)
              else if left < 0 then r == M.Refused(M.ExceedsDebt)
              else
                && r.Ok? && M.SameBill(o, r.order) && StatusMeans(r.order)
                && r.order.debts == o.debts[k := M.Debt(d.cents, d.cents - left, left == 0, d.recordedBy)]
                && (means.Cash? || means.Mpesa? || means.Card? ==> r.order.payments == o.payments + [M.Payment(means, cents, None)])
                && (means.Credit? || means.Unknown? ==> r.order.payments == o.payments + [M.Payment(M.Cash, cents, None)])
  {
    M.RepaymentConserves(o, k, cents, means);
    if k < |o.debts| { assert M.DebtOk(o.debts[k]); }
    var r := M.PayDebt(o, k, cents, means);
    if r.Ok? { M.MoneyInvSays(r.order); }
  }

  /** Why an order is not cancelled. */
  lemma CancelRefusedExactly(o: M.Money)
    requires M.MoneyInv(o)
    ensures var collected := M.SumPayments(o.payments);
            && (M.Cancel(o) == M.Refused(M.FullyPaid) <==> collected > 0 && collected >= o.total)
            && (M.Cancel(o) == M.Refused(M.AlreadyCancelled) <==> o.status.Cancelled? && !(collected > 0 && collected >= o.total))
  {
  }
}
