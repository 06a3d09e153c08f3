/** Orders and stock together: every request is one transaction on both. */
module Till {
  import M = OrderMoney
  import S = StockLedger

  datatype State = State(orders: seq<M.Money>, stock: S.Stock)

  /** The part of an order's lines that stock depends on. */
  function Dishes(lines: seq<M.Line>): seq<S.Sold> {
    seq(|lines|, i requires 0 <= i < |lines| => S.Sold(lines[i].dish, lines[i].quantity))
  }

  /** menu gives the price of every dish that is live when the request arrives. */
  datatype Request =
    | Place(menu: map<M.DishId, int>, wanted: seq<S.Sold>, discount: nat, manager: bool)
    | Pay(order: nat, means: M.Means, cents: nat, named: bool, user: M.UserId)
    | Repay(order: nat, debt: nat, amount: int, means: M.Means)
    | SetStatus(order: nat, status: M.OrderStatus)
    | Cancel(order: nat)
    | OnStock(request: S.Request)

  function Priced(menu: map<M.DishId, int>, wanted: seq<S.Sold>): seq<M.Line>
    requires forall i :: 0 <= i < |wanted| ==> wanted[i].dish in menu
  {
    seq(|wanted|, i requires 0 <= i < |wanted| => M.Line(wanted[i].dish, menu[wanted[i].dish], wanted[i].quantity))
  }

  predicate Placeable(r: Request)
    requires r.Place?
  {
    (r.discount > 0 ==> r.manager) && forall i :: 0 <= i < |r.wanted| ==> r.wanted[i].dish in r.menu
  }

  function OnOrder(t: State, k: nat, r: M.Request): State {
    if k < |t.orders| then t.(orders := t.orders[k := M.Handle(t.orders[k], r)]) else t
  }

  /** The tables after a request. A refused request changes nothing. */
  function Handle(t: State, r: Request): State {
    match r
    case Place(menu, wanted, discount, _) =>
      if !Placeable(r) then t
      else
        var o := M.NewOrder(Priced(menu, wanted), discount);
        State(t.orders + [o], S.ApplySale(t.stock, Dishes(o.lines)))
    case Pay(k, means, cents, named, user) => OnOrder(t, k, M.PayRequest(means, cents, named, user))
    case Repay(k, debt, amount, means) => OnOrder(t, k, M.RepayRequest(debt, amount, means))
    case SetStatus(k, status) => OnOrder(t, k, M.StatusRequest(status))
    case Cancel(k) =>
      if k < |t.orders| && M.Cancel(t.orders[k]).Ok? then
        State(t.orders[k := M.Cancel(t.orders[k]).order], S.ReverseSale(t.stock, Dishes(t.orders[k].lines)))
      else t
    case OnStock(request) => t.(stock := S.Handle(t.stock, request))
  }

  function HandleAll(t: State, rs: seq<Request>): State
    decreases |rs|
  {
    if rs == [] then t else HandleAll(Handle(t, rs[0]), rs[1..])
  }

  /** Stock requests that come from the stock screen: sales and returns happen only with orders. */
  predicate WellFormed(r: Request) {
    r.OnStock? ==> S.WellFormed(r.request) && !r.request.SellDishes? && !r.request.ReturnDishes?
  }

  // ------------------------------------------------------------------ invariants

  ghost predicate Inv(t: State) {
    S.StockInv(t.stock) && forall k :: 0 <= k < |t.orders| ==> M.MoneyInv(t.orders[k])
  }

  lemma HandleKeepsInv(t: State, r: Request)
    requires Inv(t) && WellFormed(r)
    ensures Inv(Handle(t, r))
  {
    match r
    case Place(menu, wanted, discount, _) =>
      if Placeable(r) {
        var o := M.NewOrder(Priced(menu, wanted), discount);
        M.NewOrderInv(o.lines, discount);
        S.MoveKeepsInv(t.stock, Dishes(o.lines), -1);
      }
    case Pay(k, means, cents, named, user) =>
      if k < |t.orders| { M.HandleKeepsMoney(t.orders[k], M.PayRequest(means, cents, named, user)); }
    case Repay(k, debt, amount, means) =>
      if k < |t.orders| { M.HandleKeepsMoney(t.orders[k], M.RepayRequest(debt, amount, means)); }
    case SetStatus(k, status) =>
    case Cancel(k) =>
      if k < |t.orders| { S.MoveKeepsInv(t.stock, Dishes(t.orders[k].lines), 1); }
    case OnStock(request) => S.HandleKeepsInv(t.stock, request);
  }

  /** Every order of every run keeps its money straight, and every item its ledger. */
  lemma {:induction false} BooksStayStraight(t: State, rs: seq<Request>)
    requires Inv(t) && forall i :: 0 <= i < |rs| ==> WellFormed(rs[i])
    ensures Inv(HandleAll(t, rs))
    decreases |rs|
  {
    if rs != [] {
      HandleKeepsInv(t, rs[0]);
      BooksStayStraight(Handle(t, rs[0]), rs[1..]);
    }
  }

  // ------------------------------------------------------------- stock and orders

  /** What order o holds of the item: nothing once it is cancelled. */
  function Held(st: S.Stock, o: M.Money, id: S.ItemId): int {
    if o.status.Cancelled? then 0 else S.Taken(st, Dishes(o.lines), id)
  }

  function HeldByAll(st: S.Stock, orders: seq<M.Money>, id: S.ItemId): int {
    if orders == [] then 0 else HeldByAll(st, orders[..|orders| - 1], id) + Held(st, orders[|orders| - 1], id)
  }

  /** Deliveries, usage, waste, returns and counts; not sales. */
  function KeyedIn(ms: seq<S.Movement>): int {
    if ms == [] then 0
    else KeyedIn(ms[..|ms| - 1]) + if ms[|ms| - 1].reason.Sale? then 0 else ms[|ms| - 1].delta
  }

  /** On the shelf, plus in orders that stand. */
  function Accounted(t: State, id: S.ItemId): int
    requires id in t.stock.items
  {
    t.stock.items[id].quantity + HeldByAll(t.stock, t.orders, id)
  }

  /** What a request asks to add to the item by hand, if it is one that is accepted. */
  function Asked(t: State, r: Request, id: S.ItemId): int {
    if r.OnStock? && r.request.RecordMovement? && r.request.id == id && id in t.stock.items
       && !t.stock.items[id].archived && t.stock.items[id].quantity + r.request.delta >= 0
    then r.request.delta else 0
  }

  /** Summed over the run. */
  function AskedInAll(t: State, rs: seq<Request>, id: S.ItemId): int
    decreases |rs|
  {
    if rs == [] then 0 else Asked(t, rs[0], id) + AskedInAll(Handle(t, rs[0]), rs[1..], id)
  }

  /** What a status request moves in or out of standing orders without moving stock. */
  function StatusDrift(t: State, r: Request, id: S.ItemId): int {
    if r.SetStatus? && r.order < |t.orders| then
      Held(t.stock, t.orders[r.order].(status := r.status), id) - Held(t.stock, t.orders[r.order], id)
    else 0
  }

  function Drift(t: State, rs: seq<Request>, id: S.ItemId): int
    decreases |rs|
  {
    if rs == [] then 0 else StatusDrift(t, rs[0], id) + Drift(Handle(t, rs[0]), rs[1..], id)
  }

  /** Recipes and archive flags stay as they are. */
  predicate Steady(r: Request) {
    WellFormed(r) && (r.OnStock? ==> r.request.RecordMovement? || (r.request.CreateItem? && r.request.link.None?))
  }

  lemma {:induction false} HeldDependsOn(st: S.Stock, st': S.Stock, orders: seq<M.Money>, id: S.ItemId)
    requires st'.recipes == st.recipes && id in st.items && id in st'.items
    requires st'.items[id].archived == st.items[id].archived
    ensures HeldByAll(st', orders, id) == HeldByAll(st, orders, id)
    decreases |orders|
  {
    if orders != [] { HeldDependsOn(st, st', orders[..|orders| - 1], id); }
  }

  lemma {:induction false} ReplaceHeld(st: S.Stock, orders: seq<M.Money>, k: nat, o: M.Money, id: S.ItemId)
    requires k < |orders|
    ensures HeldByAll(st, orders[k := o], id) == HeldByAll(st, orders, id) - Held(st, orders[k], id) + Held(st, o, id)
    decreases |orders|
  {
    var n := |orders| - 1;
    if k == n {
      assert orders[k := o][..n] == orders[..n];
    } else {
      assert orders[k := o][..n] == orders[..n][k := o];
      ReplaceHeld(st, orders[..n], k, o, id);
    }
  }

  lemma AppendKeyed(item: S.Item, delta: int, reason: S.Reason)
    ensures KeyedIn(S.Moved(item, delta, reason).movements) == KeyedIn(item.movements) + if reason.Sale? then 0 else delta
  {
    assert S.Moved(item, delta, reason).movements[..|item.movements|] == item.movements;
  }

  /** Money requests change neither the lines nor whether the order is cancelled. */
  lemma MoneyKeepsHeld(st: S.Stock, o: M.Money, r: M.Request, id: S.ItemId)
    requires r.PayRequest? || r.RepayRequest?
    ensures Held(st, M.Handle(o, r), id) == Held(st, o, id)
  {
  }

  lemma OnOrderAccounted(t: State, k: nat, r: M.Request, id: S.ItemId)
    requires id in t.stock.items && k < |t.orders|
    ensures Accounted(OnOrder(t, k, r), id) ==
            Accounted(t, id) + Held(t.stock, M.Handle(t.orders[k], r), id) - Held(t.stock, t.orders[k], id)
  {
    ReplaceHeld(t.stock, t.orders, k, M.Handle(t.orders[k], r), id);
  }

  /** A sale or its reversal moves the shelf, and nothing that was keyed in. */
  lemma MovedStock(st: S.Stock, sold: seq<S.Sold>, sign: int, id: S.ItemId)
    requires id in st.items
    ensures var before, after := st.items[id], S.Move(st, sold, sign).items[id];
            after.quantity == before.quantity + sign * S.Taken(st, sold, id) && KeyedIn(after.movements) == KeyedIn(before.movements)
  {
    S.MoveTouchesOnce(st, sold, sign, id);
    AppendKeyed(st.items[id], sign * S.Taken(st, sold, id), S.Sale);
  }

  lemma AppendHeld(st: S.Stock, orders: seq<M.Money>, o: M.Money, id: S.ItemId)
    ensures HeldByAll(st, orders + [o], id) == HeldByAll(st, orders, id) + Held(st, o, id)
  {
    assert (orders + [o])[..|orders|] == orders;
  }

  lemma PlaceKeepsAccounted(t: State, r: Request, id: S.ItemId)
    requires r.Place? && Placeable(r) && id in t.stock.items
    ensures Accounted(Handle(t, r), id) == Accounted(t, id)
  {
    var o := M.NewOrder(Priced(r.menu, r.wanted), r.discount);
    MovedStock(t.stock, Dishes(o.lines), -1, id);
    AppendHeld(t.stock, t.orders, o, id);
    HeldDependsOn(t.stock, S.ApplySale(t.stock, Dishes(o.lines)), t.orders + [o], id);
  }

  lemma CancelKeepsAccounted(t: State, k: nat, id: S.ItemId)
    requires k < |t.orders| && M.Cancel(t.orders[k]).Ok? && id in t.stock.items
    ensures Accounted(Handle(t, Cancel(k)), id) == Accounted(t, id)
  {
    var o := t.orders[k];
    MovedStock(t.stock, Dishes(o.lines), 1, id);
    ReplaceHeld(t.stock, t.orders, k, M.Cancel(o).order, id);
    HeldDependsOn(t.stock, S.ReverseSale(t.stock, Dishes(o.lines)), t.orders[k := M.Cancel(o).order], id);
  }

  lemma StockMovesAsAsked(t: State, r: S.Request, id: S.ItemId)
    requires Steady(OnStock(r)) && id in t.stock.items
    ensures id in S.Handle(t.stock, r).items
    ensures Accounted(Handle(t, OnStock(r)), id) == Accounted(t, id) + Asked(t, OnStock(r), id)
  {
    HeldDependsOn(t.stock, S.Handle(t.stock, r), t.orders, id);
    if r.RecordMovement? { S.RecordMovementExactly(t.stock, r.id, r.delta, r.reason); }
  }

  lemma StepAccounted(t: State, r: Request, id: S.ItemId)
    requires Steady(r) && id in t.stock.items
    ensures id in Handle(t, r).stock.items
    ensures Accounted(Handle(t, r), id) == Accounted(t, id) + Asked(t, r, id) + StatusDrift(t, r, id)
  {
    match r
    case Place(_, _, _, _) => if Placeable(r) { PlaceKeepsAccounted(t, r, id); }
    case Pay(k, means, cents, named, user) =>
      if k < |t.orders| {
        var m := M.PayRequest(means, cents, named, user);
        OnOrderAccounted(t, k, m, id);
        MoneyKeepsHeld(t.stock, t.orders[k], m, id);
      }
    case Repay(k, debt, amount, means) =>
      if k < |t.orders| {
        var m := M.RepayRequest(debt, amount, means);
        OnOrderAccounted(t, k, m, id);
        MoneyKeepsHeld(t.stock, t.orders[k], m, id);
      }
    case SetStatus(k, status) => if k < |t.orders| { OnOrderAccounted(t, k, M.StatusRequest(status), id); }
    case Cancel(k) => if k < |t.orders| && M.Cancel(t.orders[k]).Ok? { CancelKeepsAccounted(t, k, id); }
    case OnStock(request) => StockMovesAsAsked(t, request, id);
  }

  /** Conservation of stock: over every run that leaves recipes and archive flags alone, what is on
      the shelf plus what standing orders hold changes by what the accepted requests asked to add or
      take, and by what status requests drift; so the books balance exactly when the drift is nil. */
  lemma {:induction false} StockBalances(t: State, rs: seq<Request>, id: S.ItemId)
    requires id in t.stock.items && forall i :: 0 <= i < |rs| ==> Steady(rs[i])
    ensures id in HandleAll(t, rs).stock.items
    ensures Accounted(HandleAll(t, rs), id) == Accounted(t, id) + AskedInAll(t, rs, id) + Drift(t, rs, id)
    decreases |rs|
  {
    if rs != [] {
      StepAccounted(t, rs[0], id);
      StockBalances(Handle(t, rs[0]), rs[1..], id);
    }
  }

  lemma StepLogsWhatIsAsked(t: State, r: Request, id: S.ItemId)
    requires Steady(r) && id in t.stock.items
    ensures id in Handle(t, r).stock.items
    ensures KeyedIn(Handle(t, r).stock.items[id].movements) == KeyedIn(t.stock.items[id].movements) + Asked(t, r, id)
  {
    match r
    case Place(menu, wanted, discount, _) =>
      if Placeable(r) { MovedStock(t.stock, Dishes(M.NewOrder(Priced(menu, wanted), discount).lines), -1, id); }
    case Pay(_, _, _, _, _) =>
    case Repay(_, _, _, _) =>
    case SetStatus(_, _) =>
    case Cancel(k) => if k < |t.orders| { MovedStock(t.stock, Dishes(t.orders[k].lines), 1, id); }
    case OnStock(request) =>
      if request.RecordMovement? { AppendKeyed(t.stock.items[id], request.delta, request.reason); }
  }

  /** And the ledger says so: its entries that are not sales add up to what was asked. */
  lemma {:induction false} LedgerLogsWhatIsAsked(t: State, rs: seq<Request>, id: S.ItemId)
    requires id in t.stock.items && forall i :: 0 <= i < |rs| ==> Steady(rs[i])
    ensures id in HandleAll(t, rs).stock.items
    ensures KeyedIn(HandleAll(t, rs).stock.items[id].movements) == KeyedIn(t.stock.items[id].movements) + AskedInAll(t, rs, id)
    decreases |rs|
  {
    if rs != [] {
      StepLogsWhatIsAsked(t, rs[0], id);
      LedgerLogsWhatIsAsked(Handle(t, rs[0]), rs[1..], id);
    }
  }

  predicate KeepsCancelled(t: State, r: Request) {
    r.SetStatus? && r.order < |t.orders| ==> (r.status.Cancelled? <==> t.orders[r.order].status.Cancelled?)
  }

  /** No status request takes an order into or out of cancelled. */
  predicate Undrifting(t: State, rs: seq<Request>)
    decreases |rs|
  {
    rs == [] || (KeepsCancelled(t, rs[0]) && Undrifting(Handle(t, rs[0]), rs[1..]))
  }

  lemma {:induction false} UndriftingHasNoDrift(t: State, rs: seq<Request>, id: S.ItemId)
    requires Undrifting(t, rs)
    ensures Drift(t, rs, id) == 0
    decreases |rs|
  {
    if rs != [] { UndriftingHasNoDrift(Handle(t, rs[0]), rs[1..], id); }
  }

  // -------------------------------------------------------------------- cancelling

  /** Orders keep their lines; recipes and archive flags stand still. */
  ghost predicate Settled(t: State, t': State) {
    && |t.orders| <= |t'.orders|
    && (forall k :: 0 <= k < |t.orders| ==> t'.orders[k].lines == t.orders[k].lines)
    && t'.stock.recipes == t.stock.recipes
    && forall id :: id in t.stock.items ==> id in t'.stock.items && t'.stock.items[id].archived == t.stock.items[id].archived
  }

  lemma StepSettled(t: State, r: Request)
    requires Steady(r)
    ensures Settled(t, Handle(t, r))
  {
    match r
    case Place(menu, wanted, discount, _) =>
    case Pay(k, means, cents, named, user) =>
    case Repay(k, debt, amount, means) =>
    case SetStatus(k, status) =>
    case Cancel(k) =>
    case OnStock(request) =>
  }

  lemma {:induction false} RunSettled(t: State, rs: seq<Request>)
    requires forall i :: 0 <= i < |rs| ==> Steady(rs[i])
    ensures Settled(t, HandleAll(t, rs))
    decreases |rs|
  {
    if rs != [] {
      StepSettled(t, rs[0]);
      RunSettled(Handle(t, rs[0]), rs[1..]);
    }
  }

  lemma SameTaken(t: State, t': State, lines: seq<M.Line>, id: S.ItemId)
    requires t'.stock.recipes == t.stock.recipes && id in t.stock.items && id in t'.stock.items
    requires t'.stock.items[id].archived == t.stock.items[id].archived
    ensures S.Taken(t'.stock, Dishes(lines), id) == S.Taken(t.stock, Dishes(lines), id)
  {
  }

  /** Whatever happens in between, cancelling gives back exactly what placing took. */
  lemma PlaceThenCancelRestores(t: State, r: Request, rs: seq<Request>, id: S.ItemId)
    requires r.Place? && Placeable(r) && id in t.stock.items && forall i :: 0 <= i < |rs| ==> Steady(rs[i])
    requires var t2 := HandleAll(Handle(t, r), rs);
             |t.orders| < |t2.orders| && M.Cancel(t2.orders[|t.orders|]).Ok?
    ensures var t1 := Handle(t, r); var t2 := HandleAll(t1, rs); var t3 := Handle(t2, Cancel(|t.orders|));
            && id in t2.stock.items && id in t3.stock.items
            && t3.stock.items[id].quantity - t2.stock.items[id].quantity
               == t.stock.items[id].quantity - t1.stock.items[id].quantity
  {
    var t1 := Handle(t, r);
    var lines := Priced(r.menu, r.wanted);
    RunSettled(t1, rs);
    assert t1.orders[|t.orders|].lines == lines;
    SameTaken(t, HandleAll(t1, rs), lines, id);
    MovedStock(t.stock, Dishes(lines), -1, id);
    MovedStock(HandleAll(t1, rs).stock, Dishes(lines), 1, id);
  }

  /** And when no status request interferes, the shelf ends where the movements asked for and the other
      orders would have put it without this order. */
  lemma CancelledOrderLeavesNoTrace(t: State, r: Request, rs: seq<Request>, id: S.ItemId)
    requires r.Place? && Placeable(r) && id in t.stock.items && forall i :: 0 <= i < |rs| ==> Steady(rs[i])
    requires var t2 := HandleAll(Handle(t, r), rs);
             |t.orders| < |t2.orders| && M.Cancel(t2.orders[|t.orders|]).Ok?
    requires Undrifting(Handle(t, r), rs)
    ensures var t3 := Handle(HandleAll(Handle(t, r), rs), Cancel(|t.orders|));
            && id in t3.stock.items && IsCancelled(t3, |t.orders|)
            && t3.stock.items[id].quantity - t.stock.items[id].quantity
               == AskedInAll(Handle(t, r), rs, id)
                  + HeldByAll(t.stock, t.orders, id) - HeldByAll(t3.stock, t3.orders, id)
  {
    PlaceKeepsAccounted(t, r, id);
    StockBalances(Handle(t, r), rs, id);
    UndriftingHasNoDrift(Handle(t, r), rs, id);
    CancelKeepsAccounted(HandleAll(Handle(t, r), rs), |t.orders|, id);
  }

  predicate Reverses(t: State, r: Request, k: nat) { r == Cancel(k) && k < |t.orders| && M.Cancel(t.orders[k]).Ok? }

  /** How often the run gives the ingredients of order k back. */
  function Reversals(t: State, rs: seq<Request>, k: nat): nat
    decreases |rs|
  {
    if rs == [] then 0
    else
      One(Reverses(t, rs[0], k)) + Reversals(Handle(t, rs[0]), rs[1..], k)
  }

  predicate IsCancelled(t: State, k: nat) { k < |t.orders| && t.orders[k].status.Cancelled? }

  function One(b: bool): int { if b then 1 else 0 }

  /** A status request takes the order out of cancelled. */
  predicate Reopens(t: State, r: Request, k: nat) {
    r.SetStatus? && r.order == k && IsCancelled(t, k) && !r.status.Cancelled?
  }

  /** A status request takes it there, moving no stock. */
  predicate CancelsByStatus(t: State, r: Request, k: nat) {
    r.SetStatus? && r.order == k && k < |t.orders| && !IsCancelled(t, k) && r.status.Cancelled?
  }

  function Reopenings(t: State, rs: seq<Request>, k: nat): nat
    decreases |rs|
  {
    if rs == [] then 0 else One(Reopens(t, rs[0], k)) + Reopenings(Handle(t, rs[0]), rs[1..], k)
  }

  function StatusCancellations(t: State, rs: seq<Request>, k: nat): nat
    decreases |rs|
  {
    if rs == [] then 0 else One(CancelsByStatus(t, rs[0], k)) + StatusCancellations(Handle(t, rs[0]), rs[1..], k)
  }

  /** Only these three ever change whether an order is cancelled. */
  lemma CancelledChangesBy(t: State, r: Request, k: nat)
    ensures One(IsCancelled(Handle(t, r), k)) - One(IsCancelled(t, k)) ==
            One(Reverses(t, r, k)) + One(CancelsByStatus(t, r, k)) - One(Reopens(t, r, k))
  {
  }

  /** How often an order's ingredients come back, for every run: once if it ends cancelled and did not
      start so, once more for every reopening, and once less for every cancellation by status. */
  lemma {:induction false} ReversalsCounted(t: State, rs: seq<Request>, k: nat)
    ensures Reversals(t, rs, k) ==
            One(IsCancelled(HandleAll(t, rs), k)) - One(IsCancelled(t, k)) + Reopenings(t, rs, k) - StatusCancellations(t, rs, k)
    decreases |rs|
  {
    if rs != [] {
      CancelledChangesBy(t, rs[0], k);
      ReversalsCounted(Handle(t, rs[0]), rs[1..], k);
    }
  }

  lemma {:induction false} UndriftingHasNeither(t: State, rs: seq<Request>, k: nat)
    requires Undrifting(t, rs)
    ensures Reopenings(t, rs, k) == 0 && StatusCancellations(t, rs, k) == 0
    decreases |rs|
  {
    if rs != [] { UndriftingHasNeither(Handle(t, rs[0]), rs[1..], k); }
  }

  /** In particular at most once, when no status request takes an order into or out of cancelled. */
  lemma ReversedAtMostOnce(t: State, rs: seq<Request>, k: nat)
    requires Undrifting(t, rs)
    ensures Reversals(t, rs, k) == One(IsCancelled(HandleAll(t, rs), k)) - One(IsCancelled(t, k))
    ensures Reversals(t, rs, k) <= 1
  {
    UndriftingHasNeither(t, rs, k);
    ReversalsCounted(t, rs, k);
  }

  /** The condition is needed. A status request may reopen a cancelled order; cancelling it again
      passes the guard and returns the ingredients a second time, so stock appears from nowhere. */
  lemma ReopeningInventsStock(t: State, k: nat, id: S.ItemId)
    requires k < |t.orders| && M.Cancel(t.orders[k]).Ok? && id in t.stock.items
    ensures var rs := [Cancel(k), SetStatus(k, M.Pending), Cancel(k)];
            && !Undrifting(t, rs)
            && Reversals(t, rs, k) == 2
            && id in HandleAll(t, rs).stock.items
            && HandleAll(t, rs).stock.items[id].quantity ==
               t.stock.items[id].quantity + 2 * S.Taken(t.stock, Dishes(t.orders[k].lines), id)
  {
    var rs := [Cancel(k), SetStatus(k, M.Pending), Cancel(k)];
    var lines := t.orders[k].lines;
    var t1 := Handle(t, rs[0]);
    var t2 := Handle(t1, rs[1]);
    var t3 := Handle(t2, rs[2]);
    assert rs[1..] == [SetStatus(k, M.Pending), Cancel(k)] && rs[1..][1..] == [Cancel(k)];
    assert t2.orders[k].lines == lines;
    MovedStock(t.stock, Dishes(lines), 1, id);
    MovedStock(t2.stock, Dishes(lines), 1, id);
    SameTaken(t, t2, lines, id);
    assert HandleAll(t, rs) == t3 by {
      assert HandleAll(t, rs) == HandleAll(t1, rs[1..]);
      assert HandleAll(t1, rs[1..]) == HandleAll(t2, [Cancel(k)]);
      assert HandleAll(t2, [Cancel(k)]) == HandleAll(t3, []);
    }
    assert Reversals(t2, [Cancel(k)], k) == 1 + Reversals(t3, [], k);
  }
}
