/** The order routes over order objects and the stock room, each proved to do to the tables what
    Till.Handle does. */
module TillService {
  import opened Options
  import M = OrderMoney
  import S = StockLedger
  import R = StockService
  import T = Till

  function Why(r: M.Result): Option<M.Refusal> { if r.Ok? then None else Some(r.why) }

  class Till {
    const room: R.StockRoom
    var orders: seq<M.Order>
    ghost var tickets: seq<M.Money>
    ghost var Repr: set<object>

    /** tickets holds the values of the orders, which are distinct and apart from the stock room. */
    ghost predicate Valid()
      reads this, Repr
      ensures Valid() ==> this in Repr
    {
      && this in Repr && room in Repr && room.Repr <= Repr && this !in room.Repr
      && room.Valid()
      && (forall i :: 0 <= i < |orders| ==> orders[i] in Repr)
      && OrdersOk()
    }

    ghost predicate OrdersOk()
      reads this, room, orders
    {
      && |tickets| == |orders|
      && (forall i, j :: 0 <= i < j < |orders| ==> orders[i] != orders[j])
      && (forall i :: 0 <= i < |orders| ==> orders[i] !in room.Repr && tickets[i] == orders[i].View())
    }

    /** The tables these objects stand for. */
    ghost function Db(): T.State
      reads this, room
    {
      T.State(tickets, room.Db())
    }

    constructor ()
      ensures Valid() && fresh(Repr) && Db() == T.State([], S.Stock(map[], []))
    {
      var r := new R.StockRoom();
      room, orders, tickets := r, [], [];
      new;
      Repr := {this, room} + room.Repr;
    }

    /** The loop that fills the order from the live menu; it stops at a dish that is not on it. */
    static method FillOrder(order: M.Order, menu: map<M.DishId, int>, wanted: seq<S.Sold>) returns (ok: bool)
      requires order.lines == []
      modifies order`lines
      ensures ok <==> forall i :: 0 <= i < |wanted| ==> wanted[i].dish in menu
      ensures ok ==> order.lines == T.Priced(menu, wanted)
    {
      for k := 0 to |wanted|
        invariant forall i :: 0 <= i < k ==> wanted[i].dish in menu
        invariant order.lines == T.Priced(menu, wanted[..k])
      {
        if wanted[k].dish !in menu { return false; }
        order.lines := order.lines + [M.Line(wanted[k].dish, menu[wanted[k].dish], wanted[k].quantity)];
      }
      assert wanted[..|wanted|] == wanted;
      ok := true;
    }

    static method BuildOrder(menu: map<M.DishId, int>, wanted: seq<S.Sold>, discount: nat) returns (order: M.Order, ok: bool)
      ensures fresh(order)
      ensures ok <==> forall i :: 0 <= i < |wanted| ==> wanted[i].dish in menu
      ensures ok ==> order.View() == M.NewOrder(T.Priced(menu, wanted), discount)
    {
      order := new M.Order(discount);
      ok := FillOrder(order, menu, wanted);
      if ok { order.Recalculate(); }
    }

    /** `create_order`. */
    method CreateOrder(menu: map<M.DishId, int>, wanted: seq<S.Sold>, discount: nat, manager: bool) returns (ok: bool)
      requires Valid()
      modifies Repr
      ensures Valid() && fresh(Repr - old(Repr))
      ensures ok <==> T.Placeable(T.Place(menu, wanted, discount, manager))
      ensures Db() == T.Handle(old(Db()), T.Place(menu, wanted, discount, manager))
    {
      if discount > 0 && !manager { return false; }
      var order;
      order, ok := BuildOrder(menu, wanted, discount);
      if ok {
        AddOrder(order);
        MoveStock(T.Dishes(order.lines), -1);
      }
    }

    method AddOrder(order: M.Order)
      requires Valid() && order !in Repr
      modifies this`orders, this`tickets, this`Repr
      ensures Valid() && Repr == old(Repr) + {order}
      ensures tickets == old(tickets) + [order.View()]
    {
      orders, tickets, Repr := orders + [order], tickets + [order.View()], Repr + {order};
    }

    method MoveStock(sold: seq<S.Sold>, sign: int)
      requires Valid()
      modifies room.Repr
      ensures Valid()
      ensures room.Db() == S.Move(old(room.Db()), sold, sign)
    {
      room.MoveOrder(sold, sign);
    }

    /** Bookkeeping after order k changed. */
    ghost method Reread(k: nat)
      requires k < |orders| == |tickets| && room.Valid() && this in Repr && room in Repr && room.Repr <= Repr && this !in room.Repr
      requires forall i, j :: 0 <= i < j < |orders| ==> orders[i] != orders[j]
      requires forall i :: 0 <= i < |orders| ==> orders[i] in Repr && orders[i] !in room.Repr && (i != k ==> tickets[i] == orders[i].View())
      modifies this`tickets
      ensures Valid() && tickets == old(tickets)[k := orders[k].View()]
    {
      tickets := tickets[k := orders[k].View()];
    }

    /** `record_payment`. */
    method RecordPayment(k: nat, means: M.Means, cents: nat, named: bool, user: M.UserId) returns (refusal: Option<M.Refusal>)
      requires Valid()
      modifies Repr
      ensures Valid() && Repr == old(Repr)
      ensures Db() == T.Handle(old(Db()), T.Pay(k, means, cents, named, user))
      ensures refusal == if k < |old(tickets)| then Why(M.RecordPayment(old(tickets)[k], means, cents, named, user)) else Some(M.OrderNotFound)
    {
      if k >= |orders| { return Some(M.OrderNotFound); }
      refusal := orders[k].Take(means, cents, named, user);
      Reread(k);
    }

    /** `pay_debt`. */
    method PayDebt(k: nat, debt: nat, amount: int, means: M.Means) returns (refusal: Option<M.Refusal>)
      requires Valid()
      modifies Repr
      ensures Valid() && Repr == old(Repr)
      ensures Db() == T.Handle(old(Db()), T.Repay(k, debt, amount, means))
      ensures refusal == if k < |old(tickets)| then Why(M.PayDebt(old(tickets)[k], debt, amount, means)) else Some(M.DebtNotFound)
    {
      if k >= |orders| { return Some(M.DebtNotFound); }
      refusal := orders[k].Repay(debt, amount, means);
      Reread(k);
    }

    /** `update_status`. */
    method UpdateStatus(k: nat, status: M.OrderStatus) returns (found: bool)
      requires Valid()
      modifies Repr
      ensures Valid() && Repr == old(Repr)
      ensures Db() == T.Handle(old(Db()), T.SetStatus(k, status))
      ensures found <==> k < |old(tickets)|
    {
      if k >= |orders| { return false; }
      orders[k].status := status;
      Reread(k);
      found := true;
    }

    /** `cancel_order`. */
    method CancelOrder(k: nat) returns (refusal: Option<M.Refusal>)
      requires Valid()
      modifies Repr
      ensures Valid() && Repr == old(Repr)
      ensures Db() == T.Handle(old(Db()), T.Cancel(k))
      ensures refusal == if k < |old(tickets)| then Why(M.Cancel(old(tickets)[k])) else Some(M.OrderNotFound)
    {
      if k >= |orders| { return Some(M.OrderNotFound); }
      if orders[k].paymentStatus.Paid? { return Some(M.FullyPaid); }
      if orders[k].status.Cancelled? { return Some(M.AlreadyCancelled); }
      orders[k].status := M.Cancelled;
      Reread(k);
      MoveStock(T.Dishes(orders[k].lines), 1);
      refusal := None;
    }
  }
}
