/** Stock items, the append-only ledger of their movements, and recipes. Quantities are whole
    thousandths of a unit. */
module StockLedger {
  import opened Options

  type ItemId = string
  type DishId = string

  datatype Reason = Received | Used | Waste | Count | Returned | Sale

  datatype Movement = Movement(delta: int, reason: Reason, balanceAfter: int)

  datatype Item = Item(quantity: int, archived: bool, movements: seq<Movement>)

  /** One sale of the dish takes milli of the item. */
  datatype RecipeLine = RecipeLine(dish: DishId, item: ItemId, milli: int)

  /** A line of an order, as far as stock is concerned. */
  datatype Sold = Sold(dish: DishId, quantity: int)

  datatype Stock = Stock(items: map<ItemId, Item>, recipes: seq<RecipeLine>)

  // ---------------------------------------------------------------------- ledger

  function SumDeltas(ms: seq<Movement>): int {
    if ms == [] then 0 else SumDeltas(ms[..|ms| - 1]) + ms[|ms| - 1].delta
  }

  /** The change and its ledger entry, made together. */
  function Moved(item: Item, delta: int, reason: Reason): Item {
    item.(quantity := item.quantity + delta,
          movements := item.movements + [Movement(delta, reason, item.quantity + delta)])
  }

  /** Replaying the ledger gives the running total, each entry carries the total of its time, and
      only a sale (or its reversal) ever leaves a negative one. */
  ghost predicate LedgerOk(item: Item) {
    && item.quantity == SumDeltas(item.movements)
    && BalancesShown(item.movements)
    && OnlySalesGoNegative(item.movements)
  }

  ghost predicate OnlySalesGoNegative(ms: seq<Movement>) {
    forall k :: 0 <= k < |ms| && ms[k].balanceAfter < 0 ==> ms[k].reason.Sale?
  }

  ghost predicate BalanceShown(ms: seq<Movement>, k: nat)
    requires k < |ms|
  {
    ms[k].balanceAfter == SumDeltas(ms[..k + 1])
  }

  ghost predicate BalancesShown(ms: seq<Movement>) { forall k :: 0 <= k < |ms| ==> BalanceShown(ms, k) }

  lemma AppendSum(ms: seq<Movement>, m: Movement)
    ensures SumDeltas(ms + [m]) == SumDeltas(ms) + m.delta
  {
    assert (ms + [m])[..|ms|] == ms;
  }

  lemma AppendBalance(ms: seq<Movement>, m: Movement)
    requires BalancesShown(ms) && m.balanceAfter == SumDeltas(ms) + m.delta
    ensures BalancesShown(ms + [m])
  {
    var after := ms + [m];
    forall k | 0 <= k < |after| ensures BalanceShown(after, k) {
      if k < |ms| {
        assert BalanceShown(ms, k) && after[..k + 1] == ms[..k + 1];
      } else {
        assert after[..k + 1] == after;
        AppendSum(ms, m);
      }
    }
  }

  lemma AppendNegative(ms: seq<Movement>, m: Movement)
    requires OnlySalesGoNegative(ms) && (m.balanceAfter < 0 ==> m.reason.Sale?)
    ensures OnlySalesGoNegative(ms + [m])
  {
  }

  lemma MovedKeepsLedger(item: Item, delta: int, reason: Reason)
    requires LedgerOk(item) && (item.quantity + delta < 0 ==> reason.Sale?)
    ensures LedgerOk(Moved(item, delta, reason))
  {
    var m := Movement(delta, reason, item.quantity + delta);
    AppendSum(item.movements, m);
    AppendBalance(item.movements, m);
    AppendNegative(item.movements, m);
  }

  /** A negative quantity means that the latest movement is a sale. */
  lemma NegativeMeansSale(item: Item)
    requires LedgerOk(item) && item.quantity < 0
    ensures item.movements != [] && item.movements[|item.movements| - 1].reason.Sale?
  {
    var n := |item.movements|;
    if n > 0 { assert BalanceShown(item.movements, n - 1) && item.movements[..n] == item.movements; }
  }

  // ------------------------------------------------------------------- deduction

  /** What one sale of the dish takes of the item, over all recipe lines. */
  function PerSale(recipes: seq<RecipeLine>, dish: DishId, id: ItemId): int {
    if recipes == [] then 0
    else
      var r := recipes[|recipes| - 1];
      PerSale(recipes[..|recipes| - 1], dish, id) + if r.dish == dish && r.item == id then r.milli else 0
  }

  /** The plain double sum over order lines and recipe lines. */
  function Need(recipes: seq<RecipeLine>, sold: seq<Sold>, id: ItemId): int {
    if sold == [] then 0
    else
      var s := sold[|sold| - 1];
      Need(recipes, sold[..|sold| - 1], id) + PerSale(recipes, s.dish, id) * s.quantity
  }

  predicate Tracked(items: map<ItemId, Item>, id: ItemId) { id in items && !items[id].archived }

  /** Nothing is taken of an archived item. */
  function Taken(st: Stock, sold: seq<Sold>, id: ItemId): int {
    if Tracked(st.items, id) then Need(st.recipes, sold, id) else 0
  }

  /** `_move`: one movement per item with something to move. */
  function Move(st: Stock, sold: seq<Sold>, sign: int): Stock {
    st.(items := map id | id in st.items ::
      if Taken(st, sold, id) != 0 then Moved(st.items[id], sign * Taken(st, sold, id), Sale) else st.items[id])
  }

  function ApplySale(st: Stock, sold: seq<Sold>): Stock { Move(st, sold, -1) }

  function ReverseSale(st: Stock, sold: seq<Sold>): Stock { Move(st, sold, 1) }

  /** The simple form: a movement for every order line and every recipe line of its dish. */
  function MoveRecipes(items: map<ItemId, Item>, recipes: seq<RecipeLine>, s: Sold, sign: int): map<ItemId, Item> {
    if recipes == [] then items
    else
      var before := MoveRecipes(items, recipes[..|recipes| - 1], s, sign);
      var r := recipes[|recipes| - 1];
      if r.dish == s.dish && Tracked(before, r.item) then
        before[r.item := Moved(before[r.item], sign * (r.milli * s.quantity), Sale)]
      else before
  }

  function MoveLineByLine(st: Stock, sold: seq<Sold>, sign: int): map<ItemId, Item> {
    if sold == [] then st.items
    else MoveRecipes(MoveLineByLine(st, sold[..|sold| - 1], sign), st.recipes, sold[|sold| - 1], sign)
  }

  lemma {:induction false} MoveRecipesTotals(items: map<ItemId, Item>, recipes: seq<RecipeLine>, s: Sold, sign: int, id: ItemId)
    requires id in items
    ensures var after := MoveRecipes(items, recipes, s, sign);
            && id in after && after[id].archived == items[id].archived
            && after[id].quantity == items[id].quantity +
                 if items[id].archived then 0 else sign * (PerSale(recipes, s.dish, id) * s.quantity)
    decreases |recipes|
  {
    if recipes != [] {
      var r := recipes[|recipes| - 1];
      MoveRecipesTotals(items, recipes[..|recipes| - 1], s, sign, id);
      Distribute(sign, PerSale(recipes[..|recipes| - 1], s.dish, id), r.milli, s.quantity);
    }
  }

  lemma Distribute(sign: int, a: int, b: int, k: int)
    ensures sign * ((a + b) * k) == sign * (a * k) + sign * (b * k)
  {
    assert (a + b) * k == a * k + b * k;
  }

  /** Netting is faithful: grouped by dish and totalled per item, the deduction leaves every item
      at the quantity that deducting line by line would leave it at. */
  lemma {:induction false} NettedEqualsLineByLine(st: Stock, sold: seq<Sold>, sign: int, id: ItemId)
    requires id in st.items
    ensures id in MoveLineByLine(st, sold, sign)
    ensures MoveLineByLine(st, sold, sign)[id].archived == st.items[id].archived
    ensures MoveLineByLine(st, sold, sign)[id].quantity == Move(st, sold, sign).items[id].quantity
    decreases |sold|
  {
    if sold != [] {
      var s, rest := sold[|sold| - 1], sold[..|sold| - 1];
      NettedEqualsLineByLine(st, rest, sign, id);
      MoveRecipesTotals(MoveLineByLine(st, rest, sign), st.recipes, s, sign, id);
      Distribute(sign, Need(st.recipes, rest, id), PerSale(st.recipes, s.dish, id) * s.quantity, 1);
    }
  }

  /** Each item gets at most one movement, archived items none, and the ledger still replays. */
  lemma {:induction false} MoveTouchesOnce(st: Stock, sold: seq<Sold>, sign: int, id: ItemId)
    requires id in st.items
    ensures var before, after := st.items[id], Move(st, sold, sign).items[id];
            && after.quantity == before.quantity + sign * Taken(st, sold, id)
            && before.movements <= after.movements && |after.movements| <= |before.movements| + 1
            && (Taken(st, sold, id) == 0 ==> after == before)
            && (before.archived ==> after == before)
            && (LedgerOk(before) ==> LedgerOk(after))
  {
    if LedgerOk(st.items[id]) { MovedKeepsLedger(st.items[id], sign * Taken(st, sold, id), Sale); }
  }

  // --------------------------------------------------------------------- requests

  datatype Link = Link(dish: DishId, known: bool, milli: nat)

  datatype Request =
    | CreateItem(id: ItemId, opening: nat, link: Option<Link>)
    | RecordMovement(id: ItemId, delta: int, reason: Reason)
    | ArchiveItem(id: ItemId)
    | SetRecipe(id: ItemId, dish: DishId, known: bool, milli: nat)
    | SellDishes(sold: seq<Sold>)
    | ReturnDishes(sold: seq<Sold>)

  function RemoveRecipe(recipes: seq<RecipeLine>, dish: DishId, id: ItemId): seq<RecipeLine> {
    if recipes == [] then []
    else
      var r := recipes[|recipes| - 1];
      RemoveRecipe(recipes[..|recipes| - 1], dish, id) + if r.dish == dish && r.item == id then [] else [r]
  }

  predicate Linked(recipes: seq<RecipeLine>, dish: DishId, id: ItemId) {
    exists i :: 0 <= i < |recipes| && recipes[i].dish == dish && recipes[i].item == id
  }

  function SetMilli(r: RecipeLine, dish: DishId, id: ItemId, milli: int): RecipeLine {
    if r.dish == dish && r.item == id then r.(milli := milli) else r
  }

  function SetAmount(recipes: seq<RecipeLine>, dish: DishId, id: ItemId, milli: int): seq<RecipeLine> {
    seq(|recipes|, i requires 0 <= i < |recipes| => SetMilli(recipes[i], dish, id, milli))
  }

  /** The line is deleted, updated in place or inserted. */
  function Relinked(recipes: seq<RecipeLine>, dish: DishId, id: ItemId, milli: nat): seq<RecipeLine> {
    if milli == 0 then RemoveRecipe(recipes, dish, id)
    else if Linked(recipes, dish, id) then SetAmount(recipes, dish, id, milli)
    else recipes + [RecipeLine(dish, id, milli)]
  }

  /** What a hand-keyed request must look like for the request schema to let it through. */
  predicate WellFormed(r: Request) {
    match r
    case RecordMovement(_, delta, reason) => delta != 0 && !reason.Sale?
    case _ => true
  }

  /** The stock after a request. A refused request changes nothing. */
  function Handle(st: Stock, r: Request): Stock {
    match r
    case CreateItem(id, opening, link) =>
      if id in st.items || (link.Some? && !link.value.known) then st
      else
        var bare := Item(0, false, []);
        var item := if opening != 0 then Moved(bare, opening, Count) else bare;
        Stock(st.items[id := item],
              if link.Some? then st.recipes + [RecipeLine(link.value.dish, id, link.value.milli)] else st.recipes)
    case RecordMovement(id, delta, reason) =>
      if !Tracked(st.items, id) || st.items[id].quantity + delta < 0 then st
      else st.(items := st.items[id := Moved(st.items[id], delta, reason)])
    case ArchiveItem(id) =>
      if !Tracked(st.items, id) then st
      else st.(items := st.items[id := st.items[id].(archived := true)])
    case SetRecipe(id, dish, known, milli) =>
      if !Tracked(st.items, id) || !known then st
      else
        st.(recipes := Relinked(st.recipes, dish, id, milli))
    case SellDishes(sold) => ApplySale(st, sold)
    case ReturnDishes(sold) => ReverseSale(st, sold)
  }

  function HandleAll(st: Stock, rs: seq<Request>): Stock
    decreases |rs|
  {
    if rs == [] then st else HandleAll(Handle(st, rs[0]), rs[1..])
  }

  // ------------------------------------------------------- what each request changes

  /** No item but id differs. */
  ghost predicate OthersSame(st: Stock, st': Stock, id: ItemId) {
    && (forall o :: o in st.items && o != id ==> o in st'.items && st'.items[o] == st.items[o])
    && (forall o :: o in st'.items && o != id ==> o in st.items)
  }

  /** A hand-keyed movement, exactly as asked: signed, logged with its reason and the new balance, or
      refused when the item is gone or would go below zero. */
  lemma RecordMovementExactly(st: Stock, id: ItemId, delta: int, reason: Reason)
    ensures var st' := Handle(st, RecordMovement(id, delta, reason));
            if id in st.items && !st.items[id].archived && st.items[id].quantity + delta >= 0 then
              var before := st.items[id];
              var balance := before.quantity + delta;
              && id in st'.items
              && st'.items[id] == Item(balance, before.archived, before.movements + [Movement(delta, reason, balance)])
              && OthersSame(st, st', id) && st'.recipes == st.recipes
            else st' == st
  {
  }

  /** A new item starts with its opening stock, one entry in its ledger if there is any, and the link
      that was asked for. */
  lemma CreateItemExactly(st: Stock, id: ItemId, opening: nat, link: Option<Link>)
    requires forall r :: r in st.recipes ==> r.item in st.items
    ensures var st' := Handle(st, CreateItem(id, opening, link));
            if id !in st.items && (link.Some? ==> link.value.known) then
              && id in st'.items && st'.items[id].quantity == opening && !st'.items[id].archived
              && st'.items[id].movements == (if opening == 0 then [] else [Movement(opening, Count, opening)])
              && OthersSame(st, st', id)
              && (forall d, i :: PerSale(st'.recipes, d, i) ==
                    if i == id then (if link.Some? && link.value.dish == d then link.value.milli else 0)
                    else PerSale(st.recipes, d, i))
            else st' == st
  {
    var st' := Handle(st, CreateItem(id, opening, link));
    if id !in st.items && (link.Some? ==> link.value.known) {
      forall d, i ensures PerSale(st'.recipes, d, i) ==
                          if i == id then (if link.Some? && link.value.dish == d then link.value.milli else 0)
                          else PerSale(st.recipes, d, i)
      {
        NotLinkedNothing(st.recipes, |st.recipes|, d, id);
        assert st.recipes[..|st.recipes|] == st.recipes;
        if link.Some? { AppendPerSale(st.recipes, RecipeLine(link.value.dish, id, link.value.milli), d, i); }
      }
    }
  }

  lemma {:induction false} NotLinkedNothing(recipes: seq<RecipeLine>, n: nat, d: DishId, id: ItemId)
    requires n <= |recipes| && forall k :: 0 <= k < |recipes| ==> recipes[k].item != id
    ensures PerSale(recipes[..n], d, id) == 0
    decreases n
  {
    if n > 0 {
      assert recipes[..n][..n - 1] == recipes[..n - 1];
      NotLinkedNothing(recipes, n - 1, d, id);
    }
  }

  /** Archiving hides the item and keeps all its figures. */
  lemma ArchiveExactly(st: Stock, id: ItemId)
    ensures var st' := Handle(st, ArchiveItem(id));
            if id in st.items && !st.items[id].archived then
              && id in st'.items && st'.items[id] == Item(st.items[id].quantity, true, st.items[id].movements)
              && OthersSame(st, st', id) && st'.recipes == st.recipes
            else st' == st
  {
  }

  /** At most one recipe line per dish and item, as the unique constraint demands. */
  ghost predicate Unique(recipes: seq<RecipeLine>) {
    forall i, j :: 0 <= i < j < |recipes| ==> recipes[i].dish != recipes[j].dish || recipes[i].item != recipes[j].item
  }

  /** And every line is for a known item, with no negative amount. */
  ghost predicate RecipesOk(st: Stock) {
    Unique(st.recipes) && forall r :: r in st.recipes ==> r.item in st.items && 0 <= r.milli
  }

  ghost predicate StockInv(st: Stock) {
    RecipesOk(st) && forall id :: id in st.items ==> LedgerOk(st.items[id])
  }

  lemma {:induction false} RemovedRecipes(recipes: seq<RecipeLine>, dish: DishId, id: ItemId)
    ensures forall r :: r in RemoveRecipe(recipes, dish, id) <==> r in recipes && !(r.dish == dish && r.item == id)
    decreases |recipes|
  {
    if recipes != [] {
      RemovedRecipes(recipes[..|recipes| - 1], dish, id);
      assert recipes == recipes[..|recipes| - 1] + [recipes[|recipes| - 1]];
    }
  }

  lemma {:induction false} RemoveKeepsUnique(recipes: seq<RecipeLine>, dish: DishId, id: ItemId)
    requires Unique(recipes)
    ensures Unique(RemoveRecipe(recipes, dish, id))
    decreases |recipes|
  {
    if recipes != [] {
      var front, last := recipes[..|recipes| - 1], recipes[|recipes| - 1];
      RemoveKeepsUnique(front, dish, id);
      RemovedRecipes(front, dish, id);
      forall q | q in RemoveRecipe(front, dish, id) ensures q.dish != last.dish || q.item != last.item {
        var k :| 0 <= k < |front| && front[k] == q;
        assert recipes[k] == q && recipes[|front|] == last;
      }
      AddRecipeOk(RemoveRecipe(front, dish, id), last);
    }
  }

  lemma AddRecipeOk(recipes: seq<RecipeLine>, r: RecipeLine)
    requires Unique(recipes) && forall q :: q in recipes ==> q.dish != r.dish || q.item != r.item
    ensures Unique(recipes + [r])
  {
  }

  lemma SetAmountOk(recipes: seq<RecipeLine>, dish: DishId, id: ItemId, milli: nat)
    ensures Unique(recipes) ==> Unique(SetAmount(recipes, dish, id, milli))
    ensures forall i :: 0 <= i < |recipes| ==>
              SetAmount(recipes, dish, id, milli)[i] == SetMilli(recipes[i], dish, id, milli)
  {
  }

  lemma RelinkedUnique(recipes: seq<RecipeLine>, dish: DishId, id: ItemId, milli: nat)
    requires Unique(recipes)
    ensures Unique(Relinked(recipes, dish, id, milli))
  {
    if milli == 0 {
      RemoveKeepsUnique(recipes, dish, id);
    } else if Linked(recipes, dish, id) {
      SetAmountOk(recipes, dish, id, milli);
    } else {
      AddRecipeOk(recipes, RecipeLine(dish, id, milli));
    }
  }

  lemma RelinkedHolds(recipes: seq<RecipeLine>, dish: DishId, id: ItemId, milli: nat, r: RecipeLine)
    requires r in Relinked(recipes, dish, id, milli)
    ensures r in recipes || (r.item == id && r.milli == milli)
  {
    RemovedRecipes(recipes, dish, id);
    SetAmountOk(recipes, dish, id, milli);
  }

  lemma SetRecipeKeepsInv(st: Stock, id: ItemId, dish: DishId, known: bool, milli: nat)
    requires StockInv(st)
    ensures StockInv(Handle(st, SetRecipe(id, dish, known, milli)))
  {
    if Tracked(st.items, id) && known {
      var recipes := Relinked(st.recipes, dish, id, milli);
      RelinkedUnique(st.recipes, dish, id, milli);
      forall r | r in recipes ensures r.item in st.items && 0 <= r.milli {
        RelinkedHolds(st.recipes, dish, id, milli, r);
      }
    }
  }

  lemma AppendPerSale(recipes: seq<RecipeLine>, r: RecipeLine, d: DishId, i: ItemId)
    ensures PerSale(recipes + [r], d, i) == PerSale(recipes, d, i) + if r.dish == d && r.item == i then r.milli else 0
  {
    assert (recipes + [r])[..|recipes|] == recipes;
  }

  lemma {:induction false} RemovedAmounts(recipes: seq<RecipeLine>, dish: DishId, id: ItemId, d: DishId, i: ItemId)
    ensures PerSale(RemoveRecipe(recipes, dish, id), d, i) == if d == dish && i == id then 0 else PerSale(recipes, d, i)
    decreases |recipes|
  {
    if recipes != [] {
      RemovedAmounts(recipes[..|recipes| - 1], dish, id, d, i);
      RemovedOneMore(recipes, dish, id, d, i);
    }
  }

  lemma RemovedOneMore(recipes: seq<RecipeLine>, dish: DishId, id: ItemId, d: DishId, i: ItemId)
    requires recipes != []
    ensures var front, last := recipes[..|recipes| - 1], recipes[|recipes| - 1];
            PerSale(RemoveRecipe(recipes, dish, id), d, i) - PerSale(RemoveRecipe(front, dish, id), d, i) ==
            if last.dish == d && last.item == i && !(last.dish == dish && last.item == id) then last.milli else 0
  {
    var front, last := recipes[..|recipes| - 1], recipes[|recipes| - 1];
    AppendPerSale(RemoveRecipe(front, dish, id), last, d, i);
    assert RemoveRecipe(front, dish, id) + [] == RemoveRecipe(front, dish, id);
  }

  /** Only the j-th line links the dish and the item. */
  lemma {:induction false} OnlyLine(recipes: seq<RecipeLine>, n: nat, j: int, dish: DishId, id: ItemId)
    requires n <= |recipes|
    requires forall k :: 0 <= k < |recipes| && recipes[k].dish == dish && recipes[k].item == id ==> k == j
    ensures PerSale(recipes[..n], dish, id) ==
            if 0 <= j < n && recipes[j].dish == dish && recipes[j].item == id then recipes[j].milli else 0
    decreases n
  {
    if n > 0 {
      assert recipes[..n][..n - 1] == recipes[..n - 1];
      OnlyLine(recipes, n - 1, j, dish, id);
    }
  }

  lemma {:induction false} OtherAmounts(recipes: seq<RecipeLine>, n: nat, dish: DishId, id: ItemId, milli: int, d: DishId, i: ItemId)
    requires n <= |recipes| && (d != dish || i != id)
    ensures PerSale(SetAmount(recipes, dish, id, milli)[..n], d, i) == PerSale(recipes[..n], d, i)
    decreases n
  {
    if n > 0 {
      var after := SetAmount(recipes, dish, id, milli);
      assert recipes[..n][..n - 1] == recipes[..n - 1] && after[..n][..n - 1] == after[..n - 1];
      OtherAmounts(recipes, n - 1, dish, id, milli, d, i);
    }
  }

  lemma SetAmounts(recipes: seq<RecipeLine>, dish: DishId, id: ItemId, milli: int, d: DishId, i: ItemId)
    requires Unique(recipes)
    ensures PerSale(SetAmount(recipes, dish, id, milli), d, i) ==
            if d == dish && i == id && Linked(recipes, dish, id) then milli else PerSale(recipes, d, i)
    ensures !Linked(recipes, dish, id) ==> PerSale(recipes, dish, id) == 0
  {
    var after, n := SetAmount(recipes, dish, id, milli), |recipes|;
    assert recipes[..n] == recipes && after[..n] == after;
    var j :| Linked(recipes, dish, id) ==> 0 <= j < n && recipes[j].dish == dish && recipes[j].item == id;
    OnlyLine(recipes, n, j, dish, id);
    OnlyLine(after, n, j, dish, id);
    if d != dish || i != id { OtherAmounts(recipes, n, dish, id, milli, d, i); }
  }

  lemma RelinkedAmounts(recipes: seq<RecipeLine>, dish: DishId, id: ItemId, milli: nat, d: DishId, i: ItemId)
    requires Unique(recipes)
    ensures PerSale(Relinked(recipes, dish, id, milli), d, i) == if d == dish && i == id then milli else PerSale(recipes, d, i)
  {
    RemovedAmounts(recipes, dish, id, d, i);
    SetAmounts(recipes, dish, id, milli, d, i);
    AppendPerSale(recipes, RecipeLine(dish, id, milli), d, i);
  }

  /** One accepted call fixes what one sale of that dish takes of that item, whatever was linked
      before, and touches no other pair. */
  lemma SetRecipeSetsOnePair(st: Stock, id: ItemId, dish: DishId, milli: nat, d: DishId, i: ItemId)
    requires StockInv(st) && Tracked(st.items, id)
    ensures var after := Handle(st, SetRecipe(id, dish, true, milli));
            && after.items == st.items
            && PerSale(after.recipes, d, i) == if d == dish && i == id then milli else PerSale(st.recipes, d, i)
  {
    RelinkedAmounts(st.recipes, dish, id, milli, d, i);
  }

  lemma CreateKeepsInv(st: Stock, id: ItemId, opening: nat, link: Option<Link>)
    requires StockInv(st)
    ensures StockInv(Handle(st, CreateItem(id, opening, link)))
  {
    if id !in st.items && (link.Some? ==> link.value.known) {
      assert LedgerOk(Item(0, false, []));
      MovedKeepsLedger(Item(0, false, []), opening, Count);
      if link.Some? { AddRecipeOk(st.recipes, RecipeLine(link.value.dish, id, link.value.milli)); }
    }
  }

  /** Replacing an item by one with a good ledger. */
  lemma ItemKeepsInv(st: Stock, id: ItemId, item: Item)
    requires StockInv(st) && id in st.items && LedgerOk(item)
    ensures StockInv(st.(items := st.items[id := item]))
  {
  }

  lemma HandleKeepsInv(st: Stock, r: Request)
    requires StockInv(st) && WellFormed(r)
    ensures StockInv(Handle(st, r))
  {
    match r
    case CreateItem(id, opening, link) => CreateKeepsInv(st, id, opening, link);
    case RecordMovement(id, delta, reason) =>
      if Tracked(st.items, id) && st.items[id].quantity + delta >= 0 {
        MovedKeepsLedger(st.items[id], delta, reason);
        ItemKeepsInv(st, id, Moved(st.items[id], delta, reason));
      }
    case ArchiveItem(id) =>
      if Tracked(st.items, id) { ItemKeepsInv(st, id, st.items[id].(archived := true)); }
    case SetRecipe(id, dish, known, milli) => SetRecipeKeepsInv(st, id, dish, known, milli);
    case SellDishes(sold) => MoveKeepsInv(st, sold, -1);
    case ReturnDishes(sold) => MoveKeepsInv(st, sold, 1);
  }

  lemma MoveKeepsInv(st: Stock, sold: seq<Sold>, sign: int)
    requires StockInv(st)
    ensures StockInv(Move(st, sold, sign))
  {
    forall id | id in st.items ensures LedgerOk(Move(st, sold, sign).items[id]) {
      MoveTouchesOnce(st, sold, sign, id);
    }
  }

  /** Over every run of requests, the ledger of every item replays to its quantity, every entry
      shows the balance of its time, and an item is negative only after a sale. */
  lemma {:induction false} LedgerAlwaysReplays(st: Stock, rs: seq<Request>)
    requires StockInv(st) && forall k :: 0 <= k < |rs| ==> WellFormed(rs[k])
    ensures StockInv(HandleAll(st, rs))
    ensures forall id :: id in HandleAll(st, rs).items ==>
              var item := HandleAll(st, rs).items[id];
              && item.quantity == SumDeltas(item.movements)
              && (item.quantity < 0 ==> item.movements != [] && item.movements[|item.movements| - 1].reason.Sale?)
    decreases |rs|
  {
    if rs != [] {
      HandleKeepsInv(st, rs[0]);
      LedgerAlwaysReplays(Handle(st, rs[0]), rs[1..]);
    } else {
      forall id | id in st.items && st.items[id].quantity < 0
        ensures st.items[id].movements != [] && st.items[id].movements[|st.items[id].movements| - 1].reason.Sale?
      {
        NegativeMeansSale(st.items[id]);
      }
    }
  }

  // -------------------------------------------------------------- portions left

  function Plates(sold: seq<Sold>): int {
    if sold == [] then 0 else Plates(sold[..|sold| - 1]) + sold[|sold| - 1].quantity
  }

  /** The most that one plate of any dish takes of the item. */
  function Heaviest(recipes: seq<RecipeLine>, id: ItemId): nat {
    if recipes == [] then 0
    else
      var r := recipes[|recipes| - 1];
      var h := Heaviest(recipes[..|recipes| - 1], id);
      if r.item == id && r.milli > h then r.milli else h
  }

  lemma {:induction false} PerSaleAtMostHeaviest(recipes: seq<RecipeLine>, dish: DishId, id: ItemId)
    requires Unique(recipes) && forall r :: r in recipes ==> 0 <= r.milli
    ensures 0 <= PerSale(recipes, dish, id) <= Heaviest(recipes, id)
    ensures (forall i :: 0 <= i < |recipes| ==> recipes[i].dish != dish || recipes[i].item != id) ==> PerSale(recipes, dish, id) == 0
    decreases |recipes|
  {
    if recipes != [] {
      PerSaleAtMostHeaviest(recipes[..|recipes| - 1], dish, id);
      var r := recipes[|recipes| - 1];
      if r.dish == dish && r.item == id {
        forall i | 0 <= i < |recipes| - 1 ensures recipes[i].dish != dish || recipes[i].item != id {
          assert recipes[i].dish != r.dish || recipes[i].item != r.item;
        }
      }
    }
  }

  lemma {:induction false} NeedAtMostPlates(recipes: seq<RecipeLine>, sold: seq<Sold>, id: ItemId)
    requires Unique(recipes) && forall r :: r in recipes ==> 0 <= r.milli
    requires forall i :: 0 <= i < |sold| ==> 0 <= sold[i].quantity
    ensures Need(recipes, sold, id) <= Plates(sold) * Heaviest(recipes, id)
    decreases |sold|
  {
    if sold != [] {
      var s, h := sold[|sold| - 1], Heaviest(recipes, id);
      NeedAtMostPlates(recipes, sold[..|sold| - 1], id);
      PerSaleAtMostHeaviest(recipes, s.dish, id);
      ScaleLe(PerSale(recipes, s.dish, id), h, s.quantity);
      assert (Plates(sold[..|sold| - 1]) + s.quantity) * h == Plates(sold[..|sold| - 1]) * h + s.quantity * h;
    }
  }

  lemma ScaleLe(a: int, b: int, k: int)
    requires a <= b && 0 <= k
    ensures a * k <= k * b
  {
  }

  /** The portions-left figure is safe for every mix of dishes: as long as the plates sold, each
      counted at the heaviest portion, fit into the quantity, the item does not go negative. */
  lemma {:induction false} PortionsLeftIsSafe(st: Stock, sold: seq<Sold>, id: ItemId)
    requires StockInv(st) && id in st.items
    requires forall i :: 0 <= i < |sold| ==> 0 <= sold[i].quantity
    requires Plates(sold) * Heaviest(st.recipes, id) <= st.items[id].quantity
    ensures 0 <= ApplySale(st, sold).items[id].quantity
  {
    assert Unique(st.recipes);
    NeedAtMostPlates(st.recipes, sold, id);
    PlatesTimesPortion(st.recipes, sold, id);
  }

  function Times(n: int, portion: nat): int { n * portion }

  lemma {:induction false} TimesMonotone(n: int, m: int, portion: nat)
    requires n <= m
    ensures Times(n, portion) <= Times(m, portion)
  {
    ScaleLe(n, m, portion);
  }

  lemma {:induction false} TimesLinear(n: int, k: int, portion: nat)
    ensures Times(10 * n, portion) == 10 * Times(n, portion)
    ensures Times(n + k, portion) == Times(n, portion) + Times(k, portion)
    ensures Times(1, portion) == portion
  {
    assert (10 * n) * portion == 10 * (n * portion);
  }

  /** What the screen shows: quantity over heaviest portion, rounded to tenths (ties either way). */
  predicate ShownPortions(quantity: int, heaviest: nat, tenths: int) {
    20 * quantity - heaviest <= 2 * Times(tenths, heaviest) <= 20 * quantity + heaviest
  }

  lemma {:induction false} NeedAtMostTimes(st: Stock, sold: seq<Sold>, id: ItemId)
    requires StockInv(st) && NonNegative(sold)
    ensures Need(st.recipes, sold, id) <= Times(Plates(sold), Heaviest(st.recipes, id))
    ensures 0 <= Plates(sold) && 0 <= Times(Plates(sold), Heaviest(st.recipes, id))
  {
    assert Unique(st.recipes);
    NeedAtMostPlates(st.recipes, sold, id);
    PlatesTimesPortion(st.recipes, sold, id);
  }

  predicate NonNegative(sold: seq<Sold>) { forall i :: 0 <= i < |sold| ==> 0 <= sold[i].quantity }

  /** Every mix of at most the shown number of plates leaves the item non-negative. */
  ghost predicate FigureIsSafe(st: Stock, id: ItemId, tenths: int)
    requires id in st.items
  {
    forall sold :: NonNegative(sold) && 10 * Plates(sold) <= tenths ==> 0 <= ApplySale(st, sold).items[id].quantity
  }

  /** Some dish takes the heaviest portion. */
  lemma {:induction false} HeaviestLine(recipes: seq<RecipeLine>, n: nat, id: ItemId) returns (j: nat)
    requires n <= |recipes| && Heaviest(recipes[..n], id) > 0
    ensures j < n && recipes[j].item == id && recipes[j].milli == Heaviest(recipes[..n], id)
    decreases n
  {
    assert recipes[..n][..n - 1] == recipes[..n - 1];
    j := n - 1;
    if recipes[j].item != id || recipes[j].milli != Heaviest(recipes[..n], id) {
      j := HeaviestLine(recipes, n - 1, id);
    }
  }

  lemma {:induction false} HeaviestDish(st: Stock, id: ItemId) returns (dish: DishId)
    requires StockInv(st) && Heaviest(st.recipes, id) > 0
    ensures PerSale(st.recipes, dish, id) == Heaviest(st.recipes, id)
  {
    var n := |st.recipes|;
    assert st.recipes[..n] == st.recipes && Unique(st.recipes);
    var j := HeaviestLine(st.recipes, n, id);
    dish := st.recipes[j].dish;
    OnlyLine(st.recipes, n, j, dish, id);
  }

  lemma {:induction false} OneDish(recipes: seq<RecipeLine>, dish: DishId, n: int, portion: nat, id: ItemId)
    requires PerSale(recipes, dish, id) == portion
    ensures Need(recipes, [Sold(dish, n)], id) == Times(n, portion) && Plates([Sold(dish, n)]) == n
  {
    var sold := [Sold(dish, n)];
    assert sold[..0] == [] && Need(recipes, [], id) == 0 && Plates([]) == 0;
    assert PerSale(recipes, dish, id) * n == n * portion;
  }

  /** quantity is whole portions and a rest of less than one. */
  predicate Parts(quantity: int, portion: nat, whole: int, rest: int) {
    quantity == Times(whole, portion) + rest && 0 <= rest < portion
  }

  /** A figure below the next whole plate is safe. */
  lemma {:induction false} BelowNextPlateSafe(st: Stock, id: ItemId, tenths: int, whole: int, rest: int)
    requires StockInv(st) && Tracked(st.items, id) && Parts(st.items[id].quantity, Heaviest(st.recipes, id), whole, rest)
    requires tenths < 0 || tenths < 10 * (whole + 1)
    ensures FigureIsSafe(st, id, tenths)
  {
    forall sold | NonNegative(sold) && 10 * Plates(sold) <= tenths ensures 0 <= ApplySale(st, sold).items[id].quantity {
      NeedAtMostTimes(st, sold, id);
      TimesMonotone(Plates(sold), whole, Heaviest(st.recipes, id));
    }
  }

  /** A figure that reaches it is not: that many plates of the heaviest dish overdraw. */
  lemma {:induction false} NextPlateOverdraws(st: Stock, id: ItemId, tenths: int, whole: int, rest: int)
    requires StockInv(st) && Tracked(st.items, id) && Parts(st.items[id].quantity, Heaviest(st.recipes, id), whole, rest)
    requires 0 <= tenths && 10 * (whole + 1) <= tenths
    ensures !FigureIsSafe(st, id, tenths)
  {
    var h := Heaviest(st.recipes, id);
    var dish := HeaviestDish(st, id);
    var n := if whole + 1 < 0 then 0 else whole + 1;
    var sold := [Sold(dish, n)];
    OneDish(st.recipes, dish, n, h, id);
    TimesMonotone(whole + 1, n, h);
    TimesLinear(whole, 1, h);
    assert NonNegative(sold) && ApplySale(st, sold).items[id].quantity < 0;
  }

  /** Where the rounding of a figure ends up. */
  lemma {:induction false} RoundedTenths(quantity: int, portion: nat, tenths: int, whole: int, rest: int)
    requires ShownPortions(quantity, portion, tenths) && Parts(quantity, portion, whole, rest)
    ensures 20 * rest < 19 * portion ==> tenths < 10 * (whole + 1)
    ensures 20 * rest > 19 * portion ==> tenths == 10 * (whole + 1)
    ensures 20 * rest == 19 * portion ==> tenths == 10 * whole + 9 || tenths == 10 * whole + 10
  {
    TimesLinear(whole, 0, portion);
    TimesLinear(10 * whole, 8, portion);
    TimesLinear(10 * whole, 9, portion);
    TimesLinear(10 * whole, 10, portion);
    TimesLinear(10 * whole, 11, portion);
    assert Times(8, portion) == 8 * portion && Times(9, portion) == 9 * portion;
    assert Times(10, portion) == 10 * portion && Times(11, portion) == 11 * portion;
    if tenths <= 10 * whole + 8 { TimesMonotone(tenths, 10 * whole + 8, portion); }
    if tenths <= 10 * whole + 9 { TimesMonotone(tenths, 10 * whole + 9, portion); }
    if tenths >= 10 * whole + 10 { TimesMonotone(10 * whole + 10, tenths, portion); }
    if tenths >= 10 * whole + 11 { TimesMonotone(10 * whole + 11, tenths, portion); }
  }

  /** Exactly when the shown figure can be trusted: it is negative, or it does not reach the next
      whole plate. Off a tie that can be read off the stored row: what is left over after whole
      portions is less than 19 twentieths of one (or the item is more than a portion in the red, and
      the figure promises nothing). On a tie the rounding decides. */
  lemma {:induction false} FigureIsSafeExactlyWhen(st: Stock, id: ItemId, tenths: int, whole: int, rest: int)
    requires StockInv(st) && Tracked(st.items, id)
    requires var q, h := st.items[id].quantity, Heaviest(st.recipes, id);
             ShownPortions(q, h, tenths) && Parts(q, h, whole, rest)
    ensures var q, h := st.items[id].quantity, Heaviest(st.recipes, id);
            && (FigureIsSafe(st, id, tenths) <==> tenths < 0 || tenths < 10 * (whole + 1))
            && (20 * rest != 19 * h ==> (FigureIsSafe(st, id, tenths) <==> 20 * rest < 19 * h || q + h < 0))
            && (20 * rest == 19 * h && 0 <= whole ==>
                  (FigureIsSafe(st, id, tenths) <==> tenths == 10 * whole + 9)
                  && (!FigureIsSafe(st, id, tenths) <==> tenths == 10 * whole + 10))
  {
    var q, h := st.items[id].quantity, Heaviest(st.recipes, id);
    RoundedTenths(q, h, tenths, whole, rest);
    if tenths < 0 || tenths < 10 * (whole + 1) {
      BelowNextPlateSafe(st, id, tenths, whole, rest);
    } else {
      NextPlateOverdraws(st, id, tenths, whole, rest);
    }
    TimesLinear(-1, 0, h);
    TimesLinear(1, -1, h);
    if whole <= -2 {
      TimesMonotone(whole, -2, h);
      TimesLinear(-1, -1, h);
    } else {
      TimesMonotone(-1, whole, h);
    }
  }

  /** whole and rest are quotient and remainder. */
  lemma {:induction false} PartsOf(quantity: int, portion: nat)
    requires portion > 0
    ensures Parts(quantity, portion, quantity / portion, quantity % portion)
  {
  }

  /** The rounded figure is safe up to a twentieth of the heaviest portion. */
  lemma {:induction false} ShownPortionsNearlySafe(st: Stock, sold: seq<Sold>, id: ItemId, tenths: int)
    requires StockInv(st) && id in st.items
    requires NonNegative(sold)
    requires ShownPortions(st.items[id].quantity, Heaviest(st.recipes, id), tenths) && 10 * Plates(sold) <= tenths
    ensures 0 <= 20 * ApplySale(st, sold).items[id].quantity + Heaviest(st.recipes, id)
  {
    NeedAtMostTimes(st, sold, id);
    TimesLinear(Plates(sold), 0, Heaviest(st.recipes, id));
    TimesMonotone(10 * Plates(sold), tenths, Heaviest(st.recipes, id));
  }

  /** The same, read off the stored quantity. */
  lemma {:induction false} ShownFigureSafeExactlyWhen(st: Stock, id: ItemId, tenths: int)
    requires StockInv(st) && Tracked(st.items, id) && Heaviest(st.recipes, id) > 0
    requires ShownPortions(st.items[id].quantity, Heaviest(st.recipes, id), tenths)
    ensures var q, h := st.items[id].quantity, Heaviest(st.recipes, id);
            20 * (q % h) != 19 * h ==> (FigureIsSafe(st, id, tenths) <==> 20 * (q % h) < 19 * h || q + h < 0)
  {
    var q, h := st.items[id].quantity, Heaviest(st.recipes, id);
    PartsOf(q, h);
    FigureIsSafeExactlyWhen(st, id, tenths, q / h, q % h);
  }

  /** For instance 2.96 portions are shown as 3, and the third plate overdraws. */
  lemma ShownPortionsCanOvershoot(dish: DishId, id: ItemId)
    ensures var st := Stock(map[id := Item(296, false, [Movement(296, Count, 296)])], [RecipeLine(dish, id, 100)]);
            && StockInv(st) && Heaviest(st.recipes, id) == 100
            && ShownPortions(296, 100, 30) && !FigureIsSafe(st, id, 30)
            && ApplySale(st, [Sold(dish, 3)]).items[id].quantity == -4
  {
    var st := Stock(map[id := Item(296, false, [Movement(296, Count, 296)])], [RecipeLine(dish, id, 100)]);
    MovedKeepsLedger(Item(0, false, []), 296, Count);
    assert st.items[id] == Moved(Item(0, false, []), 296, Count);
    assert st.recipes[..0] == [] && PerSale(st.recipes, dish, id) == 100;
    assert Parts(296, 100, 2, 96);
    FigureIsSafeExactlyWhen(st, id, 30, 2, 96);
    OneDish(st.recipes, dish, 3, 100, id);
  }

  lemma {:induction false} PlatesTimesPortion(recipes: seq<RecipeLine>, sold: seq<Sold>, id: ItemId)
    requires forall i :: 0 <= i < |sold| ==> 0 <= sold[i].quantity
    ensures 0 <= Plates(sold) && 0 <= Plates(sold) * Heaviest(recipes, id)
    decreases |sold|
  {
    if sold != [] {
      PlatesTimesPortion(recipes, sold[..|sold| - 1], id);
    }
  }
}
