/** Stock as mutable objects: items whose running total is changed in place, and the dictionaries that net an order's ingredients. Each method is proved to do to the rows what the
    function of StockLedger says. */
module StockService {
  import opened Options
  import opened StockLedger

  class StockItem {
    const id: ItemId
    var quantity: int
    var archived: bool
    var movements: seq<Movement>

    function View(): Item
      reads this
    {
      Item(quantity, archived, movements)
    }

    constructor (id: ItemId, opening: nat)
      ensures this.id == id
      ensures View() == if opening != 0 then Moved(Item(0, false, []), opening, Count) else Item(0, false, [])
    {
      this.id, quantity, archived := id, opening, false;
      movements := if opening != 0 then [Movement(opening, Count, opening)] else [];
    }

    /** The total and its ledger entry. */
    method Record(delta: int, reason: Reason)
      modifies this
      ensures View() == Moved(old(View()), delta, reason)
    {
      quantity := quantity + delta;
      movements := movements + [Movement(delta, reason, quantity)];
    }
  }

  /** The recipe lines of one dish, in order. */
  function ForDish(recipes: seq<RecipeLine>, dish: DishId): seq<RecipeLine> {
    if recipes == [] then []
    else
      var r := recipes[|recipes| - 1];
      ForDish(recipes[..|recipes| - 1], dish) + if r.dish == dish then [r] else []
  }

  lemma AppendForDish(recipes: seq<RecipeLine>, r: RecipeLine, dish: DishId)
    ensures ForDish(recipes + [r], dish) == ForDish(recipes, dish) + if r.dish == dish then [r] else []
  {
    assert (recipes + [r])[..|recipes|] == recipes;
  }

  lemma {:induction false} ForDishPerSale(recipes: seq<RecipeLine>, dish: DishId, id: ItemId)
    ensures PerSale(ForDish(recipes, dish), dish, id) == PerSale(recipes, dish, id)
    decreases |recipes|
  {
    if recipes != [] {
      ForDishPerSale(recipes[..|recipes| - 1], dish, id);
      ForDishOneMore(recipes, dish, id);
    }
  }

  lemma ForDishOneMore(recipes: seq<RecipeLine>, dish: DishId, id: ItemId)
    requires recipes != []
    ensures var front, last := recipes[..|recipes| - 1], recipes[|recipes| - 1];
            PerSale(ForDish(recipes, dish), dish, id) - PerSale(ForDish(front, dish), dish, id) ==
            if last.dish == dish && last.item == id then last.milli else 0
  {
    var front, last := recipes[..|recipes| - 1], recipes[|recipes| - 1];
    AppendPerSale(ForDish(front, dish), last, dish, id);
    assert ForDish(front, dish) + [] == ForDish(front, dish);
  }

  lemma {:induction false} ForDishHolds(recipes: seq<RecipeLine>, dish: DishId)
    ensures forall r :: r in ForDish(recipes, dish) <==> r in recipes && r.dish == dish
    decreases |recipes|
  {
    if recipes != [] {
      ForDishHolds(recipes[..|recipes| - 1], dish);
      assert recipes == recipes[..|recipes| - 1] + [recipes[|recipes| - 1]];
    }
  }

  function Get(totals: map<ItemId, int>, id: ItemId): int { if id in totals then totals[id] else 0 }

  /** The SELECT of recipe lines whose dish is among the given ones. */
  method SelectRecipes(recipes: seq<RecipeLine>, dishes: set<DishId>) returns (found: seq<RecipeLine>)
    ensures forall dish :: dish in dishes ==> ForDish(found, dish) == ForDish(recipes, dish)
  {
    found := [];
    for k := 0 to |recipes|
      invariant forall dish :: dish in dishes ==> ForDish(found, dish) == ForDish(recipes[..k], dish)
    {
      assert recipes[..k + 1] == recipes[..k] + [recipes[k]];
      forall dish | dish in dishes
        ensures ForDish(if recipes[k].dish in dishes then found + [recipes[k]] else found, dish) == ForDish(recipes[..k + 1], dish)
      {
        AppendForDish(recipes[..k], recipes[k], dish);
        AppendForDish(found, recipes[k], dish);
      }
      if recipes[k].dish in dishes {
        found := found + [recipes[k]];
      }
    }
    assert recipes[..|recipes|] == recipes;
  }

  function Lines(byMenu: map<DishId, seq<RecipeLine>>, dish: DishId): seq<RecipeLine> {
    if dish in byMenu then byMenu[dish] else []
  }

  ghost predicate Grouped(byMenu: map<DishId, seq<RecipeLine>>, recipes: seq<RecipeLine>) {
    forall dish :: Lines(byMenu, dish) == ForDish(recipes, dish)
  }

  lemma GroupOneMore(byMenu: map<DishId, seq<RecipeLine>>, recipes: seq<RecipeLine>, r: RecipeLine)
    requires Grouped(byMenu, recipes)
    ensures Grouped(byMenu[r.dish := Lines(byMenu, r.dish) + [r]], recipes + [r])
  {
    var after := byMenu[r.dish := Lines(byMenu, r.dish) + [r]];
    forall dish ensures Lines(after, dish) == ForDish(recipes + [r], dish) {
      AppendForDish(recipes, r, dish);
      assert Lines(byMenu, dish) == ForDish(recipes, dish);
    }
  }

  /** The `by_menu` dictionary. */
  method GroupByDish(recipes: seq<RecipeLine>) returns (byMenu: map<DishId, seq<RecipeLine>>)
    ensures Grouped(byMenu, recipes)
  {
    byMenu := map[];
    for k := 0 to |recipes|
      invariant Grouped(byMenu, recipes[..k])
    {
      var r := recipes[k];
      GroupOneMore(byMenu, recipes[..k], r);
      assert recipes[..k + 1] == recipes[..k] + [r];
      byMenu := byMenu[r.dish := (if r.dish in byMenu then byMenu[r.dish] else []) + [r]];
    }
    assert recipes[..|recipes|] == recipes;
  }

  /** A movement per line, one after another. */
  ghost function MovedLines(items: map<ItemId, Item>, lines: seq<(ItemId, int)>, sign: int): map<ItemId, Item> {
    if lines == [] then items
    else
      var before := MovedLines(items, lines[..|lines| - 1], sign);
      var (id, milli) := lines[|lines| - 1];
      if id in before then before[id := Moved(before[id], sign * milli, Sale)] else before
  }

  lemma {:induction false} MovedLinesAt(items: map<ItemId, Item>, lines: seq<(ItemId, int)>, sign: int)
    requires forall i, j :: 0 <= i < j < |lines| ==> lines[i].0 != lines[j].0
    ensures MovedLines(items, lines, sign).Keys == items.Keys
    ensures forall id :: id in items && (forall i :: 0 <= i < |lines| ==> lines[i].0 != id) ==>
              MovedLines(items, lines, sign)[id] == items[id]
    ensures forall i :: 0 <= i < |lines| && lines[i].0 in items ==>
              MovedLines(items, lines, sign)[lines[i].0] == Moved(items[lines[i].0], sign * lines[i].1, Sale)
    decreases |lines|
  {
    if lines != [] {
      MovedLinesAt(items, lines[..|lines| - 1], sign);
    }
  }

  /** The netted lines, moved one after another, are the one step `Move`. */
  lemma MovedLinesIsMove(st: Stock, sold: seq<Sold>, lines: seq<(ItemId, int)>, sign: int)
    requires forall i :: 0 <= i < |lines| ==>
               lines[i].0 in st.items && lines[i].1 == Taken(st, sold, lines[i].0) && lines[i].1 != 0
    requires forall i, j :: 0 <= i < j < |lines| ==> lines[i].0 != lines[j].0
    requires forall id :: id in st.items && Taken(st, sold, id) != 0 ==> exists i :: 0 <= i < |lines| && lines[i].0 == id
    ensures MovedLines(st.items, lines, sign) == Move(st, sold, sign).items
  {
    MovedLinesAt(st.items, lines, sign);
    forall id | id in st.items ensures MovedLines(st.items, lines, sign)[id] == Move(st, sold, sign).items[id] {
      if Taken(st, sold, id) != 0 {
        var i :| 0 <= i < |lines| && lines[i].0 == id;
      }
    }
  }

  class StockRoom {
    var items: map<ItemId, StockItem>
    var recipes: seq<RecipeLine>
    ghost var rows: map<ItemId, Item>
    ghost var Repr: set<object>

    /** rows holds the values of the items; an item knows its id, so no object is stored twice. */
    ghost predicate Valid()
      reads this, Repr
      ensures Valid() ==> this in Repr
    {
      && this in Repr
      && rows.Keys == items.Keys
      && (forall id :: id in items ==> items[id] in Repr && ItemOk(id))
    }

    ghost predicate ItemOk(id: ItemId)
      requires id in items
      reads this, items[id]
    {
      items[id].id == id && id in rows && rows[id] == items[id].View()
    }

    /** The tables these objects stand for. */
    ghost function Db(): Stock
      reads this
    {
      Stock(rows, recipes)
    }

    constructor ()
      ensures Valid() && fresh(Repr) && Db() == Stock(map[], [])
    {
      items, recipes, rows := map[], [], map[];
      Repr := {this};
    }

    predicate TracksItem(id: ItemId)
      requires Valid()
      reads this, Repr
      ensures TracksItem(id) == Tracked(Db().items, id)
    {
      assert id in items ==> ItemOk(id);
      id in items && !items[id].archived
    }

    /** One order line's share of the totals. */
    method AddLine(totals: map<ItemId, int>, lines: seq<RecipeLine>, s: Sold) returns (more: map<ItemId, int>)
      requires Valid() && forall r :: r in lines ==> r.dish == s.dish
      requires forall id :: id in totals ==> Tracked(Db().items, id)
      ensures forall id :: id in more ==> Tracked(Db().items, id)
      ensures forall id :: Tracked(Db().items, id) ==>
                Get(more, id) == Get(totals, id) + PerSale(lines, s.dish, id) * s.quantity
    {
      more := totals;
      for k := 0 to |lines|
        invariant forall id :: id in more ==> Tracked(Db().items, id)
        invariant forall id :: Tracked(Db().items, id) ==>
                    Get(more, id) == Get(totals, id) + PerSale(lines[..k], s.dish, id) * s.quantity
      {
        assert lines[..k + 1][..k] == lines[..k];
        if TracksItem(lines[k].item) {
          more := more[lines[k].item := Get(more, lines[k].item) + lines[k].milli * s.quantity];
        }
        forall id | Tracked(Db().items, id)
          ensures Get(more, id) == Get(totals, id) + PerSale(lines[..k + 1], s.dish, id) * s.quantity
        {
          Distribute(1, PerSale(lines[..k], s.dish, id), lines[k].milli, s.quantity);
        }
      }
      assert lines[..|lines|] == lines;
    }

    /** `_lines_for`: items with something to move, each once, with the netted amount. */
    method LinesFor(sold: seq<Sold>) returns (lines: seq<(ItemId, int)>)
      requires Valid()
      ensures forall i :: 0 <= i < |lines| ==>
                lines[i].0 in items && lines[i].1 == Taken(Db(), sold, lines[i].0) && lines[i].1 != 0
      ensures forall i, j :: 0 <= i < j < |lines| ==> lines[i].0 != lines[j].0
      ensures forall id :: id in items && Taken(Db(), sold, id) != 0 ==> exists i :: 0 <= i < |lines| && lines[i].0 == id
    {
      var found := SelectRecipes(recipes, set k | 0 <= k < |sold| :: sold[k].dish);
      var byMenu := GroupByDish(found);
      var totals: map<ItemId, int> := map[];
      for k := 0 to |sold|
        invariant forall id :: id in totals ==> Tracked(Db().items, id)
        invariant forall id :: Tracked(Db().items, id) ==> Get(totals, id) == Need(recipes, sold[..k], id)
      {
        assert sold[..k + 1][..k] == sold[..k];
        var dish := sold[k].dish;
        var mine := Lines(byMenu, dish);
        assert mine == ForDish(recipes, dish);
        ForDishHolds(recipes, dish);
        totals := AddLine(totals, mine, sold[k]);
        forall id | Tracked(Db().items, id) ensures Get(totals, id) == Need(recipes, sold[..k + 1], id) {
          ForDishPerSale(recipes, dish, id);
        }
      }
      assert sold[..|sold|] == sold;
      lines := NonZero(totals);
    }

    /** The list comprehension at the end of `_lines_for`. */
    static method NonZero(totals: map<ItemId, int>) returns (lines: seq<(ItemId, int)>)
      ensures forall i :: 0 <= i < |lines| ==> lines[i].0 in totals && lines[i].1 == totals[lines[i].0] != 0
      ensures forall i, j :: 0 <= i < j < |lines| ==> lines[i].0 != lines[j].0
      ensures forall id :: id in totals && totals[id] != 0 ==> exists i :: 0 <= i < |lines| && lines[i].0 == id
    {
      lines := [];
      var left := totals.Keys;
      while left != {}
        invariant left <= totals.Keys
        invariant forall i :: 0 <= i < |lines| ==>
                    lines[i].0 in totals && lines[i].0 !in left && lines[i].1 == totals[lines[i].0] != 0
        invariant forall i, j :: 0 <= i < j < |lines| ==> lines[i].0 != lines[j].0
        invariant forall id :: id in totals && id !in left && totals[id] != 0 ==> exists i :: 0 <= i < |lines| && lines[i].0 == id
        decreases |left|
      {
        var id :| id in left;
        ghost var before := lines;
        if totals[id] != 0 {
          lines := lines + [(id, totals[id])];
          assert lines[|before|].0 == id;
        }
        forall jd | jd in totals && (jd !in left || jd == id) && totals[jd] != 0
          ensures exists i :: 0 <= i < |lines| && lines[i].0 == jd
        {
          if jd != id {
            var i :| 0 <= i < |before| && before[i].0 == jd;
            assert lines[i].0 == jd;
          }
        }
        left := left - {id};
      }
    }

    method RecordOn(id: ItemId, delta: int, reason: Reason)
      requires Valid() && id in items
      modifies this`rows, items[id]
      ensures Valid() && rows == old(rows)[id := Moved(old(rows)[id], delta, reason)]
    {
      assert ItemOk(id);
      items[id].Record(delta, reason);
      rows := rows[id := items[id].View()];
      forall jd | jd in items ensures ItemOk(jd) {
        assert old(ItemOk(jd));
      }
    }

    /** The loop of `_move`. */
    method MoveLines(lines: seq<(ItemId, int)>, sign: int)
      requires Valid() && forall i :: 0 <= i < |lines| ==> lines[i].0 in items
      modifies Repr
      ensures Valid() && Repr == old(Repr) && items == old(items) && recipes == old(recipes)
      ensures rows == MovedLines(old(rows), lines, sign)
    {
      for k := 0 to |lines|
        invariant Valid() && Repr == old(Repr) && items == old(items) && recipes == old(recipes)
        invariant rows == MovedLines(old(rows), lines[..k], sign)
      {
        assert lines[..k + 1][..k] == lines[..k];
        RecordOn(lines[k].0, sign * lines[k].1, Sale);
      }
      assert lines[..|lines|] == lines;
    }

    /** `_move`. */
    method MoveOrder(sold: seq<Sold>, sign: int)
      requires Valid()
      modifies Repr
      ensures Valid() && Repr == old(Repr) && items == old(items)
      ensures Db() == Move(old(Db()), sold, sign)
    {
      var lines := LinesFor(sold);
      MovedLinesIsMove(Db(), sold, lines, sign);
      MoveLines(lines, sign);
    }

    /** `create_stock_item`. */
    method CreateStockItem(id: ItemId, opening: nat, link: Option<Link>)
      requires Valid()
      modifies Repr
      ensures Valid() && fresh(Repr - old(Repr))
      ensures Db() == Handle(old(Db()), CreateItem(id, opening, link))
    {
      if id in items || (link.Some? && !link.value.known) { return; }
      var item := new StockItem(id, opening);
      items, rows, Repr := items[id := item], rows[id := item.View()], Repr + {item};
      if link.Some? {
        recipes := recipes + [RecipeLine(link.value.dish, id, link.value.milli)];
      }
      forall jd | jd in items ensures ItemOk(jd) {
        if jd != id { assert old(ItemOk(jd)); }
      }
    }

    /** `record_movement`. */
    method RecordMovement(id: ItemId, delta: int, reason: Reason) returns (ok: bool)
      requires Valid()
      modifies Repr
      ensures Valid() && Repr == old(Repr)
      ensures Db() == Handle(old(Db()), StockLedger.RecordMovement(id, delta, reason))
      ensures ok <==> Tracked(old(rows), id) && old(rows)[id].quantity + delta >= 0
    {
      if !TracksItem(id) { return false; }
      assert ItemOk(id);
      if items[id].quantity + delta < 0 { return false; }
      RecordOn(id, delta, reason);
      ok := true;
    }

    /** `archive_stock_item`. */
    method ArchiveStockItem(id: ItemId)
      requires Valid()
      modifies Repr
      ensures Valid() && Repr == old(Repr)
      ensures Db() == Handle(old(Db()), ArchiveItem(id))
    {
      if TracksItem(id) {
        items[id].archived := true;
        rows := rows[id := items[id].View()];
        forall jd | jd in items ensures ItemOk(jd) { assert old(ItemOk(jd)); }
      }
    }

    /** `set_recipe`. */
    method SetRecipe(id: ItemId, dish: DishId, known: bool, milli: nat)
      requires Valid()
      modifies Repr
      ensures Valid() && Repr == old(Repr)
      ensures Db() == Handle(old(Db()), StockLedger.SetRecipe(id, dish, known, milli))
    {
      if !TracksItem(id) || !known { return; }
      var existing: Option<nat> := None;
      for k := 0 to |recipes|
        invariant existing.None? ==> forall j :: 0 <= j < k ==> !(recipes[j].dish == dish && recipes[j].item == id)
        invariant existing.Some? ==> existing.value < k && recipes[existing.value].dish == dish && recipes[existing.value].item == id
      {
        if recipes[k].dish == dish && recipes[k].item == id { existing := Some(k); }
      }
      assert existing.Some? <==> Linked(recipes, dish, id);
      if milli == 0 {
        recipes := RemoveRecipe(recipes, dish, id);
      } else if existing.Some? {
        recipes := SetAmount(recipes, dish, id, milli);
      } else {
        recipes := recipes + [RecipeLine(dish, id, milli)];
      }
      forall jd | jd in items ensures ItemOk(jd) { assert old(ItemOk(jd)); }
    }
  }
}
