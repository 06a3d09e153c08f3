/** What a guest sees after the menu routes have run, said of the rows of the menu tables. */
module MenuEffects {
  import opened Options
  import opened MenuCache

  /** The item is shown in some category. */
  ghost predicate Listed(shown: seq<Shown>, i: MenuItem) { exists k :: 0 <= k < |shown| && i in shown[k].items }

  ghost predicate ListsCategory(shown: seq<Shown>, c: Category) { exists k :: 0 <= k < |shown| && shown[k].category == c }

  ghost predicate Owns(m: Menu, id: CategoryId, tenant: Tenant) {
    exists k :: 0 <= k < |m.categories| && m.categories[k].id == id && m.categories[k].tenant == tenant
  }

  ghost predicate UniqueItems(items: seq<MenuItem>) { forall i, j :: 0 <= i < j < |items| ==> items[i].id != items[j].id }

  lemma OwnsIsHas(m: Menu, id: CategoryId, tenant: Tenant)
    ensures Owns(m, id, tenant) <==> HasCategory(m.categories, id, tenant)
  {
    if Owns(m, id, tenant) {
      var k :| 0 <= k < |m.categories| && m.categories[k].id == id && m.categories[k].tenant == tenant;
      assert IsCategory(m.categories, k, id, tenant);
    }
  }

  // ------------------------------------------------------------ what a listing shows

  lemma ShownCategories(m: Menu, tenant: Tenant, c: Category)
    ensures ListsCategory(Listing(m, tenant), c) <==> c in m.categories && c.tenant == tenant
  {
    ListingShowsTheMenu(m, tenant);
    var cs, shown := ByOrder(Mine(m.categories, tenant)), Listing(m, tenant);
    if ListsCategory(shown, c) {
      var k :| 0 <= k < |shown| && shown[k].category == c;
      assert ShowsExactly(shown[k], cs[k], m.items) && cs[k] in multiset(cs);
    }
    if c in m.categories && c.tenant == tenant {
      assert c in multiset(cs);
      var k :| 0 <= k < |cs| && cs[k] == c;
      assert ShowsExactly(shown[k], cs[k], m.items);
    }
  }

  lemma ShownItems(m: Menu, tenant: Tenant, i: MenuItem)
    requires MenuOk(m)
    ensures Listed(Listing(m, tenant), i) <==> i in m.items && i.tenant == tenant && i.available && !i.archived
  {
    ListingShowsTheMenu(m, tenant);
    var cs, shown := ByOrder(Mine(m.categories, tenant)), Listing(m, tenant);
    if Listed(shown, i) {
      var k :| 0 <= k < |shown| && i in shown[k].items;
      assert ShowsExactly(shown[k], cs[k], m.items) && cs[k] in multiset(cs);
      HomeIsOwn(m, i, cs[k]);
    }
    if i in m.items && i.tenant == tenant && i.available && !i.archived {
      var c := Home(m, i);
      assert c in multiset(cs);
      var k :| 0 <= k < |cs| && cs[k] == c;
      assert ShowsExactly(shown[k], cs[k], m.items);
    }
  }

  /** The category of an item belongs to the item's tenant. */
  lemma HomeIsOwn(m: Menu, i: MenuItem, c: Category)
    requires MenuOk(m) && i in m.items && c in m.categories && i.category == c.id
    ensures i.tenant == c.tenant
  {
    var k :| 0 <= k < |m.items| && m.items[k] == i;
    assert HasCategory(m.categories, m.items[k].category, m.items[k].tenant);
    if c.tenant != i.tenant { ApartIds(m.categories, i.category, i.tenant, c); }
  }

  lemma Home(m: Menu, i: MenuItem) returns (c: Category)
    requires MenuOk(m) && i in m.items
    ensures c in m.categories && c.id == i.category && c.tenant == i.tenant
  {
    var k :| 0 <= k < |m.items| && m.items[k] == i;
    assert HasCategory(m.categories, m.items[k].category, m.items[k].tenant);
    c := m.categories[FindCategory(m.categories, i.category, i.tenant).value];
  }

  /** Over every run in which the deletes of the cache work, a listing shows exactly the tenant's own
      categories, and exactly those of its items that are available and not archived. */
  lemma ListingsShowExactly(s: Service, rs: seq<Request>, tenant: Tenant, getWorks: bool)
    requires MenuOk(s.menu) && Coherent(s) && forall k :: 0 <= k < |rs| ==> DeletesWork(rs[k])
    ensures var s' := HandleAll(s, rs); var answer := Answer(s', tenant, getWorks);
            && (forall c :: ListsCategory(answer, c) <==> c in s'.menu.categories && c.tenant == tenant)
            && (forall i :: Listed(answer, i) <==> i in s'.menu.items && i.tenant == tenant && i.available && !i.archived)
  {
    EveryListingIsFresh(s, rs, tenant, getWorks);
    RunKeepsMenu(s, rs);
    var s' := HandleAll(s, rs);
    forall c ensures ListsCategory(Answer(s', tenant, getWorks), c) <==> c in s'.menu.categories && c.tenant == tenant {
      ShownCategories(s'.menu, tenant, c);
    }
    forall i ensures Listed(Answer(s', tenant, getWorks), i) <==>
                     i in s'.menu.items && i.tenant == tenant && i.available && !i.archived
    {
      ShownItems(s'.menu, tenant, i);
    }
  }

  lemma {:induction false} RunKeepsMenu(s: Service, rs: seq<Request>)
    requires MenuOk(s.menu) && Coherent(s) && forall k :: 0 <= k < |rs| ==> DeletesWork(rs[k])
    ensures MenuOk(HandleAll(s, rs).menu)
    decreases |rs|
  {
    if rs != [] {
      HandleKeepsCoherent(s, rs[0]);
      RunKeepsMenu(Handle(s, rs[0]), rs[1..]);
    }
  }

  /** A listing that gets through to the cache leaves its answer there, and touches nothing else. */
  lemma ListingIsCached(s: Service, tenant: Tenant, getWorks: bool, setWorks: bool)
    ensures var s' := Handle(s, List(tenant, getWorks, setWorks));
            && s'.menu == s.menu
            && (forall t :: t != tenant ==> (t in s'.cache <==> t in s.cache) && (t in s.cache ==> s'.cache[t] == s.cache[t]))
            && (setWorks ==> tenant in s'.cache && s'.cache[tenant] == Answer(s, tenant, getWorks))
            && (!setWorks ==> s'.cache == s.cache)
  {
  }

  /** Expiry drops one entry, and a sale is remembered; neither shows on the menu. */
  lemma TimeAndSales(s: Service, tenant: Tenant, item: ItemId)
    ensures var e, sold := Handle(s, Expire(tenant)), Handle(s, Sell(item));
            && e.menu == s.menu && tenant !in e.cache
            && (forall t :: t != tenant ==> (t in e.cache <==> t in s.cache) && (t in s.cache ==> e.cache[t] == s.cache[t]))
            && sold.cache == s.cache && sold.menu.categories == s.menu.categories && sold.menu.items == s.menu.items
            && (forall i :: i in sold.menu.sold <==> i in s.menu.sold || i == item)
  {
  }

  /** From its first sale on an item keeps its row, whatever is requested. */
  lemma SoldItemsKeepTheirRow(s: Service, item: ItemId, rs: seq<Request>)
    requires Stored(s.menu.items, item)
    ensures Stored(HandleAll(Handle(s, Sell(item)), rs).menu.items, item)
  {
    TimeAndSales(s, "", item);
    OrderedItemsKeepTheirRow(Handle(s, Sell(item)), rs, item);
  }

  // ----------------------------------------------------------- what the writers change

  /** The tables are as they were, and so is the cache. */
  predicate Refused(s: Service, tenant: Tenant, w: Write) { Handle(s, Change(tenant, w, true)) == s }

  /** The category rows are as before, and the tenant's listing is dropped from the cache. */
  ghost predicate OnlyItems(s: Service, s': Service, tenant: Tenant) {
    s'.menu.categories == s.menu.categories && s'.menu.sold == s.menu.sold && s'.cache == s.cache - {tenant}
  }

  ghost predicate OnlyCategories(s: Service, s': Service, tenant: Tenant) {
    s'.menu.items == s.menu.items && s'.menu.sold == s.menu.sold && s'.cache == s.cache - {tenant}
  }

  /** Every field that is sent is set, every other one is kept. */
  ghost predicate Patches(i: MenuItem, was: MenuItem, p: ItemPatch) {
    && i.id == was.id && i.tenant == was.tenant && i.archived == was.archived
    && (match p.name case Some(name) => i.details.name == name case None => i.details.name == was.details.name)
    && i.details.description == (if p.description.Some? then p.description else was.details.description)
    && (match p.priceCents case Some(cents) => i.details.priceCents == cents
                           case None => i.details.priceCents == was.details.priceCents)
    && i.details.image == (if p.image.Some? then p.image else was.details.image)
    && (match p.prepMinutes case Some(minutes) => i.details.prepMinutes == minutes
                            case None => i.details.prepMinutes == was.details.prepMinutes)
    && (match p.available case Some(available) => i.available == available case None => i.available == was.available)
    && (match p.category case Some(category) => i.category == category case None => i.category == was.category)
  }

  lemma OnlyRow(items: seq<MenuItem>, k: nat, iid: ItemId, tenant: Tenant)
    requires UniqueItems(items) && IsItem(items, k, iid, tenant)
    ensures FindItem(items, iid, tenant) == Some(k)
  {
    assert items[FindItem(items, iid, tenant).value].id == iid;
  }

  /** An update of an item goes through exactly if the item is not archived and a new category is the
      tenant's own, and then changes the fields that were sent, of that row alone. */
  lemma UpdateItemExactly(s: Service, tenant: Tenant, iid: ItemId, p: ItemPatch, k: nat)
    requires UniqueItems(s.menu.items) && IsItem(s.menu.items, k, iid, tenant)
    ensures var s' := Handle(s, Change(tenant, UpdateItem(iid, p), true));
            var items, items' := s.menu.items, s'.menu.items;
            if !items[k].archived && (p.category.Some? ==> Owns(s.menu, p.category.value, tenant)) then
              && OnlyItems(s, s', tenant) && |items'| == |items| && Patches(items'[k], items[k], p)
              && forall j :: 0 <= j < |items| && j != k ==> items'[j] == items[j]
            else s' == s
  {
    OnlyRow(s.menu.items, k, iid, tenant);
    if p.category.Some? { OwnsIsHas(s.menu, p.category.value, tenant); }
  }

  /** Deleting an item archives it if it was ever ordered, and removes its row otherwise. */
  lemma DeleteItemExactly(s: Service, tenant: Tenant, iid: ItemId, k: nat)
    requires UniqueItems(s.menu.items) && IsItem(s.menu.items, k, iid, tenant)
    ensures var s' := Handle(s, Change(tenant, DeleteItem(iid), true));
            var items, items' := s.menu.items, s'.menu.items;
            if items[k].archived then s' == s
            else if iid in s.menu.sold then
              && OnlyItems(s, s', tenant) && |items'| == |items|
              && items'[k] == MenuItem(iid, tenant, items[k].category, items[k].details, false, true)
              && forall j :: 0 <= j < |items| && j != k ==> items'[j] == items[j]
            else OnlyItems(s, s', tenant) && items' == items[..k] + items[k + 1..]
  {
    OnlyRow(s.menu.items, k, iid, tenant);
  }

  /** Nobody else's item can be changed or deleted. */
  lemma StrangersItemsAreSafe(s: Service, tenant: Tenant, iid: ItemId, p: ItemPatch)
    requires forall k :: !IsItem(s.menu.items, k, iid, tenant)
    ensures Refused(s, tenant, UpdateItem(iid, p)) && Refused(s, tenant, DeleteItem(iid))
  {
  }

  /** A new item enters an own category as it was sent. */
  lemma CreateItemExactly(s: Service, tenant: Tenant, iid: ItemId, category: CategoryId, details: Details, available: bool)
    requires forall k :: 0 <= k < |s.menu.items| ==> s.menu.items[k].id != iid
    ensures var s' := Handle(s, Change(tenant, CreateItem(iid, category, details, available), true));
            if Owns(s.menu, category, tenant) then
              && OnlyItems(s, s', tenant)
              && s'.menu.items == s.menu.items + [MenuItem(iid, tenant, category, details, available, false)]
            else s' == s
  {
    OwnsIsHas(s.menu, category, tenant);
  }

  lemma CreateCategoryExactly(s: Service, tenant: Tenant, c: Category)
    requires c.tenant == tenant && forall k :: 0 <= k < |s.menu.categories| ==> s.menu.categories[k].id != c.id
    ensures var s' := Handle(s, Change(tenant, CreateCategory(c.id, c.name, c.icon, c.sortOrder), true));
            OnlyCategories(s, s', tenant) && s'.menu.categories == s.menu.categories + [c]
  {
  }

  /** The id fixes the category. */
  lemma OnlyCategory(m: Menu, k: nat, id: CategoryId, tenant: Tenant)
    requires UniqueIds(m.categories) && IsCategory(m.categories, k, id, tenant)
    ensures FindCategory(m.categories, id, tenant) == Some(k)
  {
    assert m.categories[FindCategory(m.categories, id, tenant).value].id == id;
  }

  lemma UpdateCategoryExactly(s: Service, tenant: Tenant, id: CategoryId, p: CategoryPatch, k: nat)
    requires UniqueIds(s.menu.categories) && IsCategory(s.menu.categories, k, id, tenant)
    ensures var s' := Handle(s, Change(tenant, UpdateCategory(id, p), true));
            var cs, cs' := s.menu.categories, s'.menu.categories;
            && OnlyCategories(s, s', tenant) && |cs'| == |cs|
            && (forall j :: 0 <= j < |cs| && j != k ==> cs'[j] == cs[j])
            && cs'[k].id == id && cs'[k].tenant == tenant
            && (match p.name case Some(name) => cs'[k].name == name case None => cs'[k].name == cs[k].name)
            && (match p.icon case Some(icon) => cs'[k].icon == icon case None => cs'[k].icon == cs[k].icon)
            && (match p.sortOrder case Some(order) => cs'[k].sortOrder == order case None => cs'[k].sortOrder == cs[k].sortOrder)
  {
    OnlyCategory(s.menu, k, id, tenant);
  }

  lemma {:induction false} NoneIn(items: seq<MenuItem>, n: nat, id: CategoryId)
    requires n <= |items| && forall k :: 0 <= k < |items| ==> items[k].category != id
    ensures ItemsIn(items[..n], id) == []
    decreases n
  {
    if n > 0 {
      NoneIn(items, n - 1, id);
      assert items[..n][..n - 1] == items[..n - 1];
    }
  }

  /** A category is deleted exactly if no item is left in it, archived ones included. */
  lemma DeleteCategoryExactly(s: Service, tenant: Tenant, id: CategoryId, k: nat)
    requires UniqueIds(s.menu.categories) && IsCategory(s.menu.categories, k, id, tenant)
    ensures var s' := Handle(s, Change(tenant, DeleteCategory(id), true));
            if forall j :: 0 <= j < |s.menu.items| ==> s.menu.items[j].category != id then
              OnlyCategories(s, s', tenant) && s'.menu.categories == s.menu.categories[..k] + s.menu.categories[k + 1..]
            else s' == s
  {
    OnlyCategory(s.menu, k, id, tenant);
    ItemsInHolds(s.menu.items, id);
    if forall j :: 0 <= j < |s.menu.items| ==> s.menu.items[j].category != id {
      NoneIn(s.menu.items, |s.menu.items|, id);
      assert s.menu.items[..|s.menu.items|] == s.menu.items;
    }
  }

  lemma StrangersCategoriesAreSafe(s: Service, tenant: Tenant, id: CategoryId, p: CategoryPatch)
    requires !Owns(s.menu, id, tenant)
    ensures Refused(s, tenant, UpdateCategory(id, p)) && Refused(s, tenant, DeleteCategory(id))
  {
    OwnsIsHas(s.menu, id, tenant);
  }

  // ---------------------------------------------------------------- the next listing

  /** The id is the primary key of the items, whatever is written. */
  lemma WritesKeepItemsUnique(s: Service, r: Request)
    requires UniqueItems(s.menu.items)
    ensures UniqueItems(Handle(s, r).menu.items)
  {
  }

  /** The first listing after an update that went through shows the item with what was sent, at the new
      price, if and only if it is available now; and all other items as before. */
  lemma UpdateShowsNext(s: Service, tenant: Tenant, iid: ItemId, p: ItemPatch, k: nat, getWorks: bool)
    requires MenuOk(s.menu) && UniqueItems(s.menu.items) && IsItem(s.menu.items, k, iid, tenant)
    requires !s.menu.items[k].archived && (p.category.Some? ==> Owns(s.menu, p.category.value, tenant))
    ensures var s' := Handle(s, Change(tenant, UpdateItem(iid, p), true));
            var answer, was := Answer(s', tenant, getWorks), s.menu.items[k];
            && (forall i :: Listed(answer, i) && i.id == iid ==> Patches(i, was, p))
            && ((exists i :: Listed(answer, i) && i.id == iid) <==>
                  (match p.available case Some(available) => available case None => was.available))
            && (forall i: MenuItem :: i.id != iid ==> (Listed(answer, i) <==> Listed(Listing(s.menu, tenant), i)))
  {
    var w := UpdateItem(iid, p);
    var s' := Handle(s, Change(tenant, w, true));
    UpdateItemExactly(s, tenant, iid, p, k);
    if p.category.Some? { OwnsIsHas(s.menu, p.category.value, tenant); }
    OnlyRow(s.menu.items, k, iid, tenant);
    WritesKeepMenu(s.menu, tenant, w);
    forall i ensures Listed(Answer(s', tenant, getWorks), i) <==>
                     i in s'.menu.items && i.tenant == tenant && i.available && !i.archived
    {
      ShownItems(s'.menu, tenant, i);
    }
    forall i: MenuItem | i.id != iid ensures Listed(Answer(s', tenant, getWorks), i) <==> Listed(Listing(s.menu, tenant), i) {
      ShownItems(s.menu, tenant, i);
      SameOthers(s.menu.items, s'.menu.items, k, i);
    }
    var now := s'.menu.items[k];
    assert now in s'.menu.items;
    RowOnly(s.menu.items, s'.menu.items, k, iid);
  }

  lemma SameOthers(items: seq<MenuItem>, items': seq<MenuItem>, k: nat, i: MenuItem)
    requires |items'| == |items| && k < |items| && items[k].id != i.id && items'[k].id != i.id
    requires forall j :: 0 <= j < |items| && j != k ==> items'[j] == items[j]
    ensures i in items' <==> i in items
  {
    if i in items {
      var j :| 0 <= j < |items| && items[j] == i;
      assert items'[j] == i;
    }
  }

  lemma RowOnly(items: seq<MenuItem>, items': seq<MenuItem>, k: nat, iid: ItemId)
    requires |items'| == |items| && k < |items| && UniqueItems(items) && items[k].id == iid
    requires forall j :: 0 <= j < |items| && j != k ==> items'[j] == items[j]
    ensures forall i :: i in items' && i.id == iid ==> i == items'[k]
  {
    forall i | i in items' && i.id == iid ensures i == items'[k] {
      var j :| 0 <= j < |items'| && items'[j] == i;
      assert j == k;
    }
  }

  /** A deleted item is gone from the first listing after, whether or not it was ever ordered. */
  lemma DeletedVanishes(s: Service, tenant: Tenant, iid: ItemId, k: nat, getWorks: bool)
    requires MenuOk(s.menu) && UniqueItems(s.menu.items) && IsItem(s.menu.items, k, iid, tenant) && !s.menu.items[k].archived
    ensures var answer := Answer(Handle(s, Change(tenant, DeleteItem(iid), true)), tenant, getWorks);
            forall i :: Listed(answer, i) <==> Listed(Listing(s.menu, tenant), i) && i.id != iid
  {
    var w := DeleteItem(iid);
    var s' := Handle(s, Change(tenant, w, true));
    DeleteItemExactly(s, tenant, iid, k);
    OnlyRow(s.menu.items, k, iid, tenant);
    WritesKeepMenu(s.menu, tenant, w);
    forall i ensures Listed(Answer(s', tenant, getWorks), i) <==> Listed(Listing(s.menu, tenant), i) && i.id != iid {
      ShownItems(s.menu, tenant, i);
      ShownItems(s'.menu, tenant, i);
      if iid in s.menu.sold {
        RowOnly(s.menu.items, s'.menu.items, k, iid);
        if i.id != iid { SameOthers(s.menu.items, s'.menu.items, k, i); }
      } else {
        WithoutRow(s.menu.items, k, i);
      }
    }
  }

  lemma WithoutRow(items: seq<MenuItem>, k: nat, i: MenuItem)
    requires k < |items| && UniqueItems(items)
    ensures i in items[..k] + items[k + 1..] <==> i in items && i.id != items[k].id
  {
    assert items == items[..k] + [items[k]] + items[k + 1..];
    forall j | 0 <= j < |items| && j != k ensures items[j].id != items[k].id {
    }
  }

  /** A new item is in the first listing after if it is available. */
  lemma CreatedAppears(s: Service, tenant: Tenant, i: MenuItem, getWorks: bool)
    requires MenuOk(s.menu) && i.tenant == tenant && Owns(s.menu, i.category, tenant) && !i.archived
    requires forall k :: 0 <= k < |s.menu.items| ==> s.menu.items[k].id != i.id
    ensures var answer := Answer(Handle(s, Change(tenant, CreateItem(i.id, i.category, i.details, i.available), true)), tenant, getWorks);
            forall x :: Listed(answer, x) <==> Listed(Listing(s.menu, tenant), x) || (x == i && i.available)
  {
    var w := CreateItem(i.id, i.category, i.details, i.available);
    var s' := Handle(s, Change(tenant, w, true));
    CreateItemExactly(s, tenant, i.id, i.category, i.details, i.available);
    OwnsIsHas(s.menu, i.category, tenant);
    WritesKeepMenu(s.menu, tenant, w);
    forall x ensures Listed(Answer(s', tenant, getWorks), x) <==> Listed(Listing(s.menu, tenant), x) || (x == i && i.available) {
      ShownItems(s.menu, tenant, x);
      ShownItems(s'.menu, tenant, x);
    }
  }
}
