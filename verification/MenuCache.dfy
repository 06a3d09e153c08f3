/** The menu tables, the listing computed from them, and the cache in front of it. Each request is
    one atomic step. */
module MenuCache {
  import opened Options

  type Tenant = string
  type CategoryId = string
  type ItemId = string

  datatype Category = Category(id: CategoryId, tenant: Tenant, name: string, icon: string, sortOrder: int)

  datatype Details = Details(name: string, description: Option<string>, priceCents: nat, image: Option<string>, prepMinutes: int)

  datatype MenuItem = MenuItem(
    id: ItemId, tenant: Tenant, category: CategoryId, details: Details, available: bool, archived: bool)

  /** The rows in the order they were inserted; sold holds the items some order line refers to. */
  datatype Menu = Menu(categories: seq<Category>, items: seq<MenuItem>, sold: set<ItemId>)

  /** One category of the listing; its items are those that can be ordered now. */
  datatype Shown = Shown(category: Category, itemCount: nat, items: seq<MenuItem>)

  // -------------------------------------------------------------------- the listing

  function Mine(cs: seq<Category>, tenant: Tenant): seq<Category> {
    if cs == [] then []
    else Mine(cs[..|cs| - 1], tenant) + if cs[|cs| - 1].tenant == tenant then [cs[|cs| - 1]] else []
  }

  function Insert(sorted: seq<Category>, c: Category): seq<Category> {
    if sorted == [] || sorted[|sorted| - 1].sortOrder <= c.sortOrder then sorted + [c]
    else Insert(sorted[..|sorted| - 1], c) + [sorted[|sorted| - 1]]
  }

  /** ORDER BY sort_order; equal ones stay as they were inserted. */
  function ByOrder(cs: seq<Category>): seq<Category> {
    if cs == [] then [] else Insert(ByOrder(cs[..|cs| - 1]), cs[|cs| - 1])
  }

  function ItemsIn(items: seq<MenuItem>, id: CategoryId): seq<MenuItem> {
    if items == [] then []
    else ItemsIn(items[..|items| - 1], id) + if items[|items| - 1].category == id then [items[|items| - 1]] else []
  }

  function CountLive(items: seq<MenuItem>): nat {
    if items == [] then 0 else CountLive(items[..|items| - 1]) + if items[|items| - 1].archived then 0 else 1
  }

  predicate Orderable(i: MenuItem) { i.available && !i.archived }

  function Visible(items: seq<MenuItem>): seq<MenuItem> {
    if items == [] then []
    else Visible(items[..|items| - 1]) + if Orderable(items[|items| - 1]) then [items[|items| - 1]] else []
  }

  function Show(c: Category, items: seq<MenuItem>): Shown {
    Shown(c, CountLive(ItemsIn(items, c.id)), Visible(ItemsIn(items, c.id)))
  }

  function ShowAll(cs: seq<Category>, items: seq<MenuItem>): (shown: seq<Shown>)
    ensures |shown| == |cs|
  {
    if cs == [] then [] else ShowAll(cs[..|cs| - 1], items) + [Show(cs[|cs| - 1], items)]
  }

  /** What `list_categories` computes when nothing is cached. */
  function Listing(m: Menu, tenant: Tenant): seq<Shown> { ShowAll(ByOrder(Mine(m.categories, tenant)), m.items) }

  // -------------------------------------------------------------------- the writers

  predicate IsCategory(cs: seq<Category>, k: int, id: CategoryId, tenant: Tenant) {
    0 <= k < |cs| && cs[k].id == id && cs[k].tenant == tenant
  }

  /** `_get_scoped_category`. */
  function FindCategory(cs: seq<Category>, id: CategoryId, tenant: Tenant): (found: Option<nat>)
    ensures found.Some? ==> IsCategory(cs, found.value, id, tenant)
    ensures found.None? ==> forall k :: !IsCategory(cs, k, id, tenant)
  {
    if cs == [] then None
    else if IsCategory(cs, |cs| - 1, id, tenant) then Some(|cs| - 1)
    else
      var found := FindCategory(cs[..|cs| - 1], id, tenant);
      assert forall k :: IsCategory(cs, k, id, tenant) ==> IsCategory(cs[..|cs| - 1], k, id, tenant);
      found
  }

  predicate HasCategory(cs: seq<Category>, id: CategoryId, tenant: Tenant) { FindCategory(cs, id, tenant).Some? }

  predicate IsItem(items: seq<MenuItem>, k: int, id: ItemId, tenant: Tenant) {
    0 <= k < |items| && items[k].id == id && items[k].tenant == tenant
  }

  /** `_get_scoped_item`, archived items included. */
  function FindItem(items: seq<MenuItem>, id: ItemId, tenant: Tenant): (found: Option<nat>)
    ensures found.Some? ==> IsItem(items, found.value, id, tenant)
    ensures found.None? ==> forall k :: !IsItem(items, k, id, tenant)
  {
    if items == [] then None
    else if IsItem(items, |items| - 1, id, tenant) then Some(|items| - 1)
    else
      var found := FindItem(items[..|items| - 1], id, tenant);
      assert forall k :: IsItem(items, k, id, tenant) ==> IsItem(items[..|items| - 1], k, id, tenant);
      found
  }

  datatype CategoryPatch = CategoryPatch(name: Option<string>, icon: Option<string>, sortOrder: Option<int>)

  datatype ItemPatch = ItemPatch(
    name: Option<string>, description: Option<string>, priceCents: Option<nat>, image: Option<string>,
    prepMinutes: Option<int>, available: Option<bool>, category: Option<CategoryId>)

  function Or<T>(o: Option<T>, t: T): T { if o.Some? then o.value else t }

  function PatchCategory(c: Category, p: CategoryPatch): Category {
    c.(name := Or(p.name, c.name), icon := Or(p.icon, c.icon), sortOrder := Or(p.sortOrder, c.sortOrder))
  }

  function OrSome<T>(o: Option<T>, was: Option<T>): Option<T> { if o.Some? then o else was }

  function PatchDetails(d: Details, p: ItemPatch): Details {
    Details(Or(p.name, d.name), OrSome(p.description, d.description), Or(p.priceCents, d.priceCents),
            OrSome(p.image, d.image), Or(p.prepMinutes, d.prepMinutes))
  }

  function PatchItem(i: MenuItem, p: ItemPatch): MenuItem {
    i.(details := PatchDetails(i.details, p),
       available := Or(p.available, i.available),
       category := Or(p.category, i.category))
  }

  datatype Write =
    | CreateCategory(id: CategoryId, name: string, icon: string, sortOrder: int)
    | UpdateCategory(id: CategoryId, cpatch: CategoryPatch)
    | DeleteCategory(id: CategoryId)
    | CreateItem(iid: ItemId, category: CategoryId, details: Details, available: bool)
    | UpdateItem(iid: ItemId, ipatch: ItemPatch)
    | DeleteItem(iid: ItemId)

  function Without<T>(s: seq<T>, k: nat): seq<T>
    requires k < |s|
  {
    s[..k] + s[k + 1..]
  }

  /** The item is there and still on the menu. */
  predicate OnMenu(m: Menu, id: ItemId, tenant: Tenant) {
    var found := FindItem(m.items, id, tenant);
    found.Some? && !m.items[found.value].archived
  }

  /** The write goes through. */
  predicate Accepted(m: Menu, tenant: Tenant, w: Write) {
    match w
    case CreateCategory(id, _, _, _) => forall k :: 0 <= k < |m.categories| ==> m.categories[k].id != id
    case UpdateCategory(id, _) => HasCategory(m.categories, id, tenant)
    case DeleteCategory(id) => HasCategory(m.categories, id, tenant) && ItemsIn(m.items, id) == []
    case CreateItem(iid, category, _, _) =>
      HasCategory(m.categories, category, tenant) && forall k :: 0 <= k < |m.items| ==> m.items[k].id != iid
    case UpdateItem(iid, patch) =>
      && OnMenu(m, iid, tenant)
      && (patch.category.Some? ==> HasCategory(m.categories, patch.category.value, tenant))
    case DeleteItem(iid) => OnMenu(m, iid, tenant)
  }

  function Written(m: Menu, tenant: Tenant, w: Write): Menu
    requires Accepted(m, tenant, w)
  {
    match w
    case CreateCategory(id, name, icon, sortOrder) =>
      m.(categories := m.categories + [Category(id, tenant, name, icon, sortOrder)])
    case UpdateCategory(id, patch) =>
      var k := FindCategory(m.categories, id, tenant).value;
      m.(categories := m.categories[k := PatchCategory(m.categories[k], patch)])
    case DeleteCategory(id) => m.(categories := Without(m.categories, FindCategory(m.categories, id, tenant).value))
    case CreateItem(iid, category, details, available) =>
      m.(items := m.items + [MenuItem(iid, tenant, category, details, available, false)])
    case UpdateItem(iid, patch) =>
      var k := FindItem(m.items, iid, tenant).value;
      m.(items := m.items[k := PatchItem(m.items[k], patch)])
    case DeleteItem(iid) =>
      var k := FindItem(m.items, iid, tenant).value;
      if iid in m.sold then m.(items := m.items[k := m.items[k].(archived := true, available := false)])
      else m.(items := Without(m.items, k))
  }

  // ---------------------------------------------------------------------- the cache

  datatype Service = Service(menu: Menu, cache: map<Tenant, seq<Shown>>)

  /** Every cache call may fail, which the caller does not notice. An unconfigured cache fails
      always. */
  datatype Request =
    | List(tenant: Tenant, getWorks: bool, setWorks: bool)
    | Change(tenant: Tenant, write: Write, deleteWorks: bool)
    | Expire(tenant: Tenant)
    | Sell(item: ItemId)

  predicate Hit(s: Service, tenant: Tenant, getWorks: bool) { getWorks && tenant in s.cache }

  /** What `list_categories` returns. */
  function Answer(s: Service, tenant: Tenant, getWorks: bool): seq<Shown> {
    if Hit(s, tenant, getWorks) then s.cache[tenant] else Listing(s.menu, tenant)
  }

  function Handle(s: Service, r: Request): Service {
    match r
    case List(tenant, getWorks, setWorks) =>
      if Hit(s, tenant, getWorks) || !setWorks then s else s.(cache := s.cache[tenant := Listing(s.menu, tenant)])
    case Change(tenant, w, deleteWorks) =>
      if !Accepted(s.menu, tenant, w) then s
      else Service(Written(s.menu, tenant, w), if deleteWorks then s.cache - {tenant} else s.cache)
    case Expire(tenant) => s.(cache := s.cache - {tenant})
    case Sell(item) => s.(menu := s.menu.(sold := s.menu.sold + {item}))
  }

  function HandleAll(s: Service, rs: seq<Request>): Service
    decreases |rs|
  {
    if rs == [] then s else HandleAll(Handle(s, rs[0]), rs[1..])
  }

  // ---------------------------------------------------------------------- integrity

  ghost predicate UniqueIds(cs: seq<Category>) {
    forall i, j :: 0 <= i < j < |cs| ==> cs[i].id != cs[j].id
  }

  /** Every item sits in a category of its own tenant. */
  ghost predicate Housed(m: Menu) {
    forall k :: 0 <= k < |m.items| ==> HasCategory(m.categories, m.items[k].category, m.items[k].tenant)
  }

  ghost predicate MenuOk(m: Menu) { UniqueIds(m.categories) && Housed(m) }

  ghost predicate Coherent(s: Service) {
    forall t :: t in s.cache ==> s.cache[t] == Listing(s.menu, t)
  }

  lemma {:induction false} ItemsInHolds(items: seq<MenuItem>, id: CategoryId)
    ensures ItemsIn(items, id) == [] ==> forall k :: 0 <= k < |items| ==> items[k].category != id
    decreases |items|
  {
    if items != [] { ItemsInHolds(items[..|items| - 1], id); }
  }

  lemma CategoryWriteKeepsMenu(m: Menu, tenant: Tenant, w: Write)
    requires MenuOk(m) && Accepted(m, tenant, w)
    requires w.CreateCategory? || w.UpdateCategory? || w.DeleteCategory?
    ensures MenuOk(Written(m, tenant, w))
  {
    var cs, cs' := m.categories, Written(m, tenant, w).categories;
    if w.DeleteCategory? { ItemsInHolds(m.items, w.id); }
    forall i | 0 <= i < |m.items| ensures HasCategory(cs', m.items[i].category, m.items[i].tenant) {
      var id, owner := m.items[i].category, m.items[i].tenant;
      var k := FindCategory(cs, id, owner).value;
      var gone := if w.DeleteCategory? then FindCategory(cs, w.id, tenant).value else |cs|;
      assert IsCategory(cs', if k > gone then k - 1 else k, id, owner);
    }
  }

  lemma ItemWriteKeepsMenu(m: Menu, tenant: Tenant, w: Write)
    requires MenuOk(m) && Accepted(m, tenant, w)
    requires w.CreateItem? || w.UpdateItem? || w.DeleteItem?
    ensures MenuOk(Written(m, tenant, w))
  {
  }

  // ---------------------------------------------------------------------- isolation

  lemma {:induction false} MineAppend(cs: seq<Category>, ds: seq<Category>, tenant: Tenant)
    ensures Mine(cs + ds, tenant) == Mine(cs, tenant) + Mine(ds, tenant)
    decreases |ds|
  {
    if ds == [] {
      assert cs + ds == cs;
    } else {
      MineAppend(cs, ds[..|ds| - 1], tenant);
      assert (cs + ds)[..|cs + ds| - 1] == cs + ds[..|ds| - 1];
    }
  }

  lemma {:induction false} ItemsInAppend(xs: seq<MenuItem>, ys: seq<MenuItem>, id: CategoryId)
    ensures ItemsIn(xs + ys, id) == ItemsIn(xs, id) + ItemsIn(ys, id)
    decreases |ys|
  {
    if ys == [] {
      assert xs + ys == xs;
    } else {
      ItemsInAppend(xs, ys[..|ys| - 1], id);
      assert (xs + ys)[..|xs + ys| - 1] == xs + ys[..|ys| - 1];
    }
  }

  lemma MineThree(a: seq<Category>, b: seq<Category>, c: seq<Category>, tenant: Tenant)
    ensures Mine(a + b + c, tenant) == Mine(a, tenant) + Mine(b, tenant) + Mine(c, tenant)
  {
    MineAppend(a + b, c, tenant);
    MineAppend(a, b, tenant);
  }

  lemma ItemsInThree(a: seq<MenuItem>, b: seq<MenuItem>, c: seq<MenuItem>, id: CategoryId)
    ensures ItemsIn(a + b + c, id) == ItemsIn(a, id) + ItemsIn(b, id) + ItemsIn(c, id)
  {
    ItemsInAppend(a + b, c, id);
    ItemsInAppend(a, b, id);
  }

  function Splice<T>(s: seq<T>, k: nat, put: seq<T>): seq<T>
    requires k < |s|
  {
    s[..k] + put + s[k + 1..]
  }

  lemma SpliceForms<T>(s: seq<T>, k: nat, t: T)
    requires k < |s|
    ensures s[k := t] == Splice(s, k, [t]) && Without(s, k) == Splice(s, k, []) && s == Splice(s, k, [s[k]])
  {
    assert s[..k] + [] == s[..k];
  }

  /** Replacing or removing another tenant's category leaves mine as they are. */
  lemma MineSplice(cs: seq<Category>, k: nat, put: seq<Category>, tenant: Tenant)
    requires k < |cs| && cs[k].tenant != tenant && Mine(put, tenant) == []
    ensures Mine(Splice(cs, k, put), tenant) == Mine(cs, tenant)
  {
    SpliceForms(cs, k, cs[k]);
    MineThree(cs[..k], put, cs[k + 1..], tenant);
    MineThree(cs[..k], [cs[k]], cs[k + 1..], tenant);
    assert Mine([cs[k]], tenant) == [];
  }

  lemma ItemsInSplice(items: seq<MenuItem>, k: nat, put: seq<MenuItem>, id: CategoryId)
    requires k < |items| && items[k].category != id && ItemsIn(put, id) == []
    ensures ItemsIn(Splice(items, k, put), id) == ItemsIn(items, id)
  {
    SpliceForms(items, k, items[k]);
    ItemsInThree(items[..k], put, items[k + 1..], id);
    ItemsInThree(items[..k], [items[k]], items[k + 1..], id);
    assert ItemsIn([items[k]], id) == [];
  }

  lemma {:induction false} MineHolds(cs: seq<Category>, tenant: Tenant)
    ensures forall c :: c in Mine(cs, tenant) ==> c in cs && c.tenant == tenant
    decreases |cs|
  {
    if cs != [] { MineHolds(cs[..|cs| - 1], tenant); }
  }

  lemma {:induction false} InsertHolds(sorted: seq<Category>, c: Category)
    ensures forall d :: d in Insert(sorted, c) ==> d in sorted || d == c
    decreases |sorted|
  {
    if sorted != [] { InsertHolds(sorted[..|sorted| - 1], c); }
  }

  lemma {:induction false} ByOrderHolds(cs: seq<Category>)
    ensures forall d :: d in ByOrder(cs) ==> d in cs
    decreases |cs|
  {
    if cs != [] {
      ByOrderHolds(cs[..|cs| - 1]);
      InsertHolds(ByOrder(cs[..|cs| - 1]), cs[|cs| - 1]);
    }
  }

  lemma {:induction false} ShowAllDependsOn(cs: seq<Category>, items: seq<MenuItem>, items': seq<MenuItem>)
    requires forall c :: c in cs ==> ItemsIn(items', c.id) == ItemsIn(items, c.id)
    ensures ShowAll(cs, items') == ShowAll(cs, items)
    decreases |cs|
  {
    if cs != [] { ShowAllDependsOn(cs[..|cs| - 1], items, items'); }
  }

  /** A tenant's categories never share an id with another tenant's. */
  lemma ApartIds(cs: seq<Category>, id: CategoryId, tenant: Tenant, c: Category)
    requires UniqueIds(cs) && HasCategory(cs, id, tenant) && c in cs && c.tenant != tenant
    ensures c.id != id
  {
    var k := FindCategory(cs, id, tenant).value;
    var j :| 0 <= j < |cs| && cs[j] == c;
    assert cs[j].id != cs[k].id;
  }

  lemma ListingDependsOn(m: Menu, m': Menu, tenant: Tenant)
    requires Mine(m'.categories, tenant) == Mine(m.categories, tenant)
    requires forall c :: c in m.categories && c.tenant == tenant ==> ItemsIn(m'.items, c.id) == ItemsIn(m.items, c.id)
    ensures Listing(m', tenant) == Listing(m, tenant)
  {
    MineHolds(m.categories, tenant);
    ByOrderHolds(Mine(m.categories, tenant));
    ShowAllDependsOn(ByOrder(Mine(m.categories, tenant)), m.items, m'.items);
  }

  lemma CategoryWriteIsolated(m: Menu, tenant: Tenant, w: Write, other: Tenant)
    requires MenuOk(m) && Accepted(m, tenant, w) && other != tenant
    requires w.CreateCategory? || w.UpdateCategory? || w.DeleteCategory?
    ensures Listing(Written(m, tenant, w), other) == Listing(m, other)
  {
    var cs := m.categories;
    match w {
      case CreateCategory(id, name, icon, sortOrder) =>
        MineAppend(cs, [Category(id, tenant, name, icon, sortOrder)], other);
      case UpdateCategory(id, patch) =>
        var k := FindCategory(cs, id, tenant).value;
        SpliceForms(cs, k, PatchCategory(cs[k], patch));
        MineSplice(cs, k, [PatchCategory(cs[k], patch)], other);
      case DeleteCategory(id) =>
        var k := FindCategory(cs, id, tenant).value;
        SpliceForms(cs, k, cs[k]);
        MineSplice(cs, k, [], other);
    }
    ListingDependsOn(m, Written(m, tenant, w), other);
  }

  lemma ItemWriteElsewhere(m: Menu, tenant: Tenant, w: Write, c: Category)
    requires MenuOk(m) && Accepted(m, tenant, w) && c in m.categories && c.tenant != tenant
    requires w.CreateItem? || w.UpdateItem? || w.DeleteItem?
    ensures ItemsIn(Written(m, tenant, w).items, c.id) == ItemsIn(m.items, c.id)
  {
    var items := m.items;
    match w
    case CreateItem(iid, category, details, available) =>
      ApartIds(m.categories, category, tenant, c);
      ItemsInAppend(items, [MenuItem(iid, tenant, category, details, available, false)], c.id);
    case UpdateItem(iid, patch) =>
      var k := FindItem(items, iid, tenant).value;
      ApartIds(m.categories, items[k].category, tenant, c);
      if patch.category.Some? { ApartIds(m.categories, patch.category.value, tenant, c); }
      ReplaceItem(items, k, PatchItem(items[k], patch), c.id);
    case DeleteItem(iid) =>
      var k := FindItem(items, iid, tenant).value;
      ApartIds(m.categories, items[k].category, tenant, c);
      ReplaceItem(items, k, items[k].(archived := true, available := false), c.id);
      ItemsInSplice(items, k, [], c.id);
      SpliceForms(items, k, items[k]);
  }

  lemma ItemWriteIsolated(m: Menu, tenant: Tenant, w: Write, other: Tenant)
    requires MenuOk(m) && Accepted(m, tenant, w) && other != tenant
    requires w.CreateItem? || w.UpdateItem? || w.DeleteItem?
    ensures Listing(Written(m, tenant, w), other) == Listing(m, other)
  {
    var m' := Written(m, tenant, w);
    forall c | c in m.categories && c.tenant == other ensures ItemsIn(m'.items, c.id) == ItemsIn(m.items, c.id) {
      ItemWriteElsewhere(m, tenant, w, c);
    }
    ListingDependsOn(m, m', other);
  }

  lemma ReplaceItem(items: seq<MenuItem>, k: nat, i: MenuItem, id: CategoryId)
    requires k < |items| && items[k].category != id && i.category != id
    ensures ItemsIn(items[k := i], id) == ItemsIn(items, id)
  {
    ItemsInSplice(items, k, [i], id);
    SpliceForms(items, k, i);
  }

  /** A write changes the listing of nobody but its tenant, so dropping that one key suffices. */
  lemma WritesAreIsolated(m: Menu, tenant: Tenant, w: Write, other: Tenant)
    requires MenuOk(m) && Accepted(m, tenant, w) && other != tenant
    ensures Listing(Written(m, tenant, w), other) == Listing(m, other)
  {
    if w.CreateCategory? || w.UpdateCategory? || w.DeleteCategory? {
      CategoryWriteIsolated(m, tenant, w, other);
    } else {
      ItemWriteIsolated(m, tenant, w, other);
    }
  }

  lemma WritesKeepMenu(m: Menu, tenant: Tenant, w: Write)
    requires MenuOk(m) && Accepted(m, tenant, w)
    ensures MenuOk(Written(m, tenant, w))
  {
    if w.CreateCategory? || w.UpdateCategory? || w.DeleteCategory? {
      CategoryWriteKeepsMenu(m, tenant, w);
    } else {
      ItemWriteKeepsMenu(m, tenant, w);
    }
  }

  // ---------------------------------------------------------- what a listing shows

  lemma {:induction false} MineAll(cs: seq<Category>, tenant: Tenant)
    ensures forall c :: c in Mine(cs, tenant) <==> c in cs && c.tenant == tenant
    decreases |cs|
  {
    if cs != [] {
      MineAll(cs[..|cs| - 1], tenant);
      assert cs == cs[..|cs| - 1] + [cs[|cs| - 1]];
    }
  }

  predicate Sorted(cs: seq<Category>) { forall i, j :: 0 <= i < j < |cs| ==> cs[i].sortOrder <= cs[j].sortOrder }

  lemma {:induction false} InsertAdds(sorted: seq<Category>, c: Category)
    ensures multiset(Insert(sorted, c)) == multiset(sorted) + multiset{c}
    decreases |sorted|
  {
    if sorted != [] && c.sortOrder < sorted[|sorted| - 1].sortOrder {
      InsertAdds(sorted[..|sorted| - 1], c);
      assert sorted == sorted[..|sorted| - 1] + [sorted[|sorted| - 1]];
    }
  }

  lemma AppendSorted(cs: seq<Category>, last: Category)
    requires Sorted(cs) && forall c :: c in cs ==> c.sortOrder <= last.sortOrder
    ensures Sorted(cs + [last])
  {
  }

  lemma {:induction false} InsertSorts(sorted: seq<Category>, c: Category)
    requires Sorted(sorted)
    ensures Sorted(Insert(sorted, c))
    decreases |sorted|
  {
    if sorted == [] {
      assert Insert(sorted, c) == [c];
    } else {
      var front, last := sorted[..|sorted| - 1], sorted[|sorted| - 1];
      assert Sorted(front) && forall d :: d in sorted ==> d.sortOrder <= last.sortOrder;
      if last.sortOrder <= c.sortOrder {
        AppendSorted(sorted, c);
      } else {
        InsertSorts(front, c);
        InsertHolds(front, c);
        assert forall d :: d in front ==> d in sorted;
        AppendSorted(Insert(front, c), last);
      }
    }
  }

  lemma {:induction false} ByOrderSorts(cs: seq<Category>)
    ensures Sorted(ByOrder(cs)) && multiset(ByOrder(cs)) == multiset(cs)
    decreases |cs|
  {
    if cs != [] {
      ByOrderSorts(cs[..|cs| - 1]);
      InsertSorts(ByOrder(cs[..|cs| - 1]), cs[|cs| - 1]);
      InsertAdds(ByOrder(cs[..|cs| - 1]), cs[|cs| - 1]);
      assert cs == cs[..|cs| - 1] + [cs[|cs| - 1]];
    }
  }

  lemma {:induction false} ShowAllAt(cs: seq<Category>, items: seq<MenuItem>, k: nat)
    requires k < |cs|
    ensures ShowAll(cs, items)[k] == Show(cs[k], items)
    decreases |cs|
  {
    if k < |cs| - 1 { ShowAllAt(cs[..|cs| - 1], items, k); }
  }

  lemma {:induction false} VisibleHolds(items: seq<MenuItem>, id: CategoryId)
    ensures forall i :: i in Visible(ItemsIn(items, id)) <==> i in items && i.category == id && i.available && !i.archived
    decreases |items|
  {
    if items != [] {
      var front, last := items[..|items| - 1], items[|items| - 1];
      VisibleHolds(front, id);
      assert items == front + [last];
      if last.category == id {
        assert ItemsIn(items, id)[..|ItemsIn(front, id)|] == ItemsIn(front, id);
      } else {
        assert ItemsIn(items, id) == ItemsIn(front, id);
      }
    }
  }

  /** Where the rows of a category are that are not archived. */
  function LiveRows(items: seq<MenuItem>, id: CategoryId): set<nat> {
    set k: nat | k < |items| && items[k].category == id && !items[k].archived
  }

  /** And those that can be ordered now. */
  function OrderableRows(items: seq<MenuItem>, id: CategoryId): set<nat> {
    set k: nat | k < |items| && items[k].category == id && items[k].available && !items[k].archived
  }

  lemma {:induction false} LiveAreCounted(items: seq<MenuItem>, id: CategoryId)
    ensures CountLive(ItemsIn(items, id)) == |LiveRows(items, id)|
    decreases |items|
  {
    if items != [] {
      LiveAreCounted(items[..|items| - 1], id);
      ItemsInOneMore(items, id);
      AppendItem(ItemsIn(items[..|items| - 1], id), items[|items| - 1]);
      LiveRowsOneMore(items, id);
    }
  }

  lemma AppendItem(items: seq<MenuItem>, i: MenuItem)
    ensures CountLive(items + [i]) == CountLive(items) + if i.archived then 0 else 1
    ensures |Visible(items + [i])| == |Visible(items)| + if Orderable(i) then 1 else 0
  {
    assert (items + [i])[..|items|] == items;
  }

  lemma ItemsInOneMore(items: seq<MenuItem>, id: CategoryId)
    requires items != []
    ensures var front, last := items[..|items| - 1], items[|items| - 1];
            ItemsIn(items, id) == if last.category == id then ItemsIn(front, id) + [last] else ItemsIn(front, id)
  {
  }

  lemma LiveRowsOneMore(items: seq<MenuItem>, id: CategoryId)
    requires items != []
    ensures var front, last := items[..|items| - 1], items[|items| - 1];
            |LiveRows(items, id)| == |LiveRows(front, id)| + if last.category == id && !last.archived then 1 else 0
  {
    var front, last := items[..|items| - 1], items[|items| - 1];
    var more: set<nat> := if last.category == id && !last.archived then {|front|} else {};
    assert LiveRows(items, id) == LiveRows(front, id) + more;
  }

  lemma OrderableRowsOneMore(items: seq<MenuItem>, id: CategoryId)
    requires items != []
    ensures var front, last := items[..|items| - 1], items[|items| - 1];
            |OrderableRows(items, id)| == |OrderableRows(front, id)| + if last.category == id && Orderable(last) then 1 else 0
  {
    var front, last := items[..|items| - 1], items[|items| - 1];
    var more: set<nat> := if last.category == id && Orderable(last) then {|front|} else {};
    assert OrderableRows(items, id) == OrderableRows(front, id) + more;
  }

  lemma {:induction false} OrderableAreShown(items: seq<MenuItem>, id: CategoryId)
    ensures |Visible(ItemsIn(items, id))| == |OrderableRows(items, id)|
    decreases |items|
  {
    if items != [] {
      OrderableAreShown(items[..|items| - 1], id);
      ItemsInOneMore(items, id);
      AppendItem(ItemsIn(items[..|items| - 1], id), items[|items| - 1]);
      OrderableRowsOneMore(items, id);
    }
  }

  /** One category: its count is the number of its unarchived rows, and its items are exactly those
      that can be ordered, each as often as it is stored. */
  ghost predicate ShowsExactly(s: Shown, c: Category, items: seq<MenuItem>) {
    && s.category == c
    && s.itemCount == |LiveRows(items, c.id)|
    && |s.items| == |OrderableRows(items, c.id)|
    && forall i :: i in s.items <==> i in items && i.category == c.id && i.available && !i.archived
  }

  lemma ShowIsExact(c: Category, items: seq<MenuItem>)
    ensures ShowsExactly(Show(c, items), c, items)
  {
    VisibleHolds(items, c.id);
    LiveAreCounted(items, c.id);
    OrderableAreShown(items, c.id);
  }

  /** A listing shows each category of its tenant as often as it is stored, in order, each with
      exactly the items that can be ordered from it. */
  lemma ListingShowsTheMenu(m: Menu, tenant: Tenant)
    ensures var cs, shown := ByOrder(Mine(m.categories, tenant)), Listing(m, tenant);
            && Sorted(cs) && multiset(cs) == multiset(Mine(m.categories, tenant))
            && (forall c :: c in Mine(m.categories, tenant) <==> c in m.categories && c.tenant == tenant)
            && |shown| == |cs| && forall k :: 0 <= k < |shown| ==> ShowsExactly(shown[k], cs[k], m.items)
  {
    var cs := ByOrder(Mine(m.categories, tenant));
    MineAll(m.categories, tenant);
    ByOrderSorts(Mine(m.categories, tenant));
    forall k | 0 <= k < |cs| ensures ShowsExactly(Listing(m, tenant)[k], cs[k], m.items) {
      ShowAllAt(cs, m.items, k);
      ShowIsExact(cs[k], m.items);
    }
  }

  // ------------------------------------------------------------------ retired items

  ghost predicate Stored(items: seq<MenuItem>, id: ItemId) { exists k :: 0 <= k < |items| && items[k].id == id }

  ghost predicate Retired(items: seq<MenuItem>, id: ItemId) {
    exists k :: 0 <= k < |items| && items[k].id == id && items[k].archived
  }

  /** A write keeps every row but the one it is about. */
  lemma WriteKeepsOtherRows(m: Menu, tenant: Tenant, w: Write, k: nat)
    requires Accepted(m, tenant, w) && k < |m.items|
    requires w.UpdateItem? || w.DeleteItem? ==> k != FindItem(m.items, w.iid, tenant).value
    ensures m.items[k] in Written(m, tenant, w).items
  {
    var items' := Written(m, tenant, w).items;
    var at := if w.DeleteItem? then FindItem(m.items, w.iid, tenant).value else k;
    assert items'[if |items'| < |m.items| && at < k then k - 1 else k] == m.items[k];
  }

  lemma RequestKeepsHistory(s: Service, r: Request, id: ItemId)
    requires id in s.menu.sold && Stored(s.menu.items, id)
    ensures id in Handle(s, r).menu.sold && Stored(Handle(s, r).menu.items, id)
    ensures Retired(s.menu.items, id) ==> Retired(Handle(s, r).menu.items, id)
  {
    var m, m' := s.menu, Handle(s, r).menu;
    if r.Change? && Accepted(m, r.tenant, r.write) {
      var k :| 0 <= k < |m.items| && m.items[k].id == id && (Retired(m.items, id) ==> m.items[k].archived);
      var w := r.write;
      if (w.UpdateItem? || w.DeleteItem?) && k == FindItem(m.items, w.iid, r.tenant).value {
        assert m'.items[k].id == id;
      } else {
        WriteKeepsOtherRows(m, r.tenant, w, k);
        var j :| 0 <= j < |m'.items| && m'.items[j] == m.items[k];
      }
    }
  }

  /** Over every run, an item that was ever ordered keeps a row, so order lines never lose it, and
      once retired it stays retired. */
  lemma {:induction false} OrderedItemsKeepTheirRow(s: Service, rs: seq<Request>, id: ItemId)
    requires id in s.menu.sold && Stored(s.menu.items, id)
    ensures Stored(HandleAll(s, rs).menu.items, id)
    ensures Retired(s.menu.items, id) ==> Retired(HandleAll(s, rs).menu.items, id)
    decreases |rs|
  {
    if rs != [] {
      RequestKeepsHistory(s, rs[0], id);
      OrderedItemsKeepTheirRow(Handle(s, rs[0]), rs[1..], id);
    }
  }

  // ----------------------------------------------------------------- reads are fresh

  predicate DeletesWork(r: Request) { r.Change? ==> r.deleteWorks }

  lemma HandleKeepsCoherent(s: Service, r: Request)
    requires MenuOk(s.menu) && Coherent(s) && DeletesWork(r)
    ensures MenuOk(Handle(s, r).menu) && Coherent(Handle(s, r))
  {
    if r.Change? && Accepted(s.menu, r.tenant, r.write) {
      var s' := Handle(s, r);
      WritesKeepMenu(s.menu, r.tenant, r.write);
      forall t | t in s'.cache ensures s'.cache[t] == Listing(s'.menu, t) {
        WritesAreIsolated(s.menu, r.tenant, r.write, t);
      }
    }
  }

  /** Over every run of listings, writes, sales and expiries of all tenants, with gets and sets of
      the cache failing at will, every listing returns what an uncached one would. */
  lemma {:induction false} EveryListingIsFresh(s: Service, rs: seq<Request>, tenant: Tenant, getWorks: bool)
    requires MenuOk(s.menu) && Coherent(s) && forall k :: 0 <= k < |rs| ==> DeletesWork(rs[k])
    ensures Answer(HandleAll(s, rs), tenant, getWorks) == Listing(HandleAll(s, rs).menu, tenant)
    decreases |rs|
  {
    if rs != [] {
      HandleKeepsCoherent(s, rs[0]);
      EveryListingIsFresh(Handle(s, rs[0]), rs[1..], tenant, getWorks);
    }
  }

  /** The write went through and its key stayed. */
  lemma AfterFailedDelete(s: Service, tenant: Tenant, w: Write, t: Tenant)
    requires MenuOk(s.menu) && Coherent(s) && Accepted(s.menu, tenant, w)
    ensures var s' := Handle(s, Change(tenant, w, false));
            && s'.cache == s.cache && s'.menu == Written(s.menu, tenant, w)
            && (t in s'.cache ==> s'.cache[t] == Listing(s.menu, t))
            && (t != tenant ==> Listing(s'.menu, t) == Listing(s.menu, t))
  {
    if t != tenant { WritesAreIsolated(s.menu, tenant, w, t); }
  }

  /** When the delete of an accepted write fails, the next cached listing of that tenant is stale
      exactly if there was an entry and the write changed the listing; other tenants never notice,
      and expiry repairs it. */
  lemma FailedDeleteStalesOneTenant(s: Service, tenant: Tenant, w: Write)
    requires MenuOk(s.menu) && Coherent(s) && Accepted(s.menu, tenant, w)
    ensures var s' := Handle(s, Change(tenant, w, false));
            && (Answer(s', tenant, true) == Listing(s'.menu, tenant) <==>
                  tenant !in s.cache || Listing(s'.menu, tenant) == Listing(s.menu, tenant))
            && (forall t :: t != tenant ==> Answer(s', t, true) == Listing(s'.menu, t))
            && Coherent(Handle(s', Expire(tenant)))
  {
    var s' := Handle(s, Change(tenant, w, false));
    AfterFailedDelete(s, tenant, w, tenant);
    forall t | t != tenant ensures Answer(s', t, true) == Listing(s'.menu, t) {
      AfterFailedDelete(s, tenant, w, t);
    }
    var e := Handle(s', Expire(tenant));
    forall t | t in e.cache ensures e.cache[t] == Listing(e.menu, t) {
      assert t != tenant && Answer(s', t, true) == Listing(s'.menu, t);
    }
  }
}
