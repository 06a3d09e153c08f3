/** The menu routes over their tables and the cache; each is proved to do what MenuCache says of the
    request. */
module MenuService {
  import opened Options
  import opened MenuCache

  class MenuRoutes {
    var categories: seq<Category>
    var items: seq<MenuItem>
    var sold: set<ItemId>
    var cache: map<Tenant, seq<Shown>>

    function View(): Service
      reads this
    {
      Service(Menu(categories, items, sold), cache)
    }

    constructor ()
      ensures View() == Service(Menu([], [], {}), map[])
    {
      categories, items, sold, cache := [], [], {}, map[];
    }

    /** The rows of the SELECT; putting them in order is left to the database. */
    method SelectMine(tenant: Tenant) returns (mine: seq<Category>)
      ensures mine == Mine(categories, tenant)
    {
      mine := [];
      for k := 0 to |categories|
        invariant mine == Mine(categories[..k], tenant)
      {
        assert categories[..k + 1][..k] == categories[..k];
        if categories[k].tenant == tenant { mine := mine + [categories[k]]; }
      }
      assert categories[..|categories|] == categories;
    }

    /** The items of a category. */
    method SelectIn(id: CategoryId) returns (held: seq<MenuItem>)
      ensures held == ItemsIn(items, id)
    {
      held := [];
      for k := 0 to |items|
        invariant held == ItemsIn(items[..k], id)
      {
        assert items[..k + 1][..k] == items[..k];
        if items[k].category == id { held := held + [items[k]]; }
      }
      assert items[..|items|] == items;
    }

    /** `_get_scoped_category`. */
    method LookUpCategory(id: CategoryId, tenant: Tenant) returns (at: Option<nat>)
      ensures at == FindCategory(categories, id, tenant)
    {
      at := None;
      for k := 0 to |categories|
        invariant at == FindCategory(categories[..k], id, tenant)
      {
        assert categories[..k + 1][..k] == categories[..k];
        if categories[k].id == id && categories[k].tenant == tenant { at := Some(k); }
      }
      assert categories[..|categories|] == categories;
    }

    /** `_get_scoped_item`, archived items included. */
    method LookUpItem(id: ItemId, tenant: Tenant) returns (at: Option<nat>)
      ensures at == FindItem(items, id, tenant)
    {
      at := None;
      for k := 0 to |items|
        invariant at == FindItem(items[..k], id, tenant)
      {
        assert items[..k + 1][..k] == items[..k];
        if items[k].id == id && items[k].tenant == tenant { at := Some(k); }
      }
      assert items[..|items|] == items;
    }

    /** The two counts of a category's items. */
    method CountHeld(id: CategoryId) returns (live: nat, archived: nat)
      ensures live + archived == |ItemsIn(items, id)| && live == CountLive(ItemsIn(items, id))
    {
      live, archived := 0, 0;
      for k := 0 to |items|
        invariant live + archived == |ItemsIn(items[..k], id)| && live == CountLive(ItemsIn(items[..k], id))
      {
        assert items[..k + 1][..k] == items[..k];
        ItemsInOneMore(items[..k + 1], id);
        AppendItem(ItemsIn(items[..k], id), items[k]);
        if items[k].category == id {
          if items[k].archived { archived := archived + 1; } else { live := live + 1; }
        }
      }
      assert items[..|items|] == items;
    }

    /** `list_categories`. */
    method ListCategories(tenant: Tenant, getWorks: bool, setWorks: bool) returns (data: seq<Shown>)
      modifies this`cache
      ensures data == Answer(old(View()), tenant, getWorks)
      ensures View() == Handle(old(View()), List(tenant, getWorks, setWorks))
    {
      if getWorks && tenant in cache { return cache[tenant]; }
      var mine := SelectMine(tenant);
      var cats := ByOrder(mine);
      data := [];
      for k := 0 to |cats|
        invariant cache == old(cache) && data == ShowAll(cats[..k], items)
      {
        assert cats[..k + 1][..k] == cats[..k];
        var held := SelectIn(cats[k].id);
        var count := CountItems(held);
        var visible := SelectVisible(held);
        data := data + [Shown(cats[k], count, visible)];
      }
      assert cats[..|cats|] == cats;
      if setWorks { cache := cache[tenant := data]; }
    }

    static method CountItems(mine: seq<MenuItem>) returns (count: nat)
      ensures count == CountLive(mine)
    {
      count := 0;
      for k := 0 to |mine|
        invariant count == CountLive(mine[..k])
      {
        assert mine[..k + 1][..k] == mine[..k];
        if !mine[k].archived { count := count + 1; }
      }
      assert mine[..|mine|] == mine;
    }

    static method SelectVisible(mine: seq<MenuItem>) returns (visible: seq<MenuItem>)
      ensures visible == Visible(mine)
    {
      visible := [];
      for k := 0 to |mine|
        invariant visible == Visible(mine[..k])
      {
        assert mine[..k + 1][..k] == mine[..k];
        if mine[k].available && !mine[k].archived { visible := visible + [mine[k]]; }
      }
      assert mine[..|mine|] == mine;
    }

    method DropKey(tenant: Tenant, deleteWorks: bool)
      modifies this`cache
      ensures cache == if deleteWorks then old(cache) - {tenant} else old(cache)
    {
      if deleteWorks { cache := cache - {tenant}; }
    }

    method PostCategory(tenant: Tenant, id: CategoryId, name: string, icon: string, sortOrder: int, deleteWorks: bool)
      requires forall k :: 0 <= k < |categories| ==> categories[k].id != id
      modifies this
      ensures View() == Handle(old(View()), Change(tenant, CreateCategory(id, name, icon, sortOrder), deleteWorks))
    {
      categories := categories + [Category(id, tenant, name, icon, sortOrder)];
      DropKey(tenant, deleteWorks);
    }

    method PutCategory(tenant: Tenant, id: CategoryId, patch: CategoryPatch, deleteWorks: bool) returns (found: bool)
      modifies this
      ensures View() == Handle(old(View()), Change(tenant, UpdateCategory(id, patch), deleteWorks))
      ensures found <==> Accepted(old(View()).menu, tenant, UpdateCategory(id, patch))
    {
      var at := LookUpCategory(id, tenant);
      if at.None? { return false; }
      var cat := categories[at.value];
      if patch.name.Some? { cat := cat.(name := patch.name.value); }
      if patch.icon.Some? { cat := cat.(icon := patch.icon.value); }
      if patch.sortOrder.Some? { cat := cat.(sortOrder := patch.sortOrder.value); }
      categories := categories[at.value := cat];
      DropKey(tenant, deleteWorks);
      found := true;
    }

    /** Refused while the category holds any item, live or archived. */
    method RemoveCategory(tenant: Tenant, id: CategoryId, deleteWorks: bool) returns (ok: bool)
      modifies this
      ensures View() == Handle(old(View()), Change(tenant, DeleteCategory(id), deleteWorks))
      ensures ok <==> Accepted(old(View()).menu, tenant, DeleteCategory(id))
    {
      var at := LookUpCategory(id, tenant);
      if at.None? { return false; }
      var live, archived := CountHeld(id);
      if live > 0 || archived > 0 { return false; }
      categories := categories[..at.value] + categories[at.value + 1..];
      DropKey(tenant, deleteWorks);
      ok := true;
    }

    method PostItem(tenant: Tenant, iid: ItemId, category: CategoryId, details: Details, available: bool, deleteWorks: bool)
      returns (ok: bool)
      requires forall k :: 0 <= k < |items| ==> items[k].id != iid
      modifies this
      ensures View() == Handle(old(View()), Change(tenant, CreateItem(iid, category, details, available), deleteWorks))
      ensures ok <==> Accepted(old(View()).menu, tenant, CreateItem(iid, category, details, available))
    {
      var at := LookUpCategory(category, tenant);
      if at.None? { return false; }
      items := items + [MenuItem(iid, tenant, category, details, available, false)];
      DropKey(tenant, deleteWorks);
      ok := true;
    }

    /** The optional fields of an item, one after another. */
    static method Patched(item: MenuItem, patch: ItemPatch) returns (i: MenuItem)
      ensures i == PatchItem(item, patch)
    {
      var d := item.details;
      if patch.name.Some? { d := d.(name := patch.name.value); }
      if patch.description.Some? { d := d.(description := patch.description); }
      if patch.priceCents.Some? { d := d.(priceCents := patch.priceCents.value); }
      if patch.image.Some? { d := d.(image := patch.image); }
      if patch.prepMinutes.Some? { d := d.(prepMinutes := patch.prepMinutes.value); }
      assert d == PatchDetails(item.details, patch);
      i := item.(details := d);
      if patch.available.Some? { i := i.(available := patch.available.value); }
      if patch.category.Some? { i := i.(category := patch.category.value); }
    }

    method PutItem(tenant: Tenant, iid: ItemId, patch: ItemPatch, deleteWorks: bool) returns (ok: bool)
      modifies this
      ensures View() == Handle(old(View()), Change(tenant, UpdateItem(iid, patch), deleteWorks))
      ensures ok <==> Accepted(old(View()).menu, tenant, UpdateItem(iid, patch))
    {
      var at := LookUpItem(iid, tenant);
      if at.None? || items[at.value].archived { return false; }
      if patch.category.Some? {
        var home := LookUpCategory(patch.category.value, tenant);
        if home.None? { return false; }
      }
      var item := Patched(items[at.value], patch);
      items := items[at.value := item];
      DropKey(tenant, deleteWorks);
      ok := true;
    }

    /** An item that was ever ordered is archived, any other is deleted. */
    method RemoveItem(tenant: Tenant, iid: ItemId, deleteWorks: bool) returns (ok: bool)
      modifies this
      ensures View() == Handle(old(View()), Change(tenant, DeleteItem(iid), deleteWorks))
      ensures ok <==> Accepted(old(View()).menu, tenant, DeleteItem(iid))
    {
      var at := LookUpItem(iid, tenant);
      if at.None? || items[at.value].archived { return false; }
      if iid in sold {
        items := items[at.value := items[at.value].(archived := true, available := false)];
      } else {
        items := items[..at.value] + items[at.value + 1..];
      }
      DropKey(tenant, deleteWorks);
      ok := true;
    }
  }
}
