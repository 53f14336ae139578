/**
 * The admin dashboard (src/app/admin/page.tsx): access gating and the
 * editable list of gift items with its edit, delete, save and cancel
 * handlers, plus the item form's field edits.
 */
module AdminPage {
  import opened Wrappers
  import opened Types
  import opened Store

  /** The dashboard's initial item list. */
  const AdminMockItems: seq<GiftItem> := [
    GiftItem("1", "Red Roses Bouquet", "Flowers", 519.47, "/api/placeholder/150/150",
             "Beautiful red roses with elegant wrapping", None),
    GiftItem("2", "Premium Chocolates", "Chocolates", 277.21, "/api/placeholder/150/150",
             "Artisan chocolate collection", None),
    GiftItem("3", "Handwritten Card", "Cards", 86.48, "/api/placeholder/150/150",
             "Customizable greeting card", None)
  ]

  /** `s.includes(sub)`. */
  predicate Contains(s: string, sub: string)
    decreases |s|
  {
    (|sub| <= |s| && s[..|sub|] == sub) || (s != [] && Contains(s[1..], sub))
  }

  /** `user?.email?.includes("admin") || true`: the demo check admits everyone. */
  function IsAdmin(user: Option<User>): (admin: bool)
    ensures admin
  {
    (user.Some? && Contains(user.value.email, "admin")) || true
  }

  datatype AdminView = SignInRequired | PermissionDenied | Dashboard

  /** Which screen renders: sign-in prompt without a user, then the admin check. */
  function View(user: Option<User>): (v: AdminView)
    ensures v == Dashboard <==> user.Some?
    ensures v != PermissionDenied
  {
    if user.None? then SignInRequired
    else if !IsAdmin(user) then PermissionDenied
    else Dashboard
  }

  /** `items.map(i => i.id === item.id ? item : i)`. */
  function ReplaceById(items: seq<GiftItem>, item: GiftItem): (r: seq<GiftItem>)
    ensures |r| == |items|
    ensures forall i :: 0 <= i < |r| ==> r[i].id == items[i].id
    ensures forall i :: 0 <= i < |r| && items[i].id != item.id ==> r[i] == items[i]
    ensures forall i :: 0 <= i < |r| && items[i].id == item.id ==> r[i] == item
  {
    seq(|items|, i requires 0 <= i < |items| => if items[i].id == item.id then item else items[i])
  }

  /** Replacing with an item whose id no entry carries changes nothing. */
  lemma ReplaceAbsentIsNoOp(items: seq<GiftItem>, item: GiftItem)
    requires forall i :: 0 <= i < |items| ==> items[i].id != item.id
    ensures ReplaceById(items, item) == items
  {
  }

  /** Replacing twice with the same item is replacing once. */
  lemma ReplaceIdempotent(items: seq<GiftItem>, item: GiftItem)
    ensures ReplaceById(ReplaceById(items, item), item) == ReplaceById(items, item)
  {
  }

  /** The list `handleSaveItem(item)` stores, as written: replace while anything is being edited, else append with a fresh id. */
  function SavedItems(items: seq<GiftItem>, editing: Option<GiftItem>, item: GiftItem, freshId: string): (r: seq<GiftItem>)
    ensures editing.Some? ==> r == ReplaceById(items, item)
    ensures editing.None? ==> |r| == |items| + 1 && r[..|items|] == items && r[|items|] == item.(id := freshId)
  {
    if editing.Some? then ReplaceById(items, item) else items + [item.(id := freshId)]
  }

  /** The blank item "Add New Item" starts the form with. */
  const BlankItem: GiftItem := GiftItem("", "", "", 0.0, "", "", None)

  /** One edit in the item form: each input overwrites one field of the form data. */
  datatype FormEdit = SetName(name: string) | SetCategory(category: string)
                    | SetPrice(price: real) | SetDescription(description: string)

  function ApplyEdit(f: GiftItem, e: FormEdit): GiftItem
  {
    match e
    case SetName(v) => f.(name := v)
    case SetCategory(v) => f.(category := v)
    case SetPrice(v) => f.(price := v)
    case SetDescription(v) => f.(description := v)
  }

  /** The form data after a series of edits; no input touches the id. */
  function ApplyEdits(f: GiftItem, edits: seq<FormEdit>): (r: GiftItem)
    ensures r.id == f.id && r.imageUrl == f.imageUrl && r.dimensions == f.dimensions
    decreases |edits|
  {
    if edits == [] then f else ApplyEdits(ApplyEdit(f, edits[0]), edits[1..])
  }

  /**
   * As written: whatever is typed into the form opened by "Add New Item",
   * saving it replaces the items with id "" instead of adding one, so a list
   * without such an item comes back unchanged.
   */
  lemma AddNewItemIsLost(items: seq<GiftItem>, edits: seq<FormEdit>, freshId: string)
    requires forall i :: 0 <= i < |items| ==> items[i].id != ""
    ensures SavedItems(items, Some(BlankItem), ApplyEdits(BlankItem, edits), freshId) == items
  {
    ReplaceAbsentIsNoOp(items, ApplyEdits(BlankItem, edits));
  }

  /** The concrete case: a new bouquet typed into the form leaves the three starting items as they were. */
  lemma AddNewItemIsLostOnStartingList()
    ensures SavedItems(AdminMockItems, Some(BlankItem),
                       ApplyEdits(BlankItem, [SetName("Tulips"), SetCategory("Flowers"), SetPrice(99.0)]),
                       "1700000000000") == AdminMockItems
  {
    AddNewItemIsLost(AdminMockItems, [SetName("Tulips"), SetCategory("Flowers"), SetPrice(99.0)], "1700000000000");
  }

  /**
   * Corrected save: the blank item from "Add New Item" (id "") is appended
   * with a fresh id; an existing item being edited is replaced by id.
   */
  function SavedItemsFixed(items: seq<GiftItem>, editing: Option<GiftItem>, item: GiftItem, freshId: string): (r: seq<GiftItem>)
    ensures editing.Some? && editing.value.id != "" ==> r == SavedItems(items, editing, item, freshId)
  {
    if editing.Some? && editing.value.id != "" then ReplaceById(items, item)
    else items + [item.(id := freshId)]
  }

  /** With the correction, saving the "Add New Item" form appends exactly that item, under the fresh id. */
  lemma AddNewItemAppendsWhenFixed(items: seq<GiftItem>, edits: seq<FormEdit>, freshId: string)
    ensures var r := SavedItemsFixed(items, Some(BlankItem), ApplyEdits(BlankItem, edits), freshId);
      |r| == |items| + 1 && r[..|items|] == items && r[|items|] == ApplyEdits(BlankItem, edits).(id := freshId)
  {
  }

  /** The dashboard's state. */
  class AdminDashboard {
    var items: seq<GiftItem>
    var isEditing: bool
    var editingItem: Option<GiftItem>

    constructor ()
      ensures items == AdminMockItems && !isEditing && editingItem == None
    {
      items := AdminMockItems;
      isEditing := false;
      editingItem := None;
    }

    /**
     * The form is shown while editing with an item in hand; otherwise the list is.
     * So a save from the form always finds `editingItem` set.
     */
    function FormShown(): (shown: bool)
      reads this
      ensures shown ==> isEditing && editingItem.Some?
    {
      isEditing && editingItem.Some?
    }

    /** `handleEditItem`: open the form on an existing item. */
    method HandleEditItem(item: GiftItem)
      modifies this`isEditing, this`editingItem
      ensures editingItem == Some(item) && isEditing && FormShown()
    {
      editingItem := Some(item);
      isEditing := true;
    }

    /** "Add New Item": open the form on the blank item, which is not null. */
    method AddNewItem()
      modifies this`isEditing, this`editingItem
      ensures editingItem == Some(BlankItem) && isEditing && FormShown()
    {
      editingItem := Some(BlankItem);
      isEditing := true;
    }

    /** `handleDeleteItem`: when the user confirms, drop every item with that id. */
    method HandleDeleteItem(itemId: string, confirmed: bool)
      modifies this`items
      ensures confirmed ==> items == WithoutId(old(items), itemId)
      ensures !confirmed ==> items == old(items)
    {
      if confirmed {
        items := WithoutId(items, itemId);
      }
    }

    /** `handleSaveItem`: store the saved item, then close the form. `freshId` stands for `Date.now()`. */
    method HandleSaveItem(item: GiftItem, freshId: string)
      modifies this`items, this`isEditing, this`editingItem
      ensures items == SavedItems(old(items), old(editingItem), item, freshId)
      ensures !isEditing && editingItem == None && !FormShown()
    {
      if editingItem.Some? {
        items := ReplaceById(items, item);
      } else {
        var newItem := item.(id := freshId);
        items := items + [newItem];
      }
      isEditing := false;
      editingItem := None;
    }

    /** The form's Cancel: close the form without touching the list. */
    method HandleCancel()
      modifies this`isEditing, this`editingItem
      ensures !isEditing && editingItem == None && !FormShown()
    {
      isEditing := false;
      editingItem := None;
    }
  }

  /** Through the page's own buttons, "Add New Item" then "Save Item" leaves the starting list unchanged. */
  method AddNewItemThroughPage(edits: seq<FormEdit>, freshId: string)
  {
    var d := new AdminDashboard();
    d.AddNewItem();
    d.HandleSaveItem(ApplyEdits(d.editingItem.value, edits), freshId);
    AddNewItemIsLost(AdminMockItems, edits, freshId);
    assert d.items == AdminMockItems;
  }
}
