/**
 * The box configuration store (src/store/boxStore.ts): one live
 * `BoxConfiguration`, the item catalog and a few UI flags, with the actions
 * that replace them. Every action that changes `items` derives `totalPrice`
 * from the new list with the same fold.
 */
module Store {
  import opened Wrappers
  import opened Types
  import Seqs

  /** `items.reduce((sum, item) => sum + item.price, acc)`: a left fold from the front. */
  function FoldPrices(acc: real, items: seq<GiftItem>): real
    decreases items
  {
    if items == [] then acc else FoldPrices(acc + items[0].price, items[1..])
  }

  /** The total the store derives from a list of items: the fold started at 0. */
  function Sum(items: seq<GiftItem>): real
  {
    FoldPrices(0.0, items)
  }

  /** Folding from `acc` is `acc` plus the sum, so the fold is an ordinary sum. */
  lemma {:induction false} FoldFrom(acc: real, items: seq<GiftItem>)
    ensures FoldPrices(acc, items) == acc + Sum(items)
    decreases items
  {
    if items != [] {
      FoldFrom(acc + items[0].price, items[1..]);
      FoldFrom(items[0].price, items[1..]);
    }
  }

  /** The total of a concatenation is the sum of the totals. */
  lemma {:induction false} SumAppend(a: seq<GiftItem>, b: seq<GiftItem>)
    ensures Sum(a + b) == Sum(a) + Sum(b)
  {
    if a == [] {
      assert a + b == b;
    } else {
      assert (a + b)[0] == a[0];
      assert (a + b)[1..] == a[1..] + b;
      FoldFrom(a[0].price, a[1..] + b);
      FoldFrom(a[0].price, a[1..]);
      SumAppend(a[1..], b);
    }
  }

  /** `items.filter(item => item.id !== id)`: the items whose id is not `id`, in order. */
  function WithoutId(items: seq<GiftItem>, id: string): (r: seq<GiftItem>)
    ensures forall i :: 0 <= i < |r| ==> r[i].id != id && r[i] in items
    ensures forall i :: 0 <= i < |items| && items[i].id != id ==> items[i] in r
    ensures Seqs.IsSubsequence(r, items)
  {
    Seqs.FilterIsSubsequence(items, (x: GiftItem) => x.id != id);
    Seqs.Filter(items, (x: GiftItem) => x.id != id)
  }

  /** The items whose id is `id`: exactly what `WithoutId` drops. */
  function WithId(items: seq<GiftItem>, id: string): (r: seq<GiftItem>)
    ensures forall i :: 0 <= i < |r| ==> r[i].id == id && r[i] in items
  {
    Seqs.Filter(items, (x: GiftItem) => x.id == id)
  }

  /** Every occurrence of an item with id `id` goes; every other item keeps all its occurrences. */
  lemma WithoutIdCount(items: seq<GiftItem>, id: string, x: GiftItem)
    ensures multiset(WithoutId(items, id))[x] == if x.id == id then 0 else multiset(items)[x]
  {
    Seqs.FilterCount(items, (y: GiftItem) => y.id != id, x);
  }

  /** Removing an id that no item carries keeps the list as it is. */
  lemma WithoutAbsentId(items: seq<GiftItem>, id: string)
    requires forall i :: 0 <= i < |items| ==> items[i].id != id
    ensures WithoutId(items, id) == items
  {
    Seqs.FilterAllPass(items, (x: GiftItem) => x.id != id);
  }

  /** Removing the same id twice is removing it once. */
  lemma WithoutIdIdempotent(items: seq<GiftItem>, id: string)
    ensures WithoutId(WithoutId(items, id), id) == WithoutId(items, id)
  {
    Seqs.FilterIdempotent(items, (x: GiftItem) => x.id != id);
  }

  /** Splitting a list by id splits its total: kept plus removed. */
  lemma {:induction false} SumSplitById(items: seq<GiftItem>, id: string)
    ensures Sum(items) == Sum(WithoutId(items, id)) + Sum(WithId(items, id))
  {
    if items != [] {
      var x, rest := items[0], items[1..];
      SumSplitById(rest, id);
      assert items == [x] + rest;
      SumAppend([x], rest);
      if x.id == id {
        assert WithoutId(items, id) == WithoutId(rest, id);
        assert WithId(items, id) == [x] + WithId(rest, id);
        SumAppend([x], WithId(rest, id));
      } else {
        assert WithoutId(items, id) == [x] + WithoutId(rest, id);
        assert WithId(items, id) == WithId(rest, id);
        SumAppend([x], WithoutId(rest, id));
      }
    }
  }

  /** `initialBoxConfig`: medium pink box, gold ribbon, solid wrapping, classic bow, empty, total 0. */
  const InitialBoxConfig: BoxConfiguration :=
    BoxConfiguration(None, "#ff6b9d", "solid", "#ffd700", Medium, "classic", [], 0.0, None)

  /** The store's category list (without the builder page's "All"). */
  const StoreCategories: seq<string> := ["Flowers", "Chocolates", "Cards", "Toys", "Books", "Jewelry"]

  /** The derived-price invariant: the stored total is the fold of the stored items. */
  predicate Consistent(c: BoxConfiguration)
  {
    c.totalPrice == Sum(c.items)
  }

  /** The default configuration satisfies the price invariant. */
  lemma InitialConsistent()
    ensures Consistent(InitialBoxConfig)
  {
  }

  /** A one-item list totals that item's price. */
  lemma SumSingle(x: GiftItem)
    ensures Sum([x]) == x.price
  {
    assert [x][1..] == [];
    assert FoldPrices(0.0, [x]) == FoldPrices(0.0 + x.price, []);
  }

  /** The configuration `addItemToBox(item)` stores. */
  function AddItem(c: BoxConfiguration, item: GiftItem): (r: BoxConfiguration)
    ensures r.items == c.items + [item]
    ensures Consistent(r)
    ensures Consistent(c) ==> r.totalPrice == c.totalPrice + item.price
    ensures r.(items := c.items, totalPrice := c.totalPrice) == c
  {
    var newItems := c.items + [item];
    SumAppend(c.items, [item]);
    SumSingle(item);
    c.(items := newItems, totalPrice := Sum(newItems))
  }

  /** The configuration `removeItemFromBox(id)` stores. */
  function RemoveItem(c: BoxConfiguration, id: string): (r: BoxConfiguration)
    ensures r.items == WithoutId(c.items, id)
    ensures Consistent(r)
    ensures Consistent(c) ==> r.totalPrice == c.totalPrice - Sum(WithId(c.items, id))
    ensures r.(items := c.items, totalPrice := c.totalPrice) == c
  {
    var newItems := WithoutId(c.items, id);
    SumSplitById(c.items, id);
    c.(items := newItems, totalPrice := Sum(newItems))
  }

  /** Removing an id that is not in the box changes nothing when the total was consistent. */
  lemma RemoveAbsentIsNoOp(c: BoxConfiguration, id: string)
    requires Consistent(c)
    requires forall i :: 0 <= i < |c.items| ==> c.items[i].id != id
    ensures RemoveItem(c, id) == c
  {
    WithoutAbsentId(c.items, id);
  }

  /** Removing an id leaves no item with that id, and a second removal changes nothing. */
  lemma RemoveIdempotent(c: BoxConfiguration, id: string)
    ensures forall i :: 0 <= i < |RemoveItem(c, id).items| ==> RemoveItem(c, id).items[i].id != id
    ensures RemoveItem(RemoveItem(c, id), id) == RemoveItem(c, id)
  {
    WithoutIdIdempotent(c.items, id);
  }

  /** Adding an item with a fresh id and then removing that id restores the configuration. */
  lemma {:induction false} AddThenRemoveRestores(c: BoxConfiguration, x: GiftItem)
    requires Consistent(c)
    requires forall i :: 0 <= i < |c.items| ==> c.items[i].id != x.id
    ensures RemoveItem(AddItem(c, x), x.id) == c
  {
    Seqs.FilterAppend(c.items, [x], (y: GiftItem) => y.id != x.id);
    WithoutAbsentId(c.items, x.id);
    assert WithoutId([x], x.id) == [];
    assert WithoutId(c.items + [x], x.id) == c.items;
  }

  /** `Partial<BoxConfiguration>`: `None` is a key the caller left out. */
  datatype BoxConfigPatch = BoxConfigPatch(
    id: Option<string>,
    color: Option<string>,
    wrappingStyle: Option<string>,
    ribbonColor: Option<string>,
    size: Option<BoxSize>,
    items: Option<seq<GiftItem>>,
    totalPrice: Option<real>,
    userId: Option<string>)

  const EmptyPatch: BoxConfigPatch := BoxConfigPatch(None, None, None, None, None, None, None, None)

  /** Some key that is present wins; an absent key keeps the stored value. */
  function Overwrite<T>(present: Option<T>, stored: T): T
  {
    if present.Some? then present.value else stored
  }

  /** The configuration `setBoxConfig(p)` stores: `{...c, ...p}`, then the total recomputed when `p.items` is given. */
  function ApplyPatch(c: BoxConfiguration, p: BoxConfigPatch): (r: BoxConfiguration)
    ensures r.id == (if p.id.Some? then p.id else c.id)
    ensures r.userId == (if p.userId.Some? then p.userId else c.userId)
    ensures r.color == Overwrite(p.color, c.color)
    ensures r.wrappingStyle == Overwrite(p.wrappingStyle, c.wrappingStyle)
    ensures r.ribbonColor == Overwrite(p.ribbonColor, c.ribbonColor)
    ensures r.size == Overwrite(p.size, c.size)
    ensures r.bowStyle == c.bowStyle
    ensures r.items == Overwrite(p.items, c.items)
    ensures p.items.Some? ==> r.totalPrice == Sum(p.items.value)
    ensures p.items.None? ==> r.totalPrice == Overwrite(p.totalPrice, c.totalPrice)
  {
    var merged := BoxConfiguration(
      if p.id.Some? then p.id else c.id,
      Overwrite(p.color, c.color),
      Overwrite(p.wrappingStyle, c.wrappingStyle),
      Overwrite(p.ribbonColor, c.ribbonColor),
      Overwrite(p.size, c.size),
      c.bowStyle,
      Overwrite(p.items, c.items),
      Overwrite(p.totalPrice, c.totalPrice),
      if p.userId.Some? then p.userId else c.userId);
    if p.items.Some? then merged.(totalPrice := Sum(p.items.value)) else merged
  }

  /**
   * From a consistent configuration, `setBoxConfig(p)` keeps the price
   * invariant exactly when it supplies `items`, or supplies no `totalPrice`
   * other than the stored one.
   */
  lemma PatchKeepsConsistentIff(c: BoxConfiguration, p: BoxConfigPatch)
    requires Consistent(c)
    ensures Consistent(ApplyPatch(c, p)) <==> p.items.Some? || Overwrite(p.totalPrice, c.totalPrice) == c.totalPrice
  {
  }

  /** A patch with only a size (the builder's size buttons) changes the size and nothing else, total included. */
  lemma SizePatchKeepsTotal(c: BoxConfiguration, s: BoxSize)
    ensures ApplyPatch(c, EmptyPatch.(size := Some(s))) == c.(size := s)
  {
  }

  /** `setBoxConfig({totalPrice})` without `items` breaks the invariant on the default box. */
  lemma TotalOnlyPatchBreaksInvariant()
    ensures !Consistent(ApplyPatch(InitialBoxConfig, EmptyPatch.(totalPrice := Some(5.0))))
  {
  }

  /** The store object: the fields `set` replaces. */
  class BoxStore {
    var boxConfig: BoxConfiguration
    var currentUser: Option<User>
    var availableItems: seq<GiftItem>
    var categories: seq<string>
    var selectedCategory: string
    var is3DPreview: bool
    var isLoading: bool

    /** The store's initial state. */
    constructor ()
      ensures boxConfig == InitialBoxConfig && Consistent(boxConfig)
      ensures currentUser == None && availableItems == [] && categories == StoreCategories
      ensures selectedCategory == "All" && !is3DPreview && !isLoading
    {
      boxConfig := InitialBoxConfig;
      currentUser := None;
      availableItems := [];
      categories := StoreCategories;
      selectedCategory := "All";
      is3DPreview := false;
      isLoading := false;
    }

    /** `setBoxConfig`: merge `p`; the total is recomputed only when `p.items` is given. */
    method SetBoxConfig(p: BoxConfigPatch)
      modifies this`boxConfig
      ensures boxConfig == ApplyPatch(old(boxConfig), p)
      ensures Consistent(old(boxConfig)) && (p.items.Some? || p.totalPrice.None?) ==> Consistent(boxConfig)
    {
      var newConfig := boxConfig.(
        id := if p.id.Some? then p.id else boxConfig.id,
        color := Overwrite(p.color, boxConfig.color),
        wrappingStyle := Overwrite(p.wrappingStyle, boxConfig.wrappingStyle),
        ribbonColor := Overwrite(p.ribbonColor, boxConfig.ribbonColor),
        size := Overwrite(p.size, boxConfig.size),
        items := Overwrite(p.items, boxConfig.items),
        totalPrice := Overwrite(p.totalPrice, boxConfig.totalPrice),
        userId := if p.userId.Some? then p.userId else boxConfig.userId);
      if p.items.Some? {
        newConfig := newConfig.(totalPrice := Sum(p.items.value));
      }
      boxConfig := newConfig;
    }

    /** `addItemToBox`: append (duplicates allowed, no capacity limit) and re-derive the total. */
    method AddItemToBox(item: GiftItem)
      modifies this`boxConfig
      ensures boxConfig == AddItem(old(boxConfig), item)
      ensures boxConfig.items == old(boxConfig.items) + [item] && Consistent(boxConfig)
    {
      var newItems := boxConfig.items + [item];
      var totalPrice := Sum(newItems);
      boxConfig := boxConfig.(items := newItems, totalPrice := totalPrice);
    }

    /** `removeItemFromBox`: drop every item with `itemId` and re-derive the total. */
    method RemoveItemFromBox(itemId: string)
      modifies this`boxConfig
      ensures boxConfig == RemoveItem(old(boxConfig), itemId)
      ensures boxConfig.items == WithoutId(old(boxConfig.items), itemId) && Consistent(boxConfig)
    {
      var newItems := WithoutId(boxConfig.items, itemId);
      var totalPrice := Sum(newItems);
      boxConfig := boxConfig.(items := newItems, totalPrice := totalPrice);
    }

    /** `clearBox`: back to the default configuration from any state. */
    method ClearBox()
      modifies this`boxConfig
      ensures boxConfig == InitialBoxConfig && Consistent(boxConfig)
    {
      boxConfig := InitialBoxConfig;
    }

    method SetSelectedCategory(category: string)
      modifies this`selectedCategory
      ensures selectedCategory == category
    {
      selectedCategory := category;
    }

    method Toggle3DPreview()
      modifies this`is3DPreview
      ensures is3DPreview == !old(is3DPreview)
    {
      is3DPreview := !is3DPreview;
    }

    method SetCurrentUser(user: Option<User>)
      modifies this`currentUser
      ensures currentUser == user
    {
      currentUser := user;
    }

    method SetAvailableItems(items: seq<GiftItem>)
      modifies this`availableItems
      ensures availableItems == items
    {
      availableItems := items;
    }

    method SetLoading(loading: bool)
      modifies this`isLoading
      ensures isLoading == loading
    {
      isLoading := loading;
    }
  }

  /** Two preview toggles give back the original flag and leave the box alone. */
  method ToggleTwice(store: BoxStore)
    modifies store
    ensures store.is3DPreview == old(store.is3DPreview) && store.boxConfig == old(store.boxConfig)
  {
    store.Toggle3DPreview();
    store.Toggle3DPreview();
  }

  /** Clearing twice is clearing once. */
  method ClearTwice(store: BoxStore)
    modifies store
    ensures store.boxConfig == InitialBoxConfig
  {
    store.ClearBox();
    store.ClearBox();
  }
}
