/**
 * The box-builder page (src/app/build/page.tsx): which catalog items are
 * shown, when checkout is offered, the count and surcharge labels, and the
 * customisation buttons, which all go through the store's `setBoxConfig`.
 */
module BuildPage {
  import opened Wrappers
  import opened Types
  import opened Store
  import Seqs

  /** The page's built-in catalog. */
  const MockItems: seq<GiftItem> := [
    GiftItem("1", "Red Roses Bouquet", "Flowers", 519.47, "/api/placeholder/150/150",
             "Beautiful red roses with elegant wrapping", None),
    GiftItem("2", "Premium Chocolates", "Chocolates", 277.21, "/api/placeholder/150/150",
             "Artisan chocolate collection", None),
    GiftItem("3", "Handwritten Card", "Cards", 86.48, "/api/placeholder/150/150",
             "Customizable greeting card", None),
    GiftItem("4", "Plush Teddy Bear", "Toys", 433.08, "/api/placeholder/150/150",
             "Soft and cuddly teddy bear", None),
    GiftItem("5", "Bestselling Novel", "Books", 346.43, "/api/placeholder/150/150",
             "Popular fiction book", None),
    GiftItem("6", "Silver Necklace", "Jewelry", 1559.33, "/api/placeholder/150/150",
             "Elegant sterling silver necklace", None)
  ]

  /** The filter buttons: "All" followed by the store's categories. */
  const Categories: seq<string> := ["All", "Flowers", "Chocolates", "Cards", "Toys", "Books", "Jewelry"]

  /** The filter buttons are the store's category list behind "All". */
  lemma CategoriesExtendStore()
    ensures Categories == ["All"] + StoreCategories
  {
  }

  /** `filteredItems`: everything for "All", otherwise the items of that category in catalog order. */
  function FilteredItems(available: seq<GiftItem>, selected: string): (r: seq<GiftItem>)
    ensures selected == "All" ==> r == available
    ensures selected != "All" ==> forall i :: 0 <= i < |r| ==> r[i].category == selected
    ensures selected != "All" ==>
      forall i :: 0 <= i < |available| && available[i].category == selected ==> available[i] in r
    ensures Seqs.IsSubsequence(r, available)
  {
    if selected == "All" then
      Seqs.SubsequenceReflexive(available);
      available
    else
      Seqs.FilterIsSubsequence(available, (x: GiftItem) => x.category == selected);
      Seqs.Filter(available, (x: GiftItem) => x.category == selected)
  }

  /** Under a category other than "All", each item of that category is shown as often as the catalog lists it. */
  lemma FilteredCount(available: seq<GiftItem>, selected: string, x: GiftItem)
    requires selected != "All"
    ensures multiset(FilteredItems(available, selected))[x] ==
            if x.category == selected then multiset(available)[x] else 0
  {
    Seqs.FilterCount(available, (y: GiftItem) => y.category == selected, x);
  }

  /** "Proceed to Checkout" is disabled while the box is empty. */
  predicate CheckoutDisabled(items: seq<GiftItem>)
  {
    |items| == 0
  }

  /** Adding any item enables checkout; clearing the box disables it again. */
  lemma CheckoutFollowsItems(c: BoxConfiguration, x: GiftItem)
    ensures CheckoutDisabled(c.items) <==> c.items == []
    ensures !CheckoutDisabled(AddItem(c, x).items)
    ensures CheckoutDisabled(InitialBoxConfig.items)
  {
  }

  /** The noun after the item count: "item" for exactly one, "items" otherwise (zero included). */
  function ItemNoun(count: nat): (noun: string)
    ensures noun == "item" <==> count == 1
    ensures noun == "items" <==> count != 1
  {
    "item" + (if count != 1 then "s" else "")
  }

  /**
   * The surcharge caption under a size button: "Free" for a zero price, else
   * "+R" followed by `shown`, the runtime's rendering of the price.
   */
  function SurchargeCaption(price: real, shown: string): (caption: string)
    ensures caption == "Free" <==> price == 0.0
    ensures price != 0.0 ==> caption == "+R" + shown
  {
    if price == 0.0 then "Free"
    else
      assert ("+R" + shown)[0] != "Free"[0];
      "+R" + shown
  }

  /** One entry of an inline size-button table. */
  datatype SizeOption = SizeOption(key: string, name: string, dimensions: Option<string>, price: real)

  /** The mobile size buttons (no dimensions; the largest is captioned "XL"). */
  const MobileSizeOptions: seq<SizeOption> := [
    SizeOption("small", "Small", None, 0.0),
    SizeOption("medium", "Medium", None, 86.65),
    SizeOption("large", "Large", None, 173.3),
    SizeOption("extra-large", "XL", None, 259.95)
  ]

  /** The four full size-button tables, which the page repeats verbatim. */
  const SizeOptions: seq<SizeOption> := [
    SizeOption("small", "Small", Some("6\" x 4\" x 3\""), 0.0),
    SizeOption("medium", "Medium", Some("8\" x 6\" x 4\""), 86.65),
    SizeOption("large", "Large", Some("10\" x 8\" x 5\""), 173.3),
    SizeOption("extra-large", "Extra Large", Some("12\" x 10\" x 6\""), 259.95)
  ]

  /** The sizes from smallest to largest. */
  const AllSizes: seq<BoxSize> := [Small, Medium, Large, ExtraLarge]

  /**
   * The inline tables carry the same keys and prices as `BOX_SIZES`; the full
   * tables also repeat its labels and dimensions, the mobile one shortens the
   * last label to "XL".
   */
  lemma InlineTablesMatchBoxSizes(i: nat)
    requires i < 4
    ensures MobileSizeOptions[i].key == SizeKey(AllSizes[i]) == SizeOptions[i].key
    ensures MobileSizeOptions[i].price == BoxSizeInfo(AllSizes[i]).price == SizeOptions[i].price
    ensures SizeOptions[i].name == BoxSizeInfo(AllSizes[i]).name
    ensures SizeOptions[i].dimensions == Some(BoxSizeInfo(AllSizes[i]).dimensions)
    ensures MobileSizeOptions[i].name == BoxSizeInfo(AllSizes[i]).name <==> i < 3
  {
  }

  /**
   * The total the page shows after a size button: the stored item total,
   * which never includes the size surcharge shown on the button.
   */
  lemma ShownTotalExcludesSurcharge(c: BoxConfiguration, s: BoxSize)
    requires Consistent(c)
    ensures ApplyPatch(c, EmptyPatch.(size := Some(s))).totalPrice == Sum(c.items)
    ensures s != Small ==>
      ApplyPatch(c, EmptyPatch.(size := Some(s))).totalPrice != Sum(c.items) + BoxSizeInfo(s).price
  {
  }

  /** Mount effect: publish the built-in catalog to the store. */
  method LoadCatalog(store: BoxStore)
    modifies store`availableItems
    ensures store.availableItems == MockItems
  {
    store.SetAvailableItems(MockItems);
  }

  /** A size button: `setBoxConfig({size})`, so only the size changes. */
  method ChooseSize(store: BoxStore, s: BoxSize)
    modifies store`boxConfig
    ensures store.boxConfig == old(store.boxConfig).(size := s)
    ensures store.boxConfig.totalPrice == old(store.boxConfig.totalPrice)
  {
    store.SetBoxConfig(EmptyPatch.(size := Some(s)));
  }

  /** A box-colour swatch: `setBoxConfig({color})`. */
  method ChooseColor(store: BoxStore, color: string)
    modifies store`boxConfig
    ensures store.boxConfig == old(store.boxConfig).(color := color)
  {
    store.SetBoxConfig(EmptyPatch.(color := Some(color)));
  }

  /** A ribbon-colour swatch: `setBoxConfig({ribbonColor})`. */
  method ChooseRibbonColor(store: BoxStore, color: string)
    modifies store`boxConfig
    ensures store.boxConfig == old(store.boxConfig).(ribbonColor := color)
  {
    store.SetBoxConfig(EmptyPatch.(ribbonColor := Some(color)));
  }

  /** A session on the page: two items added, one removed, a size chosen, the box cleared. */
  method BuildSession()
  {
    var store := new BoxStore();
    LoadCatalog(store);
    store.AddItemToBox(MockItems[0]);
    store.AddItemToBox(MockItems[1]);
    assert |store.boxConfig.items| == 2 && store.boxConfig.totalPrice == 796.68;
    assert !CheckoutDisabled(store.boxConfig.items) && ItemNoun(2) == "items";

    store.RemoveItemFromBox("1");
    assert WithoutId([MockItems[0], MockItems[1]], "1") == [MockItems[1]];
    SumSingle(MockItems[1]);
    assert |store.boxConfig.items| == 1 && store.boxConfig.totalPrice == 277.21;

    ChooseSize(store, Large);
    assert store.boxConfig.size == Large && store.boxConfig.totalPrice == 277.21;

    store.ClearBox();
    assert store.boxConfig.items == [] && store.boxConfig.totalPrice == 0.0 && store.boxConfig.size == Medium;
    assert CheckoutDisabled(store.boxConfig.items);
  }
}
