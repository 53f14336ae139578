/**
 * The shared record types of the storefront and the `BOX_SIZES` surcharge
 * table (src/types/index.ts).
 */
module Types {
  import opened Wrappers

  /** Optional physical size of a catalog item. */
  datatype ItemDimensions = ItemDimensions(width: real, height: real, depth: real)

  /** A catalog entry. Prices are exact reals; nothing checks they are non-negative. */
  datatype GiftItem = GiftItem(
    id: string,
    name: string,
    category: string,
    price: real,
    imageUrl: string,
    description: string,
    dimensions: Option<ItemDimensions>)

  /** The four box sizes the `size` field may hold. */
  datatype BoxSize = Small | Medium | Large | ExtraLarge

  /** The string key the source stores for each size. */
  function SizeKey(s: BoxSize): string {
    match s
    case Small => "small"
    case Medium => "medium"
    case Large => "large"
    case ExtraLarge => "extra-large"
  }

  /** Reads a size key back; any other string is not a size. */
  function ParseSize(key: string): (r: Option<BoxSize>)
    ensures r.Some? ==> SizeKey(r.value) == key
  {
    if key == "small" then Some(Small)
    else if key == "medium" then Some(Medium)
    else if key == "large" then Some(Large)
    else if key == "extra-large" then Some(ExtraLarge)
    else None
  }

  /** Exactly four keys are sizes, and each names a different size. */
  lemma SizeKeysRoundTrip(s: BoxSize, key: string)
    ensures ParseSize(SizeKey(s)) == Some(s)
    ensures ParseSize(key).Some? <==> key in {"small", "medium", "large", "extra-large"}
  {
  }

  /** Position of a size from smallest to largest. */
  function Rank(s: BoxSize): nat {
    match s
    case Small => 0
    case Medium => 1
    case Large => 2
    case ExtraLarge => 3
  }

  /** One row of `BOX_SIZES` (`name` is the source's `label`). */
  datatype SizeInfo = SizeInfo(name: string, dimensions: string, price: real)

  /** `BOX_SIZES[size]`: label, printed dimensions and surcharge of each size. */
  function BoxSizeInfo(s: BoxSize): (info: SizeInfo)
    ensures info.price == 0.0 <==> s == Small
    ensures info.price >= 0.0
  {
    match s
    case Small => SizeInfo("Small", "6\" x 4\" x 3\"", 0.0)
    case Medium => SizeInfo("Medium", "8\" x 6\" x 4\"", 86.65)
    case Large => SizeInfo("Large", "10\" x 8\" x 5\"", 173.3)
    case ExtraLarge => SizeInfo("Extra Large", "12\" x 10\" x 6\"", 259.95)
  }

  /** Surcharges strictly increase with the size. */
  lemma SurchargeIncreases(a: BoxSize, b: BoxSize)
    requires Rank(a) < Rank(b)
    ensures BoxSizeInfo(a).price < BoxSizeInfo(b).price
  {
  }

  /**
   * The box being assembled. `bowStyle` is stored as a string: the store's
   * initial value carries it and nothing validates it. There is no surcharge
   * field; `totalPrice` is the only price the record carries.
   */
  datatype BoxConfiguration = BoxConfiguration(
    id: Option<string>,
    color: string,
    wrappingStyle: string,
    ribbonColor: string,
    size: BoxSize,
    bowStyle: string,
    items: seq<GiftItem>,
    totalPrice: real,
    userId: Option<string>)

  datatype User = User(id: string, email: string, name: Option<string>, isAdmin: Option<bool>)

  datatype OrderStatus = Pending | Processing | Shipped | Delivered

  /** The status strings an order may carry; each status has its own. */
  function StatusKey(s: OrderStatus): (key: string)
    ensures key in {"pending", "processing", "shipped", "delivered"}
  {
    match s
    case Pending => "pending"
    case Processing => "processing"
    case Shipped => "shipped"
    case Delivered => "delivered"
  }

  /** No two statuses share a string. */
  lemma StatusKeysDistinct(a: OrderStatus, b: OrderStatus)
    ensures StatusKey(a) == StatusKey(b) ==> a == b
  {
  }

  datatype DeliveryInfo = DeliveryInfo(
    firstName: string,
    lastName: string,
    email: string,
    phone: string,
    address: string,
    city: string,
    postalCode: string,
    country: string,
    specialInstructions: Option<string>)

  /** `createdAt` is a timestamp supplied by the caller (milliseconds). */
  datatype Order = Order(
    id: string,
    userId: string,
    boxConfiguration: BoxConfiguration,
    deliveryInfo: DeliveryInfo,
    status: OrderStatus,
    totalPrice: real,
    createdAt: int)

  datatype Category = Category(id: string, name: string, description: string, imageUrl: string)
}
