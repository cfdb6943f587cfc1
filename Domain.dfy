/**
 * The records the storefront exchanges with its backend actor and the
 * client-local page and checkout types. Every `bigint` is an unbounded `int`.
 */
module Domain {
  import opened Wrappers

  datatype Coupon = Coupon(
    discountValue: int,
    code: string,
    discountType: string,
    usedCount: int,
    isActive: bool,
    maxUses: int)

  datatype Package = Package(
    id: int,
    features: seq<string>,
    name: string,
    description: string,
    isActive: bool,
    price: int)

  datatype Order = Order(
    status: string,
    couponCode: Option<string>,
    paymentMethod: string,
    deliveryEmail: string,
    customerUsername: string,
    orderId: int,
    timestamp: int,
    itemName: string,
    paymentReference: string,
    price: int)

  datatype UserProfile = UserProfile(username: string, email: string)

  datatype Product = Product(
    id: int,
    name: string,
    isAvailable: bool,
    description: string,
    imageUrl: string,
    category: string,
    price: int)

  datatype PaymentSettings = PaymentSettings(
    bitcoinWallet: string,
    ethereumWallet: string,
    xboxInstructions: string,
    etsyInstructions: string,
    amazonInstructions: string,
    paypalEmail: string)

  /** One entry of a product's file listing (the bytes are fetched separately). */
  datatype ProductFileInfo = ProductFileInfo(fileName: string, fileType: string, fileId: int)

  /** The six pages of the single-page application. */
  datatype Page = Store | ProductDetail | Checkout | Auth | Dashboard | Admin

  /** What the checkout page sells: a product, or a package when `isPackage` is set. */
  datatype CheckoutItem = CheckoutItem(id: int, name: string, price: int, isPackage: Option<bool>)

  /** The six payment methods offered at checkout and for the membership. */
  datatype PaymentMethod = PayPal | Bitcoin | Ethereum | Xbox | Amazon | Etsy
  {
    /** The identifier sent to the backend as `paymentMethod`. */
    function Id(): string {
      match this
      case PayPal => "paypal"
      case Bitcoin => "bitcoin"
      case Ethereum => "ethereum"
      case Xbox => "xbox"
      case Amazon => "amazon"
      case Etsy => "etsy"
    }
  }
}
