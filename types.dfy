/** The records and string enumerations of the marketplace admin demo
    (src/types/index.ts). Timestamps are milliseconds since the epoch;
    fields typed with `?` in the source are `Option`s. */
module Types {
  import opened Wrappers

  datatype UserType = Seller | Buyer | Admin

  datatype UserStatus = Pending | Approved | Active | Suspended

  datatype BadgeLevel = Pro | Elite | Expert

  /** A platform user. `dateJoined` is only set on users created by the
      simulator, which adds that field beyond the declared interface. */
  datatype User = User(
    id: string,
    name: string,
    email: string,
    userType: UserType,
    status: UserStatus,
    badgeLevel: Option<BadgeLevel>,
    dateJoined: Option<int>)

  datatype ProductStatus = Pending | Live | Sold | Inactive

  datatype Product = Product(
    id: string,
    name: string,
    sellerId: string,
    status: ProductStatus,
    price: real,
    createdAt: int,
    updatedAt: int)

  /** `OnHold` ('on hold') is only produced by the simulator, outside the
      declared status union. */
  datatype OrderStatus = Pending | Confirmed | Shipped | Delivered | Cancelled | OnHold

  /** An order. Seed orders carry `productId` and `createdAt`; orders made
      by the simulator carry `item`, `orderNumber`, `date`, `currency` and
      `payoutStatus` instead, so those fields are optional here. */
  datatype Order = Order(
    id: string,
    productId: Option<string>,
    buyerId: string,
    sellerId: string,
    status: OrderStatus,
    amount: real,
    createdAt: Option<int>,
    item: Option<string>,
    orderNumber: Option<string>,
    date: Option<int>,
    currency: Option<string>,
    payoutStatus: Option<string>)

  datatype ReturnStatus = Pending | Approved | Rejected | Completed

  datatype ReturnRequest = ReturnRequest(
    id: string,
    orderId: string,
    reason: string,
    status: ReturnStatus,
    createdAt: int)

  datatype NotificationType = Info | Success | Warning | Error

  /** `Record<string, unknown>` metadata; an entry whose value is `undefined`
      is kept as a key mapped to `None`. */
  type Metadata = map<string, Option<string>>

  datatype Notification = Notification(
    id: string,
    ntype: NotificationType,
    title: string,
    message: string,
    userId: Option<string>,
    isRead: bool,
    createdAt: int,
    metadata: Option<Metadata>)

  /** An unread notice with metadata, the shape every handler creates. */
  function Note(ntype: NotificationType, title: string, message: string, userId: Option<string>,
                metadata: Metadata): NewNotification {
    NewNotification(ntype, title, message, userId, false, Some(metadata))
  }

  /** `Omit<Notification, 'id' | 'createdAt'>`: what callers hand to the
      creation primitives. */
  datatype NewNotification = NewNotification(
    ntype: NotificationType,
    title: string,
    message: string,
    userId: Option<string>,
    isRead: bool,
    metadata: Option<Metadata>)

  datatype EmailTemplate = EmailTemplate(
    id: string,
    name: string,
    subject: string,
    htmlContent: string,
    variables: seq<string>)

  /** The closed vocabulary of domain events. */
  datatype NotificationEvent =
    | NewListingCreated
    | SellerAccountApproved
    | ProductMarkedLive
    | OrderPlaced
    | ReturnRequestInitiated
    | OrderConfirmed
    | ReturnAccepted
    | StatusUpdated

  /** An event with its untyped payload: a key that is absent from `data`
      stands for an `undefined` field. Numbers in the payload are carried as
      their decimal text. */
  datatype EventData = EventData(
    event: NotificationEvent,
    userId: Option<string>,
    data: map<string, string>)

  /** The string literal each enumeration value stands for. */
  function UserTypeName(t: UserType): string {
    match t
    case Seller => "seller"
    case Buyer => "buyer"
    case Admin => "admin"
  }

  function UserStatusName(s: UserStatus): string {
    match s
    case Pending => "pending"
    case Approved => "approved"
    case Active => "active"
    case Suspended => "suspended"
  }

  function BadgeName(b: BadgeLevel): string {
    match b
    case Pro => "Pro"
    case Elite => "Elite"
    case Expert => "Expert"
  }

  function ProductStatusName(s: ProductStatus): string {
    match s
    case Pending => "pending"
    case Live => "live"
    case Sold => "sold"
    case Inactive => "inactive"
  }

  function NotificationTypeName(t: NotificationType): string {
    match t
    case Info => "info"
    case Success => "success"
    case Warning => "warning"
    case Error => "error"
  }

  function EventName(e: NotificationEvent): string {
    match e
    case NewListingCreated => "new_listing_created"
    case SellerAccountApproved => "seller_account_approved"
    case ProductMarkedLive => "product_marked_live"
    case OrderPlaced => "order_placed"
    case ReturnRequestInitiated => "return_request_initiated"
    case OrderConfirmed => "order_confirmed"
    case ReturnAccepted => "return_accepted"
    case StatusUpdated => "status_updated"
  }

  /** Template-literal rendering of an optional string: `undefined` prints
      as the word "undefined". */
  function Show(v: Option<string>): string {
    v.GetOr("undefined")
  }
}
