/** The event layer (src/lib/notificationService.ts): the subscriber list
    with subscribe / unsubscribe / emit, and the dispatcher that routes each
    of the eight domain events to its handler. A handler looks records up in
    the store, may attempt one email, and then creates zero, one or two
    notifications through `addNotification`. No handler emits to the
    subscribers. */
module NotificationService {
  import opened Wrappers
  import opened Strings
  import opened Types
  import opened MockData
  import opened EmailService

  // ---------------------------------------------------------------------
  // Subscribers

  /** A subscriber callback, compared by identity. */
  type Callback = nat

  /** `indexOf` followed by `splice(index, 1)` when the index is not -1. */
  function RemoveFirst(s: seq<Callback>, c: Callback): (r: seq<Callback>)
    ensures c !in s ==> r == s
    ensures c in s ==> |r| == |s| - 1
  {
    if s == [] then []
    else if s[0] == c then s[1..]
    else [s[0]] + RemoveFirst(s[1..], c)
  }

  /** Exactly one copy of the callback goes, when there is one. */
  lemma {:induction false} RemoveFirstMultiset(s: seq<Callback>, c: Callback)
    ensures multiset(RemoveFirst(s, c)) == multiset(s) - multiset{c}
  {
    if s != [] {
      assert s == [s[0]] + s[1..];
      RemoveFirstMultiset(s[1..], c);
    }
  }

  /** Only the first occurrence goes; everything around it stays in order. */
  lemma {:induction false} RemoveFirstSplit(a: seq<Callback>, c: Callback, b: seq<Callback>)
    requires c !in a
    ensures RemoveFirst(a + [c] + b, c) == a + b
  {
    var s := a + [c] + b;
    if a != [] {
      assert s[0] == a[0] && a[0] != c;
      assert s[1..] == a[1..] + [c] + b;
      RemoveFirstSplit(a[1..], c, b);
      assert RemoveFirst(s, c) == [a[0]] + (a[1..] + b);
      assert [a[0]] + (a[1..] + b) == a + b;
    } else {
      assert s == [c] + b;
      assert s[1..] == b;
    }
  }

  /** Unsubscribing right after a first subscription restores the list. */
  lemma SubscribeThenUnsubscribe(s: seq<Callback>, c: Callback)
    requires c !in s
    ensures RemoveFirst(s + [c], c) == s
  {
    RemoveFirstSplit(s, c, []);
    assert s + [c] + [] == s + [c];
  }

  /** A repeated unsubscribe of a callback registered once is a no-op. */
  lemma UnsubscribeTwice(s: seq<Callback>, c: Callback)
    requires multiset(s)[c] <= 1
    ensures RemoveFirst(RemoveFirst(s, c), c) == RemoveFirst(s, c)
  {
    RemoveFirstMultiset(s, c);
    assert c !in multiset(RemoveFirst(s, c));
  }

  // ---------------------------------------------------------------------
  // Creating the notices of one handler

  /** The two creation stamps one handler may use, in call order. */
  datatype Stamps = Stamps(first: Stamp, second: Stamp)

  function StampAt(t: Stamps, k: nat): Stamp {
    if k == 0 then t.first else t.second
  }

  /** A field of the untyped event payload; absent means `undefined`. */
  function Get(data: map<string, string>, key: string): (v: Option<string>)
    ensures v.Some? <==> key in data
    ensures v.Some? ==> v.value == data[key]
  {
    if key in data then Some(data[key]) else None
  }

  /** `addNotification` for each notice, in order. */
  function Notify(st: StoreState, notices: seq<NewNotification>, t: Stamps): StoreState
    requires |notices| <= 2
  {
    if |notices| == 0 then st
    else if |notices| == 1 then AddNotificationTo(st, notices[0], t.first).state
    else AddNotificationTo(AddNotificationTo(st, notices[0], t.first).state, notices[1], t.second).state
  }

  /** `k` records were put in front of the notifications and the counter
      advanced by `k`; nothing else in the store changed. */
  predicate Prepended(st: StoreState, st2: StoreState, k: nat) {
    && |st2.notifications| == |st.notifications| + k
    && st2.notifications[k..] == st.notifications
    && st2 == st.(notifications := st2.notifications, counter := st.counter + k)
  }

  /** The created records sit in front, the last one created first, each
      with the caller's fields, the id for its counter value and its own
      stamp; id uniqueness is kept. */
  lemma NotifyEffect(st: StoreState, notices: seq<NewNotification>, t: Stamps)
    requires |notices| <= 2
    ensures var st2 := Notify(st, notices, t);
      && Prepended(st, st2, |notices|)
      && (forall k :: 0 <= k < |notices| ==>
            st2.notifications[|notices| - 1 - k] ==
              NewRecord(notices[k], MakeId(StampAt(t, k).now, st.counter + k, StampAt(t, k).suffix),
                        StampAt(t, k).createdAt))
      && (Valid(st) ==> Valid(st2))
  {
    if |notices| == 1 {
      AddNotificationEffect(st, notices[0], t.first);
      if Valid(st) { AddNotificationValid(st, notices[0], t.first); }
    } else if |notices| == 2 {
      var a := AddNotificationTo(st, notices[0], t.first);
      AddNotificationEffect(st, notices[0], t.first);
      AddNotificationEffect(a.state, notices[1], t.second);
      var st2 := Notify(st, notices, t);
      assert st2.notifications[1..] == a.state.notifications;
      assert st2.notifications[2..] == a.state.notifications[1..];
      if Valid(st) {
        AddNotificationValid(st, notices[0], t.first);
        AddNotificationValid(a.state, notices[1], t.second);
      }
    }
  }

  // ---------------------------------------------------------------------
  // The handlers, on values

  /** `handleNewListingCreated`. */
  function NewListingNotices(st: StoreState, data: map<string, string>): (r: seq<NewNotification>)
    ensures |r| <= 2
  {
    var productId, sellerId := Get(data, "productId"), Get(data, "sellerId");
    match (FindProduct(st.products, productId), FindUser(st.users, sellerId))
    case (Some(product), Some(seller)) =>
      var meta := map["productId" := productId, "sellerId" := sellerId];
      [ Note(Info, "New Listing Created", seller.name + " created a new listing: " + product.name, sellerId, meta),
        Note(Info, "New Listing Pending Review", product.name + " by " + seller.name + " is pending review", None, meta) ]
    case _ => []
  }

  /** `handleSellerAccountApproved`: the notice, after the email attempt. */
  function SellerApprovedNotices(data: map<string, string>): (r: seq<NewNotification>)
    ensures |r| <= 2
  {
    var userId, userType := Get(data, "userId"), Get(data, "userType");
    [ Note(Success, "Account Approved!",
           Show(Get(data, "userName")) + " (" + Show(userType) + ") account has been approved and is now active",
           userId, map["userId" := userId, "userType" := userType]) ]
  }

  /** `handleProductMarkedLive`. */
  function ProductLiveNotices(st: StoreState, data: map<string, string>): (r: seq<NewNotification>)
    ensures |r| <= 2
  {
    var productId, sellerId := Get(data, "productId"), Get(data, "sellerId");
    match FindProduct(st.products, productId)
    case Some(product) =>
      [ Note(Success, "Product is Live!",
             "The product \"" + product.name + "\" is now live and visible to buyers",
             sellerId, map["productId" := productId, "sellerId" := sellerId]) ]
    case None => []
  }

  /** `handleOrderPlaced`. */
  function OrderPlacedNotices(st: StoreState, data: map<string, string>): (r: seq<NewNotification>)
    ensures |r| <= 2
  {
    var orderId, productId := Get(data, "orderId"), Get(data, "productId");
    var buyerId, sellerId := Get(data, "buyerId"), Get(data, "sellerId");
    match (FindProduct(st.products, productId), FindUser(st.users, buyerId))
    case (Some(product), Some(buyer)) =>
      var meta := map["orderId" := orderId, "productId" := Some(product.id)];
      [ Note(Success, "New Order Received", buyer.name + " placed an order for " + product.name, sellerId, meta),
        Note(Info, "Order Placed", "The order for " + product.name + " has been placed successfully", buyerId, meta) ]
    case _ => []
  }

  /** `handleReturnRequestInitiated`; the product is looked up by the
      order's own id, as the source does. */
  function ReturnInitiatedNotices(st: StoreState, data: map<string, string>): (r: seq<NewNotification>)
    ensures |r| <= 2
  {
    var returnId, orderId, buyerId := Get(data, "returnId"), Get(data, "orderId"), Get(data, "buyerId");
    match FindOrder(st.orders, orderId)
    case None => []
    case Some(order) =>
      match FindProduct(st.products, Some(order.id))
      case None => []
      case Some(product) =>
        var meta := map["returnId" := returnId, "orderId" := orderId];
        [ Note(Warning, "Return Request", "A return request has been initiated for " + product.name,
               Some(order.sellerId), meta),
          Note(Info, "Return Request Submitted", "The return request for " + product.name + " has been submitted",
               buyerId, meta) ]
  }

  /** `handleOrderConfirmed`: the notice, after the email attempt. */
  function OrderConfirmedNotices(st: StoreState, data: map<string, string>): (r: seq<NewNotification>)
    ensures |r| <= 2
  {
    var orderId, productName := Get(data, "orderId"), Get(data, "productName");
    match FindOrder(st.orders, orderId)
    case Some(order) =>
      [ Note(Success, "Order Confirmed", "Order confirmation email sent for " + Show(productName),
             Some(order.buyerId), map["orderId" := orderId, "productName" := productName]) ]
    case None => []
  }

  /** `handleReturnAccepted`: the notice, after the email attempt. */
  function ReturnAcceptedNotices(st: StoreState, data: map<string, string>): (r: seq<NewNotification>)
    ensures |r| <= 2
  {
    var returnId, orderId, productName := Get(data, "returnId"), Get(data, "orderId"), Get(data, "productName");
    match FindOrder(st.orders, orderId)
    case Some(order) =>
      [ Note(Success, "Return Approved",
             "Return request approved for " + Show(productName) + " - email sent to " + Show(Get(data, "buyerName")),
             Some(order.buyerId), map["returnId" := returnId, "orderId" := orderId, "productName" := productName]) ]
    case None => []
  }

  /** `handleStatusUpdated`. */
  function StatusUpdatedNotices(data: map<string, string>): (r: seq<NewNotification>)
    ensures |r| <= 2
  {
    var eventType := Get(data, "eventType");
    if eventType == Some("user_registered") then
      var userType := Get(data, "userType");
      [ Note(Info, "New User Registration",
             Show(Get(data, "userName")) + " registered as " + Show(userType) + " - email: " + Show(Get(data, "userEmail")),
             Some("admin"), map["userId" := Get(data, "userId"), "userType" := userType, "eventType" := eventType]) ]
    else
      var ty, id := Get(data, "type"), Get(data, "id");
      var oldStatus, newStatus := Get(data, "oldStatus"), Get(data, "newStatus");
      [ Note(Info, "Status Updated",
             Show(ty) + " status changed from " + Show(oldStatus) + " to " + Show(newStatus),
             Get(data, "userId"), map["type" := ty, "id" := id, "oldStatus" := oldStatus, "newStatus" := newStatus]) ]
  }

  /** The notices the dispatcher creates for an event. */
  function NoticesFor(st: StoreState, e: EventData): (r: seq<NewNotification>)
    ensures |r| <= 2
  {
    var data := e.data;
    match e.event
    case NewListingCreated => NewListingNotices(st, data)
    case SellerAccountApproved => SellerApprovedNotices(data)
    case ProductMarkedLive => ProductLiveNotices(st, data)
    case OrderPlaced => OrderPlacedNotices(st, data)
    case ReturnRequestInitiated => ReturnInitiatedNotices(st, data)
    case OrderConfirmed => OrderConfirmedNotices(st, data)
    case ReturnAccepted => ReturnAcceptedNotices(st, data)
    case StatusUpdated => StatusUpdatedNotices(data)
  }

  /** The email the dispatcher attempts for an event, with its outcome;
      a thrown error is caught by the handler. */
  function EmailFor(st: StoreState, e: EventData, d: Delivery): Option<SendResult> {
    var data := e.data;
    match e.event
    case SellerAccountApproved => Some(SendSellerApprovalEmail(st, Get(data, "userId"), d))
    case OrderConfirmed =>
      Some(SendOrderConfirmationEmail(st, Get(data, "orderId"), Get(data, "buyerEmail"), Get(data, "productName"),
                                      Get(data, "sellerName"), Get(data, "amount"), d))
    case ReturnAccepted =>
      Some(SendReturnAcceptedEmail(st, Get(data, "buyerEmail"), Get(data, "productName"), Get(data, "returnId"), d))
    case _ => None
  }

  /** `processNotificationEvent`, on values: the store after the event. */
  function Process(st: StoreState, e: EventData, t: Stamps): StoreState {
    Notify(st, NoticesFor(st, e), t)
  }

  // ---------------------------------------------------------------------
  // What each handler does

  /** Processing an event only puts up to two new records in front of the
      notifications and keeps id uniqueness; the other tables are as they
      were. */
  lemma ProcessEffect(st: StoreState, e: EventData, t: Stamps)
    ensures var n := |NoticesFor(st, e)|;
      && n <= 2
      && Prepended(st, Process(st, e, t), n)
      && (Valid(st) ==> Valid(Process(st, e, t)))
  {
    NotifyEffect(st, NoticesFor(st, e), t);
  }

  /** `new_listing_created` and `order_placed`: two notices when both
      lookups succeed, none otherwise. */
  lemma ListingAndOrderCounts(st: StoreState, data: map<string, string>)
    ensures var ns := NewListingNotices(st, data);
      && (|ns| == 2 <==> FindProduct(st.products, Get(data, "productId")).Some?
                           && FindUser(st.users, Get(data, "sellerId")).Some?)
      && (|ns| != 2 ==> ns == [])
      && (|ns| == 2 ==> ns[0].userId == Get(data, "sellerId") && ns[1].userId == None)
    ensures var ns := OrderPlacedNotices(st, data);
      && (|ns| == 2 <==> FindProduct(st.products, Get(data, "productId")).Some?
                           && FindUser(st.users, Get(data, "buyerId")).Some?)
      && (|ns| != 2 ==> ns == [])
      && (|ns| == 2 ==> ns[0].userId == Get(data, "sellerId") && ns[0].ntype == Success
                        && ns[1].userId == Get(data, "buyerId") && ns[1].ntype == Info)
  {
  }

  /** `product_marked_live`: one notice to `sellerId` exactly when the
      product exists. */
  lemma ProductLiveCount(st: StoreState, data: map<string, string>)
    ensures var ns := ProductLiveNotices(st, data);
      && (|ns| == 1 <==> FindProduct(st.products, Get(data, "productId")).Some?)
      && (|ns| != 1 ==> ns == [])
      && (|ns| == 1 ==> ns[0].userId == Get(data, "sellerId") && ns[0].ntype == Success)
  {
  }

  /** `return_request_initiated`: two notices exactly when the order exists
      and some product has the order's id; the first goes to the order's
      seller. */
  lemma ReturnInitiatedCount(st: StoreState, data: map<string, string>)
    ensures var ns := ReturnInitiatedNotices(st, data);
      var order := FindOrder(st.orders, Get(data, "orderId"));
      && (|ns| == 2 <==> order.Some? && FindProduct(st.products, Some(order.value.id)).Some?)
      && (|ns| != 2 ==> ns == [])
      && (|ns| == 2 ==> ns[0].userId == Some(order.value.sellerId) && ns[0].ntype == Warning
                        && ns[1].userId == Get(data, "buyerId"))
  {
  }

  /** When no product id equals an order id, a return request never
      produces a notice. */
  lemma ReturnInitiatedSilentWhenDisjoint(st: StoreState, data: map<string, string>)
    requires forall i, j :: 0 <= i < |st.orders| && 0 <= j < |st.products| ==>
               st.products[j].id != st.orders[i].id
    ensures ReturnInitiatedNotices(st, data) == []
  {
    match OrderIndex(st.orders, Get(data, "orderId"))
    case None =>
    case Some(i) =>
      FindProductAbsent(st.products, Some(st.orders[i].id));
  }

  /** The seed store is such a store, so there a return request never
      produces a notice. */
  lemma ReturnInitiatedSilentOnSeed(data: map<string, string>)
    ensures ReturnInitiatedNotices(Seed(), data) == []
  {
    var st := Seed();
    assert st.orders == SeedOrders() && st.products == SeedProducts();
    assert forall i :: 0 <= i < |st.orders| ==> st.orders[i].id in {"order-1", "order-2"};
    assert forall j :: 0 <= j < |st.products| ==> st.products[j].id in {"prod-1", "prod-2", "prod-3"};
    ReturnInitiatedSilentWhenDisjoint(st, data);
  }

  /** `seller_account_approved`: always one success notice to `userId`,
      whatever the email attempt gives; the attempt is for `userId`. */
  lemma SellerApprovedAlways(st: StoreState, data: map<string, string>, d: Delivery)
    ensures var ns := SellerApprovedNotices(data);
      && |ns| == 1 && ns[0].ntype == Success && ns[0].userId == Get(data, "userId")
    ensures EmailFor(st, EventData(SellerAccountApproved, None, data), d) ==
            Some(SendSellerApprovalEmail(st, Get(data, "userId"), d))
  {
  }

  /** The status page sends `{ sellerId }`, but the handler reads `userId`:
      the notice is addressed to nobody, names an "undefined" user, and the
      approval email returns false without being sent. */
  lemma SellerApprovedWithSellerIdOnly(st: StoreState, sellerId: string, d: Delivery)
    ensures var data := map["sellerId" := sellerId];
      && SellerApprovedNotices(data)[0].userId == None
      && SellerApprovedNotices(data)[0].message ==
           "undefined" + " (" + "undefined" + ") account has been approved and is now active"
      && EmailFor(st, EventData(SellerAccountApproved, None, data), d) == Some(Returned(false, None))
  {
    var data := map["sellerId" := sellerId];
    assert Get(data, "userId") == None && Get(data, "userName") == None && Get(data, "userType") == None;
    assert Show(None) == "undefined";
    assert FindUser(st.users, None) == None;
  }

  /** `order_confirmed` and `return_accepted` always attempt their email;
      one notice to the order's buyer follows exactly when the order
      exists. */
  lemma ConfirmationsAndReturns(st: StoreState, data: map<string, string>, d: Delivery)
    ensures var ns := OrderConfirmedNotices(st, data);
      var order := FindOrder(st.orders, Get(data, "orderId"));
      && (|ns| == 1 <==> order.Some?)
      && (|ns| != 1 ==> ns == [])
      && (|ns| == 1 ==> ns[0].userId == Some(order.value.buyerId) && ns[0].ntype == Success)
    ensures var ns := ReturnAcceptedNotices(st, data);
      var order := FindOrder(st.orders, Get(data, "orderId"));
      && (|ns| == 1 <==> order.Some?)
      && (|ns| != 1 ==> ns == [])
      && (|ns| == 1 ==> ns[0].userId == Some(order.value.buyerId) && ns[0].ntype == Success)
    ensures EmailFor(st, EventData(OrderConfirmed, None, data), d).Some?
    ensures EmailFor(st, EventData(ReturnAccepted, None, data), d).Some?
  {
  }

  /** `status_updated`: exactly one info notice, to 'admin' for a
      registration and otherwise to `userId`, describing the change. */
  lemma StatusUpdatedOne(data: map<string, string>)
    ensures var ns := StatusUpdatedNotices(data);
      && |ns| == 1 && ns[0].ntype == Info
      && (Get(data, "eventType") == Some("user_registered") ==> ns[0].userId == Some("admin"))
      && (Get(data, "eventType") != Some("user_registered") ==>
            && ns[0].userId == Get(data, "userId")
            && ns[0].message == Show(Get(data, "type")) + " status changed from " +
                                Show(Get(data, "oldStatus")) + " to " + Show(Get(data, "newStatus")))
  {
  }

  /** Only three events attempt an email. */
  lemma EmailOnlyForThree(st: StoreState, e: EventData, d: Delivery)
    ensures EmailFor(st, e, d).Some? <==>
            e.event in {SellerAccountApproved, OrderConfirmed, ReturnAccepted}
  {
  }

  // ---------------------------------------------------------------------
  // The handlers, on the store

  /** Calls `addNotification` for each notice, in order. */
  method AddNotices(store: Store, notices: seq<NewNotification>, t: Stamps)
    requires |notices| <= 2
    modifies store
    ensures store.State() == Notify(old(store.State()), notices, t)
  {
    if |notices| >= 1 {
      var _ := store.AddNotification(notices[0], t.first);
    }
    if |notices| == 2 {
      var _ := store.AddNotification(notices[1], t.second);
    }
  }

  method HandleNewListingCreated(store: Store, data: map<string, string>, t: Stamps)
    modifies store
    ensures store.State() == Notify(old(store.State()), NewListingNotices(old(store.State()), data), t)
  {
    var productId, sellerId := Get(data, "productId"), Get(data, "sellerId");
    var product, seller := FindProduct(store.products, productId), FindUser(store.users, sellerId);
    if product.Some? && seller.Some? {
      var meta := map["productId" := productId, "sellerId" := sellerId];
      var _ := store.AddNotification(
        Note(Info, "New Listing Created", seller.value.name + " created a new listing: " + product.value.name,
             sellerId, meta), t.first);
      var _ := store.AddNotification(
        Note(Info, "New Listing Pending Review", product.value.name + " by " + seller.value.name + " is pending review",
             None, meta), t.second);
    }
  }

  method HandleSellerAccountApproved(store: Store, data: map<string, string>, t: Stamps, d: Delivery)
    returns (email: SendResult)
    modifies store
    ensures email == SendSellerApprovalEmail(old(store.State()), Get(data, "userId"), d)
    ensures store.State() == Notify(old(store.State()), SellerApprovedNotices(data), t)
  {
    email := SendSellerApprovalEmail(store.State(), Get(data, "userId"), d);
    AddNotices(store, SellerApprovedNotices(data), t);
  }

  method HandleProductMarkedLive(store: Store, data: map<string, string>, t: Stamps)
    modifies store
    ensures store.State() == Notify(old(store.State()), ProductLiveNotices(old(store.State()), data), t)
  {
    AddNotices(store, ProductLiveNotices(store.State(), data), t);
  }

  method HandleOrderPlaced(store: Store, data: map<string, string>, t: Stamps)
    modifies store
    ensures store.State() == Notify(old(store.State()), OrderPlacedNotices(old(store.State()), data), t)
  {
    AddNotices(store, OrderPlacedNotices(store.State(), data), t);
  }

  method HandleReturnRequestInitiated(store: Store, data: map<string, string>, t: Stamps)
    modifies store
    ensures store.State() == Notify(old(store.State()), ReturnInitiatedNotices(old(store.State()), data), t)
  {
    AddNotices(store, ReturnInitiatedNotices(store.State(), data), t);
  }

  method HandleOrderConfirmed(store: Store, data: map<string, string>, t: Stamps, d: Delivery)
    returns (email: SendResult)
    modifies store
    ensures Some(email) == EmailFor(old(store.State()), EventData(OrderConfirmed, None, data), d)
    ensures store.State() == Notify(old(store.State()), OrderConfirmedNotices(old(store.State()), data), t)
  {
    email := SendOrderConfirmationEmail(store.State(), Get(data, "orderId"), Get(data, "buyerEmail"),
                                        Get(data, "productName"), Get(data, "sellerName"), Get(data, "amount"), d);
    AddNotices(store, OrderConfirmedNotices(store.State(), data), t);
  }

  method HandleReturnAccepted(store: Store, data: map<string, string>, t: Stamps, d: Delivery)
    returns (email: SendResult)
    modifies store
    ensures Some(email) == EmailFor(old(store.State()), EventData(ReturnAccepted, None, data), d)
    ensures store.State() == Notify(old(store.State()), ReturnAcceptedNotices(old(store.State()), data), t)
  {
    email := SendReturnAcceptedEmail(store.State(), Get(data, "buyerEmail"), Get(data, "productName"),
                                     Get(data, "returnId"), d);
    AddNotices(store, ReturnAcceptedNotices(store.State(), data), t);
  }

  method HandleStatusUpdated(store: Store, data: map<string, string>, t: Stamps)
    modifies store
    ensures store.State() == Notify(old(store.State()), StatusUpdatedNotices(data), t)
  {
    AddNotices(store, StatusUpdatedNotices(data), t);
  }

  // ---------------------------------------------------------------------
  // The module's mutable state

  /** The module-level `subscribers` array with the functions over it. */
  class NotificationHub {
    var subscribers: seq<Callback>

    constructor ()
      ensures subscribers == []
    {
      subscribers := [];
    }

    /** `subscribeToNotifications`: `push` at the end. */
    method Subscribe(c: Callback)
      modifies this
      ensures subscribers == old(subscribers) + [c]
    {
      subscribers := subscribers + [c];
    }

    /** The function `subscribeToNotifications` returns. */
    method Unsubscribe(c: Callback)
      modifies this
      ensures subscribers == RemoveFirst(old(subscribers), c)
    {
      subscribers := RemoveFirst(subscribers, c);
    }

    /** `emitNotification`: each current subscriber is called once with the
        notification, in subscription order. */
    method Emit(n: Notification) returns (calls: seq<(Callback, Notification)>)
      ensures |calls| == |subscribers|
      ensures forall i :: 0 <= i < |calls| ==> calls[i] == (subscribers[i], n)
    {
      calls := [];
      var i := 0;
      while i < |subscribers|
        invariant 0 <= i <= |subscribers|
        invariant |calls| == i
        invariant forall k :: 0 <= k < i ==> calls[k] == (subscribers[k], n)
      {
        calls := calls + [(subscribers[i], n)];
        i := i + 1;
      }
    }

    /** `processNotificationEvent`: runs the handler of the event, which
        changes the store only; the subscriber list is left alone and no
        subscriber is called. */
    method ProcessNotificationEvent(store: Store, e: EventData, t: Stamps, d: Delivery)
      returns (email: Option<SendResult>)
      modifies store
      ensures store.State() == Process(old(store.State()), e, t)
      ensures email == EmailFor(old(store.State()), e, d)
      ensures subscribers == old(subscribers)
    {
      email := None;
      match e.event {
        case NewListingCreated => HandleNewListingCreated(store, e.data, t);
        case SellerAccountApproved =>
          var r := HandleSellerAccountApproved(store, e.data, t, d);
          email := Some(r);
        case ProductMarkedLive => HandleProductMarkedLive(store, e.data, t);
        case OrderPlaced => HandleOrderPlaced(store, e.data, t);
        case ReturnRequestInitiated => HandleReturnRequestInitiated(store, e.data, t);
        case OrderConfirmed =>
          var r := HandleOrderConfirmed(store, e.data, t, d);
          email := Some(r);
        case ReturnAccepted =>
          var r := HandleReturnAccepted(store, e.data, t, d);
          email := Some(r);
        case StatusUpdated => HandleStatusUpdated(store, e.data, t);
      }
    }
  }
}
