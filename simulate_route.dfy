/** The simulator endpoint (src/app/api/simulate/route.ts): `POST` with
    `{ action: 'simulate' }` runs one of four randomly chosen interactions,
    each of which changes the store and creates exactly one notification. */
module SimulateRoute {
  import opened Wrappers
  import opened Strings
  import opened Types
  import opened MockData
  import opened EmailService

  /** Every value the endpoint draws from `Math.random()` and `new Date()`,
      in the order it draws them. A draw `Math.floor(Math.random() * n)`
      is `pick % n`; `Math.random() > p` is a boolean. */
  datatype Draws = Draws(
    userPick: nat,          // getRandomUser
    productPick: nat,       // getRandomProduct
    interaction: nat,       // which of the four interactions
    newId: string,          // generateRandomId
    nameNumber: nat,        // registration: `@new_user_<n>`
    asSeller: bool,         // registration: `Math.random() > 0.5`
    orderNumberPick: nat,   // new order
    amountPick: nat,        // new order
    onHold: bool,           // new order: `Math.random() > 0.7`
    poolPick: nat,          // approval or return: the element of the pool
    date: int,              // `new Date()` of the new record
    stamp: Stamp)           // the notification's creation

  datatype Interaction =
    | UserRegistration(user: User)
    | NewOrder(order: Order)
    | UserApproval(approved: User)
    | SystemUpdate
    | ReturnRequestCreated(returnId: string, orderId: string)
    | SystemCheck

  datatype InteractionResult = InteractionResult(kind: Interaction, notification: Notification, emailSent: bool)

  /** The store after an interaction, with its result. */
  datatype Step = Step(state: StoreState, result: InteractionResult)

  /** Creates the interaction's notification. */
  function Finish(st: StoreState, input: NewNotification, stamp: Stamp, kind: Interaction, emailSent: bool): (r: Step)
    ensures |r.state.notifications| == |st.notifications| + 1
    ensures r.state.notifications[0] == r.result.notification && r.state.notifications[1..] == st.notifications
    ensures r.state == st.(notifications := r.state.notifications, counter := st.counter + 1)
    ensures r.result.kind == kind && r.result.emailSent == emailSent
    ensures Valid(st) ==> Valid(r.state)
  {
    var a := AddNotificationTo(st, input, stamp);
    AddNotificationEffect(st, input, stamp);
    assert Valid(st) ==> Valid(a.state) by {
      if Valid(st) { AddNotificationValid(st, input, stamp); }
    }
    Step(a.state, InteractionResult(kind, a.record, emailSent))
  }

  // ---------------------------------------------------------------------
  // The four interactions, on values

  function NewUser(dr: Draws): User {
    User(dr.newId, "@new_user_" + NatToString(dr.nameNumber % 1000), "hello@benjamin.dev",
         if dr.asSeller then Seller else Buyer, UserStatus.Pending, None, Some(dr.date))
  }

  /** New user registration: `push` and no email. */
  function Registration(st: StoreState, dr: Draws): Step {
    var u := NewUser(dr);
    Finish(st.(users := st.users + [u]),
           Note(Info, "New User Registration", u.name + " has joined Trendies as a " + UserTypeName(u.userType),
                Some("admin"), map["userId" := Some(u.id)]),
           dr.stamp, UserRegistration(u), false)
  }

  function NewOrderRecord(dr: Draws, buyer: User, product: Product): Order {
    Order(dr.newId, None, buyer.id, product.sellerId, if dr.onHold then OnHold else OrderStatus.Shipped,
          (dr.amountPick % 10000 + 1000) as real, None, Some(product.name),
          Some(NatToString(dr.orderNumberPick % 90000 + 10000)), Some(dr.date), Some("MAD"), Some("processing"))
  }

  /** New order: `unshift`, then the confirmation email when the seller is
      found; `emailSent` is set when the send call returns. */
  function NewOrderStep(st: StoreState, dr: Draws, buyer: User, product: Product, d: Delivery): Step {
    var o := NewOrderRecord(dr, buyer, product);
    var st1 := st.(orders := [o] + st.orders);
    var emailSent :=
      match FindUser(st1.users, Some(product.sellerId))
      case None => false
      case Some(seller) =>
        SendOrderConfirmationEmail(st1, Some(o.id), Some(buyer.email), Some(product.name), Some(seller.name),
                                   Some(NatToString(dr.amountPick % 10000 + 1000)), d).Returned?;
    Finish(st1,
           Note(Success, "New Order Received", buyer.name + " placed an order for " + product.name,
                Some(product.sellerId),
                map["orderId" := Some(o.id), "productId" := Some(product.id), "buyerId" := Some(buyer.id)]),
           dr.stamp, NewOrder(o), emailSent)
  }

  /** The positions of the users whose status is pending. */
  function PendingPositions(us: seq<User>, from: nat): (r: seq<nat>)
    requires from <= |us|
    ensures forall k :: 0 <= k < |r| ==> from <= r[k] < |us| && us[r[k]].status == UserStatus.Pending
    ensures forall i :: from <= i < |us| && us[i].status == UserStatus.Pending ==> i in r
    decreases |us| - from
  {
    if from == |us| then []
    else (if us[from].status == UserStatus.Pending then [from] else []) + PendingPositions(us, from + 1)
  }

  /** User approval: the chosen pending user object becomes active. */
  function Approval(st: StoreState, dr: Draws, d: Delivery): Step {
    var pool := PendingPositions(st.users, 0);
    if |pool| == 0 then
      Finish(st, Note(Info, "System Update", "Platform maintenance completed successfully", Some("admin"), map[]),
             dr.stamp, SystemUpdate, false)
    else
      var k := pool[dr.poolPick % |pool|];
      var u := st.users[k].(status := Active);
      var st1 := st.(users := st.users[k := u]);
      var emailSent := u.userType == Seller && SendSellerApprovalEmail(st1, Some(u.id), d).Returned?;
      Finish(st1,
             Note(Success, "User Approved", u.name + " account has been approved and is now active", Some("admin"),
                  map["userId" := Some(u.id)]),
             dr.stamp, UserApproval(u), emailSent)
  }

  /** `filter(o => o.status === 'shipped')`. */
  function Shipped(os: seq<Order>): (r: seq<Order>)
    ensures |r| <= |os|
    ensures forall k :: 0 <= k < |r| ==> r[k].status == OrderStatus.Shipped && r[k] in os
    ensures forall k :: 0 <= k < |os| && os[k].status == OrderStatus.Shipped ==> os[k] in r
  {
    if os == [] then []
    else
      var rest := Shipped(os[1..]);
      assert forall k :: 1 <= k < |os| ==> os[k] == os[1..][k - 1];
      (if os[0].status == OrderStatus.Shipped then [os[0]] else []) + rest
  }

  /** The filter keeps every shipped order as often as it occurs, and no
      other order. */
  lemma {:induction false} ShippedMultiset(os: seq<Order>, o: Order)
    ensures multiset(Shipped(os))[o] == if o.status == OrderStatus.Shipped then multiset(os)[o] else 0
  {
    if os != [] {
      ShippedMultiset(os[1..], o);
      assert os == [os[0]] + os[1..];
      assert multiset(os) == multiset([os[0]]) + multiset(os[1..]);
    }
  }

  /** The return candidates: the first five shipped orders. */
  function RecentShipped(os: seq<Order>): (r: seq<Order>)
    ensures |r| <= 5
  {
    Slice(Shipped(os), 0, 5)
  }

  /** Return request: `push` of a pending request, then the acceptance email
      to the order's buyer when found. */
  function ReturnStep(st: StoreState, dr: Draws, d: Delivery): Step {
    var pool := RecentShipped(st.orders);
    if |pool| == 0 then
      Finish(st, Note(Info, "System Check", "All orders are processing normally", Some("admin"), map[]),
             dr.stamp, SystemCheck, false)
    else
      var o := pool[dr.poolPick % |pool|];
      var rr := ReturnRequest(dr.newId, o.id, "Item not as described", ReturnStatus.Pending, dr.date);
      var st1 := st.(returnRequests := st.returnRequests + [rr]);
      var emailSent :=
        match FindUser(st1.users, Some(o.buyerId))
        case None => false
        case Some(buyer) => SendReturnAcceptedEmail(st1, Some(buyer.email), o.item, Some(dr.newId), d).Returned?;
      Finish(st1,
             Note(Warning, "Return Request", "Return request submitted for " + Show(o.item), Some(o.sellerId),
                  map["orderId" := Some(o.id), "returnId" := Some(dr.newId)]),
             dr.stamp, ReturnRequestCreated(dr.newId, o.id), emailSent)
  }

  /** `generateRandomInteraction`; `None` when it throws (a new order needs a
      user and a product to exist). */
  function Interact(st: StoreState, dr: Draws, d: Delivery): Option<Step> {
    var choice := dr.interaction % 4;
    if choice == 0 then Some(Registration(st, dr))
    else if choice == 1 then
      if |st.users| == 0 || |st.products| == 0 then None
      else Some(NewOrderStep(st, dr, st.users[dr.userPick % |st.users|], st.products[dr.productPick % |st.products|], d))
    else if choice == 2 then Some(Approval(st, dr, d))
    else Some(ReturnStep(st, dr, d))
  }

  // ---------------------------------------------------------------------
  // The route

  /** The request body: one that does not parse, or parses to `null`, so
      that reading its `action` throws; or an object with an optional
      action. */
  datatype Request = MalformedJson | Json(action: Option<string>)

  datatype Response = Response(status: nat, result: Option<InteractionResult>, error: Option<string>)

  /** `POST`. */
  function Post(st: StoreState, req: Request, dr: Draws, d: Delivery): (StoreState, Response) {
    if req.MalformedJson? then (st, Response(500, None, Some("Internal server error")))
    else if req.action != Some("simulate") then (st, Response(400, None, Some("Invalid action")))
    else match Interact(st, dr, d)
      case None => (st, Response(500, None, Some("Internal server error")))
      case Some(step) => (step.state, Response(200, Some(step.result), None))
  }

  // ---------------------------------------------------------------------
  // What the interactions do

  /** 400 for any action but 'simulate', 500 for a body that is not JSON or
      an interaction that throws, and the store only changes on success. */
  lemma PostStatus(st: StoreState, req: Request, dr: Draws, d: Delivery)
    ensures var (st2, resp) := Post(st, req, dr, d);
      && (resp.status == 400 <==> req.Json? && req.action != Some("simulate"))
      && (resp.status == 500 <==> req.MalformedJson? || (req.action == Some("simulate") && Interact(st, dr, d).None?))
      && (resp.status != 200 ==> st2 == st && resp.result.None?)
      && (resp.status == 200 ==> resp.result.Some? && Some(Step(st2, resp.result.value)) == Interact(st, dr, d))
  {
  }

  /** One notification more, in front, with the counter advanced and id
      uniqueness kept. */
  predicate OneNotificationMore(st: StoreState, s: Step) {
    && |s.state.notifications| == |st.notifications| + 1
    && s.state.notifications[1..] == st.notifications
    && s.state.notifications[0] == s.result.notification
    && s.state.counter == st.counter + 1
    && (Valid(st) ==> Valid(s.state))
  }

  lemma FinishOneMore(st: StoreState, st1: StoreState, input: NewNotification, stamp: Stamp, kind: Interaction, e: bool)
    requires st1.notifications == st.notifications && st1.counter == st.counter
    ensures OneNotificationMore(st, Finish(st1, input, stamp, kind, e))
  {
    assert Valid(st) == Valid(st1);
  }

  /** Every interaction creates exactly one notification, in front, and keeps
      id uniqueness. */
  lemma InteractAddsOneNotification(st: StoreState, dr: Draws, d: Delivery)
    requires Interact(st, dr, d).Some?
    ensures OneNotificationMore(st, Interact(st, dr, d).value)
  {
    var choice := dr.interaction % 4;
    if choice == 0 {
      RegistrationEffect(st, dr);
    } else if choice == 1 {
      NewOrderEffect(st, dr, st.users[dr.userPick % |st.users|], st.products[dr.productPick % |st.products|], d);
    } else if choice == 2 {
      ApprovalEffect(st, dr, d);
    } else {
      ReturnEffect(st, dr, d);
    }
  }

  /** Registration appends one pending user at the end, reports that it sent
      no email, and changes nothing else but the notifications. */
  lemma RegistrationEffect(st: StoreState, dr: Draws)
    ensures var s := Registration(st, dr);
      && OneNotificationMore(st, s)
      && s.state.users == st.users + [NewUser(dr)]
      && NewUser(dr).status == UserStatus.Pending
      && s.result.kind == UserRegistration(NewUser(dr)) && !s.result.emailSent
      && s.state.orders == st.orders && s.state.products == st.products
      && s.state.returnRequests == st.returnRequests
  {
    var u := NewUser(dr);
    FinishOneMore(st, st.(users := st.users + [u]),
      Note(Info, "New User Registration", u.name + " has joined Trendies as a " + UserTypeName(u.userType),
           Some("admin"), map["userId" := Some(u.id)]), dr.stamp, UserRegistration(u), false);
  }

  /** The simulated order is shipped or on hold, with an amount in
      1000..10999, a five-digit order number and payout 'processing'. */
  lemma NewOrderRecordShape(dr: Draws, buyer: User, product: Product)
    ensures var o := NewOrderRecord(dr, buyer, product);
      && o.id == dr.newId && o.buyerId == buyer.id && o.sellerId == product.sellerId
      && o.item == Some(product.name)
      && o.status in {OrderStatus.Shipped, OnHold}
      && o.payoutStatus == Some("processing") && o.currency == Some("MAD")
      && 1000.0 <= o.amount <= 10999.0
      && o.orderNumber.Some? && AllDigits(o.orderNumber.value)
      && 10000 <= DecodeNat(o.orderNumber.value) <= 99999
  {
    DecodeNatToString(dr.orderNumberPick % 90000 + 10000);
  }

  /** A new order goes in front of the orders; the email counts as sent
      exactly when the seller is found, since the send call then always
      returns. */
  lemma NewOrderEffect(st: StoreState, dr: Draws, buyer: User, product: Product, d: Delivery)
    ensures var s := NewOrderStep(st, dr, buyer, product, d); var o := NewOrderRecord(dr, buyer, product);
      && OneNotificationMore(st, s)
      && s.state.orders == [o] + st.orders
      && s.state.users == st.users && s.state.products == st.products
      && s.state.returnRequests == st.returnRequests
      && s.result.kind == NewOrder(o)
      && (s.result.emailSent <==> FindUser(st.users, Some(product.sellerId)).Some?)
  {
    var o := NewOrderRecord(dr, buyer, product);
    var st1 := st.(orders := [o] + st.orders);
    var e := NewOrderStep(st, dr, buyer, product, d).result.emailSent;
    FinishOneMore(st, st1,
      Note(Success, "New Order Received", buyer.name + " placed an order for " + product.name, Some(product.sellerId),
           map["orderId" := Some(o.id), "productId" := Some(product.id), "buyerId" := Some(buyer.id)]),
      dr.stamp, NewOrder(o), e);
  }

  /** With pending users, exactly one of them becomes active and no other
      user changes; the email is attempted, and reported sent, only for a
      seller. Without pending users only a 'System Update' notice is
      created. */
  lemma ApprovalEffect(st: StoreState, dr: Draws, d: Delivery)
    ensures var s := Approval(st, dr, d);
      && OneNotificationMore(st, s)
      && s.state.orders == st.orders && s.state.products == st.products
      && s.state.returnRequests == st.returnRequests
      && (PendingPositions(st.users, 0) == [] ==>
            && s.state.users == st.users && s.result.kind == SystemUpdate && !s.result.emailSent
            && s.result.notification.title == "System Update")
      && (PendingPositions(st.users, 0) != [] ==>
            exists k :: 0 <= k < |st.users| && st.users[k].status == UserStatus.Pending
              && s.state.users == st.users[k := st.users[k].(status := Active)]
              && s.result.kind == UserApproval(st.users[k].(status := Active))
              && (s.result.emailSent <==> st.users[k].userType == Seller))
  {
    var pool := PendingPositions(st.users, 0);
    var s := Approval(st, dr, d);
    if |pool| == 0 {
      FinishOneMore(st, st, Note(Info, "System Update", "Platform maintenance completed successfully", Some("admin"), map[]),
                    dr.stamp, SystemUpdate, false);
    } else {
      var k := pool[dr.poolPick % |pool|];
      var u := st.users[k].(status := Active);
      var st1 := st.(users := st.users[k := u]);
      FinishOneMore(st, st1,
        Note(Success, "User Approved", u.name + " account has been approved and is now active", Some("admin"),
             map["userId" := Some(u.id)]),
        dr.stamp, UserApproval(u), s.result.emailSent);
      assert s.state.users == st.users[k := u];
    }
  }

  /** The candidates are the first five shipped orders, in order. */
  lemma RecentShippedPrefix(os: seq<Order>)
    ensures var sh := Shipped(os);
      RecentShipped(os) == sh[..if |sh| < 5 then |sh| else 5]
  {
  }

  /** With a candidate, one pending return request for a shipped order goes
      at the end, and the email counts as sent exactly when the buyer is
      found; without one only a 'System Check' notice is created. */
  lemma ReturnEffect(st: StoreState, dr: Draws, d: Delivery)
    ensures var s := ReturnStep(st, dr, d); var pool := RecentShipped(st.orders);
      && OneNotificationMore(st, s)
      && s.state.orders == st.orders && s.state.products == st.products && s.state.users == st.users
      && (pool == [] ==>
            && s.state.returnRequests == st.returnRequests && s.result.kind == SystemCheck && !s.result.emailSent
            && s.result.notification.title == "System Check")
      && (pool != [] ==>
            var o := pool[dr.poolPick % |pool|];
            && o in st.orders && o.status == OrderStatus.Shipped
            && s.state.returnRequests ==
                 st.returnRequests + [ReturnRequest(dr.newId, o.id, "Item not as described", ReturnStatus.Pending, dr.date)]
            && s.result.kind == ReturnRequestCreated(dr.newId, o.id)
            && (s.result.emailSent <==> FindUser(st.users, Some(o.buyerId)).Some?))
  {
    var pool := RecentShipped(st.orders);
    var s := ReturnStep(st, dr, d);
    if |pool| == 0 {
      FinishOneMore(st, st, Note(Info, "System Check", "All orders are processing normally", Some("admin"), map[]),
                    dr.stamp, SystemCheck, false);
    } else {
      var o := pool[dr.poolPick % |pool|];
      var rr := ReturnRequest(dr.newId, o.id, "Item not as described", ReturnStatus.Pending, dr.date);
      var st1 := st.(returnRequests := st.returnRequests + [rr]);
      assert o in Shipped(st.orders);
      FinishOneMore(st, st1,
        Note(Warning, "Return Request", "Return request submitted for " + Show(o.item), Some(o.sellerId),
             map["orderId" := Some(o.id), "returnId" := Some(dr.newId)]),
        dr.stamp, ReturnRequestCreated(dr.newId, o.id), s.result.emailSent);
    }
  }

  // ---------------------------------------------------------------------
  // The route on the shared store

  /** Registration on the store: `push`, then `addNotification`. */
  method RunRegistration(store: Store, dr: Draws) returns (result: InteractionResult)
    modifies store
    ensures Step(store.State(), result) == Registration(old(store.State()), dr)
  {
    var u := NewUser(dr);
    store.users := store.users + [u];
    var record := store.AddNotification(
      Note(Info, "New User Registration", u.name + " has joined Trendies as a " + UserTypeName(u.userType),
           Some("admin"), map["userId" := Some(u.id)]), dr.stamp);
    result := InteractionResult(UserRegistration(u), record, false);
  }

  /** New order on the store: `unshift`, the email, then `addNotification`. */
  method RunNewOrder(store: Store, dr: Draws, buyer: User, product: Product, d: Delivery) returns (result: InteractionResult)
    modifies store
    ensures Step(store.State(), result) == NewOrderStep(old(store.State()), dr, buyer, product, d)
  {
    var o := NewOrderRecord(dr, buyer, product);
    store.orders := [o] + store.orders;
    var emailSent := false;
    var seller := FindUser(store.users, Some(product.sellerId));
    if seller.Some? {
      var sent := SendOrderConfirmationEmail(store.State(), Some(o.id), Some(buyer.email), Some(product.name),
                                             Some(seller.value.name), Some(NatToString(dr.amountPick % 10000 + 1000)), d);
      emailSent := sent.Returned?;
    }
    var record := store.AddNotification(
      Note(Success, "New Order Received", buyer.name + " placed an order for " + product.name, Some(product.sellerId),
           map["orderId" := Some(o.id), "productId" := Some(product.id), "buyerId" := Some(buyer.id)]), dr.stamp);
    result := InteractionResult(NewOrder(o), record, emailSent);
  }

  /** Approval on the store: `userToUpdate.status = 'active'`, the email for
      a seller, then `addNotification`. */
  method RunApproval(store: Store, dr: Draws, d: Delivery) returns (result: InteractionResult)
    modifies store
    ensures Step(store.State(), result) == Approval(old(store.State()), dr, d)
  {
    var pool := PendingPositions(store.users, 0);
    if |pool| == 0 {
      var record := store.AddNotification(
        Note(Info, "System Update", "Platform maintenance completed successfully", Some("admin"), map[]), dr.stamp);
      result := InteractionResult(SystemUpdate, record, false);
    } else {
      var k := pool[dr.poolPick % |pool|];
      var u := store.users[k].(status := Active);
      store.users := store.users[k := u];
      var emailSent := false;
      if u.userType == Seller {
        var sent := SendSellerApprovalEmail(store.State(), Some(u.id), d);
        emailSent := sent.Returned?;
      }
      var record := store.AddNotification(
        Note(Success, "User Approved", u.name + " account has been approved and is now active", Some("admin"),
             map["userId" := Some(u.id)]), dr.stamp);
      result := InteractionResult(UserApproval(u), record, emailSent);
    }
  }

  /** Return request on the store: `push`, the email to the buyer, then
      `addNotification`. */
  method RunReturn(store: Store, dr: Draws, d: Delivery) returns (result: InteractionResult)
    modifies store
    ensures Step(store.State(), result) == ReturnStep(old(store.State()), dr, d)
  {
    var pool := RecentShipped(store.orders);
    if |pool| == 0 {
      var record := store.AddNotification(
        Note(Info, "System Check", "All orders are processing normally", Some("admin"), map[]), dr.stamp);
      result := InteractionResult(SystemCheck, record, false);
    } else {
      var o := pool[dr.poolPick % |pool|];
      store.returnRequests := store.returnRequests
        + [ReturnRequest(dr.newId, o.id, "Item not as described", ReturnStatus.Pending, dr.date)];
      var emailSent := false;
      var buyer := FindUser(store.users, Some(o.buyerId));
      if buyer.Some? {
        var sent := SendReturnAcceptedEmail(store.State(), Some(buyer.value.email), o.item, Some(dr.newId), d);
        emailSent := sent.Returned?;
      }
      var record := store.AddNotification(
        Note(Warning, "Return Request", "Return request submitted for " + Show(o.item), Some(o.sellerId),
             map["orderId" := Some(o.id), "returnId" := Some(dr.newId)]), dr.stamp);
      result := InteractionResult(ReturnRequestCreated(dr.newId, o.id), record, emailSent);
    }
  }

  /** `generateRandomInteraction` on the store; `None` when it throws. */
  method RunInteraction(store: Store, dr: Draws, d: Delivery) returns (result: Option<InteractionResult>)
    modifies store
    ensures match Interact(old(store.State()), dr, d)
      case None => result.None? && store.State() == old(store.State())
      case Some(s) => result == Some(s.result) && store.State() == s.state
  {
    var choice := dr.interaction % 4;
    if choice == 0 {
      var r := RunRegistration(store, dr);
      result := Some(r);
    } else if choice == 1 {
      if |store.users| == 0 || |store.products| == 0 {
        return None;
      }
      var r := RunNewOrder(store, dr, store.users[dr.userPick % |store.users|],
                           store.products[dr.productPick % |store.products|], d);
      result := Some(r);
    } else if choice == 2 {
      var r := RunApproval(store, dr, d);
      result := Some(r);
    } else {
      var r := RunReturn(store, dr, d);
      result := Some(r);
    }
  }

  /** `POST` on the store. */
  method HandlePost(store: Store, req: Request, dr: Draws, d: Delivery) returns (resp: Response)
    modifies store
    ensures (store.State(), resp) == Post(old(store.State()), req, dr, d)
  {
    if req.MalformedJson? {
      return Response(500, None, Some("Internal server error"));
    }
    if req.action != Some("simulate") {
      return Response(400, None, Some("Invalid action"));
    }
    var result := RunInteraction(store, dr, d);
    if result.None? {
      resp := Response(500, None, Some("Internal server error"));
    } else {
      resp := Response(200, result, None);
    }
  }
}
