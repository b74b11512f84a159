/** The status management page (src/app/admin/status/page.tsx): colour
    maps for statuses and badges, and the handlers that change a user's
    status, a user's badge or a product's status. Each handler writes the
    change to the browser's copy of the mock data and to the page's own
    lists, then triggers its events in order on the server, where each
    event goes through the dispatcher. */
module StatusPage {
  import opened Wrappers
  import opened Strings
  import opened Types
  import opened MockData
  import opened EmailService
  import opened NotificationService

  /** `getStatusColor`. */
  function StatusColor(status: string): (color: string)
    ensures status !in {"approved", "live", "active", "pending", "sold", "inactive", "suspended"} ==> color == "gray"
  {
    if status in {"approved", "live", "active"} then "green"
    else if status == "pending" then "yellow"
    else if status == "sold" then "blue"
    else if status in {"inactive", "suspended"} then "red"
    else "gray"
  }

  /** The colour of every user and product status. */
  lemma StatusColors(u: UserStatus, p: ProductStatus)
    ensures StatusColor(UserStatusName(u)) ==
      match u
      case Pending => "yellow"
      case Approved => "green"
      case Active => "green"
      case Suspended => "red"
    ensures StatusColor(ProductStatusName(p)) ==
      match p
      case Pending => "yellow"
      case Live => "green"
      case Sold => "blue"
      case Inactive => "red"
  {
  }

  /** `getBadgeColor`. */
  function BadgeColor(level: string): (color: string)
    ensures level !in {"Elite", "Pro", "Expert"} ==> color == "gray"
  {
    if level == "Elite" then "violet"
    else if level == "Pro" then "blue"
    else if level == "Expert" then "orange"
    else "gray"
  }

  /** The colour of every badge level. */
  lemma BadgeColors(b: BadgeLevel)
    ensures BadgeColor(BadgeName(b)) ==
      match b
      case Elite => "violet"
      case Pro => "blue"
      case Expert => "orange"
  {
  }

  /** Distinct badge levels get distinct colours, none of them gray. */
  lemma BadgeColorsDistinct(a: BadgeLevel, b: BadgeLevel)
    ensures BadgeColor(BadgeName(a)) != "gray"
    ensures a != b ==> BadgeColor(BadgeName(a)) != BadgeColor(BadgeName(b))
  {
  }

  // ---------------------------------------------------------------------
  // The events each handler triggers

  function Event(e: NotificationEvent, data: map<string, string>): EventData {
    EventData(e, None, data)
  }

  function StatusUpdate(ty: string, id: string, oldStatus: string, newStatus: string, userId: string): EventData {
    Event(StatusUpdated, map["type" := ty, "id" := id, "oldStatus" := oldStatus, "newStatus" := newStatus,
                             "userId" := userId])
  }

  /** `handleUserStatusChange` for a user the page has. */
  function UserStatusEvents(user: User, newStatus: UserStatus): seq<EventData> {
    [StatusUpdate("User", user.id, UserStatusName(user.status), UserStatusName(newStatus), user.id)] +
    (if newStatus == UserStatus.Approved && user.userType == Seller
     then [Event(SellerAccountApproved, map["sellerId" := user.id])] else [])
  }

  /** `badge || 'Standard'`. */
  function BadgeOrStandard(b: Option<BadgeLevel>): string {
    if b.Some? then BadgeName(b.value) else "Standard"
  }

  /** `handleUserBadgeChange` for a user the page has. */
  function BadgeEvents(user: User, newBadge: Option<BadgeLevel>): seq<EventData> {
    [StatusUpdate("Badge Level", user.id, BadgeOrStandard(user.badgeLevel), BadgeOrStandard(newBadge), user.id)]
  }

  /** `handleProductStatusChange` for a product the page has. */
  function ProductStatusEvents(product: Product, newStatus: ProductStatus): seq<EventData> {
    [StatusUpdate("Product", product.id, ProductStatusName(product.status), ProductStatusName(newStatus),
                  product.sellerId)] +
    (if newStatus == Live
     then [Event(ProductMarkedLive, map["productId" := product.id, "sellerId" := product.sellerId])] else [])
  }

  /** A user change first reports the status change with the old status; a
      second event, carrying only `sellerId`, follows exactly when a seller
      is approved. */
  lemma UserStatusEventsShape(user: User, newStatus: UserStatus)
    ensures var es := UserStatusEvents(user, newStatus);
      && 1 <= |es| <= 2
      && es[0].event == StatusUpdated
      && es[0].data["type"] == "User" && es[0].data["oldStatus"] == UserStatusName(user.status)
      && es[0].data["newStatus"] == UserStatusName(newStatus) && es[0].data["userId"] == user.id
      && (|es| == 2 <==> newStatus == UserStatus.Approved && user.userType == Seller)
      && (|es| == 2 ==> es[1] == EventData(SellerAccountApproved, None, map["sellerId" := user.id]))
  {
  }

  /** Approving a seller on this page gives an approval notice addressed to
      nobody and no approval email, because the event carries `sellerId`
      while the handler reads `userId`. */
  lemma ApprovingSellerMissesSeller(st: StoreState, user: User, d: Delivery)
    requires user.userType == Seller
    ensures var e := UserStatusEvents(user, UserStatus.Approved)[1];
      && NoticesFor(st, e)[0].userId == None
      && EmailFor(st, e, d) == Some(Returned(false, None))
  {
    SellerApprovedWithSellerIdOnly(st, user.id, d);
  }

  /** A badge change reports 'Standard' for an absent old or new badge. */
  lemma BadgeEventsShape(user: User, newBadge: Option<BadgeLevel>)
    ensures var es := BadgeEvents(user, newBadge);
      && |es| == 1 && es[0].event == StatusUpdated && es[0].data["type"] == "Badge Level"
      && (user.badgeLevel.None? ==> es[0].data["oldStatus"] == "Standard")
      && (newBadge.None? ==> es[0].data["newStatus"] == "Standard")
      && (newBadge.Some? ==> es[0].data["newStatus"] == BadgeName(newBadge.value))
  {
  }

  /** A product change reports to the product's seller, then announces the
      product live exactly when that is the new status. */
  lemma ProductStatusEventsShape(product: Product, newStatus: ProductStatus)
    ensures var es := ProductStatusEvents(product, newStatus);
      && 1 <= |es| <= 2
      && es[0].event == StatusUpdated && es[0].data["userId"] == product.sellerId
      && es[0].data["oldStatus"] == ProductStatusName(product.status)
      && (|es| == 2 <==> newStatus == Live)
      && (|es| == 2 ==> es[1].event == ProductMarkedLive && es[1].data["productId"] == product.id)
  {
  }

  /** The store after processing the events one after another. */
  function RunEvents(st: StoreState, events: seq<EventData>, ts: seq<Stamps>): StoreState
    requires |ts| == |events|
    decreases |events|
  {
    if events == [] then st else RunEvents(Process(st, events[0], ts[0]), events[1..], ts[1..])
  }

  /** Processing any events keeps the store's id invariant and leaves every
      table but the notifications as it was. */
  lemma {:induction false} RunEventsEffect(st: StoreState, events: seq<EventData>, ts: seq<Stamps>)
    requires |ts| == |events|
    ensures Valid(st) ==> Valid(RunEvents(st, events, ts))
    ensures var st2 := RunEvents(st, events, ts);
      st2 == st.(notifications := st2.notifications, counter := st2.counter)
    ensures |RunEvents(st, events, ts).notifications| >= |st.notifications|
    decreases |events|
  {
    if events != [] {
      ProcessEffect(st, events[0], ts[0]);
      RunEventsEffect(Process(st, events[0], ts[0]), events[1..], ts[1..]);
    }
  }

  // ---------------------------------------------------------------------
  // The page's own copies, updated with `map`

  function SetUserStatusAll(us: seq<User>, id: string, status: UserStatus): (r: seq<User>)
    ensures |r| == |us|
    ensures forall i :: 0 <= i < |us| ==> r[i] == if us[i].id == id then us[i].(status := status) else us[i]
  {
    if us == [] then [] else
      [if us[0].id == id then us[0].(status := status) else us[0]] + SetUserStatusAll(us[1..], id, status)
  }

  function SetBadgeAll(us: seq<User>, id: string, badge: Option<BadgeLevel>): (r: seq<User>)
    ensures |r| == |us|
    ensures forall i :: 0 <= i < |us| ==> r[i] == if us[i].id == id then us[i].(badgeLevel := badge) else us[i]
  {
    if us == [] then [] else
      [if us[0].id == id then us[0].(badgeLevel := badge) else us[0]] + SetBadgeAll(us[1..], id, badge)
  }

  /** The page writes only the status into its copy (not `updatedAt`). */
  function SetProductStatusAll(ps: seq<Product>, id: string, status: ProductStatus): (r: seq<Product>)
    ensures |r| == |ps|
    ensures forall i :: 0 <= i < |ps| ==> r[i] == if ps[i].id == id then ps[i].(status := status) else ps[i]
  {
    if ps == [] then [] else
      [if ps[0].id == id then ps[0].(status := status) else ps[0]] + SetProductStatusAll(ps[1..], id, status)
  }

  /** `prev.filter(u => u.status === 'pending')` and its product twin. */
  function PendingUsers(us: seq<User>): (r: seq<User>)
    ensures forall k :: 0 <= k < |r| ==> r[k].status == UserStatus.Pending && r[k] in us
    ensures forall k :: 0 <= k < |us| && us[k].status == UserStatus.Pending ==> us[k] in r
  {
    if us == [] then []
    else
      assert forall k :: 1 <= k < |us| ==> us[k] == us[1..][k - 1];
      (if us[0].status == UserStatus.Pending then [us[0]] else []) + PendingUsers(us[1..])
  }

  function PendingProducts(ps: seq<Product>): (r: seq<Product>)
    ensures forall k :: 0 <= k < |r| ==> r[k].status == ProductStatus.Pending && r[k] in ps
    ensures forall k :: 0 <= k < |ps| && ps[k].status == ProductStatus.Pending ==> ps[k] in r
  {
    if ps == [] then []
    else
      assert forall k :: 1 <= k < |ps| ==> ps[k] == ps[1..][k - 1];
      (if ps[0].status == ProductStatus.Pending then [ps[0]] else []) + PendingProducts(ps[1..])
  }

  /** What `simulateRandomStatusChange` picks: the first draw chooses users
      (below 0.5) or products, the second the element of the pending pool. */
  datatype Change = ApproveUser(userId: string) | MakeLive(productId: string)

  function RandomChange(us: seq<User>, ps: seq<Product>, usersFirst: bool, pick: nat): (c: Option<Change>)
    ensures c.Some? && c.value.ApproveUser? ==>
              usersFirst && exists u :: u in us && u.status == UserStatus.Pending && u.id == c.value.userId
    ensures c.Some? && c.value.MakeLive? ==>
              !usersFirst && exists p :: p in ps && p.status == ProductStatus.Pending && p.id == c.value.productId
    ensures c.None? <==> (if usersFirst then PendingUsers(us) == [] else PendingProducts(ps) == [])
  {
    if usersFirst then
      var pool := PendingUsers(us);
      if |pool| == 0 then None else
        var u := pool[pick % |pool|];
        assert u in us && u.status == UserStatus.Pending;
        Some(ApproveUser(u.id))
    else
      var pool := PendingProducts(ps);
      if |pool| == 0 then None else
        var p := pool[pick % |pool|];
        assert p in ps && p.status == ProductStatus.Pending;
        Some(MakeLive(p.id))
  }

  // ---------------------------------------------------------------------
  // The page

  /** The page runs in the browser and `triggerEvent` is a server action,
      so the page's direct updates land in the browser's copy of the mock
      data (`page`) while the events' notices land in the server's copy
      (`server`); the two are different stores. */
  class StatusManagement {
    var users: seq<User>
    var products: seq<Product>

    /** `useState(mockUsers)` and `useState(mockProducts)`, from the
        browser's copy. */
    constructor (page: Store)
      ensures users == page.users && products == page.products
    {
      users, products := page.users, page.products;
    }

    /** Sends each event through the dispatcher, in order. */
    method TriggerAll(server: Store, hub: NotificationHub, events: seq<EventData>, ts: seq<Stamps>, d: Delivery)
      requires |events| <= 2 && |ts| == |events|
      modifies server
      ensures server.State() == RunEvents(old(server.State()), events, ts)
    {
      ghost var s0 := server.State();
      if |events| >= 1 {
        var _ := hub.ProcessNotificationEvent(server, events[0], ts[0], d);
        ghost var s1 := server.State();
        if |events| == 2 {
          var _ := hub.ProcessNotificationEvent(server, events[1], ts[1], d);
          assert events[1..][0] == events[1] && ts[1..][0] == ts[1];
          assert events[1..][1..] == [] && ts[1..][1..] == [];
          assert RunEvents(s1, events[1..], ts[1..]) == server.State();
          assert RunEvents(s0, events, ts) == RunEvents(s1, events[1..], ts[1..]);
        } else {
          assert events[1..] == [] && ts[1..] == [];
        }
      }
    }

    /** `handleUserStatusChange`; `ts` holds the stamps of the events'
        notifications, one entry per event. */
    method HandleUserStatusChange(page: Store, server: Store, hub: NotificationHub, userId: string,
                                  newStatus: UserStatus, ts: seq<Stamps>, d: Delivery)
      returns (events: seq<EventData>)
      requires page != server && |ts| == 2
      modifies this, page, server
      ensures match FindUser(old(users), Some(userId))
        case None =>
          && events == [] && users == old(users)
          && page.State() == old(page.State()) && server.State() == old(server.State())
        case Some(user) =>
          && events == UserStatusEvents(user, newStatus)
          && users == SetUserStatusAll(old(users), userId, newStatus)
          && page.State() == old(page.State()).(users := UsersWithStatus(old(page.users), userId, newStatus))
          && server.State() == RunEvents(old(server.State()), events, ts[..|events|])
      ensures products == old(products)
    {
      var user := FindUser(users, Some(userId));
      if user.None? {
        return [];
      }
      page.UpdateUserStatus(userId, newStatus);
      users := SetUserStatusAll(users, userId, newStatus);
      events := UserStatusEvents(user.value, newStatus);
      TriggerAll(server, hub, events, ts[..|events|], d);
    }

    /** `handleUserBadgeChange`. */
    method HandleUserBadgeChange(page: Store, server: Store, hub: NotificationHub, userId: string,
                                 newBadge: Option<BadgeLevel>, t: Stamps, d: Delivery)
      returns (events: seq<EventData>)
      requires page != server
      modifies this, page, server
      ensures match FindUser(old(users), Some(userId))
        case None =>
          && events == [] && users == old(users)
          && page.State() == old(page.State()) && server.State() == old(server.State())
        case Some(user) =>
          && events == BadgeEvents(user, newBadge)
          && users == SetBadgeAll(old(users), userId, newBadge)
          && page.State() == old(page.State()).(users := UsersWithBadge(old(page.users), userId, newBadge))
          && server.State() == RunEvents(old(server.State()), events, [t])
      ensures products == old(products)
    {
      var user := FindUser(users, Some(userId));
      if user.None? {
        return [];
      }
      page.UpdateUserBadgeLevel(userId, newBadge);
      users := SetBadgeAll(users, userId, newBadge);
      events := BadgeEvents(user.value, newBadge);
      TriggerAll(server, hub, events, [t], d);
    }

    /** `handleProductStatusChange`; `now` is the store's `updatedAt`. */
    method HandleProductStatusChange(page: Store, server: Store, hub: NotificationHub, productId: string,
                                     newStatus: ProductStatus, now: int, ts: seq<Stamps>, d: Delivery)
      returns (events: seq<EventData>)
      requires page != server && |ts| == 2
      modifies this, page, server
      ensures match FindProduct(old(products), Some(productId))
        case None =>
          && events == [] && products == old(products)
          && page.State() == old(page.State()) && server.State() == old(server.State())
        case Some(product) =>
          && events == ProductStatusEvents(product, newStatus)
          && products == SetProductStatusAll(old(products), productId, newStatus)
          && page.State() ==
               old(page.State()).(products := ProductsWithStatus(old(page.products), productId, newStatus, now))
          && server.State() == RunEvents(old(server.State()), events, ts[..|events|])
      ensures users == old(users)
    {
      var product := FindProduct(products, Some(productId));
      if product.None? {
        return [];
      }
      page.UpdateProductStatus(productId, newStatus, now);
      products := SetProductStatusAll(products, productId, newStatus);
      events := ProductStatusEvents(product.value, newStatus);
      TriggerAll(server, hub, events, ts[..|events|], d);
    }

    /** `simulateRandomStatusChange`: approves a pending user or puts a
        pending product live, with that handler's effect on both copies;
        with an empty pool nothing happens. */
    method SimulateRandomStatusChange(page: Store, server: Store, hub: NotificationHub, usersFirst: bool,
                                      pick: nat, now: int, ts: seq<Stamps>, d: Delivery)
      returns (change: Option<Change>, events: seq<EventData>)
      requires page != server && |ts| == 2
      modifies this, page, server
      ensures change == RandomChange(old(users), old(products), usersFirst, pick)
      ensures change.None? ==>
                && events == [] && users == old(users) && products == old(products)
                && page.State() == old(page.State()) && server.State() == old(server.State())
      ensures change.Some? && change.value.ApproveUser? ==>
                var id := change.value.userId;
                && FindUser(old(users), Some(id)).Some?
                && events == UserStatusEvents(FindUser(old(users), Some(id)).value, UserStatus.Approved)
                && users == SetUserStatusAll(old(users), id, UserStatus.Approved)
                && products == old(products)
                && page.State() ==
                     old(page.State()).(users := UsersWithStatus(old(page.users), id, UserStatus.Approved))
                && server.State() == RunEvents(old(server.State()), events, ts[..|events|])
      ensures change.Some? && change.value.MakeLive? ==>
                var id := change.value.productId;
                && FindProduct(old(products), Some(id)).Some?
                && events == ProductStatusEvents(FindProduct(old(products), Some(id)).value, Live)
                && products == SetProductStatusAll(old(products), id, Live)
                && users == old(users)
                && page.State() ==
                     old(page.State()).(products := ProductsWithStatus(old(page.products), id, Live, now))
                && server.State() == RunEvents(old(server.State()), events, ts[..|events|])
    {
      change := RandomChange(users, products, usersFirst, pick);
      events := [];
      if change.Some? {
        match change.value {
          case ApproveUser(id) =>
            assert FindUser(users, Some(id)).Some? by {
              var u :| u in users && u.status == UserStatus.Pending && u.id == id;
              var k :| 0 <= k < |users| && users[k] == u;
              FindUserPresent(users, k);
            }
            events := HandleUserStatusChange(page, server, hub, id, UserStatus.Approved, ts, d);
          case MakeLive(id) =>
            assert FindProduct(products, Some(id)).Some? by {
              var p :| p in products && p.status == ProductStatus.Pending && p.id == id;
              var k :| 0 <= k < |products| && products[k] == p;
              FindProductPresent(products, k);
            }
            events := HandleProductStatusChange(page, server, hub, id, Live, now, ts, d);
        }
      }
    }
  }
}
