/** The in-memory domain store (src/lib/mockData.ts): module-level tables
    of users, products, orders, return requests, email templates and
    notifications, a notification counter, and the find-then-assign
    mutators. `StoreState` is the value of the whole store; `Store` is the
    mutable object whose methods are tied to the functions on `StoreState`. */
module MockData {
  import opened Wrappers
  import opened Strings
  import opened Types

  datatype StoreState = StoreState(
    users: seq<User>,
    products: seq<Product>,
    orders: seq<Order>,
    returnRequests: seq<ReturnRequest>,
    templates: seq<EmailTemplate>,
    notifications: seq<Notification>,
    counter: nat)

  /** What one notification creation reads from the environment:
      `Date.now()` for the id, `new Date()` for `createdAt`, and the base-36
      digits that `Math.random()` contributes to the id. */
  datatype Stamp = Stamp(now: nat, createdAt: int, suffix: string)

  // ---------------------------------------------------------------------
  // Array lookups and find-then-assign updates

  /** `s.findIndex(p)`: the position of the first element satisfying `p`. */
  function FindFirst<T>(s: seq<T>, p: T -> bool): (r: Option<nat>)
    ensures r.Some? ==> r.value < |s| && p(s[r.value])
    ensures r.Some? ==> forall j :: 0 <= j < r.value ==> !p(s[j])
    ensures r.None? <==> forall j :: 0 <= j < |s| ==> !p(s[j])
  {
    if s == [] then None
    else if p(s[0]) then Some(0)
    else match FindFirst(s[1..], p)
      case None => None
      case Some(k) => Some(k + 1)
  }

  /** `const x = s.find(p); if (x) { mutate x }`: apply `f` to the first
      element satisfying `p`, if there is one. */
  function UpdateFirst<T>(s: seq<T>, p: T -> bool, f: T -> T): (r: seq<T>)
    ensures |r| == |s|
  {
    match FindFirst(s, p)
    case None => s
    case Some(i) => s[i := f(s[i])]
  }

  /** Only the first match changes, to `f` of itself; without a match
      nothing changes. */
  lemma UpdateFirstEffect<T>(s: seq<T>, p: T -> bool, f: T -> T, j: nat)
    requires j < |s|
    ensures FindFirst(s, p) == Some(j) ==> UpdateFirst(s, p, f)[j] == f(s[j])
    ensures FindFirst(s, p) != Some(j) ==> UpdateFirst(s, p, f)[j] == s[j]
  {
  }

  /** When `f` keeps the element matching and `f` is idempotent, a second
      update is a no-op. */
  lemma UpdateFirstIdempotent<T>(s: seq<T>, p: T -> bool, f: T -> T)
    requires forall x :: p(x) ==> p(f(x)) && f(f(x)) == f(x)
    ensures UpdateFirst(UpdateFirst(s, p, f), p, f) == UpdateFirst(s, p, f)
  {
    match FindFirst(s, p)
    case None =>
    case Some(i) =>
      var t := s[i := f(s[i])];
      assert p(t[i]);
      assert forall j :: 0 <= j < i ==> t[j] == s[j];
      assert FindFirst(t, p) == Some(i);
  }

  function UserIndex(users: seq<User>, id: Option<string>): (r: Option<nat>)
    ensures r.Some? ==> r.value < |users| && id == Some(users[r.value].id)
  {
    FindFirst(users, (u: User) => id == Some(u.id))
  }

  function ProductIndex(products: seq<Product>, id: Option<string>): (r: Option<nat>)
    ensures r.Some? ==> r.value < |products| && id == Some(products[r.value].id)
  {
    FindFirst(products, (p: Product) => id == Some(p.id))
  }

  function OrderIndex(orders: seq<Order>, id: Option<string>): (r: Option<nat>)
    ensures r.Some? ==> r.value < |orders| && id == Some(orders[r.value].id)
  {
    FindFirst(orders, (o: Order) => id == Some(o.id))
  }

  function TemplateIndex(templates: seq<EmailTemplate>, id: string): (r: Option<nat>)
    ensures r.Some? ==> r.value < |templates| && templates[r.value].id == id
  {
    FindFirst(templates, (t: EmailTemplate) => t.id == id)
  }

  function FindUser(users: seq<User>, id: Option<string>): Option<User> {
    match UserIndex(users, id)
    case None => None
    case Some(i) => Some(users[i])
  }

  function FindProduct(products: seq<Product>, id: Option<string>): Option<Product> {
    match ProductIndex(products, id)
    case None => None
    case Some(i) => Some(products[i])
  }

  function FindOrder(orders: seq<Order>, id: Option<string>): Option<Order> {
    match OrderIndex(orders, id)
    case None => None
    case Some(i) => Some(orders[i])
  }

  function FindTemplate(templates: seq<EmailTemplate>, id: string): Option<EmailTemplate> {
    match TemplateIndex(templates, id)
    case None => None
    case Some(i) => Some(templates[i])
  }

  /** A record that is in the table is found. */
  lemma FindUserPresent(users: seq<User>, k: nat)
    requires k < |users|
    ensures FindUser(users, Some(users[k].id)).Some?
  {
    var p := (u: User) => Some(users[k].id) == Some(u.id);
    assert p(users[k]);
  }

  lemma FindProductPresent(products: seq<Product>, k: nat)
    requires k < |products|
    ensures FindProduct(products, Some(products[k].id)).Some?
  {
    var p := (pr: Product) => Some(products[k].id) == Some(pr.id);
    assert p(products[k]);
  }

  /** An id that no record carries is not found. */
  lemma FindProductAbsent(products: seq<Product>, id: Option<string>)
    requires forall k :: 0 <= k < |products| ==> id != Some(products[k].id)
    ensures FindProduct(products, id) == None
  {
  }

  // ---------------------------------------------------------------------
  // Notification ids

  /** `notif-${Date.now()}-${notificationCounter}-${random}`. */
  function MakeId(now: nat, counter: nat, suffix: string): string {
    "notif-" + (NatToString(now) + "-" + (NatToString(counter) + "-" + suffix))
  }

  /** Reads back the counter field of an id of the generated shape; `None`
      for ids of any other shape (the seed ids `notif-1` .. `notif-3`). */
  function ParseCounter(id: string): Option<nat> {
    if |id| < 6 || id[..6] != "notif-" then None
    else
      var rest := id[6..];
      var a := IndexOfChar(rest, '-');
      if a == |rest| || a == 0 || !AllDigits(rest[..a]) then None
      else
        var rest2 := rest[a + 1..];
        var b := IndexOfChar(rest2, '-');
        if b == |rest2| || b == 0 || !AllDigits(rest2[..b]) then None
        else Some(DecodeNat(rest2[..b]))
  }

  /** The pattern `^notif-\d+-\d+-[a-z0-9]+$`. A run of digits cannot hold
      '-', so each digit group ends at the next '-'. */
  predicate IdShape(id: string) {
    && |id| >= 6 && id[..6] == "notif-"
    && var rest := id[6..];
       var a := IndexOfChar(rest, '-');
       && 0 < a < |rest| && AllDigits(rest[..a])
       && var rest2 := rest[a + 1..];
          var b := IndexOfChar(rest2, '-');
          && 0 < b < |rest2| && AllDigits(rest2[..b])
          && b + 1 < |rest2|
          && forall i :: b + 1 <= i < |rest2| ==> IsLowerAlnum(rest2[i])
  }

  lemma DigitsHaveNoDash(s: string)
    requires AllDigits(s)
    ensures forall j :: 0 <= j < |s| ==> s[j] != '-'
  {
  }

  /** A run of digits followed by '-' splits back at that dash. */
  lemma SplitAtDash(x: string, y: string)
    requires AllDigits(x)
    ensures var s := x + "-" + y;
      IndexOfChar(s, '-') == |x| && s[..|x|] == x && s[|x| + 1..] == y
  {
    DigitsHaveNoDash(x);
    assert x + "-" + y == x + ['-'] + y;
    IndexOfCharConcat(x, '-', y);
  }

  /** Splitting a generated id at its dashes recovers its parts. */
  lemma MakeIdParts(now: nat, counter: nat, suffix: string)
    ensures var id := MakeId(now, counter, suffix);
      var rest := id[6..];
      var a := IndexOfChar(rest, '-');
      && id[..6] == "notif-"
      && a == |NatToString(now)| && rest[..a] == NatToString(now)
      && var rest2 := rest[a + 1..];
         var b := IndexOfChar(rest2, '-');
         && b == |NatToString(counter)| && rest2[..b] == NatToString(counter)
         && rest2[b + 1..] == suffix
  {
    var dn, dc := NatToString(now), NatToString(counter);
    var tail := dc + "-" + suffix;
    var rest := dn + "-" + tail;
    var id := MakeId(now, counter, suffix);
    assert id[..6] == "notif-" && id[6..] == rest;
    SplitAtDash(dn, tail);
    SplitAtDash(dc, suffix);
  }

  /** Round trip: the counter can be read back from the id it went into. */
  lemma ParseMakeId(now: nat, counter: nat, suffix: string)
    ensures ParseCounter(MakeId(now, counter, suffix)) == Some(counter)
  {
    MakeIdParts(now, counter, suffix);
    DecodeNatToString(counter);
  }

  /** Ids made with different counter values differ, whatever the
      timestamps and random suffixes. */
  lemma MakeIdDistinct(t1: nat, c1: nat, s1: string, t2: nat, c2: nat, s2: string)
    requires c1 != c2
    ensures MakeId(t1, c1, s1) != MakeId(t2, c2, s2)
  {
    ParseMakeId(t1, c1, s1);
    ParseMakeId(t2, c2, s2);
  }

  /** A generated id has the form notif-<digits>-<digits>-<suffix> exactly when the random part
      is a non-empty run of lower-case letters and digits. */
  lemma MakeIdShape(now: nat, counter: nat, suffix: string)
    ensures IdShape(MakeId(now, counter, suffix)) <==>
            (|suffix| > 0 && forall i :: 0 <= i < |suffix| ==> IsLowerAlnum(suffix[i]))
  {
    MakeIdParts(now, counter, suffix);
    var id := MakeId(now, counter, suffix);
    var rest := id[6..];
    var a := IndexOfChar(rest, '-');
    var rest2 := rest[a + 1..];
    var b := IndexOfChar(rest2, '-');
    assert rest2[b + 1..] == suffix;
    assert forall i :: b + 1 <= i < |rest2| ==> rest2[i] == suffix[i - (b + 1)];
  }

  // ---------------------------------------------------------------------
  // The store invariant: notification ids are unique

  predicate UniqueIds(ns: seq<Notification>) {
    forall i, j :: 0 <= i < j < |ns| ==> ns[i].id != ns[j].id
  }

  /** An id carries no counter value, or one below the current counter. */
  predicate CounterBelow(id: string, counter: nat) {
    match ParseCounter(id)
    case None => true
    case Some(c) => c < counter
  }

  /** Every notification id is unique and no id already uses the counter's
      next value. */
  predicate Valid(st: StoreState) {
    IdsValid(st.notifications, st.counter)
  }

  predicate IdsValid(ns: seq<Notification>, counter: nat) {
    && UniqueIds(ns)
    && forall i :: 0 <= i < |ns| ==> CounterBelow(ns[i].id, counter)
  }

  // ---------------------------------------------------------------------
  // addNotification and the mutators, on values

  datatype Added = Added(state: StoreState, record: Notification)

  /** The record that `addNotification` builds from its argument. */
  function NewRecord(input: NewNotification, id: string, createdAt: int): Notification {
    Notification(id, input.ntype, input.title, input.message, input.userId,
                 input.isRead, createdAt, input.metadata)
  }

  /** `addNotification`: the new record, with the next id, goes in front. */
  function AddNotificationTo(st: StoreState, input: NewNotification, stamp: Stamp): Added {
    var n := NewRecord(input, MakeId(stamp.now, st.counter, stamp.suffix), stamp.createdAt);
    Added(st.(notifications := [n] + st.notifications, counter := st.counter + 1), n)
  }

  /** The record at index 0 is new; the earlier records follow, shifted by
      one; the record keeps every caller field; nothing else changes. */
  lemma AddNotificationEffect(st: StoreState, input: NewNotification, stamp: Stamp)
    ensures var a := AddNotificationTo(st, input, stamp);
      && |a.state.notifications| == |st.notifications| + 1
      && a.state.notifications[0] == a.record
      && a.state.notifications[1..] == st.notifications
      && a.state.counter == st.counter + 1
      && a.state == st.(notifications := a.state.notifications, counter := a.state.counter)
      && a.record.id == MakeId(stamp.now, st.counter, stamp.suffix)
      && a.record.createdAt == stamp.createdAt
      && a.record.ntype == input.ntype && a.record.title == input.title
      && a.record.message == input.message && a.record.userId == input.userId
      && a.record.isRead == input.isRead && a.record.metadata == input.metadata
  {
  }

  /** Adding a notification keeps ids unique, even with a repeated timestamp
      and random part. */
  lemma AddNotificationValid(st: StoreState, input: NewNotification, stamp: Stamp)
    requires Valid(st)
    ensures Valid(AddNotificationTo(st, input, stamp).state)
  {
    ParseMakeId(stamp.now, st.counter, stamp.suffix);
    PrependValid(st.notifications, st.counter, AddNotificationTo(st, input, stamp).record);
  }

  /** A record whose id carries the counter's current value can go in front
      of a valid list once the counter moves on. */
  lemma PrependValid(ns: seq<Notification>, counter: nat, n: Notification)
    requires IdsValid(ns, counter)
    requires ParseCounter(n.id) == Some(counter)
    ensures IdsValid([n] + ns, counter + 1)
  {
    var ms := [n] + ns;
    forall i | 0 <= i < |ms|
      ensures CounterBelow(ms[i].id, counter + 1)
    {
      if i > 0 {
        assert ms[i] == ns[i - 1];
      }
    }
    forall i, j | 0 <= i < j < |ms|
      ensures ms[i].id != ms[j].id
    {
      if i == 0 {
        assert ms[j] == ns[j - 1];
        assert CounterBelow(ms[j].id, counter);
      } else {
        assert ms[i] == ns[i - 1] && ms[j] == ns[j - 1];
      }
    }
  }

  /** The records created by a run of `addNotification` calls. */
  function AddAll(st: StoreState, inputs: seq<NewNotification>, stamps: seq<Stamp>): (r: (StoreState, seq<Notification>))
    requires |stamps| == |inputs|
    ensures |r.1| == |inputs|
    ensures r.0.counter == st.counter + |inputs|
    decreases |inputs|
  {
    if inputs == [] then (st, [])
    else
      var a := AddNotificationTo(st, inputs[0], stamps[0]);
      var rest := AddAll(a.state, inputs[1..], stamps[1..]);
      (rest.0, [a.record] + rest.1)
  }

  /** The k-th record of the run carries the counter value start+k. */
  lemma AddAllIds(st: StoreState, inputs: seq<NewNotification>, stamps: seq<Stamp>)
    requires |stamps| == |inputs|
    ensures var ns := AddAll(st, inputs, stamps).1;
      forall k :: 0 <= k < |ns| ==> ns[k].id == MakeId(stamps[k].now, st.counter + k, stamps[k].suffix)
  {
    forall k | 0 <= k < |inputs|
      ensures AddAll(st, inputs, stamps).1[k].id == MakeId(stamps[k].now, st.counter + k, stamps[k].suffix)
    {
      AddAllIdAt(st, inputs, stamps, k);
    }
  }

  lemma {:induction false} AddAllIdAt(st: StoreState, inputs: seq<NewNotification>, stamps: seq<Stamp>, k: nat)
    requires |stamps| == |inputs| && k < |inputs|
    ensures AddAll(st, inputs, stamps).1[k].id == MakeId(stamps[k].now, st.counter + k, stamps[k].suffix)
    decreases k
  {
    if k > 0 {
      var a := AddNotificationTo(st, inputs[0], stamps[0]);
      var rest := AddAll(a.state, inputs[1..], stamps[1..]).1;
      AddAllIdAt(a.state, inputs[1..], stamps[1..], k - 1);
      assert AddAll(st, inputs, stamps).1[k] == rest[k - 1];
      assert stamps[1..][k - 1] == stamps[k] && a.state.counter + (k - 1) == st.counter + k;
    }
  }

  /** Any number of creations yield pairwise distinct ids, whatever the
      timestamps and random parts (for example all equal). */
  lemma AddAllDistinct(st: StoreState, inputs: seq<NewNotification>, stamps: seq<Stamp>)
    requires |stamps| == |inputs|
    ensures var ids := AddAll(st, inputs, stamps).1;
      forall i, j :: 0 <= i < j < |ids| ==> ids[i].id != ids[j].id
  {
    var ids := AddAll(st, inputs, stamps).1;
    forall i, j | 0 <= i < j < |ids|
      ensures ids[i].id != ids[j].id
    {
      AddAllIdsDiffer(st, inputs, stamps, i, j);
    }
  }

  lemma AddAllIdsDiffer(st: StoreState, inputs: seq<NewNotification>, stamps: seq<Stamp>, i: nat, j: nat)
    requires |stamps| == |inputs| && i < j < |inputs|
    ensures AddAll(st, inputs, stamps).1[i].id != AddAll(st, inputs, stamps).1[j].id
  {
    AddAllIdAt(st, inputs, stamps, i);
    AddAllIdAt(st, inputs, stamps, j);
    MakeIdDistinct(stamps[i].now, st.counter + i, stamps[i].suffix,
                   stamps[j].now, st.counter + j, stamps[j].suffix);
  }

  function IsNotification(id: string): Notification -> bool {
    (n: Notification) => n.id == id
  }

  function SetRead(n: Notification): Notification {
    n.(isRead := true)
  }

  /** `markNotificationAsRead`: the first record with that id becomes read. */
  function MarkRead(ns: seq<Notification>, id: string): seq<Notification> {
    UpdateFirst(ns, IsNotification(id), SetRead)
  }

  /** Only the first record with the id changes, and only its `isRead`; a
      read record stays read; an unknown id is a no-op. */
  lemma MarkReadEffect(ns: seq<Notification>, id: string)
    ensures var r := MarkRead(ns, id);
      && |r| == |ns|
      && (forall j :: 0 <= j < |ns| && FindFirst(ns, IsNotification(id)) != Some(j) ==> r[j] == ns[j])
      && (forall j :: 0 <= j < |ns| && FindFirst(ns, IsNotification(id)) == Some(j) ==>
            r[j] == ns[j].(isRead := true))
      && (forall j :: 0 <= j < |ns| ==> r[j].id == ns[j].id && (ns[j].isRead ==> r[j].isRead))
      && ((forall j :: 0 <= j < |ns| ==> ns[j].id != id) ==> r == ns)
  {
    forall j | 0 <= j < |ns| {
      UpdateFirstEffect(ns, IsNotification(id), SetRead, j);
    }
  }

  lemma MarkReadIdempotent(ns: seq<Notification>, id: string)
    ensures MarkRead(MarkRead(ns, id), id) == MarkRead(ns, id)
  {
    UpdateFirstIdempotent(ns, IsNotification(id), SetRead);
  }

  /** Marking a notification read keeps the store invariant. */
  lemma MarkReadValid(st: StoreState, id: string)
    requires Valid(st)
    ensures Valid(st.(notifications := MarkRead(st.notifications, id)))
  {
    MarkReadEffect(st.notifications, id);
  }

  function IsProduct(id: string): Product -> bool {
    (p: Product) => p.id == id
  }

  function WithProductStatus(status: ProductStatus, now: int): Product -> Product {
    (p: Product) => p.(status := status, updatedAt := now)
  }

  /** `updateProductStatus`: status and `updatedAt` of the first product
      with the id. */
  function ProductsWithStatus(ps: seq<Product>, id: string, status: ProductStatus, now: int): seq<Product> {
    UpdateFirst(ps, IsProduct(id), WithProductStatus(status, now))
  }

  lemma UpdateProductStatusEffect(ps: seq<Product>, id: string, status: ProductStatus, now: int)
    ensures var r := ProductsWithStatus(ps, id, status, now);
      && |r| == |ps|
      && (forall j :: 0 <= j < |ps| && FindFirst(ps, IsProduct(id)) != Some(j) ==> r[j] == ps[j])
      && (forall j :: 0 <= j < |ps| && FindFirst(ps, IsProduct(id)) == Some(j) ==>
            r[j] == ps[j].(status := status, updatedAt := now))
      && ((forall j :: 0 <= j < |ps| ==> ps[j].id != id) ==> r == ps)
  {
    forall j | 0 <= j < |ps| {
      UpdateFirstEffect(ps, IsProduct(id), WithProductStatus(status, now), j);
    }
  }

  function IsUser(id: string): User -> bool {
    (u: User) => u.id == id
  }

  function WithUserStatus(status: UserStatus): User -> User {
    (u: User) => u.(status := status)
  }

  function WithBadge(badge: Option<BadgeLevel>): User -> User {
    (u: User) => u.(badgeLevel := badge)
  }

  /** `updateUserStatus`: the status of the first user with the id. */
  function UsersWithStatus(us: seq<User>, id: string, status: UserStatus): seq<User> {
    UpdateFirst(us, IsUser(id), WithUserStatus(status))
  }

  /** `updateUserBadgeLevel`: the badge of the first user with the id
      (`undefined` clears it). */
  function UsersWithBadge(us: seq<User>, id: string, badge: Option<BadgeLevel>): seq<User> {
    UpdateFirst(us, IsUser(id), WithBadge(badge))
  }

  lemma UpdateUserStatusEffect(us: seq<User>, id: string, status: UserStatus)
    ensures var r := UsersWithStatus(us, id, status);
      && |r| == |us|
      && (forall j :: 0 <= j < |us| && FindFirst(us, IsUser(id)) != Some(j) ==> r[j] == us[j])
      && (forall j :: 0 <= j < |us| && FindFirst(us, IsUser(id)) == Some(j) ==>
            r[j] == us[j].(status := status))
      && ((forall j :: 0 <= j < |us| ==> us[j].id != id) ==> r == us)
  {
    forall j | 0 <= j < |us| {
      UpdateFirstEffect(us, IsUser(id), WithUserStatus(status), j);
    }
  }

  lemma UpdateUserBadgeLevelEffect(us: seq<User>, id: string, badge: Option<BadgeLevel>)
    ensures var r := UsersWithBadge(us, id, badge);
      && |r| == |us|
      && (forall j :: 0 <= j < |us| && FindFirst(us, IsUser(id)) != Some(j) ==> r[j] == us[j])
      && (forall j :: 0 <= j < |us| && FindFirst(us, IsUser(id)) == Some(j) ==>
            r[j] == us[j].(badgeLevel := badge))
      && ((forall j :: 0 <= j < |us| ==> us[j].id != id) ==> r == us)
  {
    forall j | 0 <= j < |us| {
      UpdateFirstEffect(us, IsUser(id), WithBadge(badge), j);
    }
  }

  // ---------------------------------------------------------------------
  // Seed data

  function SeedUsers(): seq<User> {
    [ User("1", "John Seller", "hello@benjamin.dev", Seller, UserStatus.Approved, Some(Pro), None),
      User("2", "Jane Buyer", "hello@benjamin.dev", Buyer, UserStatus.Active, None, None),
      User("3", "Mike Admin", "hello@benjamin.dev", Admin, UserStatus.Active, None, None),
      User("4", "Sarah Elite", "hello@benjamin.dev", Seller, UserStatus.Approved, Some(Elite), None),
      User("5", "Tom Pending", "hello@benjamin.dev", Seller, UserStatus.Pending, None, None) ]
  }

  function SeedProducts(): seq<Product> {
    [ Product("prod-1", "Vintage Leather Jacket", "1", Live, 299.99, 1733011200000, 1733011200000),
      Product("prod-2", "Designer Sneakers", "4", ProductStatus.Pending, 199.99, 1734220800000, 1734220800000),
      Product("prod-3", "Silk Scarf", "1", Sold, 89.99, 1732060800000, 1733788800000) ]
  }

  function SeedOrders(): seq<Order> {
    [ Order("order-1", Some("prod-3"), "2", "1", Delivered, 89.99, Some(1733788800000),
            None, None, None, None, None),
      Order("order-2", Some("prod-1"), "2", "1", OrderStatus.Pending, 299.99, Some(1734652800000),
            None, None, None, None, None) ]
  }

  function SeedReturnRequests(): seq<ReturnRequest> {
    [ ReturnRequest("return-1", "order-1", "Item not as described", ReturnStatus.Pending, 1734739200000) ]
  }

  /** The three templates. Long texts are written as short literals joined
      by `+`, which keeps proofs about the seed store cheap. */
  function SeedTemplates(): seq<EmailTemplate> {
    [ EmailTemplate(
        "seller-approval", "Seller Account " + "Approved",
        "Welcome to " + "Trendies! " + "Your seller " + "account has " + "been approved",
        "\n      <h1>Congratulations, " + "{{sellerName}}!</h1>" +
        "\n      <p>Your " + "seller account " + "has been approved. " + "You can now " + "start listing " + "your items.</p>" +
        "\n      <p>Your " + "current badge " + "level: {{badgeLevel}}</p>" +
        "\n      <a " + "href=\"{{dashboardUrl}}\">Go " + "to Dashboard</a>" +
        "\n    ",
        ["sellerName", "badgeLevel", "dashboardUrl"]),
      EmailTemplate(
        "order-confirmation", "Order Confirmation",
        "Order Confirmed " + "- {{productName}}",
        "\n      <h1>Order " + "Confirmed!</h1>" +
        "\n      <p>Hi " + "{{buyerName}},</p>" +
        "\n      <p>Your " + "order for " + "<strong>{{productName}}</strong> " + "has been confirmed.</p>" +
        "\n      <p>Order " + "ID: {{orderId}}</p>" +
        "\n      <p>Amount: " + "${{amount}}</p>" +
        "\n      <p>Seller: " + "{{sellerName}}</p>" +
        "\n    ",
        ["buyerName", "productName", "orderId", "amount", "sellerName"]),
      EmailTemplate(
        "return-accepted", "Return Request " + "Accepted",
        "Return Request " + "Approved - " + "{{productName}}",
        "\n      <h1>Return " + "Request Approved</h1>" +
        "\n      <p>Hi " + "{{buyerName}},</p>" +
        "\n      <p>Your " + "return request " + "for <strong>{{productName}}</strong> " + "has been approved.</p>" +
        "\n      <p>Return " + "ID: {{returnId}}</p>" +
        "\n      <p>Please " + "ship the item " + "back to the " + "seller within " + "7 days.</p>" +
        "\n    ",
        ["buyerName", "productName", "returnId"]) ]
  }

  /** The seed notifications; their creation times, written in the code as
      local date-times, are taken here as UTC instants. */
  function SeedNotifications(): seq<Notification> {
    [ Notification("notif-1", Success, "New Order Received",
                   "Jane Buyer placed an order for Vintage Leather Jacket", Some("1"), false,
                   1734690600000, Some(map["orderId" := Some("order-2"), "productId" := Some("prod-1")])),
      Notification("notif-2", Info, "Product Status Updated",
                   "Your product \"Designer Sneakers\" is now live", Some("4"), false,
                   1734623100000, Some(map["productId" := Some("prod-2")])),
      Notification("notif-3", Warning, "Return Request",
                   "A return request has been initiated for Silk Scarf", Some("1"), true,
                   1734772500000, Some(map["returnId" := Some("return-1"), "orderId" := Some("order-1")])) ]
  }

  /** The store as the module loads it; the counter starts at 0. */
  function Seed(): StoreState {
    StoreState(SeedUsers(), SeedProducts(), SeedOrders(), SeedReturnRequests(),
               SeedTemplates(), SeedNotifications(), 0)
  }

  /** A hand-written id `notif-<c>` has no counter field. */
  lemma ShortIdHasNoCounter(id: string)
    requires |id| == 7 && id[..6] == "notif-" && id[6] != '-'
    ensures ParseCounter(id) == None
  {
    var rest := id[6..];
    assert rest == [id[6]];
    assert IndexOfChar(rest, '-') == 1;
  }

  lemma SeedValid()
    ensures IdsValid(SeedNotifications(), 0)
  {
    var ns := SeedNotifications();
    assert |ns| == 3;
    assert ns[0].id == "notif-1" && ns[1].id == "notif-2" && ns[2].id == "notif-3";
    ShortIdHasNoCounter("notif-1");
    ShortIdHasNoCounter("notif-2");
    ShortIdHasNoCounter("notif-3");
  }

  // ---------------------------------------------------------------------
  // The mutable store

  class Store {
    var users: seq<User>
    var products: seq<Product>
    var orders: seq<Order>
    var returnRequests: seq<ReturnRequest>
    var templates: seq<EmailTemplate>
    var notifications: seq<Notification>
    var counter: nat

    function State(): StoreState
      reads this
    {
      StoreState(users, products, orders, returnRequests, templates, notifications, counter)
    }

    constructor ()
      ensures State() == Seed()
      ensures Valid(State())
    {
      users, products, orders := SeedUsers(), SeedProducts(), SeedOrders();
      returnRequests, templates := SeedReturnRequests(), SeedTemplates();
      notifications, counter := SeedNotifications(), 0;
      SeedValid();
    }

    /** `generateUniqueId`: reads the counter, then advances it by one. */
    method GenerateUniqueId(now: nat, suffix: string) returns (id: string)
      modifies this`counter
      ensures id == MakeId(now, old(counter), suffix)
      ensures counter == old(counter) + 1
    {
      id := MakeId(now, counter, suffix);
      counter := counter + 1;
    }

    /** `addNotification`: `unshift` of the new record. */
    method AddNotification(input: NewNotification, stamp: Stamp) returns (record: Notification)
      modifies this
      ensures State() == AddNotificationTo(old(State()), input, stamp).state
      ensures record == AddNotificationTo(old(State()), input, stamp).record
      ensures old(Valid(State())) ==> Valid(State())
    {
      ghost var before := State();
      var id := GenerateUniqueId(stamp.now, stamp.suffix);
      record := NewRecord(input, id, stamp.createdAt);
      notifications := [record] + notifications;
      if Valid(before) {
        AddNotificationValid(before, input, stamp);
      }
    }

    method MarkNotificationAsRead(id: string)
      modifies this
      ensures State() == old(State()).(notifications := MarkRead(old(notifications), id))
      ensures old(Valid(State())) ==> Valid(State())
    {
      if Valid(State()) {
        MarkReadValid(State(), id);
      }
      notifications := MarkRead(notifications, id);
    }

    method UpdateProductStatus(id: string, status: ProductStatus, now: int)
      modifies this
      ensures State() == old(State()).(products := ProductsWithStatus(old(products), id, status, now))
    {
      products := ProductsWithStatus(products, id, status, now);
    }

    method UpdateUserStatus(id: string, status: UserStatus)
      modifies this
      ensures State() == old(State()).(users := UsersWithStatus(old(users), id, status))
    {
      users := UsersWithStatus(users, id, status);
    }

    method UpdateUserBadgeLevel(id: string, badge: Option<BadgeLevel>)
      modifies this
      ensures State() == old(State()).(users := UsersWithBadge(old(users), id, badge))
    {
      users := UsersWithBadge(users, id, badge);
    }
  }
}
