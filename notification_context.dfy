/** The client-side notification list (src/contexts/NotificationContext.tsx):
    a list seeded from the store's notifications that new pushes and local
    creations are prepended to, with its unread count, mark-as-read and
    latest-n views. */
module NotificationContext {
  import opened Wrappers
  import opened Strings
  import opened Types
  import opened MockData

  /** `notifications.filter(n => !n.isRead)`. */
  function Unread(ns: seq<Notification>): (r: seq<Notification>)
    ensures |r| <= |ns|
    ensures forall k :: 0 <= k < |r| ==> !r[k].isRead && r[k] in ns
  {
    if ns == [] then []
    else if !ns[0].isRead then [ns[0]] + Unread(ns[1..])
    else Unread(ns[1..])
  }

  /** `unreadCount`. */
  function UnreadCount(ns: seq<Notification>): (c: nat)
    ensures c <= |ns|
  {
    |Unread(ns)|
  }

  /** The count adds up over a split of the list ... */
  lemma {:induction false} UnreadCountConcat(a: seq<Notification>, b: seq<Notification>)
    ensures UnreadCount(a + b) == UnreadCount(a) + UnreadCount(b)
  {
    if a != [] {
      assert (a + b)[0] == a[0];
      assert (a + b)[1..] == a[1..] + b;
      UnreadCountConcat(a[1..], b);
    } else {
      assert a + b == b;
    }
  }

  /** ... and a single entry counts one exactly when it is unread. */
  lemma UnreadCountSingle(n: Notification)
    ensures UnreadCount([n]) == if n.isRead then 0 else 1
  {
    assert [n][1..] == [];
  }

  /** The count is the list length when nothing is read and zero when
      everything is. */
  lemma {:induction false} UnreadCountExtremes(ns: seq<Notification>)
    ensures (forall i :: 0 <= i < |ns| ==> !ns[i].isRead) ==> UnreadCount(ns) == |ns|
    ensures (forall i :: 0 <= i < |ns| ==> ns[i].isRead) ==> UnreadCount(ns) == 0
  {
    if ns != [] {
      UnreadCountExtremes(ns[1..]);
    }
  }

  function MarkIfId(n: Notification, id: string): Notification {
    if n.id == id then n.(isRead := true) else n
  }

  /** `prev.map(n => n.id === id ? { ...n, isRead: true } : n)`. */
  function MarkAllRead(ns: seq<Notification>, id: string): (r: seq<Notification>)
    ensures |r| == |ns|
    ensures forall i :: 0 <= i < |ns| ==> r[i] == MarkIfId(ns[i], id)
  {
    if ns == [] then [] else [MarkIfId(ns[0], id)] + MarkAllRead(ns[1..], id)
  }

  /** Every entry with the id is read afterwards, the others are untouched,
      a repeat is a no-op, and the unread count never goes up. */
  lemma {:induction false} MarkAllReadEffect(ns: seq<Notification>, id: string)
    ensures forall i :: 0 <= i < |ns| ==> MarkAllRead(ns, id)[i].id == ns[i].id
    ensures forall i :: 0 <= i < |ns| && ns[i].id == id ==> MarkAllRead(ns, id)[i].isRead
    ensures forall i :: 0 <= i < |ns| && ns[i].id != id ==> MarkAllRead(ns, id)[i] == ns[i]
    ensures MarkAllRead(MarkAllRead(ns, id), id) == MarkAllRead(ns, id)
    ensures UnreadCount(MarkAllRead(ns, id)) <= UnreadCount(ns)
  {
    var r := MarkAllRead(ns, id);
    assert MarkAllRead(r, id) == r;
    if ns != [] {
      MarkAllReadEffect(ns[1..], id);
      assert r == [MarkIfId(ns[0], id)] + MarkAllRead(ns[1..], id);
      UnreadCountConcat([MarkIfId(ns[0], id)], MarkAllRead(ns[1..], id));
      UnreadCountConcat([ns[0]], ns[1..]);
      assert ns == [ns[0]] + ns[1..];
      UnreadCountSingle(MarkIfId(ns[0], id));
      UnreadCountSingle(ns[0]);
    }
  }

  /** With unique ids, marking every match in the list agrees with the
      store's first-match update. */
  lemma MarkAllReadAgreesWithStore(ns: seq<Notification>, id: string)
    requires UniqueIds(ns)
    ensures MarkAllRead(ns, id) == MarkRead(ns, id)
  {
    MarkReadEffect(ns, id);
    var r, s := MarkAllRead(ns, id), MarkRead(ns, id);
    forall j | 0 <= j < |ns|
      ensures r[j] == s[j]
    {
      match FindFirst(ns, IsNotification(id))
      case None =>
      case Some(k) =>
        assert IsNotification(id)(ns[k]);
        if j != k {
          assert ns[j].id != ns[k].id;
        }
    }
  }

  /** `getLatestNotifications`: `notifications.slice(0, count)`. */
  function LatestNotifications(ns: seq<Notification>, count: int): (r: seq<Notification>)
    ensures |r| <= |ns|
  {
    Slice(ns, 0, count)
  }

  /** For a count that is not negative, the first min(count, length)
      entries; a negative count drops that many from the end. */
  lemma LatestIsPrefix(ns: seq<Notification>, count: int)
    ensures 0 <= count <= |ns| ==> LatestNotifications(ns, count) == ns[..count]
    ensures count > |ns| ==> LatestNotifications(ns, count) == ns
    ensures count < 0 ==>
              LatestNotifications(ns, count) == (if |ns| + count > 0 then ns[..|ns| + count] else [])
  {
  }

  /** The record the context's own `addNotification` builds: the id is
      `notif-<timestamp>`, without a counter. */
  function LocalRecord(input: NewNotification, now: nat, createdAt: int): (n: Notification)
    ensures n.id == "notif-" + NatToString(now)
    ensures n.ntype == input.ntype && n.title == input.title && n.message == input.message
    ensures n.userId == input.userId && n.isRead == input.isRead && n.metadata == input.metadata
    ensures n.createdAt == createdAt
  {
    NewRecord(input, "notif-" + NatToString(now), createdAt)
  }

  /** The context builds the record the store's `addNotification` would
      build from the same input and creation time, except for the id, and
      the two ids always differ. */
  lemma LocalRecordAgreesWithStore(st: StoreState, input: NewNotification, now: nat, stamp: Stamp)
    ensures var stored := AddNotificationTo(st, input, stamp).record;
      && LocalRecord(input, now, stamp.createdAt) == stored.(id := "notif-" + NatToString(now))
      && LocalRecord(input, now, stamp.createdAt).id != stored.id
  {
    LocalIdNotStoreId(now, stamp.now, st.counter, stamp.suffix);
  }

  /** Two local creations in the same millisecond clash. */
  lemma LocalIdsCollide(a: NewNotification, b: NewNotification, now: nat, c1: int, c2: int, ns: seq<Notification>)
    ensures !UniqueIds([LocalRecord(b, now, c2), LocalRecord(a, now, c1)] + ns)
  {
    var l := [LocalRecord(b, now, c2), LocalRecord(a, now, c1)] + ns;
    assert l[0].id == l[1].id;
  }

  /** A local id never equals an id the store generates. */
  lemma LocalIdNotStoreId(t: nat, now: nat, counter: nat, suffix: string)
    ensures "notif-" + NatToString(t) != MakeId(now, counter, suffix)
  {
    var local, stored := "notif-" + NatToString(t), MakeId(now, counter, suffix);
    var d := NatToString(now);
    var k := 6 + |d|;
    assert stored[k] == '-';
  }

  /** The context's own list. */
  class NotificationProvider {
    var notifications: seq<Notification>

    /** The list starts as the store's notifications. */
    constructor (store: Store)
      ensures notifications == store.notifications
    {
      notifications := store.notifications;
    }

    /** The subscription callback: the pushed notification goes in front. */
    method Receive(n: Notification)
      modifies this
      ensures notifications == [n] + old(notifications)
      ensures UnreadCount(notifications) == UnreadCount(old(notifications)) + (if n.isRead then 0 else 1)
    {
      notifications := [n] + notifications;
      UnreadCountConcat([n], old(notifications));
      UnreadCountSingle(n);
    }

    /** `markAsRead`: the store's first match, then every match in this
        list. */
    method MarkAsRead(store: Store, id: string)
      modifies this, store
      ensures notifications == MarkAllRead(old(notifications), id)
      ensures store.State() == old(store.State()).(notifications := MarkRead(old(store.notifications), id))
      ensures UnreadCount(notifications) <= UnreadCount(old(notifications))
    {
      store.MarkNotificationAsRead(id);
      notifications := MarkAllRead(notifications, id);
      MarkAllReadEffect(old(notifications), id);
    }

    /** The context's `addNotification`. */
    method AddNotification(input: NewNotification, now: nat, createdAt: int)
      modifies this
      ensures notifications == [LocalRecord(input, now, createdAt)] + old(notifications)
    {
      notifications := [LocalRecord(input, now, createdAt)] + notifications;
    }
  }
}
