/** The notification log page (src/app/admin/notifications/page.tsx):
    search and filter over the context's list, ten entries per page, and
    the summary statistics. */
module NotificationLogs {
  import opened Wrappers
  import opened Strings
  import opened Types
  import opened NotificationContext

  const ItemsPerPage: nat := 10

  /** The page's filter state; a cleared select holds `null` (`None`). */
  datatype LogFilters = LogFilters(searchTerm: string, typeFilter: Option<string>,
                                   statusFilter: Option<string>, currentPage: int)

  /** `resetFilters`. */
  function ResetFilters(): (f: LogFilters)
    ensures f.searchTerm == "" && f.currentPage == 1
    ensures f.typeFilter == Some("all") && f.statusFilter == Some("all")
  {
    LogFilters("", Some("all"), Some("all"), 1)
  }

  /** `getNotificationTypeColor`. */
  function TypeColor(t: NotificationType): string {
    match t
    case Success => "green"
    case Warning => "yellow"
    case Error => "red"
    case Info => "blue"
  }

  /** Each notification type has its own badge colour. */
  lemma TypeColorsDistinct(a: NotificationType, b: NotificationType)
    requires a != b
    ensures TypeColor(a) != TypeColor(b)
  {
  }

  // ---------------------------------------------------------------------
  // Filtering

  /** Case-insensitive substring match on the title or the message. */
  predicate MatchesSearch(n: Notification, term: string) {
    var t := ToLower(term);
    Contains(ToLower(n.title), t) || Contains(ToLower(n.message), t)
  }

  predicate MatchesType(n: Notification, typeFilter: Option<string>) {
    typeFilter == Some("all") || typeFilter == Some(NotificationTypeName(n.ntype))
  }

  predicate MatchesStatus(n: Notification, statusFilter: Option<string>) {
    || statusFilter == Some("all")
    || (statusFilter == Some("read") && n.isRead)
    || (statusFilter == Some("unread") && !n.isRead)
  }

  predicate Matches(n: Notification, f: LogFilters) {
    MatchesSearch(n, f.searchTerm) && MatchesType(n, f.typeFilter) && MatchesStatus(n, f.statusFilter)
  }

  /** `a` is `b` with some entries left out, the rest in their order. */
  predicate Subsequence<T(==)>(a: seq<T>, b: seq<T>)
    decreases |b|
  {
    if a == [] then true
    else if b == [] then false
    else (a[0] == b[0] && Subsequence(a[1..], b[1..])) || Subsequence(a, b[1..])
  }

  /** `filteredNotifications`. */
  function Filtered(ns: seq<Notification>, f: LogFilters): (r: seq<Notification>)
    ensures |r| <= |ns|
    ensures forall k :: 0 <= k < |r| ==> Matches(r[k], f)
    ensures forall k :: 0 <= k < |ns| && Matches(ns[k], f) ==> ns[k] in r
    ensures Subsequence(r, ns)
  {
    if ns == [] then []
    else
      var rest := Filtered(ns[1..], f);
      assert forall k :: 1 <= k < |ns| ==> ns[k] == ns[1..][k - 1];
      if Matches(ns[0], f) then
        assert ([ns[0]] + rest)[1..] == rest;
        [ns[0]] + rest
      else rest
  }

  /** The filter keeps every matching entry as often as it occurs and
      drops every other one. */
  lemma {:induction false} FilteredMultiset(ns: seq<Notification>, f: LogFilters, x: Notification)
    ensures multiset(Filtered(ns, f))[x] == if Matches(x, f) then multiset(ns)[x] else 0
  {
    if ns != [] {
      FilteredMultiset(ns[1..], f, x);
      assert ns == [ns[0]] + ns[1..];
      assert multiset(ns) == multiset([ns[0]]) + multiset(ns[1..]);
    }
  }

  /** The empty search with both selects on 'all' keeps everything. */
  lemma {:induction false} DefaultFiltersKeepAll(ns: seq<Notification>, page: int)
    ensures Filtered(ns, LogFilters("", Some("all"), Some("all"), page)) == ns
  {
    var f := LogFilters("", Some("all"), Some("all"), page);
    if ns != [] {
      assert ToLower("") == "";
      ContainsEmpty(ToLower(ns[0].title));
      assert Matches(ns[0], f);
      DefaultFiltersKeepAll(ns[1..], page);
      assert ns == [ns[0]] + ns[1..];
    }
  }

  /** A cleared type or status select matches nothing. */
  lemma ClearedFilterMatchesNothing(ns: seq<Notification>, f: LogFilters)
    requires f.typeFilter == None || f.statusFilter == None
    ensures Filtered(ns, f) == []
  {
  }

  /** 'read' and 'unread' select exactly the read and the unread entries,
      among those the search and type selects keep. */
  lemma StatusFilterSelects(n: Notification, f: LogFilters)
    ensures f.statusFilter == Some("read") ==>
              (Matches(n, f) <==> n.isRead && MatchesSearch(n, f.searchTerm) && MatchesType(n, f.typeFilter))
    ensures f.statusFilter == Some("unread") ==>
              (Matches(n, f) <==> !n.isRead && MatchesSearch(n, f.searchTerm) && MatchesType(n, f.typeFilter))
  {
  }

  // ---------------------------------------------------------------------
  // Pagination

  /** `Math.ceil(length / ITEMS_PER_PAGE)`. */
  function TotalPages(len: nat): (p: nat)
    ensures p * ItemsPerPage >= len
    ensures p > 0 ==> (p - 1) * ItemsPerPage < len
  {
    (len + ItemsPerPage - 1) / ItemsPerPage
  }

  /** `filtered.slice((page - 1) * 10, page * 10)`. */
  function Page<T>(fs: seq<T>, page: int): (r: seq<T>)
    ensures |r| <= ItemsPerPage
  {
    Slice(fs, (page - 1) * ItemsPerPage, page * ItemsPerPage)
  }

  function Pages<T>(fs: seq<T>, k: nat): seq<T> {
    if k == 0 then [] else Pages(fs, k - 1) + Page(fs, k)
  }

  function Min(a: nat, b: nat): nat {
    if a <= b then a else b
  }

  /** Pages 1..k, in order, are the first min(10k, length) entries. */
  lemma {:induction false} PagesPrefix<T>(fs: seq<T>, k: nat)
    ensures Pages(fs, k) == fs[..Min(k * ItemsPerPage, |fs|)]
  {
    if k > 0 {
      PagesPrefix(fs, k - 1);
      var a, b := Min((k - 1) * ItemsPerPage, |fs|), Min(k * ItemsPerPage, |fs|);
      assert Page(fs, k) == fs[a..b];
      assert fs[..a] + fs[a..b] == fs[..b];
    }
  }

  /** Pages 1..totalPages concatenated give back the whole filtered list,
      and every page beyond them is empty. */
  lemma PagesCoverAll<T>(fs: seq<T>)
    ensures Pages(fs, TotalPages(|fs|)) == fs
    ensures forall p :: p > TotalPages(|fs|) ==> Page(fs, p) == []
  {
    PagesPrefix(fs, TotalPages(|fs|));
    assert fs[..|fs|] == fs;
  }

  /** After a reset the view is the first ten notifications. */
  lemma ResetShowsFirstPage(ns: seq<Notification>)
    ensures Page(Filtered(ns, ResetFilters()), ResetFilters().currentPage) == ns[..Min(ItemsPerPage, |ns|)]
  {
    DefaultFiltersKeepAll(ns, 1);
  }

  // ---------------------------------------------------------------------
  // Statistics

  /** `acc[type] || 0`. */
  function CountOf(m: map<string, nat>, k: string): nat {
    if k in m then m[k] else 0
  }

  /** The `reduce` that tallies entries per type name. */
  function Tally(acc: map<string, nat>, ns: seq<Notification>): map<string, nat>
    decreases |ns|
  {
    if ns == [] then acc
    else
      var k := NotificationTypeName(ns[0].ntype);
      Tally(acc[k := CountOf(acc, k) + 1], ns[1..])
  }

  datatype Stats = Stats(total: nat, unread: nat, byType: map<string, nat>)

  /** `stats`. */
  function StatsOf(ns: seq<Notification>): (s: Stats)
    ensures s.total == |ns| && s.unread == UnreadCount(ns)
  {
    Stats(|ns|, UnreadCount(ns), Tally(map[], ns))
  }

  function TypeNames(): set<string> {
    {"info", "success", "warning", "error"}
  }

  function SumOfTypes(m: map<string, nat>): nat {
    CountOf(m, "info") + CountOf(m, "success") + CountOf(m, "warning") + CountOf(m, "error")
  }

  /** The type names that occur in the list. */
  function TypesIn(ns: seq<Notification>): (r: set<string>)
    ensures forall k :: k in r <==> exists i :: 0 <= i < |ns| && NotificationTypeName(ns[i].ntype) == k
  {
    if ns == [] then {}
    else
      var rest := TypesIn(ns[1..]);
      assert forall i :: 1 <= i < |ns| ==> ns[i] == ns[1..][i - 1];
      assert forall i :: 0 <= i < |ns[1..]| ==> ns[1..][i] == ns[i + 1];
      {NotificationTypeName(ns[0].ntype)} + rest
  }

  /** Counting one more entry of a known type adds one to the sum. */
  lemma BumpSum(acc: map<string, nat>, k: string)
    requires k in TypeNames()
    ensures SumOfTypes(acc[k := CountOf(acc, k) + 1]) == SumOfTypes(acc) + 1
  {
    var acc2 := acc[k := CountOf(acc, k) + 1];
    if k == "info" {
      assert CountOf(acc2, "success") == CountOf(acc, "success");
      assert CountOf(acc2, "warning") == CountOf(acc, "warning");
      assert CountOf(acc2, "error") == CountOf(acc, "error");
    } else if k == "success" {
      assert CountOf(acc2, "info") == CountOf(acc, "info");
      assert CountOf(acc2, "warning") == CountOf(acc, "warning");
      assert CountOf(acc2, "error") == CountOf(acc, "error");
    } else if k == "warning" {
      assert CountOf(acc2, "info") == CountOf(acc, "info");
      assert CountOf(acc2, "success") == CountOf(acc, "success");
      assert CountOf(acc2, "error") == CountOf(acc, "error");
    } else {
      assert CountOf(acc2, "info") == CountOf(acc, "info");
      assert CountOf(acc2, "success") == CountOf(acc, "success");
      assert CountOf(acc2, "warning") == CountOf(acc, "warning");
    }
  }

  lemma {:induction false} TallySum(acc: map<string, nat>, ns: seq<Notification>)
    ensures SumOfTypes(Tally(acc, ns)) == SumOfTypes(acc) + |ns|
    decreases |ns|
  {
    if ns != [] {
      var k := NotificationTypeName(ns[0].ntype);
      BumpSum(acc, k);
      TallySum(acc[k := CountOf(acc, k) + 1], ns[1..]);
    }
  }

  lemma {:induction false} TallyKeys(acc: map<string, nat>, ns: seq<Notification>)
    ensures Tally(acc, ns).Keys == acc.Keys + TypesIn(ns)
    decreases |ns|
  {
    if ns != [] {
      var k := NotificationTypeName(ns[0].ntype);
      TallyKeys(acc[k := CountOf(acc, k) + 1], ns[1..]);
      assert TypesIn(ns) == {k} + TypesIn(ns[1..]);
    }
  }

  lemma {:induction false} TypesInKnown(ns: seq<Notification>)
    ensures TypesIn(ns) <= TypeNames()
  {
    if ns != [] {
      TypesInKnown(ns[1..]);
      assert TypesIn(ns) == {NotificationTypeName(ns[0].ntype)} + TypesIn(ns[1..]);
    }
  }

  /** The per-type counts add up to the total, a type is a key exactly when
      some entry has it, and so there are at most four. */
  lemma ByTypeSumsToTotal(ns: seq<Notification>)
    ensures var s := StatsOf(ns);
      && SumOfTypes(s.byType) == s.total
      && s.byType.Keys <= TypeNames()
      && |s.byType.Keys| <= 4
      && (forall k :: k in s.byType <==> exists i :: 0 <= i < |ns| && NotificationTypeName(ns[i].ntype) == k)
  {
    TallySum(map[], ns);
    TallyKeys(map[], ns);
    TypesInKnown(ns);
    assert StatsOf(ns).byType.Keys == TypesIn(ns);
    var keys := StatsOf(ns).byType.Keys;
    SubsetCard(keys, TypeNames());
  }

  lemma SubsetCard(a: set<string>, b: set<string>)
    requires a <= b
    ensures |a| <= |b|
  {
    assert b == a + (b - a);
  }

  /** `n => n.isRead`, the complement of the unread filter. */
  function ReadCount(ns: seq<Notification>): nat {
    if ns == [] then 0 else (if ns[0].isRead then 1 else 0) + ReadCount(ns[1..])
  }

  /** unread <= total, and the "Read" card (total - unread) counts exactly
      the read entries. */
  lemma {:induction false} ReadCardIsReadCount(ns: seq<Notification>)
    ensures StatsOf(ns).unread <= StatsOf(ns).total
    ensures StatsOf(ns).total - StatsOf(ns).unread == ReadCount(ns)
  {
    if ns != [] {
      ReadCardIsReadCount(ns[1..]);
      UnreadCountConcat([ns[0]], ns[1..]);
      UnreadCountSingle(ns[0]);
      assert ns == [ns[0]] + ns[1..];
    }
  }
}
