/** The store's windowed pagers (scripts/pilot_store.py) and the fetch loops that
    pull through them (packages/acip_sync/fetch.py). */
module Paging {
  import opened Timestamps
  import opened Wrappers
  import opened Sorting

  /** A raw product as a store reports it. */
  datatype Raw = Raw(id: string, modified: string, body: string)

  function Clamp(low: int, high: int, n: int): int {
    if n < low then low else if n > high then high else n
  }

  /** Python's `items[start : start + n]` for non-negative start and n. */
  function Window<T>(items: seq<T>, start: nat, n: nat): seq<T> {
    items[Clamp(0, |items|, start)..Clamp(0, |items|, start + n)]
  }

  // ---- what the store lists -----------------------------------------------------------

  predicate StrLeq(s: string, t: string) {
    !StrLess(t, s)
  }

  lemma {:induction false} StrLessTransitive(r: string, s: string, t: string)
    ensures StrLess(r, s) && StrLess(s, t) ==> StrLess(r, t)
    ensures StrLeq(r, s) && StrLeq(s, t) ==> StrLeq(r, t)
    ensures StrLeq(r, s) || StrLeq(s, r)
    decreases |r|
  {
    if r != "" && s != "" && t != "" {
      StrLessTransitive(r[1..], s[1..], t[1..]);
    } else if r != "" && s != "" {
      StrLessTransitive(r[1..], s[1..], "");
    }
  }

  function ByModified(): (Raw, Raw) -> bool {
    (p: Raw, q: Raw) => StrLeq(p.modified, q.modified)
  }

  lemma ByModifiedOrders()
    ensures TotalPreorder(ByModified())
  {
    var leq := ByModified();
    forall p, q ensures leq(p, q) || leq(q, p) {
      StrLessTransitive(p.modified, q.modified, "");
    }
    forall p, q, r | leq(p, q) && leq(q, r) ensures leq(p, r) {
      StrLessTransitive(p.modified, q.modified, r.modified);
    }
  }

  function Since(items: seq<Raw>, since: Option<string>): seq<Raw> {
    if items == [] then []
    else if ChangedSince(items[0], since) then [items[0]] + Since(items[1..], since)
    else Since(items[1..], since)
  }

  /** Products oldest change first, and only those changed after `since`. */
  function Listing(products: seq<Raw>, since: Option<string>): seq<Raw> {
    Since(Sort(ByModified(), products), since)
  }

  predicate ChangedSince(p: Raw, since: Option<string>) {
    since.None? || StrLess(since.value, p.modified)
  }

  lemma {:induction false} SinceSelects(items: seq<Raw>, since: Option<string>, p: Raw)
    ensures multiset(Since(items, since))[p] == if ChangedSince(p, since) then multiset(items)[p] else 0
  {
    if items != [] {
      SinceSelects(items[1..], since, p);
      assert items == [items[0]] + items[1..];
    }
  }

  lemma {:induction false} SinceKeepsOrder(items: seq<Raw>, since: Option<string>)
    requires SortedBy(ByModified(), items)
    ensures SortedBy(ByModified(), Since(items, since))
  {
    if items != [] {
      var rest := Since(items[1..], since);
      SinceKeepsOrder(items[1..], since);
      forall i | 0 <= i < |rest| ensures ByModified()(items[0], rest[i]) {
        SinceSelects(items[1..], since, rest[i]);
        assert rest[i] in multiset(rest);
        assert rest[i] in items[1..];
      }
    }
  }

  /** The listing holds each changed product as often as the store does, nothing
      else, and oldest change first. */
  lemma ListingIsChanged(products: seq<Raw>, since: Option<string>)
    ensures forall p ::
              multiset(Listing(products, since))[p] == if ChangedSince(p, since) then multiset(products)[p] else 0
    ensures SortedBy(ByModified(), Listing(products, since))
  {
    ByModifiedOrders();
    var sorted := Sort(ByModified(), products);
    SortSorts(ByModified(), products);
    SinceKeepsOrder(sorted, since);
    forall p
      ensures multiset(Listing(products, since))[p] == if ChangedSince(p, since) then multiset(products)[p] else 0
    {
      SinceSelects(sorted, since, p);
    }
  }

  /** `woo_products`: one page, with per_page clamped to 1..100. */
  function WooPage<T>(items: seq<T>, perPage: int, page: int): seq<T> {
    var n := Clamp(1, 100, perPage);
    Window(items, ((if page < 1 then 1 else page) - 1) * n, n)
  }

  /** `opencart_router`: one page and the `more` flag, with limit clamped to 1..500. */
  function OpenCartPage<T>(items: seq<T>, limit: int, page: int): (seq<T>, bool) {
    var n, p := Clamp(1, 500, limit), if page < 1 then 1 else page;
    (Window(items, (p - 1) * n, n), |items| > p * n)
  }

  // ---- the fetch loops ------------------------------------------------------------------

  /** One more page extends the pages already taken. */
  lemma NextPage<T>(items: seq<T>, n: nat, page: nat)
    requires n > 0 && page > 0
    ensures Window(items, 0, (page - 1) * n) + Window(items, (page - 1) * n, n) == Window(items, 0, page * n)
    ensures |Window(items, (page - 1) * n, n)| < n <==> |items| < page * n
    ensures |items| <= page * n ==> Window(items, 0, page * n) == items
  {
  }

  /** `fetch_woo_changed`: pages until one comes back shorter than asked for. The
      loop gives the whole listing for page sizes up to the server's own maximum;
      beyond it the first clamped page already looks short, and the rest is lost.
      A page size below 1 would never see a short page. */
  method FetchWooChanged<T>(items: seq<T>, pageSize: int) returns (got: seq<T>)
    requires pageSize >= 1
    ensures got == if pageSize <= 100 || |items| <= 100 then items else items[..100]
  {
    got := [];
    var page: nat := 1;
    ghost var n := Clamp(1, 100, pageSize);
    while true
      invariant page >= 1 && (page > 1 ==> pageSize <= 100 && (page - 1) * n <= |items|)
      invariant got == Window(items, 0, (page - 1) * n)
      decreases |items| + 1 - (page - 1) * n
    {
      var products := WooPage(items, pageSize, page);
      NextPage(items, n, page);
      got := got + products;
      if |products| < pageSize {
        assert page == 1 ==> page * n == n;
        return;
      }
      page := page + 1;
    }
  }

  /** `fetch_opencart_changed`: pages while the server says there are more, and so
      gives the whole listing for every page size. */
  method FetchOpenCartChanged<T>(items: seq<T>, pageSize: int) returns (got: seq<T>)
    ensures got == items
  {
    got := [];
    var page: nat := 1;
    ghost var n := Clamp(1, 500, pageSize);
    while true
      invariant page >= 1 && (page - 1) * n <= |items|
      invariant got == Window(items, 0, (page - 1) * n)
      decreases |items| + 1 - (page - 1) * n
    {
      var (products, more) := OpenCartPage(items, pageSize, page);
      NextPage(items, n, page);
      got := got + products;
      if !more {
        return;
      }
      page := page + 1;
    }
  }
}
