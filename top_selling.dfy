/** `Oramaclient.getTopSellingProducts`: hits grouped by the string key
    `stockCode + "-" + description`, with quantity, occurrence count and revenue summed per
    group, then sorted by total quantity, largest first, and cut to a limit
    (src/lib/Orama.ts:188-219). */
module TopSelling {
  import opened Seqs
  import opened Retail

  /** One entry of the product map. `averagePrice` and `countries` are those of the first
      hit of the group and are never updated. */
  datatype ProductGroup = ProductGroup(
    stockCode: string,
    description: string,
    totalQuantity: int,
    count: nat,
    averagePrice: int,
    totalRevenue: int,
    countries: seq<string>)

  /** The grouping key. Being a concatenation, it can be the same for two different
      (stock code, description) pairs (`KeyCollision`). */
  function GroupKey(d: Document): string {
    d.stockCode + "-" + d.description
  }

  function KeysOf(hits: seq<Hit>): (ks: seq<string>)
    ensures |ks| == |hits|
  {
    seq(|hits|, i requires 0 <= i < |hits| => GroupKey(hits[i].document))
  }

  /** The distinct keys in the order in which they first occur, which is the order of a
      JavaScript `Map`'s values. */
  function KeyOrder(hits: seq<Hit>): seq<string> {
    Distinct(KeysOf(hits))
  }

  /** Sum of the quantities of the hits with key `k`. */
  function QuantityOf(hits: seq<Hit>, k: string): int {
    if hits == [] then 0
    else
      var last := hits[|hits| - 1].document;
      QuantityOf(hits[..|hits| - 1], k) + (if GroupKey(last) == k then last.quantity else 0)
  }

  /** Number of hits with key `k`. */
  function CountOf(hits: seq<Hit>, k: string): nat {
    if hits == [] then 0
    else
      var last := hits[|hits| - 1].document;
      CountOf(hits[..|hits| - 1], k) + (if GroupKey(last) == k then 1 else 0)
  }

  /** Sum of price times quantity over the hits with key `k`. */
  function RevenueOf(hits: seq<Hit>, k: string): int {
    if hits == [] then 0
    else
      var last := hits[|hits| - 1].document;
      RevenueOf(hits[..|hits| - 1], k) + (if GroupKey(last) == k then last.price * last.quantity else 0)
  }

  /** The document of the first hit with key `k`. */
  function FirstWithKey(hits: seq<Hit>, k: string): (d: Document)
    requires k in KeysOf(hits)
    ensures GroupKey(d) == k
  {
    if GroupKey(hits[0].document) == k then hits[0].document
    else
      assert KeysOf(hits)[1..] == KeysOf(hits[1..]);
      FirstWithKey(hits[1..], k)
  }

  /** The document `FirstWithKey` picks is that of the first hit with key `k`: no earlier
      hit has the key. */
  lemma {:induction false} FirstWithKeyIsFirst(hits: seq<Hit>, k: string)
    requires k in KeysOf(hits)
    ensures exists i :: 0 <= i < |hits| && hits[i].document == FirstWithKey(hits, k) &&
                        forall j :: 0 <= j < i ==> GroupKey(hits[j].document) != k
    decreases |hits|
  {
    if GroupKey(hits[0].document) != k {
      assert KeysOf(hits)[1..] == KeysOf(hits[1..]);
      FirstWithKeyIsFirst(hits[1..], k);
      var i :| 0 <= i < |hits| - 1 && hits[1..][i].document == FirstWithKey(hits[1..], k) &&
               forall j :: 0 <= j < i ==> GroupKey(hits[1..][j].document) != k;
      forall j | 0 <= j < i + 1 ensures GroupKey(hits[j].document) != k {
        if j > 0 { assert hits[j] == hits[1..][j - 1]; }
      }
      assert hits[i + 1].document == FirstWithKey(hits, k);
    } else {
      assert hits[0].document == FirstWithKey(hits, k);
    }
  }

  /** What the group of key `k` holds once every hit has been seen. */
  function GroupOf(hits: seq<Hit>, k: string): ProductGroup
    requires k in KeysOf(hits)
  {
    var first := FirstWithKey(hits, k);
    ProductGroup(first.stockCode, first.description, QuantityOf(hits, k), CountOf(hits, k),
                 first.price, RevenueOf(hits, k), [first.country])
  }

  /** The groups in the order of their keys' first occurrence. */
  function Grouped(hits: seq<Hit>): (gs: seq<ProductGroup>)
    ensures |gs| == |KeyOrder(hits)|
  {
    var ks := KeyOrder(hits);
    seq(|ks|, i requires 0 <= i < |ks| => GroupOf(hits, ks[i]))
  }

  /** The group a single hit starts. */
  function NewGroup(d: Document): ProductGroup {
    ProductGroup(d.stockCode, d.description, d.quantity, 1, d.price, d.price * d.quantity, [d.country])
  }

  /** A group with one more hit of its key added. */
  function AddToGroup(g: ProductGroup, d: Document): ProductGroup {
    g.(totalQuantity := g.totalQuantity + d.quantity, count := g.count + 1,
       totalRevenue := g.totalRevenue + d.price * d.quantity)
  }

  lemma KeysOfSnoc(s: seq<Hit>, x: Hit)
    ensures KeysOf(s + [x]) == KeysOf(s) + [GroupKey(x.document)]
  {
  }

  lemma {:induction false} FirstWithKeySnoc(s: seq<Hit>, x: Hit, k: string)
    requires k in KeysOf(s)
    ensures k in KeysOf(s + [x]) && FirstWithKey(s + [x], k) == FirstWithKey(s, k)
    decreases |s|
  {
    KeysOfSnoc(s, x);
    if GroupKey(s[0].document) != k {
      assert KeysOf(s)[1..] == KeysOf(s[1..]);
      assert (s + [x])[1..] == s[1..] + [x];
      FirstWithKeySnoc(s[1..], x, k);
    }
  }

  /** How one more hit changes the group of each key. */
  lemma GroupOfSnoc(s: seq<Hit>, x: Hit, k: string)
    requires k in KeysOf(s) || k == GroupKey(x.document)
    ensures k in KeysOf(s + [x])
    ensures GroupOf(s + [x], k) ==
      if k != GroupKey(x.document) then GroupOf(s, k)
      else if k in KeysOf(s) then AddToGroup(GroupOf(s, k), x.document)
      else NewGroup(x.document)
  {
    var t := s + [x];
    KeysOfSnoc(s, x);
    assert t[..|t| - 1] == s;
    if k in KeysOf(s) {
      FirstWithKeySnoc(s, x, k);
    } else {
      FirstIsLast(s, x, k);
      assert QuantityOf(s, k) == 0 && CountOf(s, k) == 0 && RevenueOf(s, k) == 0 by {
        AbsentKeySumsToZero(s, k);
      }
    }
  }

  lemma {:induction false} FirstIsLast(s: seq<Hit>, x: Hit, k: string)
    requires k !in KeysOf(s) && k == GroupKey(x.document)
    ensures k in KeysOf(s + [x]) && FirstWithKey(s + [x], k) == x.document
    decreases |s|
  {
    KeysOfSnoc(s, x);
    if s != [] {
      assert KeysOf(s)[0] == GroupKey(s[0].document);
      assert KeysOf(s)[1..] == KeysOf(s[1..]);
      assert (s + [x])[1..] == s[1..] + [x];
      FirstIsLast(s[1..], x, k);
    }
  }

  lemma {:induction false} AbsentKeySumsToZero(s: seq<Hit>, k: string)
    requires k !in KeysOf(s)
    ensures QuantityOf(s, k) == 0 && CountOf(s, k) == 0 && RevenueOf(s, k) == 0
    decreases |s|
  {
    if s != [] {
      var init := s[..|s| - 1];
      assert KeysOf(s) == KeysOf(init) + [GroupKey(s[|s| - 1].document)] by {
        KeysOfSnoc(init, s[|s| - 1]);
        assert s == init + [s[|s| - 1]];
      }
      AbsentKeySumsToZero(init, k);
    }
  }

  /** `m` and its insertion order `order` hold exactly the groups of the hits `seen`. */
  ghost predicate Summarises(m: map<string, ProductGroup>, order: seq<string>, seen: seq<Hit>) {
    && order == KeyOrder(seen)
    && (forall k :: k in m <==> k in KeysOf(seen))
    && (forall k :: k in m ==> k in KeysOf(seen) && m[k] == GroupOf(seen, k))
  }

  /** A hit whose key is already in the map adds to that key's group. */
  lemma AddToExisting(m: map<string, ProductGroup>, order: seq<string>, seen: seq<Hit>, x: Hit)
    requires Summarises(m, order, seen) && GroupKey(x.document) in m
    ensures var k := GroupKey(x.document);
            Summarises(m[k := AddToGroup(m[k], x.document)], order, seen + [x])
  {
    var k := GroupKey(x.document);
    var t := seen + [x];
    KeysOfSnoc(seen, x);
    assert t[..|t| - 1] == seen;
    forall k' | k' in m ensures GroupOf(t, k') == if k' == k then AddToGroup(m[k'], x.document) else m[k'] {
      GroupOfSnoc(seen, x, k');
    }
  }

  /** A hit with a new key starts a group and appends its key to the order. */
  lemma StartGroup(m: map<string, ProductGroup>, order: seq<string>, seen: seq<Hit>, x: Hit)
    requires Summarises(m, order, seen) && GroupKey(x.document) !in m
    ensures var k := GroupKey(x.document);
            Summarises(m[k := NewGroup(x.document)], order + [k], seen + [x])
  {
    var k := GroupKey(x.document);
    var t := seen + [x];
    KeysOfSnoc(seen, x);
    assert t[..|t| - 1] == seen;
    GroupOfSnoc(seen, x, k);
    forall k' | k' in m ensures GroupOf(t, k') == m[k'] {
      GroupOfSnoc(seen, x, k');
    }
  }

  lemma SummaryListsGroups(m: map<string, ProductGroup>, order: seq<string>, hits: seq<Hit>)
    requires Summarises(m, order, hits)
    ensures |order| == |Grouped(hits)|
    ensures forall j :: 0 <= j < |order| ==> order[j] in m && m[order[j]] == Grouped(hits)[j]
  {
  }

  /** The product map built by `forEach` over the hits, then `Array.from(map.values())`. */
  method GroupByProduct(hits: seq<Hit>) returns (groups: seq<ProductGroup>)
    ensures groups == Grouped(hits)
  {
    var productMap: map<string, ProductGroup> := map[];
    var order: seq<string> := [];
    var i := 0;
    while i < |hits|
      invariant 0 <= i <= |hits|
      invariant Summarises(productMap, order, hits[..i])
    {
      var doc := hits[i].document;
      var key := GroupKey(doc);
      assert hits[..i + 1] == hits[..i] + [hits[i]];
      if key in productMap {
        AddToExisting(productMap, order, hits[..i], hits[i]);
        productMap := productMap[key := AddToGroup(productMap[key], doc)];
      } else {
        StartGroup(productMap, order, hits[..i], hits[i]);
        productMap := productMap[key := NewGroup(doc)];
        order := order + [key];
      }
      i := i + 1;
    }
    assert hits[..i] == hits;
    SummaryListsGroups(productMap, order, hits);
    groups := seq(|order|, j requires 0 <= j < |order| => productMap[order[j]]);
  }

  // ---------------------------------------------------------------------------------
  // The sort and the cut
  // ---------------------------------------------------------------------------------

  /** Ordered by total quantity, largest first. */
  predicate ByQuantityDescending(gs: seq<ProductGroup>) {
    forall i, j :: 0 <= i < j < |gs| ==> gs[i].totalQuantity >= gs[j].totalQuantity
  }

  /** Inserts `g` before the first group whose total quantity does not exceed its own, so
      that it stays ahead of the equal groups that came after it. */
  function InsertByQuantity(g: ProductGroup, gs: seq<ProductGroup>): (r: seq<ProductGroup>)
    ensures multiset(r) == multiset(gs) + multiset{g}
    ensures |r| == |gs| + 1
  {
    if gs == [] || gs[0].totalQuantity <= g.totalQuantity then [g] + gs
    else
      assert gs == [gs[0]] + gs[1..];
      [gs[0]] + InsertByQuantity(g, gs[1..])
  }

  /** Every element of the insertion is `g` or an element of `gs`. */
  lemma InsertedFrom(g: ProductGroup, gs: seq<ProductGroup>, k: nat)
    requires k < |InsertByQuantity(g, gs)|
    ensures InsertByQuantity(g, gs)[k] == g || InsertByQuantity(g, gs)[k] in gs
  {
    var r := InsertByQuantity(g, gs);
    assert r[k] in multiset(gs) + multiset{g};
  }

  lemma {:induction false} InsertKeepsOrder(g: ProductGroup, gs: seq<ProductGroup>)
    requires ByQuantityDescending(gs)
    ensures ByQuantityDescending(InsertByQuantity(g, gs))
    decreases |gs|
  {
    if gs != [] && gs[0].totalQuantity > g.totalQuantity {
      var rest := InsertByQuantity(g, gs[1..]);
      InsertKeepsOrder(g, gs[1..]);
      forall k | 0 <= k < |rest| ensures gs[0].totalQuantity >= rest[k].totalQuantity {
        InsertedFrom(g, gs[1..], k);
      }
    }
  }

  /** `sort((a, b) => b.totalQuantity - a.totalQuantity)`: largest first; stable, as
      `SortIsStable` shows. */
  function SortByQuantity(gs: seq<ProductGroup>): (r: seq<ProductGroup>)
    ensures multiset(r) == multiset(gs)
    ensures ByQuantityDescending(r)
    ensures |r| == |gs|
  {
    if gs == [] then []
    else
      assert gs == [gs[0]] + gs[1..];
      InsertKeepsOrder(gs[0], SortByQuantity(gs[1..]));
      InsertByQuantity(gs[0], SortByQuantity(gs[1..]))
  }

  /** The groups whose total quantity is `q`, in their order. */
  function WithQuantity(gs: seq<ProductGroup>, q: int): seq<ProductGroup> {
    if gs == [] then []
    else (if gs[0].totalQuantity == q then [gs[0]] else []) + WithQuantity(gs[1..], q)
  }

  lemma WithQuantityCons(x: ProductGroup, xs: seq<ProductGroup>, q: int)
    ensures WithQuantity([x] + xs, q) == (if x.totalQuantity == q then [x] else []) + WithQuantity(xs, q)
  {
    assert ([x] + xs)[1..] == xs;
  }

  lemma {:induction false} InsertWithQuantity(g: ProductGroup, gs: seq<ProductGroup>, q: int)
    ensures WithQuantity(InsertByQuantity(g, gs), q) ==
            (if g.totalQuantity == q then [g] else []) + WithQuantity(gs, q)
    decreases |gs|
  {
    if gs == [] || gs[0].totalQuantity <= g.totalQuantity {
      WithQuantityCons(g, gs, q);
    } else {
      var own: seq<ProductGroup> := if g.totalQuantity == q then [g] else [];
      var head: seq<ProductGroup> := if gs[0].totalQuantity == q then [gs[0]] else [];
      var tail := WithQuantity(gs[1..], q);
      InsertWithQuantity(g, gs[1..], q);
      WithQuantityCons(gs[0], InsertByQuantity(g, gs[1..]), q);
      assert WithQuantity(gs, q) == head + tail;
      if own == [] {
        assert head + (own + tail) == head + tail;
      } else {
        assert head == [];
        assert head + (own + tail) == own + tail;
      }
    }
  }

  /** The sort is stable: groups of equal total quantity keep the order they had, so ties
      at the cut of `slice` are decided by first appearance. */
  lemma {:induction false} SortIsStable(gs: seq<ProductGroup>, q: int)
    ensures WithQuantity(SortByQuantity(gs), q) == WithQuantity(gs, q)
    decreases |gs|
  {
    if gs != [] {
      InsertWithQuantity(gs[0], SortByQuantity(gs[1..]), q);
      SortIsStable(gs[1..], q);
    }
  }

  /** The whole computation on the engine's hits. */
  method TopSellingProducts(hits: seq<Hit>, limit: int) returns (top: seq<ProductGroup>)
    ensures top == SliceTo(SortByQuantity(Grouped(hits)), limit)
    ensures |top| == SliceEnd(|KeyOrder(hits)|, limit)
    ensures limit >= 0 ==> |top| <= limit
    ensures ByQuantityDescending(top)
    ensures multiset(top) <= multiset(Grouped(hits))
  {
    var groups := GroupByProduct(hits);
    var sorted := SortByQuantity(groups);
    top := SliceTo(sorted, limit);
    PrefixOf(sorted, |top|);
  }

  lemma PrefixOf(gs: seq<ProductGroup>, n: nat)
    requires n <= |gs|
    ensures multiset(gs[..n]) <= multiset(gs)
    ensures ByQuantityDescending(gs) ==> ByQuantityDescending(gs[..n])
  {
    assert gs == gs[..n] + gs[n..];
  }

  // ---------------------------------------------------------------------------------
  // What the groups are
  // ---------------------------------------------------------------------------------

  /** Every hit's key has a group, and every group comes from some hit. */
  lemma KeyOrderComplete(hits: seq<Hit>, k: string)
    ensures k in KeyOrder(hits) <==> exists i :: 0 <= i < |hits| && GroupKey(hits[i].document) == k
  {
    if exists i :: 0 <= i < |hits| && GroupKey(hits[i].document) == k {
      var i :| 0 <= i < |hits| && GroupKey(hits[i].document) == k;
      assert KeysOf(hits)[i] == k;
    }
  }

  /** The `i`-th group carries the `i`-th key as its own stock code and description, so no
      two groups share a key. */
  lemma GroupsCarryTheirKeys(hits: seq<Hit>, i: nat)
    requires i < |Grouped(hits)|
    ensures Grouped(hits)[i].stockCode + "-" + Grouped(hits)[i].description == KeyOrder(hits)[i]
  {
  }

  /** Two different (stock code, description) pairs with the same key. */
  lemma KeyCollision()
    ensures var a := Document("536365", "85123", "A-HEART", 6, "2010-12-01", 255, "17850", "UK");
            var b := Document("536366", "85123-A", "HEART", 2, "2010-12-01", 255, "17850", "UK");
            GroupKey(a) == GroupKey(b) && a.stockCode != b.stockCode
  {
  }
}
