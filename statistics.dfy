/** `Oramaclient.getProductStatistics`: one pass over the engine's hits collecting the
    distinct countries, customers and stock codes, the summed revenue and quantity, and the
    price and date extremes (src/lib/Orama.ts:246-288). */
module Statistics {
  import opened Wrappers
  import opened JsStrings
  import opened Seqs
  import opened Retail

  datatype PriceBounds = PriceBounds(min: int, max: int)

  /** The date extremes, compared as strings; `""` means not set. */
  datatype DateBounds = DateBounds(min: string, max: string)

  /** The statistics object. `priceRange` is None where the source leaves its initial
      `{min: Infinity, max: -Infinity}`, which happens exactly when there are no hits. */
  datatype ProductStatistics = ProductStatistics(
    totalProducts: nat,
    uniqueCountries: seq<string>,
    uniqueCustomers: seq<string>,
    uniqueStockCodes: seq<string>,
    totalRevenue: int,
    totalQuantity: int,
    priceRange: Option<PriceBounds>,
    dateRange: DateBounds)

  function Countries(hits: seq<Hit>): (r: seq<string>)
    ensures |r| == |hits| && forall i :: 0 <= i < |hits| ==> r[i] == hits[i].document.country
  {
    seq(|hits|, i requires 0 <= i < |hits| => hits[i].document.country)
  }

  function Customers(hits: seq<Hit>): (r: seq<string>)
    ensures |r| == |hits| && forall i :: 0 <= i < |hits| ==> r[i] == hits[i].document.customerId
  {
    seq(|hits|, i requires 0 <= i < |hits| => hits[i].document.customerId)
  }

  function StockCodes(hits: seq<Hit>): (r: seq<string>)
    ensures |r| == |hits| && forall i :: 0 <= i < |hits| ==> r[i] == hits[i].document.stockCode
  {
    seq(|hits|, i requires 0 <= i < |hits| => hits[i].document.stockCode)
  }

  function TotalQuantity(hits: seq<Hit>): int {
    if hits == [] then 0
    else TotalQuantity(hits[..|hits| - 1]) + hits[|hits| - 1].document.quantity
  }

  function TotalRevenue(hits: seq<Hit>): int {
    if hits == [] then 0
    else
      var d := hits[|hits| - 1].document;
      TotalRevenue(hits[..|hits| - 1]) + d.price * d.quantity
  }

  /** The lowest price among the hits. */
  function MinPrice(hits: seq<Hit>): (m: int)
    requires hits != []
    ensures forall i :: 0 <= i < |hits| ==> m <= hits[i].document.price
    ensures exists i :: 0 <= i < |hits| && m == hits[i].document.price
  {
    var p := hits[|hits| - 1].document.price;
    if |hits| == 1 then p
    else
      var m := MinPrice(hits[..|hits| - 1]);
      if p < m then p else m
  }

  /** The highest price among the hits. */
  function MaxPrice(hits: seq<Hit>): (m: int)
    requires hits != []
    ensures forall i :: 0 <= i < |hits| ==> hits[i].document.price <= m
    ensures exists i :: 0 <= i < |hits| && m == hits[i].document.price
  {
    var p := hits[|hits| - 1].document.price;
    if |hits| == 1 then p
    else
      var m := MaxPrice(hits[..|hits| - 1]);
      if p > m then p else m
  }

  /** One step of the running minimum as `getProductStatistics` takes it: a date replaces the minimum
      when the minimum is unset (`""`, which is falsy) or when the date is smaller. */
  function EarlierOf(m: string, d: string): (r: string)
    ensures r == d || r == m
    ensures m != "" && !StrLess(d, m) ==> r == m
  {
    if m == "" || StrLess(d, m) then d else m
  }

  /** One step of the running maximum. */
  function LaterOf(m: string, d: string): (r: string)
    ensures r == d || r == m
    ensures m != "" && !StrLess(m, d) ==> r == m
  {
    if m == "" || StrLess(m, d) then d else m
  }

  /** The running minimum of the invoice dates. */
  function EarliestDate(hits: seq<Hit>): string {
    if hits == [] then ""
    else EarlierOf(EarliestDate(hits[..|hits| - 1]), hits[|hits| - 1].document.invoiceDate)
  }

  /** The running maximum of the invoice dates. */
  function LatestDate(hits: seq<Hit>): string {
    if hits == [] then ""
    else LaterOf(LatestDate(hits[..|hits| - 1]), hits[|hits| - 1].document.invoiceDate)
  }

  /** The statistics of a scan, field by field: the engine's count, the distinct values in
      order of first appearance, the sums, the price extremes and the date extremes. */
  function Summary(count: nat, hits: seq<Hit>): ProductStatistics {
    ProductStatistics(
      totalProducts := count,
      uniqueCountries := Distinct(Countries(hits)),
      uniqueCustomers := Distinct(Customers(hits)),
      uniqueStockCodes := Distinct(StockCodes(hits)),
      totalRevenue := TotalRevenue(hits),
      totalQuantity := TotalQuantity(hits),
      priceRange := PriceSummary(hits),
      dateRange := DateBounds(EarliestDate(hits), LatestDate(hits)))
  }

  /** `getProductStatistics` after the search: the statistics of the scanned hits. */
  method ComputeStatistics(results: SearchResults) returns (stats: ProductStatistics)
    ensures stats == Summary(results.count, results.hits)
  {
    stats := Gather(results.count, results.hits);
    ScanIsSummary(results.count, results.hits);
  }

  /** The statistics loop, one hit at a time. */
  method Gather(count: nat, hits: seq<Hit>) returns (stats: ProductStatistics)
    ensures stats == Scan(count, hits)
  {
    var uniqueCountries: seq<string> := [];
    var uniqueCustomers: seq<string> := [];
    var uniqueStockCodes: seq<string> := [];
    var totalRevenue, totalQuantity := 0, 0;
    var priceRange: Option<PriceBounds> := None;
    var dateMin, dateMax := "", "";
    ghost var seen := Empty(count);
    for i := 0 to |hits|
      invariant seen == ProductStatistics(count, uniqueCountries, uniqueCustomers, uniqueStockCodes,
                                          totalRevenue, totalQuantity, priceRange, DateBounds(dateMin, dateMax))
      invariant seen == Scan(count, hits[..i])
    {
      var doc := hits[i].document;
      assert hits[..i + 1][..i] == hits[..i];
      seen := Absorb(seen, hits[i]);
      uniqueCountries := Add(uniqueCountries, doc.country);
      uniqueCustomers := Add(uniqueCustomers, doc.customerId);
      uniqueStockCodes := Add(uniqueStockCodes, doc.stockCode);
      totalRevenue := totalRevenue + doc.price * doc.quantity;
      totalQuantity := totalQuantity + doc.quantity;
      priceRange := Widen(priceRange, doc.price);
      dateMin := EarlierOf(dateMin, doc.invoiceDate);
      dateMax := LaterOf(dateMax, doc.invoiceDate);
    }
    assert hits[..|hits|] == hits;
    stats := ProductStatistics(count, uniqueCountries, uniqueCustomers, uniqueStockCodes,
                               totalRevenue, totalQuantity, priceRange, DateBounds(dateMin, dateMax));
  }

  /** The statistics before any hit is seen. */
  function Empty(count: nat): ProductStatistics {
    ProductStatistics(count, [], [], [], 0, 0, None, DateBounds("", ""))
  }

  /** The statistics as the loop gathers them: the empty statistics, then each hit absorbed
      in turn. */
  function Scan(count: nat, hits: seq<Hit>): ProductStatistics {
    FoldBack(Absorb, Empty(count), hits)
  }

  /** Gathering hit by hit yields the field-by-field statistics. */
  lemma ScanIsSummary(count: nat, hits: seq<Hit>)
    ensures Scan(count, hits) == Summary(count, hits)
  {
    ScanCount(count, hits);
    ScanCountries(count, hits);
    ScanCustomers(count, hits);
    ScanStockCodes(count, hits);
    ScanSums(count, hits);
    ScanPrices(count, hits);
    ScanDates(count, hits);
  }

  lemma {:induction false} ScanCount(count: nat, hits: seq<Hit>)
    ensures Scan(count, hits).totalProducts == count
    decreases |hits|
  {
    if hits != [] { ScanCount(count, hits[..|hits| - 1]); }
  }

  lemma {:induction false} ScanCountries(count: nat, hits: seq<Hit>)
    ensures Scan(count, hits).uniqueCountries == Distinct(Countries(hits))
    decreases |hits|
  {
    if hits != [] {
      var prefix, h := hits[..|hits| - 1], hits[|hits| - 1];
      ScanCountries(count, prefix);
      assert Countries(hits) == Countries(prefix) + [h.document.country];
      DistinctSnoc(Countries(prefix), h.document.country);
    }
  }

  lemma {:induction false} ScanCustomers(count: nat, hits: seq<Hit>)
    ensures Scan(count, hits).uniqueCustomers == Distinct(Customers(hits))
    decreases |hits|
  {
    if hits != [] {
      var prefix, h := hits[..|hits| - 1], hits[|hits| - 1];
      ScanCustomers(count, prefix);
      assert Customers(hits) == Customers(prefix) + [h.document.customerId];
      DistinctSnoc(Customers(prefix), h.document.customerId);
    }
  }

  lemma {:induction false} ScanStockCodes(count: nat, hits: seq<Hit>)
    ensures Scan(count, hits).uniqueStockCodes == Distinct(StockCodes(hits))
    decreases |hits|
  {
    if hits != [] {
      var prefix, h := hits[..|hits| - 1], hits[|hits| - 1];
      ScanStockCodes(count, prefix);
      assert StockCodes(hits) == StockCodes(prefix) + [h.document.stockCode];
      DistinctSnoc(StockCodes(prefix), h.document.stockCode);
    }
  }

  lemma {:induction false} ScanSums(count: nat, hits: seq<Hit>)
    ensures Scan(count, hits).totalRevenue == TotalRevenue(hits)
    ensures Scan(count, hits).totalQuantity == TotalQuantity(hits)
    decreases |hits|
  {
    if hits != [] { ScanSums(count, hits[..|hits| - 1]); }
  }

  lemma {:induction false} ScanPrices(count: nat, hits: seq<Hit>)
    ensures Scan(count, hits).priceRange == PriceSummary(hits)
    decreases |hits|
  {
    if hits != [] { ScanPrices(count, hits[..|hits| - 1]); }
  }

  lemma {:induction false} ScanDates(count: nat, hits: seq<Hit>)
    ensures Scan(count, hits).dateRange == DateBounds(EarliestDate(hits), LatestDate(hits))
    decreases |hits|
  {
    if hits != [] { ScanDates(count, hits[..|hits| - 1]); }
  }

  /** What one iteration of the loop does to the statistics gathered so far. */
  function Absorb(s: ProductStatistics, h: Hit): ProductStatistics {
    var doc := h.document;
    s.(uniqueCountries := Add(s.uniqueCountries, doc.country),
       uniqueCustomers := Add(s.uniqueCustomers, doc.customerId),
       uniqueStockCodes := Add(s.uniqueStockCodes, doc.stockCode),
       totalRevenue := s.totalRevenue + doc.price * doc.quantity,
       totalQuantity := s.totalQuantity + doc.quantity,
       priceRange := Widen(s.priceRange, doc.price),
       dateRange := DateBounds(EarlierOf(s.dateRange.min, doc.invoiceDate),
                               LaterOf(s.dateRange.max, doc.invoiceDate)))
  }

  /** `Math.min(min, price)` and `Math.max(max, price)` on the running price range, which
      starts out empty. */
  function Widen(range: Option<PriceBounds>, price: int): (r: Option<PriceBounds>)
    ensures r.Some? && r.value.min <= price <= r.value.max
  {
    match range
    case None => Some(PriceBounds(price, price))
    case Some(b) => Some(PriceBounds(if price < b.min then price else b.min, if price > b.max then price else b.max))
  }

  /** The price range: none without hits, else the lowest and the highest price. */
  function PriceSummary(hits: seq<Hit>): Option<PriceBounds> {
    if hits == [] then None else Some(PriceBounds(MinPrice(hits), MaxPrice(hits)))
  }

  // ---------------------------------------------------------------------------------
  // What the statistics are
  // ---------------------------------------------------------------------------------

  /** Each unique list holds every observed value exactly once. */
  lemma UniqueListsExact(hits: seq<Hit>, c: string)
    ensures NoDuplicates(Distinct(Countries(hits)))
    ensures c in Distinct(Countries(hits)) <==> exists i :: 0 <= i < |hits| && hits[i].document.country == c
  {
    var cs := Countries(hits);
    if exists i :: 0 <= i < |hits| && hits[i].document.country == c {
      var i :| 0 <= i < |hits| && hits[i].document.country == c;
      assert cs[i] == c;
    }
    if c in Distinct(cs) {
      var j :| 0 <= j < |Distinct(cs)| && Distinct(cs)[j] == c;
      assert Distinct(cs)[j] in cs;
    }
  }

  /** Whenever there is a hit, the price range is well ordered and covers every price. */
  lemma PriceRangeOrdered(hits: seq<Hit>)
    requires hits != []
    ensures MinPrice(hits) <= MaxPrice(hits)
    ensures forall i :: 0 <= i < |hits| ==> MinPrice(hits) <= hits[i].document.price <= MaxPrice(hits)
  {
    var i :| 0 <= i < |hits| && MinPrice(hits) == hits[i].document.price;
  }

  /** `d < m` and `di >= m` give `di >= d`. */
  lemma AboveSmaller(d: string, m: string, di: string)
    requires StrLess(d, m) && !StrLess(di, m)
    ensures !StrLess(di, d)
  {
    if di == m {
      StrLessAsymmetric(d, m);
    } else {
      StrLessTotal(di, m);
      StrLessTransitive(d, m, di);
      StrLessAsymmetric(d, di);
    }
  }

  /** If `m < d` and `m >= di` then `d >= di`. */
  lemma BelowLarger(m: string, d: string, di: string)
    requires StrLess(m, d) && !StrLess(m, di)
    ensures !StrLess(d, di)
  {
    if di == m {
      StrLessAsymmetric(m, d);
    } else {
      StrLessTotal(m, di);
      StrLessTransitive(di, m, d);
      StrLessAsymmetric(di, d);
    }
  }

  /** The latest date is no smaller than any invoice date, and it is one of them unless
      every date is empty. */
  lemma {:induction false} LatestDateIsMaximum(hits: seq<Hit>)
    ensures forall i :: 0 <= i < |hits| ==> !StrLess(LatestDate(hits), hits[i].document.invoiceDate)
    ensures LatestDate(hits) == "" || exists i :: 0 <= i < |hits| && LatestDate(hits) == hits[i].document.invoiceDate
    decreases |hits|
  {
    if hits != [] {
      var init := hits[..|hits| - 1];
      var d := hits[|hits| - 1].document.invoiceDate;
      var m := LatestDate(init);
      LatestDateIsMaximum(init);
      forall i | 0 <= i < |hits| ensures !StrLess(LatestDate(hits), hits[i].document.invoiceDate) {
        var di := hits[i].document.invoiceDate;
        if i == |hits| - 1 {
          StrLessIrreflexive(d);
        } else {
          assert hits[i] == init[i];
          if m != "" && StrLess(m, d) {
            BelowLarger(m, d, di);
          }
        }
      }
      if m != "" && !StrLess(m, d) {
        var j :| 0 <= j < |init| && m == init[j].document.invoiceDate;
        assert hits[j] == init[j];
      }
    }
  }

  /** When no invoice date is empty, the earliest date is the smallest of them. */
  lemma {:induction false} EarliestDateIsMinimum(hits: seq<Hit>)
    requires forall i :: 0 <= i < |hits| ==> hits[i].document.invoiceDate != ""
    ensures forall i :: 0 <= i < |hits| ==> !StrLess(hits[i].document.invoiceDate, EarliestDate(hits))
    ensures hits != [] ==> exists i :: 0 <= i < |hits| && EarliestDate(hits) == hits[i].document.invoiceDate
    decreases |hits|
  {
    if hits != [] {
      var init := hits[..|hits| - 1];
      var d := hits[|hits| - 1].document.invoiceDate;
      var m := EarliestDate(init);
      assert forall i :: 0 <= i < |init| ==> init[i] == hits[i];
      EarliestDateIsMinimum(init);
      if init != [] {
        var j :| 0 <= j < |init| && m == init[j].document.invoiceDate;
        assert m != "";
      }
      forall i | 0 <= i < |hits| ensures !StrLess(hits[i].document.invoiceDate, EarliestDate(hits)) {
        var di := hits[i].document.invoiceDate;
        if i == |hits| - 1 {
          StrLessIrreflexive(d);
        } else {
          assert hits[i] == init[i];
          if StrLess(d, m) {
            AboveSmaller(d, m, di);
          }
        }
      }
    }
  }
}

module StatisticsScenarios {
  import opened JsStrings
  import opened Seqs
  import opened Retail
  import opened Statistics

  function Sale(country: string, date: string): Hit {
    Hit("1", 1.0, Document("536365", "85123A", "WHITE HANGING HEART T-LIGHT HOLDER", 6, date, 255, "17850", country))
  }

  /** Sales from one country, the same country again and a second country give two unique
      countries, listed in the order first seen (for instance United Kingdom, United Kingdom,
      France). */
  lemma TwoCountries(uk: string, france: string)
    requires uk != france
    ensures Distinct(Countries([Sale(uk, "2010-12-01"), Sale(uk, "2010-12-02"), Sale(france, "2010-12-03")]))
            == [uk, france]
  {
    var hits := [Sale(uk, "2010-12-01"), Sale(uk, "2010-12-02"), Sale(france, "2010-12-03")];
    var cs := Countries(hits);
    assert cs == [uk, uk, france] by {
      assert |cs| == 3 && cs[0] == uk && cs[1] == uk && cs[2] == france;
    }
    RepeatThenNew(uk, france);
  }

  lemma RepeatThenNew(a: string, b: string)
    requires a != b
    ensures Distinct([a, a, b]) == [a, b]
  {
    DistinctSnoc([], a);
    assert [] + [a] == [a];
    DistinctSnoc([a], a);
    assert [a] + [a] == [a, a];
    DistinctSnoc([a, a], b);
    assert [a, a] + [b] == [a, a, b];
  }

  /** An empty invoice date in the middle of the scan clears the running minimum, so a
      smaller date seen before it is lost. */
  lemma EmptyDateResetsMinimum(first: string, last: string)
    requires first != "" && last != "" && StrLess(first, last)
    ensures var hits := [Sale("France", first), Sale("France", ""), Sale("France", last)];
      && EarliestDate(hits) == last
      && StrLess(hits[0].document.invoiceDate, EarliestDate(hits))
  {
    var hits := [Sale("France", first), Sale("France", ""), Sale("France", last)];
    assert hits[..1] == [hits[0]] && hits[..2] == [hits[0], hits[1]];
    assert [hits[0]][..0] == [];
    assert [hits[0], hits[1]][..1] == [hits[0]];
    assert EarliestDate(hits[..1]) == first;
    assert EarliestDate(hits[..2]) == "";
  }
}
