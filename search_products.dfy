/** `Oramaclient.searchProducts`: one broad full-text query built from the free-text
    parameters, followed by up to seven in-memory filters over the hits
    (src/lib/Orama.ts:89-173). */
module ProductSearch {
  import opened Wrappers
  import opened JsStrings
  import opened Seqs
  import opened Retail

  datatype NumberRange = NumberRange(min: Option<int>, max: Option<int>)

  datatype DateRange = DateRange(start: Option<string>, end: Option<string>)

  /** `RetailSearchParams`: every field optional. */
  datatype RetailSearchParams = RetailSearchParams(
    term: Option<string>,
    country: Option<string>,
    priceRange: Option<NumberRange>,
    dateRange: Option<DateRange>,
    stockCode: Option<string>,
    customerId: Option<string>,
    quantityRange: Option<NumberRange>,
    description: Option<string>,
    invoice: Option<string>)

  const NoParams := RetailSearchParams(None, None, None, None, None, None, None, None, None)

  // ---------------------------------------------------------------------------------
  // The search string
  // ---------------------------------------------------------------------------------

  /** A space and the value of a free-text parameter when it is truthy, else nothing. */
  function Piece(f: Option<string>): string {
    if Truthy(f) then " " + f.value else ""
  }

  /** The search text before trimming: the term (or nothing), then each truthy free-text
      parameter after a space, in the order description, stock code, country, invoice,
      customer id. */
  function RawSearchText(p: RetailSearchParams): string {
    StringOr(p.term, "") + Piece(p.description) + Piece(p.stockCode) + Piece(p.country)
    + Piece(p.invoice) + Piece(p.customerId)
  }

  /** The string the engine is queried with: the trimmed text, or the wildcard when that is
      empty. */
  function QueryText(raw: string): (q: string)
    ensures q != ""
    ensures q == "*" || q == Trim(raw)
    ensures AllWhitespace(raw) ==> q == "*"
    ensures !AllWhitespace(raw) ==> q == Trim(raw)
  {
    var t := Trim(raw);
    if t == "" then "*" else t
  }

  /** Builds the search string by successive appends, as the adapter does. */
  method BuildSearchTerm(p: RetailSearchParams) returns (term: string)
    ensures term == QueryText(RawSearchText(p))
  {
    var searchTerm := StringOr(p.term, "");
    AppendPiece(searchTerm, p.description);
    if Truthy(p.description) {
      searchTerm := searchTerm + " " + p.description.value;
    }
    AppendPiece(searchTerm, p.stockCode);
    if Truthy(p.stockCode) {
      searchTerm := searchTerm + " " + p.stockCode.value;
    }
    AppendPiece(searchTerm, p.country);
    if Truthy(p.country) {
      searchTerm := searchTerm + " " + p.country.value;
    }
    AppendPiece(searchTerm, p.invoice);
    if Truthy(p.invoice) {
      searchTerm := searchTerm + " " + p.invoice.value;
    }
    AppendPiece(searchTerm, p.customerId);
    if Truthy(p.customerId) {
      searchTerm := searchTerm + " " + p.customerId.value;
    }
    assert searchTerm == RawSearchText(p);
    var trimmed := Trim(searchTerm);
    term := if trimmed == "" then "*" else trimmed;
  }

  /** One `searchTerm += ` ${x}`` step appends that parameter's piece. */
  lemma AppendPiece(s: string, f: Option<string>)
    ensures (if Truthy(f) then s + " " + f.value else s) == s + Piece(f)
  {
    if !Truthy(f) { assert s + "" == s; }
  }

  /** With no free-text parameter the engine is asked for everything (`*`). */
  lemma NoTextMeansWildcard(p: RetailSearchParams)
    requires !Truthy(p.term) && !Truthy(p.description) && !Truthy(p.stockCode)
    requires !Truthy(p.country) && !Truthy(p.invoice) && !Truthy(p.customerId)
    ensures QueryText(RawSearchText(p)) == "*"
  {
  }

  /** A lone free-text parameter with no surrounding space is the query as it is. */
  lemma SingleFieldIsQuery(p: RetailSearchParams, v: string)
    requires p == NoParams.(country := Some(v))
    requires v != "" && !IsWhitespace(v[0]) && !IsWhitespace(v[|v| - 1])
    ensures QueryText(RawSearchText(p)) == v
  {
    assert RawSearchText(p) == " " + v;
    assert TrimStart(" " + v) == v by {
      assert (" " + v)[1..] == v;
    }
    assert TrimEnd(v) == v;
  }

  // ---------------------------------------------------------------------------------
  // The filters
  // ---------------------------------------------------------------------------------

  /** The range test: a falsy bound (absent or 0) is ignored, the others are inclusive. */
  predicate WithinRange(r: NumberRange, v: int) {
    (!TruthyNumber(r.min) || v >= r.min.value) && (!TruthyNumber(r.max) || v <= r.max.value)
  }

  /** A date bound: None when the parameter is falsy (`null`), else the parsed date, which
      may itself be an Invalid Date (`Some(None)`). */
  function DateBound(parse: DateParser, b: Option<string>): Option<Option<int>> {
    if Truthy(b) then Some(parse(b.value)) else None
  }

  /** `!start || date >= start`; a comparison with an Invalid Date is false. */
  predicate OnOrAfter(date: Option<int>, start: Option<Option<int>>) {
    start.None? || (date.Some? && start.value.Some? && date.value >= start.value.value)
  }

  /** `!end || date <= end`. */
  predicate OnOrBefore(date: Option<int>, end: Option<Option<int>>) {
    end.None? || (date.Some? && end.value.Some? && date.value <= end.value.value)
  }

  predicate WithinDates(parse: DateParser, r: DateRange, invoiceDate: string) {
    var date := parse(invoiceDate);
    OnOrAfter(date, DateBound(parse, r.start)) && OnOrBefore(date, DateBound(parse, r.end))
  }

  /** Each filter of `searchProducts`, including the case where it is not applied. */
  predicate PriceOk(p: RetailSearchParams, h: Hit) {
    p.priceRange.Some? ==> WithinRange(p.priceRange.value, h.document.price)
  }

  predicate QuantityOk(p: RetailSearchParams, h: Hit) {
    p.quantityRange.Some? ==> WithinRange(p.quantityRange.value, h.document.quantity)
  }

  predicate DateOk(p: RetailSearchParams, parse: DateParser, h: Hit) {
    p.dateRange.Some? ==> WithinDates(parse, p.dateRange.value, h.document.invoiceDate)
  }

  /** A text filter: applied when the parameter is truthy, as a case-insensitive infix test. */
  predicate TextOk(param: Option<string>, field: string) {
    Truthy(param) ==> ContainsIgnoringCase(field, param.value)
  }

  /** The conjunction of every supplied filter. */
  predicate Matches(p: RetailSearchParams, parse: DateParser, h: Hit) {
    && PriceOk(p, h)
    && QuantityOk(p, h)
    && DateOk(p, parse, h)
    && TextOk(p.country, h.document.country)
    && TextOk(p.stockCode, h.document.stockCode)
    && TextOk(p.customerId, h.document.customerId)
    && TextOk(p.invoice, h.document.invoice)
  }

  /** The hits that satisfy every supplied filter, in their original order. */
  function Kept(p: RetailSearchParams, parse: DateParser, hits: seq<Hit>): seq<Hit> {
    if hits == [] then []
    else (if Matches(p, parse, hits[0]) then [hits[0]] else []) + Kept(p, parse, hits[1..])
  }

  lemma {:induction false} KeptIsFilter(p: RetailSearchParams, parse: DateParser, hits: seq<Hit>, f: Hit -> bool)
    requires forall h :: f(h) == Matches(p, parse, h)
    ensures Filter(hits, f) == Kept(p, parse, hits)
    decreases |hits|
  {
    if hits != [] { KeptIsFilter(p, parse, hits[1..], f); }
  }

  /** The `k`-th filter in the order the adapter applies them (1 = price, 2 = quantity,
      3 = dates, 4 = country, 5 = stock code, 6 = customer id, 7 = invoice). */
  predicate Stage(p: RetailSearchParams, parse: DateParser, k: nat, h: Hit) {
    if k == 1 then PriceOk(p, h)
    else if k == 2 then QuantityOk(p, h)
    else if k == 3 then DateOk(p, parse, h)
    else if k == 4 then TextOk(p.country, h.document.country)
    else if k == 5 then TextOk(p.stockCode, h.document.stockCode)
    else if k == 6 then TextOk(p.customerId, h.document.customerId)
    else TextOk(p.invoice, h.document.invoice)
  }

  /** `h` passes the first `n` filters. */
  predicate PassesFirst(p: RetailSearchParams, parse: DateParser, n: nat, h: Hit) {
    n == 0 || (PassesFirst(p, parse, n - 1, h) && Stage(p, parse, n, h))
  }

  /** The hits left after the first `n` filters. */
  function KeptAfter(p: RetailSearchParams, parse: DateParser, n: nat, hits: seq<Hit>): seq<Hit> {
    if hits == [] then []
    else (if PassesFirst(p, parse, n, hits[0]) then [hits[0]] else []) + KeptAfter(p, parse, n, hits[1..])
  }

  /** Applying filter `k` to what the first `k - 1` filters left is what the first `k` leave. */
  lemma {:induction false} FilterStage(p: RetailSearchParams, parse: DateParser, k: nat, hits: seq<Hit>, keep: Hit -> bool)
    requires 1 <= k
    requires forall h :: keep(h) == Stage(p, parse, k, h)
    ensures Filter(KeptAfter(p, parse, k - 1, hits), keep) == KeptAfter(p, parse, k, hits)
    decreases |hits|
  {
    if hits != [] {
      FilterStage(p, parse, k, hits[1..], keep);
      var head := if PassesFirst(p, parse, k - 1, hits[0]) then [hits[0]] else [];
      FilterAppend(head, KeptAfter(p, parse, k - 1, hits[1..]), keep);
    }
  }

  /** A filter that is not applied passes every hit, so skipping it changes nothing. */
  lemma {:induction false} SkipStage(p: RetailSearchParams, parse: DateParser, k: nat, hits: seq<Hit>)
    requires 1 <= k
    requires forall h :: Stage(p, parse, k, h)
    ensures KeptAfter(p, parse, k - 1, hits) == KeptAfter(p, parse, k, hits)
    decreases |hits|
  {
    if hits != [] { SkipStage(p, parse, k, hits[1..]); }
  }

  lemma {:induction false} NoStageKeepsAll(p: RetailSearchParams, parse: DateParser, hits: seq<Hit>)
    ensures KeptAfter(p, parse, 0, hits) == hits
    decreases |hits|
  {
    if hits != [] {
      NoStageKeepsAll(p, parse, hits[1..]);
      assert hits == [hits[0]] + hits[1..];
    }
  }

  lemma {:induction false} AllStagesAreKept(p: RetailSearchParams, parse: DateParser, hits: seq<Hit>)
    ensures KeptAfter(p, parse, 7, hits) == Kept(p, parse, hits)
    decreases |hits|
  {
    if hits != [] {
      AllStagesAreKept(p, parse, hits[1..]);
      PassesAllStages(p, parse, hits[0]);
    }
  }

  lemma PassesAllStages(p: RetailSearchParams, parse: DateParser, h: Hit)
    ensures PassesFirst(p, parse, 7, h) == Matches(p, parse, h)
  {
    assert PassesFirst(p, parse, 1, h) == PriceOk(p, h);
    assert PassesFirst(p, parse, 2, h) == (PriceOk(p, h) && QuantityOk(p, h));
    assert PassesFirst(p, parse, 3, h) == (PassesFirst(p, parse, 2, h) && DateOk(p, parse, h));
    assert PassesFirst(p, parse, 4, h) == (PassesFirst(p, parse, 3, h) && Stage(p, parse, 4, h));
    assert PassesFirst(p, parse, 5, h) == (PassesFirst(p, parse, 4, h) && Stage(p, parse, 5, h));
    assert PassesFirst(p, parse, 6, h) == (PassesFirst(p, parse, 5, h) && Stage(p, parse, 6, h));
  }

  /** The sequence of filters, applied one after the other to the engine's hits. */
  method ApplyFilters(p: RetailSearchParams, parse: DateParser, hits: seq<Hit>) returns (filtered: seq<Hit>)
    ensures filtered == Kept(p, parse, hits)
  {
    filtered := hits;
    NoStageKeepsAll(p, parse, hits);

    if p.priceRange.Some? {
      var range := p.priceRange.value;
      var keep := (h: Hit) => WithinRange(range, h.document.price);
      FilterStage(p, parse, 1, hits, keep);
      filtered := Filter(filtered, keep);
    } else {
      SkipStage(p, parse, 1, hits);
    }
    assert filtered == KeptAfter(p, parse, 1, hits);

    if p.quantityRange.Some? {
      var range := p.quantityRange.value;
      var keep := (h: Hit) => WithinRange(range, h.document.quantity);
      FilterStage(p, parse, 2, hits, keep);
      filtered := Filter(filtered, keep);
    } else {
      SkipStage(p, parse, 2, hits);
    }
    assert filtered == KeptAfter(p, parse, 2, hits);

    if p.dateRange.Some? {
      var range := p.dateRange.value;
      var keep := (h: Hit) => WithinDates(parse, range, h.document.invoiceDate);
      FilterStage(p, parse, 3, hits, keep);
      filtered := Filter(filtered, keep);
    } else {
      SkipStage(p, parse, 3, hits);
    }
    assert filtered == KeptAfter(p, parse, 3, hits);

    if Truthy(p.country) {
      var country := p.country.value;
      var keep := (h: Hit) => ContainsIgnoringCase(h.document.country, country);
      FilterStage(p, parse, 4, hits, keep);
      filtered := Filter(filtered, keep);
    } else {
      SkipStage(p, parse, 4, hits);
    }
    assert filtered == KeptAfter(p, parse, 4, hits);

    if Truthy(p.stockCode) {
      var stockCode := p.stockCode.value;
      var keep := (h: Hit) => ContainsIgnoringCase(h.document.stockCode, stockCode);
      FilterStage(p, parse, 5, hits, keep);
      filtered := Filter(filtered, keep);
    } else {
      SkipStage(p, parse, 5, hits);
    }
    assert filtered == KeptAfter(p, parse, 5, hits);

    if Truthy(p.customerId) {
      var customerId := p.customerId.value;
      var keep := (h: Hit) => ContainsIgnoringCase(h.document.customerId, customerId);
      FilterStage(p, parse, 6, hits, keep);
      filtered := Filter(filtered, keep);
    } else {
      SkipStage(p, parse, 6, hits);
    }
    assert filtered == KeptAfter(p, parse, 6, hits);

    if Truthy(p.invoice) {
      var invoice := p.invoice.value;
      var keep := (h: Hit) => ContainsIgnoringCase(h.document.invoice, invoice);
      FilterStage(p, parse, 7, hits, keep);
      filtered := Filter(filtered, keep);
    } else {
      SkipStage(p, parse, 7, hits);
    }
    AllStagesAreKept(p, parse, hits);
  }

  /** `{...results, hits: filtered, count: filtered.length}`. */
  function Narrowed(results: SearchResults, filtered: seq<Hit>): (r: SearchResults)
    ensures r.hits == filtered && r.count == |filtered| && r.elapsed == results.elapsed
  {
    results.(hits := filtered, count := |filtered|)
  }

  // ---------------------------------------------------------------------------------
  // What the filtered result is
  // ---------------------------------------------------------------------------------

  /** The kept hits are the engine's hits with some removed, the rest in their order. */
  lemma {:induction false} KeptIsSubsequence(p: RetailSearchParams, parse: DateParser, hits: seq<Hit>)
    ensures IsSubsequence(Kept(p, parse, hits), hits)
  {
    KeptIsFilter(p, parse, hits, h => Matches(p, parse, h));
    FilterIsSubsequence(hits, h => Matches(p, parse, h));
  }

  /** A hit is kept, every time it occurs, exactly when it satisfies every supplied filter. */
  lemma {:induction false} KeptExactly(p: RetailSearchParams, parse: DateParser, hits: seq<Hit>, h: Hit)
    ensures multiset(Kept(p, parse, hits))[h] == if Matches(p, parse, h) then multiset(hits)[h] else 0
    ensures h in Kept(p, parse, hits) <==> h in hits && Matches(p, parse, h)
  {
    KeptIsFilter(p, parse, hits, h => Matches(p, parse, h));
    FilterMultiplicity(hits, h => Matches(p, parse, h), h);
  }

  /** Parameters that impose nothing: every range absent or with only falsy bounds, and no
      truthy text filter. */
  predicate Unconstrained(p: RetailSearchParams) {
    && (p.priceRange.Some? ==> !TruthyNumber(p.priceRange.value.min) && !TruthyNumber(p.priceRange.value.max))
    && (p.quantityRange.Some? ==> !TruthyNumber(p.quantityRange.value.min) && !TruthyNumber(p.quantityRange.value.max))
    && (p.dateRange.Some? ==> !Truthy(p.dateRange.value.start) && !Truthy(p.dateRange.value.end))
    && !Truthy(p.country) && !Truthy(p.stockCode) && !Truthy(p.customerId) && !Truthy(p.invoice)
  }

  /** With no effective filter the engine's hits come back unchanged. */
  lemma {:induction false} UnconstrainedKeepsAll(p: RetailSearchParams, parse: DateParser, hits: seq<Hit>)
    requires Unconstrained(p)
    ensures Kept(p, parse, hits) == hits
    decreases |hits|
  {
    if hits != [] {
      UnconstrainedKeepsAll(p, parse, hits[1..]);
      assert hits == [hits[0]] + hits[1..];
    }
  }

  /** A price or quantity bound of 0 is the same as no bound. */
  lemma ZeroBoundIgnored(r: NumberRange, v: int)
    ensures WithinRange(r.(min := Some(0)), v) == WithinRange(r.(min := None), v)
    ensures WithinRange(r.(max := Some(0)), v) == WithinRange(r.(max := None), v)
  {
  }

  /** Two non-zero bounds keep exactly the values between them, both included. */
  lemma BoundsInclusive(lo: int, hi: int, v: int)
    requires lo != 0 && hi != 0
    ensures WithinRange(NumberRange(Some(lo), Some(hi)), v) <==> lo <= v <= hi
  {
  }
}
