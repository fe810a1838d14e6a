/** `Oramaclient`: the adapter between one account's persisted index and the engine
    (src/lib/Orama.ts:20-289). The account table, the engine's `search` and the embedding
    provider are supplied to the client; everything the adapter itself decides (which index
    to use, the queries it builds, the filters, grouping and statistics) is modelled. */
module OramaAdapter {
  import opened Wrappers
  import opened Seqs
  import opened Retail
  import opened ProductSearch
  import opened TopSelling
  import opened Statistics

  /** What an engine call on a client whose index was never created throws; the engine
      reports this with its own message, which is not modelled. */
  const UninitialisedIndex := "index not initialised"

  const AccountNotFound := "Account not found"
  const EmbeddingsFailed := "Failed to get embeddings"
  /** The error of an update whose row does not exist. */
  const RecordNotFound := "Record to update not found."

  /** `db.account`: the account rows by `accountId`, each with its optional `OramaIndex`. */
  class AccountStore {
    var accounts: map<string, Option<Blob>>

    constructor(accounts: map<string, Option<Blob>>)
      ensures this.accounts == accounts
    {
      this.accounts := accounts;
    }

    /** `db.account.update({where: {accountId}, data: {OramaIndex}})`. */
    method Update(accountId: string, oramaIndex: Blob) returns (outcome: Outcome)
      modifies this
      ensures accountId in old(accounts) ==>
                outcome == Pass && accounts == old(accounts)[accountId := Some(oramaIndex)]
      ensures accountId !in old(accounts) ==>
                outcome == Fail(RecordNotFound) && accounts == old(accounts)
    {
      if accountId in accounts {
        accounts := accounts[accountId := Some(oramaIndex)];
        outcome := Pass;
      } else {
        outcome := Fail(RecordNotFound);
      }
    }
  }

  /** The query `searchProducts` sends: the built text, or `*`, with the 500-hit limit. */
  function ProductQuery(p: RetailSearchParams): (q: Query)
    ensures q.FullText? && q.limit == Some(SearchProductsLimit)
    ensures q.term != ""
  {
    FullText(QueryText(RawSearchText(p)), Some(SearchProductsLimit))
  }

  /** What `searchProducts` returns for an index: the engine's results, narrowed to the hits
      passing every filter. */
  function ProductsFound(engine: Engine, parse: DateParser, index: Index, p: RetailSearchParams): SearchResults {
    var results := engine(index, ProductQuery(p));
    Narrowed(results, Kept(p, parse, results.hits))
  }

  /** The found hits are the engine's hits that match, in order, and are counted. */
  lemma ProductsFoundAreMatches(engine: Engine, parse: DateParser, index: Index, p: RetailSearchParams, h: Hit)
    ensures var found, all := ProductsFound(engine, parse, index, p), engine(index, ProductQuery(p));
      && found.count == |found.hits|
      && IsSubsequence(found.hits, all.hits)
      && (h in found.hits <==> h in all.hits && Matches(p, parse, h))
  {
    var all := engine(index, ProductQuery(p));
    KeptIsSubsequence(p, parse, all.hits);
    KeptExactly(p, parse, all.hits, h);
  }

  /** The scan behind the top-selling list: every hit up to 200. */
  const TopSellingQuery := FullText("*", Some(TopSellingScanLimit))

  /** The scan behind the statistics: every hit up to 10000. */
  const StatisticsQuery := FullText("*", Some(StatisticsScanLimit))

  /** The hybrid query of `vectorSearch`. */
  function VectorQuery(term: Option<string>, embedding: Vector): (q: Query)
    ensures q.Hybrid? && q.text == term && q.vector == embedding
    ensures q.property == "embeddings" && q.similarity == VectorSimilarity && q.hybridLimit == VectorSearchLimit
  {
    Hybrid(term, embedding, "embeddings", VectorSimilarity, VectorSearchLimit)
  }

  /** What `initialize` leaves behind, given the account table and the index before it: a
      missing account changes nothing, a stored index is restored, and otherwise a new
      index with the retail schema is created and written to the account's row. */
  predicate Started(accountId: string, before: map<string, Option<Blob>>, oramaBefore: Option<Index>,
                    orama: Option<Index>, after: map<string, Option<Blob>>)
  {
    if accountId !in before then
      orama == oramaBefore && after == before
    else if before[accountId].Some? then
      orama == Some(Restore(before[accountId].value)) && after == before
    else
      orama == Some(Create(RetailSchema)) && after == before[accountId := Some(Persist(Create(RetailSchema)))]
  }

  class Oramaclient {
    const accountId: string
    const db: AccountStore
    const engine: Engine
    const embed: Embedder
    const parseDate: DateParser
    /** The index, once `initialize` has created or restored it. */
    var orama: Option<Index>

    constructor(accountId: string, db: AccountStore, engine: Engine, embed: Embedder, parseDate: DateParser)
      ensures this.accountId == accountId && this.db == db && this.engine == engine
      ensures this.embed == embed && this.parseDate == parseDate && orama.None?
    {
      this.accountId := accountId;
      this.db := db;
      this.engine := engine;
      this.embed := embed;
      this.parseDate := parseDate;
      orama := None;
    }

    /** `saveIndex`: the persisted index is written to the account's row. */
    method SaveIndex() returns (outcome: Outcome)
      modifies db
      ensures old(orama).None? ==> outcome == Fail(UninitialisedIndex) && db.accounts == old(db.accounts)
      ensures orama.Some? && accountId in old(db.accounts) ==>
                outcome == Pass && db.accounts == old(db.accounts)[accountId := Some(Persist(orama.value))]
      ensures orama.Some? && accountId !in old(db.accounts) ==>
                outcome == Fail(RecordNotFound) && db.accounts == old(db.accounts)
    {
      if orama.None? {
        return Fail(UninitialisedIndex);
      }
      outcome := db.Update(accountId, Persist(orama.value));
    }

    /** `initialize`: a missing account is an error; a stored index is restored; otherwise
        a fresh index with the retail schema is created and saved. */
    method Initialize() returns (outcome: Outcome)
      modifies this, db
      ensures accountId !in old(db.accounts) ==>
                outcome == Fail(AccountNotFound) && orama == old(orama) && db.accounts == old(db.accounts)
      ensures accountId in old(db.accounts) && old(db.accounts[accountId]).Some? ==>
                && outcome == Pass
                && orama == Some(Restore(old(db.accounts[accountId]).value))
                && db.accounts == old(db.accounts)
      ensures accountId in old(db.accounts) && old(db.accounts[accountId]).None? ==>
                && outcome == Pass
                && orama == Some(Create(RetailSchema))
                && db.accounts == old(db.accounts)[accountId := Some(Persist(Create(RetailSchema)))]
      ensures outcome == Pass ==> orama.Some?
      ensures outcome.Fail? <==> accountId !in old(db.accounts)
      ensures Started(accountId, old(db.accounts), old(orama), orama, db.accounts)
    {
      if accountId !in db.accounts {
        return Fail(AccountNotFound);
      }
      var stored := db.accounts[accountId];
      if stored.Some? {
        orama := Some(Restore(stored.value));
        outcome := Pass;
      } else {
        orama := Some(Create(RetailSchema));
        outcome := SaveIndex();
      }
    }

    /** `insert`: the document is added to the index, which is then saved. */
    method Insert(document: Document) returns (outcome: Outcome)
      modifies this, db
      ensures old(orama).None? ==> outcome == Fail(UninitialisedIndex) && orama == old(orama) && db.accounts == old(db.accounts)
      ensures old(orama).Some? ==> orama == Some(Retail.Insert(old(orama).value, document))
      ensures old(orama).Some? && accountId in old(db.accounts) ==>
                outcome == Pass && db.accounts == old(db.accounts)[accountId := Some(Persist(orama.value))]
      ensures old(orama).Some? && accountId !in old(db.accounts) ==>
                outcome == Fail(RecordNotFound) && db.accounts == old(db.accounts)
    {
      if orama.None? {
        return Fail(UninitialisedIndex);
      }
      orama := Some(Retail.Insert(orama.value, document));
      outcome := SaveIndex();
    }

    /** `search`: the term goes to the engine unchanged, with the engine's default limit. */
    method Search(term: string) returns (r: Result<SearchResults>)
      ensures orama.None? ==> r == Failure(UninitialisedIndex)
      ensures orama.Some? ==> r == Success(engine(orama.value, FullText(term, None)))
    {
      if orama.None? {
        return Failure(UninitialisedIndex);
      }
      r := Success(engine(orama.value, FullText(term, None)));
    }

    /** `vectorSearch`: no embedding is an error; otherwise one hybrid query. */
    method VectorSearch(term: Option<string>) returns (r: Result<SearchResults>)
      ensures embed(term).None? ==> r == Failure(EmbeddingsFailed)
      ensures embed(term).Some? && orama.None? ==> r == Failure(UninitialisedIndex)
      ensures embed(term).Some? && orama.Some? ==>
                r == Success(engine(orama.value, VectorQuery(term, embed(term).value)))
    {
      var embeddings := embed(term);
      if embeddings.None? {
        return Failure(EmbeddingsFailed);
      }
      if orama.None? {
        return Failure(UninitialisedIndex);
      }
      r := Success(engine(orama.value, VectorQuery(term, embeddings.value)));
    }

    /** `searchProducts`. */
    method SearchProducts(p: RetailSearchParams) returns (r: Result<SearchResults>)
      ensures orama.None? ==> r == Failure(UninitialisedIndex)
      ensures orama.Some? ==> r == Success(ProductsFound(engine, parseDate, orama.value, p))
      ensures r.Success? ==> r.value.count == |r.value.hits|
      ensures r.Success? ==> forall h :: h in r.value.hits ==> Matches(p, parseDate, h)
    {
      var term := BuildSearchTerm(p);
      if orama.None? {
        return Failure(UninitialisedIndex);
      }
      var results := engine(orama.value, FullText(term, Some(SearchProductsLimit)));
      var filtered := ApplyFilters(p, parseDate, results.hits);
      r := Success(Narrowed(results, filtered));
      forall h | h in r.value.hits ensures Matches(p, parseDate, h) {
        KeptExactly(p, parseDate, results.hits, h);
      }
    }

    /** `getProductsByCountry`: hits whose country contains the text, ignoring case. The
        argument reaches this method untyped from the tool layer, so it may be undefined, in
        which case no country filter applies. */
    method GetProductsByCountry(country: Option<string>) returns (r: Result<SearchResults>)
      ensures var p := NoParams.(country := country);
        orama.Some? ==> r == Success(ProductsFound(engine, parseDate, orama.value, p))
      ensures orama.None? ==> r.Failure?
      ensures r.Success? ==> forall h :: h in r.value.hits ==> TextOk(country, h.document.country)
    {
      r := SearchProducts(NoParams.(country := country));
    }

    /** `getProductsByPriceRange`: hits with a price within the (inclusive, non-zero) bounds. */
    method GetProductsByPriceRange(min: Option<int>, max: Option<int>) returns (r: Result<SearchResults>)
      ensures var p := NoParams.(priceRange := Some(NumberRange(min, max)));
        orama.Some? ==> r == Success(ProductsFound(engine, parseDate, orama.value, p))
      ensures orama.None? ==> r.Failure?
      ensures r.Success? ==> forall h :: h in r.value.hits ==> WithinRange(NumberRange(min, max), h.document.price)
    {
      r := SearchProducts(NoParams.(priceRange := Some(NumberRange(min, max))));
    }

    /** `getProductsByDateRange`: hits whose invoice date lies between the bounds. */
    method GetProductsByDateRange(start: Option<string>, end: Option<string>) returns (r: Result<SearchResults>)
      ensures var p := NoParams.(dateRange := Some(DateRange(start, end)));
        orama.Some? ==> r == Success(ProductsFound(engine, parseDate, orama.value, p))
      ensures orama.None? ==> r.Failure?
      ensures r.Success? ==> forall h :: h in r.value.hits ==>
                WithinDates(parseDate, DateRange(start, end), h.document.invoiceDate)
    {
      r := SearchProducts(NoParams.(dateRange := Some(DateRange(start, end))));
    }

    /** `getProductsByInvoice`. */
    method GetProductsByInvoice(invoice: string) returns (r: Result<SearchResults>)
      ensures var p := NoParams.(invoice := Some(invoice));
        orama.Some? ==> r == Success(ProductsFound(engine, parseDate, orama.value, p))
      ensures orama.None? ==> r.Failure?
      ensures r.Success? ==> forall h :: h in r.value.hits ==> TextOk(Some(invoice), h.document.invoice)
    {
      r := SearchProducts(NoParams.(invoice := Some(invoice)));
    }

    /** `getProductsByCustomer`. */
    method GetProductsByCustomer(customerId: string) returns (r: Result<SearchResults>)
      ensures var p := NoParams.(customerId := Some(customerId));
        orama.Some? ==> r == Success(ProductsFound(engine, parseDate, orama.value, p))
      ensures orama.None? ==> r.Failure?
      ensures r.Success? ==> forall h :: h in r.value.hits ==> TextOk(Some(customerId), h.document.customerId)
    {
      r := SearchProducts(NoParams.(customerId := Some(customerId)));
    }

    /** `getProductsByStockCode`. */
    method GetProductsByStockCode(stockCode: string) returns (r: Result<SearchResults>)
      ensures var p := NoParams.(stockCode := Some(stockCode));
        orama.Some? ==> r == Success(ProductsFound(engine, parseDate, orama.value, p))
      ensures orama.None? ==> r.Failure?
      ensures r.Success? ==> forall h :: h in r.value.hits ==> TextOk(Some(stockCode), h.document.stockCode)
    {
      r := SearchProducts(NoParams.(stockCode := Some(stockCode)));
    }

    /** `getTopSellingProducts(limit = 10)`: the groups of a 200-hit scan, largest total
        quantity first, cut to the limit. */
    method GetTopSellingProducts(limit: Option<int>) returns (r: Result<seq<ProductGroup>>)
      ensures orama.None? ==> r == Failure(UninitialisedIndex)
      ensures orama.Some? ==>
                var hits := engine(orama.value, TopSellingQuery).hits;
                && r.Success?
                && r.value == SliceTo(SortByQuantity(Grouped(hits)), limit.GetOr(10))
                && ByQuantityDescending(r.value)
                && multiset(r.value) <= multiset(Grouped(hits))
      ensures r.Success? && limit.GetOr(10) >= 0 ==> |r.value| <= limit.GetOr(10)
    {
      if orama.None? {
        return Failure(UninitialisedIndex);
      }
      var results := engine(orama.value, TopSellingQuery);
      var top := TopSellingProducts(results.hits, limit.GetOr(10));
      r := Success(top);
    }

    /** `getProductStatistics`: the statistics of a 10000-hit scan. */
    method GetProductStatistics() returns (r: Result<ProductStatistics>)
      ensures orama.None? ==> r == Failure(UninitialisedIndex)
      ensures orama.Some? ==> r == Success(Summary(engine(orama.value, StatisticsQuery).count,
                                                   engine(orama.value, StatisticsQuery).hits))
    {
      if orama.None? {
        return Failure(UninitialisedIndex);
      }
      var results := engine(orama.value, StatisticsQuery);
      var stats := ComputeStatistics(results);
      r := Success(stats);
    }
  }
}
