/** `ToolExecutor`: the tool layer between the chat model's tool calls and the retail
    search adapter (src/lib/ai-tools.ts:146-383). A call is dispatched by name to one of six
    handlers; each maps the raw parameters to an adapter call and projects the result into
    rows for display. Every failure, an unknown name included, becomes an error envelope. */
module AiTools {
  import opened Wrappers
  import opened JsStrings
  import opened Seqs
  import opened Retail
  import opened ProductSearch
  import opened TopSelling
  import opened OramaAdapter

  // ---------------------------------------------------------------------------------
  // Tool calls
  // ---------------------------------------------------------------------------------

  /** The untyped `parameters` object, with every field any of the six tools reads. */
  datatype ToolParams = ToolParams(
    term: Option<string>,
    country: Option<string>,
    priceMin: Option<int>,
    priceMax: Option<int>,
    dateStart: Option<string>,
    dateEnd: Option<string>,
    stockCode: Option<string>,
    customerId: Option<string>,
    quantityMin: Option<int>,
    quantityMax: Option<int>,
    minPrice: Option<int>,
    maxPrice: Option<int>,
    limit: Option<int>,
    startDate: Option<string>,
    endDate: Option<string>,
    query: Option<string>)

  datatype ToolCall = ToolCall(name: string, parameters: ToolParams, id: string)

  /** The six tools the executor knows. */
  datatype Tool =
    | SearchProductsTool
    | ProductsByCountryTool
    | PriceRangeProductsTool
    | TopSellingProductsTool
    | ProductsByDateRangeTool
    | VectorSearchTool

  function ToolName(t: Tool): string {
    match t
    case SearchProductsTool => "search_products"
    case ProductsByCountryTool => "get_products_by_country"
    case PriceRangeProductsTool => "get_price_range_products"
    case TopSellingProductsTool => "get_top_selling_products"
    case ProductsByDateRangeTool => "get_products_by_date_range"
    case VectorSearchTool => "vector_search"
  }

  /** The `switch (name)` of `executeTool`: the tool a name selects, if any. */
  function ToolFor(name: string): (t: Option<Tool>)
    ensures t.Some? ==> ToolName(t.value) == name
  {
    if name == "search_products" then Some(SearchProductsTool)
    else if name == "get_products_by_country" then Some(ProductsByCountryTool)
    else if name == "get_price_range_products" then Some(PriceRangeProductsTool)
    else if name == "get_top_selling_products" then Some(TopSellingProductsTool)
    else if name == "get_products_by_date_range" then Some(ProductsByDateRangeTool)
    else if name == "vector_search" then Some(VectorSearchTool)
    else None
  }

  /** Every tool is reached by its own name, so the dispatch is a bijection between the six
      names and the six tools. */
  lemma ToolNamesRoute(t: Tool)
    ensures ToolFor(ToolName(t)) == Some(t)
  {
  }

  // ---------------------------------------------------------------------------------
  // Results
  // ---------------------------------------------------------------------------------

  /** One projected row per hit; each handler copies its own set of document fields. */
  datatype Row =
    | SearchRow(stockCode: string, description: string, price: int, quantity: int, country: string,
                invoiceDate: string, customerId: string, score: real)
    | CountryRow(stockCode: string, description: string, price: int, quantity: int,
                 invoiceDate: string, customerId: string)
    | PriceRow(stockCode: string, description: string, price: int, quantity: int, country: string,
               invoiceDate: string)
    | DateRow(stockCode: string, description: string, price: int, quantity: int, country: string,
              invoiceDate: string, customerId: string)
    | VectorRow(stockCode: string, description: string, price: int, quantity: int, country: string,
                invoiceDate: string, relevanceScore: real)

  /** The `result` object of each handler, and of the error envelope. */
  datatype Payload =
    | SearchPayload(count: nat, products: seq<Row>, elapsed: Elapsed)
    | CountryPayload(country: Option<string>, products: seq<Row>)
    | PricePayload(min: Option<int>, max: Option<int>, products: seq<Row>)
    | TopPayload(topProducts: seq<ProductGroup>)
    | DatePayload(start: Option<string>, end: Option<string>, products: seq<Row>)
    | VectorPayload(query: Option<string>, products: seq<Row>)
    | ErrorPayload(error: string)

  datatype DisplayKind = TableDisplay | ChartDisplay | TextDisplay | ListDisplay

  datatype DisplayContent = Rows(rows: seq<Row>) | Groups(groups: seq<ProductGroup>) | Message(text: string)

  datatype DisplayData = DisplayData(kind: DisplayKind, data: DisplayContent, title: string)

  datatype ToolResult = ToolResult(toolCallId: string, result: Payload, displayData: DisplayData)

  /** The title of the error display. */
  const ErrorTitle := "Tool Execution Error"

  /** The `catch` of `executeTool`: the error as a result instead of an exception. */
  function ErrorEnvelope(id: string, name: string, message: string): (r: ToolResult)
    ensures r.toolCallId == id
    ensures r.result == ErrorPayload("Error executing " + name + ": " + message)
    ensures r.displayData == DisplayData(TextDisplay, Message("Error: " + message), ErrorTitle)
  {
    ToolResult(id, ErrorPayload("Error executing " + name + ": " + message),
               DisplayData(TextDisplay, Message("Error: " + message), ErrorTitle))
  }

  /** The tool a (non-error) payload belongs to. */
  function PayloadTool(p: Payload): Option<Tool> {
    match p
    case SearchPayload(_, _, _) => Some(SearchProductsTool)
    case CountryPayload(_, _) => Some(ProductsByCountryTool)
    case PricePayload(_, _, _) => Some(PriceRangeProductsTool)
    case TopPayload(_) => Some(TopSellingProductsTool)
    case DatePayload(_, _, _) => Some(ProductsByDateRangeTool)
    case VectorPayload(_, _) => Some(VectorSearchTool)
    case ErrorPayload(_) => None
  }

  // ---------------------------------------------------------------------------------
  // Parameter mapping
  // ---------------------------------------------------------------------------------

  /** `(lo || hi) ? {min: lo, max: hi} : undefined` for a numeric range. */
  function GatedRange(lo: Option<int>, hi: Option<int>): (r: Option<NumberRange>)
    ensures r.Some? <==> TruthyNumber(lo) || TruthyNumber(hi)
    ensures r.Some? ==> r.value == NumberRange(lo, hi)
  {
    if TruthyNumber(lo) || TruthyNumber(hi) then Some(NumberRange(lo, hi)) else None
  }

  /** The same gate for a date range. */
  function GatedDates(start: Option<string>, end: Option<string>): (r: Option<DateRange>)
    ensures r.Some? <==> Truthy(start) || Truthy(end)
    ensures r.Some? ==> r.value == DateRange(start, end)
  {
    if Truthy(start) || Truthy(end) then Some(DateRange(start, end)) else None
  }

  /** The `searchParams` of the `search_products` handler. Description and invoice are not
      mapped, so that tool never filters on them. */
  function MapSearchParams(params: ToolParams): (p: RetailSearchParams)
    ensures p.term == params.term && p.country == params.country
    ensures p.stockCode == params.stockCode && p.customerId == params.customerId
    ensures p.description.None? && p.invoice.None?
  {
    RetailSearchParams(
      term := params.term,
      country := params.country,
      priceRange := GatedRange(params.priceMin, params.priceMax),
      dateRange := GatedDates(params.dateStart, params.dateEnd),
      stockCode := params.stockCode,
      customerId := params.customerId,
      quantityRange := GatedRange(params.quantityMin, params.quantityMax),
      description := None,
      invoice := None)
  }

  /** The same mapping with every range always present. */
  function UngatedSearchParams(params: ToolParams): RetailSearchParams {
    MapSearchParams(params).(
      priceRange := Some(NumberRange(params.priceMin, params.priceMax)),
      dateRange := Some(DateRange(params.dateStart, params.dateEnd)),
      quantityRange := Some(NumberRange(params.quantityMin, params.quantityMax)))
  }

  /** The truthiness gate changes nothing: a range left undefined filters exactly like one
      built from two falsy bounds, which the adapter ignores. */
  lemma GateIsHarmless(params: ToolParams, parse: DateParser, hits: seq<Hit>)
    ensures Kept(MapSearchParams(params), parse, hits) == Kept(UngatedSearchParams(params), parse, hits)
  {
    var p, q := MapSearchParams(params), UngatedSearchParams(params);
    forall h ensures Matches(p, parse, h) == Matches(q, parse, h) {
      assert PriceOk(p, h) == PriceOk(q, h);
      assert QuantityOk(p, h) == QuantityOk(q, h);
      assert DateOk(p, parse, h) == DateOk(q, parse, h);
    }
    KeptCongruent(p, q, parse, hits);
  }

  /** Parameters that filter every hit the same way keep the same hits. */
  lemma {:induction false} KeptCongruent(p: RetailSearchParams, q: RetailSearchParams, parse: DateParser, hits: seq<Hit>)
    requires forall h :: Matches(p, parse, h) == Matches(q, parse, h)
    ensures Kept(p, parse, hits) == Kept(q, parse, hits)
    decreases |hits|
  {
    if hits != [] { KeptCongruent(p, q, parse, hits[1..]); }
  }

  /** `params.limit || 10`. */
  function TopLimit(params: ToolParams): (n: int)
    ensures n != 0
    ensures params.limit.None? ==> n == 10
  {
    if TruthyNumber(params.limit) then params.limit.value else 10
  }

  // ---------------------------------------------------------------------------------
  // Row projections
  // ---------------------------------------------------------------------------------

  function ToSearchRow(h: Hit): Row {
    var d := h.document;
    SearchRow(d.stockCode, d.description, d.price, d.quantity, d.country, d.invoiceDate, d.customerId, h.score)
  }

  function ToCountryRow(h: Hit): Row {
    var d := h.document;
    CountryRow(d.stockCode, d.description, d.price, d.quantity, d.invoiceDate, d.customerId)
  }

  function ToPriceRow(h: Hit): Row {
    var d := h.document;
    PriceRow(d.stockCode, d.description, d.price, d.quantity, d.country, d.invoiceDate)
  }

  function ToDateRow(h: Hit): Row {
    var d := h.document;
    DateRow(d.stockCode, d.description, d.price, d.quantity, d.country, d.invoiceDate, d.customerId)
  }

  function ToVectorRow(h: Hit): Row {
    var d := h.document;
    VectorRow(d.stockCode, d.description, d.price, d.quantity, d.country, d.invoiceDate, h.score)
  }

  // ---------------------------------------------------------------------------------
  // The six handlers, given the adapter's answer
  // ---------------------------------------------------------------------------------

  /** The infinity sign of the price-range title as the source file spells it: its UTF-8
      bytes read back as Windows-1252, which puts three characters on screen. */
  const InfinitySign := "\U{E2}\U{2C6}\U{17E}"

  function SearchAnswer(id: string, results: SearchResults): (r: ToolResult)
    ensures r.toolCallId == id && r.result.SearchPayload? && PayloadTool(r.result) == Some(SearchProductsTool)
    ensures r.result.count == results.count && |r.result.products| == |results.hits|
    ensures forall i :: 0 <= i < |results.hits| ==> r.result.products[i] == ToSearchRow(results.hits[i])
    ensures r.displayData.kind == TableDisplay && r.displayData.data == Rows(r.result.products)
  {
    var products := MapSeq(results.hits, ToSearchRow);
    ToolResult(id, SearchPayload(results.count, products, results.elapsed),
               DisplayData(TableDisplay, Rows(products), "Search Results (" + IntToString(results.count) + " found)"))
  }

  function CountryAnswer(id: string, params: ToolParams, results: SearchResults): (r: ToolResult)
    ensures r.toolCallId == id && r.result.CountryPayload? && PayloadTool(r.result) == Some(ProductsByCountryTool)
    ensures r.result.country == params.country && |r.result.products| == |results.hits|
    ensures forall i :: 0 <= i < |results.hits| ==> r.result.products[i] == ToCountryRow(results.hits[i])
    ensures r.displayData.kind == TableDisplay && r.displayData.data == Rows(r.result.products)
  {
    var products := MapSeq(results.hits, ToCountryRow);
    ToolResult(id, CountryPayload(params.country, products),
               DisplayData(TableDisplay, Rows(products),
                           "Products from " + Interpolate(params.country) + " (" + IntToString(|products|) + " found)"))
  }

  function PriceAnswer(id: string, params: ToolParams, results: SearchResults): (r: ToolResult)
    ensures r.toolCallId == id && r.result.PricePayload? && PayloadTool(r.result) == Some(PriceRangeProductsTool)
    ensures r.result.min == params.minPrice && r.result.max == params.maxPrice
    ensures |r.result.products| == |results.hits|
    ensures forall i :: 0 <= i < |results.hits| ==> r.result.products[i] == ToPriceRow(results.hits[i])
    ensures r.displayData.kind == TableDisplay && r.displayData.data == Rows(r.result.products)
  {
    var products := MapSeq(results.hits, ToPriceRow);
    var low := if TruthyNumber(params.minPrice) then CentsToString(params.minPrice.value) else "0";
    var high := if TruthyNumber(params.maxPrice) then CentsToString(params.maxPrice.value) else InfinitySign;
    ToolResult(id, PricePayload(params.minPrice, params.maxPrice, products),
               DisplayData(TableDisplay, Rows(products), "Products in Price Range $" + low + " - $" + high))
  }

  function TopAnswer(id: string, params: ToolParams, groups: seq<ProductGroup>): (r: ToolResult)
    ensures r.toolCallId == id && r.result == TopPayload(groups) && PayloadTool(r.result) == Some(TopSellingProductsTool)
    ensures r.displayData.kind == TableDisplay && r.displayData.data == Groups(groups)
    ensures r.displayData.title == "Top " + IntToString(TopLimit(params)) + " Selling Products"
  {
    ToolResult(id, TopPayload(groups),
               DisplayData(TableDisplay, Groups(groups), "Top " + IntToString(TopLimit(params)) + " Selling Products"))
  }

  function DateAnswer(id: string, params: ToolParams, results: SearchResults): (r: ToolResult)
    ensures r.toolCallId == id && r.result.DatePayload? && PayloadTool(r.result) == Some(ProductsByDateRangeTool)
    ensures r.result.start == params.startDate && r.result.end == params.endDate
    ensures |r.result.products| == |results.hits|
    ensures forall i :: 0 <= i < |results.hits| ==> r.result.products[i] == ToDateRow(results.hits[i])
    ensures r.displayData.kind == TableDisplay && r.displayData.data == Rows(r.result.products)
  {
    var products := MapSeq(results.hits, ToDateRow);
    ToolResult(id, DatePayload(params.startDate, params.endDate, products),
               DisplayData(TableDisplay, Rows(products),
                           "Products from " + Interpolate(params.startDate) + " to " + Interpolate(params.endDate)))
  }

  function VectorAnswer(id: string, params: ToolParams, results: SearchResults): (r: ToolResult)
    ensures r.toolCallId == id && r.result.VectorPayload? && PayloadTool(r.result) == Some(VectorSearchTool)
    ensures r.result.query == params.query && |r.result.products| == |results.hits|
    ensures forall i :: 0 <= i < |results.hits| ==> r.result.products[i] == ToVectorRow(results.hits[i])
    ensures r.displayData.kind == TableDisplay && r.displayData.data == Rows(r.result.products)
  {
    var products := MapSeq(results.hits, ToVectorRow);
    ToolResult(id, VectorPayload(params.query, products),
               DisplayData(TableDisplay, Rows(products), "Semantic Search Results for \"" + Interpolate(params.query) + "\""))
  }

  /** The adapter call each handler makes, on an initialised client. */
  function CountryFound(engine: Engine, parse: DateParser, index: Index, params: ToolParams): SearchResults {
    ProductsFound(engine, parse, index, NoParams.(country := params.country))
  }

  function PriceFound(engine: Engine, parse: DateParser, index: Index, params: ToolParams): SearchResults {
    ProductsFound(engine, parse, index, NoParams.(priceRange := Some(NumberRange(params.minPrice, params.maxPrice))))
  }

  function DateFound(engine: Engine, parse: DateParser, index: Index, params: ToolParams): SearchResults {
    ProductsFound(engine, parse, index, NoParams.(dateRange := Some(DateRange(params.startDate, params.endDate))))
  }

  function TopFound(engine: Engine, index: Index, params: ToolParams): seq<ProductGroup> {
    SliceTo(SortByQuantity(Grouped(engine(index, TopSellingQuery).hits)), TopLimit(params))
  }
  /** The groups the `get_top_selling_products` tool returns: no more than the limit when it
      is positive, largest total quantity first, each a distinct group of the 200-hit scan. */
  lemma TopFoundRanked(engine: Engine, index: Index, params: ToolParams)
    ensures var top := TopFound(engine, index, params);
      var groups := Grouped(engine(index, TopSellingQuery).hits);
      && (TopLimit(params) > 0 ==> |top| <= TopLimit(params))
      && ByQuantityDescending(top)
      && multiset(top) <= multiset(groups)
  {
    var sorted := SortByQuantity(Grouped(engine(index, TopSellingQuery).hits));
    PrefixOf(sorted, SliceEnd(|sorted|, TopLimit(params)));
  }


  /** What a recognised tool produces on an initialised executor, or the message it throws. */
  function Handle(tool: Tool, engine: Engine, embed: Embedder, parse: DateParser, index: Index,
                  id: string, params: ToolParams): (r: Result<ToolResult>)
    ensures r.Success? ==> r.value.toolCallId == id && PayloadTool(r.value.result) == Some(tool)
  {
    match tool
    case SearchProductsTool => Success(SearchAnswer(id, ProductsFound(engine, parse, index, MapSearchParams(params))))
    case ProductsByCountryTool => Success(CountryAnswer(id, params, CountryFound(engine, parse, index, params)))
    case PriceRangeProductsTool => Success(PriceAnswer(id, params, PriceFound(engine, parse, index, params)))
    case TopSellingProductsTool => Success(TopAnswer(id, params, TopFound(engine, index, params)))
    case ProductsByDateRangeTool => Success(DateAnswer(id, params, DateFound(engine, parse, index, params)))
    case VectorSearchTool =>
      match embed(params.query)
      case None => Failure(EmbeddingsFailed)
      case Some(v) => Success(VectorAnswer(id, params, engine(index, VectorQuery(params.query, v))))
  }

  /** What a tool call on an initialised executor produces, or the message it throws. */
  function Answer(engine: Engine, embed: Embedder, parse: DateParser, index: Index, call: ToolCall): (r: Result<ToolResult>)
    ensures r.Success? ==> r.value.toolCallId == call.id && PayloadTool(r.value.result) == ToolFor(call.name)
    ensures ToolFor(call.name).None? ==> r == Failure("Unknown tool: " + call.name)
  {
    match ToolFor(call.name)
    case None => Failure("Unknown tool: " + call.name)
    case Some(t) => Handle(t, engine, embed, parse, index, call.id, call.parameters)
  }

  /** The result `executeTool` returns on an initialised executor. */
  function Response(engine: Engine, embed: Embedder, parse: DateParser, index: Index, call: ToolCall): ToolResult {
    match Answer(engine, embed, parse, index, call)
    case Success(t) => t
    case Failure(message) => ErrorEnvelope(call.id, call.name, message)
  }

  /** Whatever happens, the response answers the call it was given: it carries the call's
      id, and it is either that tool's payload or an error envelope naming the tool. */
  lemma ResponseAnswersCall(engine: Engine, embed: Embedder, parse: DateParser, index: Index, call: ToolCall)
    ensures var r := Response(engine, embed, parse, index, call);
      && r.toolCallId == call.id
      && (PayloadTool(r.result) == ToolFor(call.name) || (exists m :: r == ErrorEnvelope(call.id, call.name, m)))
  {
    var a := Answer(engine, embed, parse, index, call);
    if a.Failure? {
      assert Response(engine, embed, parse, index, call) == ErrorEnvelope(call.id, call.name, a.error);
    }
  }

  /** An unknown name is answered with the unknown-tool envelope. */
  lemma UnknownToolEnvelope(engine: Engine, embed: Embedder, parse: DateParser, index: Index, call: ToolCall)
    requires ToolFor(call.name).None?
    ensures var r := Response(engine, embed, parse, index, call);
      && r.result == ErrorPayload("Error executing " + call.name + ": " + ("Unknown tool: " + call.name))
      && r.displayData == DisplayData(TextDisplay, Message("Error: " + ("Unknown tool: " + call.name)), ErrorTitle)
  {
  }

  /** The `search_products` count is the adapter's filtered count, and there is one row per
      kept hit. */
  lemma SearchCountIsFilteredCount(engine: Engine, embed: Embedder, parse: DateParser, index: Index, call: ToolCall)
    requires call.name == "search_products"
    ensures var r := Response(engine, embed, parse, index, call);
      var found := ProductsFound(engine, parse, index, MapSearchParams(call.parameters));
      && r.result.SearchPayload?
      && r.result.count == |found.hits| == |r.result.products|
  {
  }

  // ---------------------------------------------------------------------------------
  // The executor
  // ---------------------------------------------------------------------------------

  /** The account whose index the executor's client serves. */
  const MainIndexAccount := "main-retail-index"

  class ToolExecutor {
    const client: Oramaclient
    var isInitialized: bool
    /** How many times the adapter's `initialize` has been started. */
    ghost var initializations: nat

    /** The flag is set only while the client has an index. */
    ghost predicate Valid()
      reads this, client
    {
      isInitialized ==> client.orama.Some?
    }

    constructor(db: AccountStore, engine: Engine, embed: Embedder, parseDate: DateParser)
      ensures fresh(client) && client.accountId == MainIndexAccount && client.db == db
      ensures client.engine == engine && client.embed == embed && client.parseDate == parseDate
      ensures client.orama.None? && !isInitialized && initializations == 0
      ensures Valid()
    {
      client := new Oramaclient(MainIndexAccount, db, engine, embed, parseDate);
      isInitialized := false;
      initializations := 0;
    }

    /** `initialize`: a no-op once initialised; otherwise the adapter's `initialize`, whose
        success sets the flag and whose error is passed on with the flag left clear. */
    method Initialize() returns (outcome: Outcome)
      requires Valid()
      modifies this, client, client.db
      ensures Valid()
      ensures old(isInitialized) ==>
                && outcome == Pass && isInitialized && initializations == old(initializations)
                && client.orama == old(client.orama) && client.db.accounts == old(client.db.accounts)
      ensures !old(isInitialized) ==>
                && initializations == old(initializations) + 1
                && (isInitialized <==> outcome == Pass)
                && (outcome.Fail? <==> client.accountId !in old(client.db.accounts))
                && (outcome.Fail? ==> outcome == Fail(AccountNotFound))
                && Started(client.accountId, old(client.db.accounts), old(client.orama),
                           client.orama, client.db.accounts)
    {
      if isInitialized {
        return Pass;
      }
      initializations := initializations + 1;
      outcome := client.Initialize();
      if outcome == Pass {
        isInitialized := true;
      }
    }

    /** `ensureInitialized`: `initialize` when the flag is clear. */
    method EnsureInitialized() returns (outcome: Outcome)
      requires Valid()
      modifies this, client, client.db
      ensures Valid()
      ensures old(isInitialized) ==>
                && outcome == Pass && isInitialized && initializations == old(initializations)
                && client.orama == old(client.orama) && client.db.accounts == old(client.db.accounts)
      ensures !old(isInitialized) ==>
                && initializations == old(initializations) + 1
                && (isInitialized <==> outcome == Pass)
                && (outcome.Fail? <==> client.accountId !in old(client.db.accounts))
                && (outcome.Fail? ==> outcome == Fail(AccountNotFound))
                && Started(client.accountId, old(client.db.accounts), old(client.orama),
                           client.orama, client.db.accounts)
    {
      outcome := Pass;
      if !isInitialized {
        outcome := Initialize();
      }
    }

    /** `destroy`: the flag is cleared, so the next call initialises again. */
    method Destroy()
      modifies this
      ensures !isInitialized && initializations == old(initializations)
      ensures Valid()
    {
      isInitialized := false;
    }

    /** `executeTool`: never throws. The executor is initialised first; a failure there, an
        unknown name or an error in a handler comes back as an error envelope. */
    method ExecuteTool(call: ToolCall) returns (r: ToolResult)
      requires Valid()
      modifies this, client, client.db
      ensures Valid()
      ensures r.toolCallId == call.id
      ensures initializations == old(initializations) + (if old(isInitialized) then 0 else 1)
      ensures old(isInitialized) ==> client.orama == old(client.orama) && client.db.accounts == old(client.db.accounts)
      ensures !isInitialized <==> !old(isInitialized) && client.accountId !in old(client.db.accounts)
      ensures !old(isInitialized) ==>
                Started(client.accountId, old(client.db.accounts), old(client.orama), client.orama, client.db.accounts)
      ensures !isInitialized ==> r == ErrorEnvelope(call.id, call.name, AccountNotFound)
      ensures isInitialized ==>
                r == Response(client.engine, client.embed, client.parseDate, client.orama.value, call)
    {
      var ready := EnsureInitialized();
      if ready.Fail? {
        return ErrorEnvelope(call.id, call.name, ready.error);
      }
      var answer := RunTool(call);
      r := match answer
        case Success(t) => t
        case Failure(message) => ErrorEnvelope(call.id, call.name, message);
    }

    /** The `switch (name)` of `executeTool`, on an initialised client. */
    method RunTool(call: ToolCall) returns (answer: Result<ToolResult>)
      requires client.orama.Some?
      ensures answer == Answer(client.engine, client.embed, client.parseDate, client.orama.value, call)
    {
      match ToolFor(call.name) {
      case None =>
        answer := Failure("Unknown tool: " + call.name);
      case Some(SearchProductsTool) =>
        answer := HandleSearchProducts(call.id, call.parameters);
      case Some(ProductsByCountryTool) =>
        answer := HandleProductsByCountry(call.id, call.parameters);
      case Some(PriceRangeProductsTool) =>
        answer := HandlePriceRangeProducts(call.id, call.parameters);
      case Some(TopSellingProductsTool) =>
        answer := HandleTopSellingProducts(call.id, call.parameters);
      case Some(ProductsByDateRangeTool) =>
        answer := HandleProductsByDateRange(call.id, call.parameters);
      case Some(VectorSearchTool) =>
        answer := HandleVectorSearch(call.id, call.parameters);
      }
    }

    method HandleSearchProducts(id: string, params: ToolParams) returns (r: Result<ToolResult>)
      requires client.orama.Some?
      ensures r == Success(SearchAnswer(id, ProductsFound(client.engine, client.parseDate, client.orama.value,
                                                          MapSearchParams(params))))
    {
      var results := client.SearchProducts(MapSearchParams(params));
      r := Success(SearchAnswer(id, results.value));
    }

    method HandleProductsByCountry(id: string, params: ToolParams) returns (r: Result<ToolResult>)
      requires client.orama.Some?
      ensures r == Success(CountryAnswer(id, params, CountryFound(client.engine, client.parseDate, client.orama.value, params)))
    {
      var results := client.GetProductsByCountry(params.country);
      r := Success(CountryAnswer(id, params, results.value));
    }

    method HandlePriceRangeProducts(id: string, params: ToolParams) returns (r: Result<ToolResult>)
      requires client.orama.Some?
      ensures r == Success(PriceAnswer(id, params, PriceFound(client.engine, client.parseDate, client.orama.value, params)))
    {
      var results := client.GetProductsByPriceRange(params.minPrice, params.maxPrice);
      r := Success(PriceAnswer(id, params, results.value));
    }

    method HandleTopSellingProducts(id: string, params: ToolParams) returns (r: Result<ToolResult>)
      requires client.orama.Some?
      ensures r == Success(TopAnswer(id, params, TopFound(client.engine, client.orama.value, params)))
    {
      var limit := TopLimit(params);
      var groups := client.GetTopSellingProducts(Some(limit));
      r := Success(TopAnswer(id, params, groups.value));
    }

    method HandleProductsByDateRange(id: string, params: ToolParams) returns (r: Result<ToolResult>)
      requires client.orama.Some?
      ensures r == Success(DateAnswer(id, params, DateFound(client.engine, client.parseDate, client.orama.value, params)))
    {
      var results := client.GetProductsByDateRange(params.startDate, params.endDate);
      r := Success(DateAnswer(id, params, results.value));
    }

    method HandleVectorSearch(id: string, params: ToolParams) returns (r: Result<ToolResult>)
      requires client.orama.Some?
      ensures client.embed(params.query).None? ==> r == Failure(EmbeddingsFailed)
      ensures client.embed(params.query).Some? ==>
                r == Success(VectorAnswer(id, params, client.engine(client.orama.value,
                                                                   VectorQuery(params.query, client.embed(params.query).value))))
    {
      var results := client.VectorSearch(params.query);
      if results.Failure? {
        return Failure(results.error);
      }
      r := Success(VectorAnswer(id, params, results.value));
    }
  }
}
