/** The retail records the search index holds, and the interface of the third-party search
    engine, which the model takes as given: its `search` is a function value supplied by the
    environment, applied to the index and a query. */
module Retail {
  import opened Wrappers

  /** One retail transaction line as indexed. Prices are in cents; the embedding vector the
      seeding script stores with each document is not read by the core and is omitted. */
  datatype Document = Document(
    invoice: string,
    stockCode: string,
    description: string,
    quantity: int,
    invoiceDate: string,
    price: int,
    customerId: string,
    country: string)

  /** One search hit: the engine's document id, its relevance score and the document. */
  datatype Hit = Hit(id: string, score: real, document: Document)

  /** The engine's timing report, carried through unchanged. */
  datatype Elapsed = Elapsed(raw: nat, formatted: string)

  /** What the engine's `search` returns: the ranked hits (at most the query's limit), the
      number of matching documents (which may exceed the number of hits), and the timing. */
  datatype SearchResults = SearchResults(hits: seq<Hit>, count: nat, elapsed: Elapsed)

  type Vector = seq<real>

  /** The two query shapes the adapter issues: a full-text query with an optional limit
      (the engine's default applies when it is absent), and a hybrid text-and-vector query. */
  datatype Query =
    | FullText(term: string, limit: Option<nat>)
    | Hybrid(text: Option<string>, vector: Vector, property: string, similarity: real, hybridLimit: nat)

  datatype FieldType = StringField | NumberField | VectorField(dimension: nat)

  /** The schema `initialize` creates a fresh index with. */
  const RetailSchema: seq<(string, FieldType)> := [
    ("invoice", StringField),
    ("stockCode", StringField),
    ("description", StringField),
    ("quantity", NumberField),
    ("invoiceDate", StringField),
    ("price", NumberField),
    ("customerId", StringField),
    ("country", StringField),
    ("embeddings", VectorField(1536))
  ]

  /** An in-memory index, represented by its schema and the documents inserted into it. */
  datatype Index = Index(schema: seq<(string, FieldType)>, documents: seq<Document>)

  /** The serialised form of an index (the persisted `OramaIndex` JSON blob). */
  datatype Blob = Blob(schema: seq<(string, FieldType)>, documents: seq<Document>)

  /** The engine's `search`: ranking, tokenisation and the match-all `*` are its own. */
  type Engine = (Index, Query) -> SearchResults

  /** The embedding provider: an embedding for the text, or none when it returns nothing. */
  type Embedder = Option<string> -> Option<Vector>

  /** `new Date(text)`: the time value of the date, or None for an Invalid Date. */
  type DateParser = string -> Option<int>

  /** The engine's `create` with a schema: an empty index. */
  function Create(schema: seq<(string, FieldType)>): Index {
    Index(schema, [])
  }

  /** The engine's `insert`. */
  function Insert(index: Index, d: Document): (r: Index)
    ensures r.schema == index.schema && r.documents == index.documents + [d]
  {
    index.(documents := index.documents + [d])
  }

  /** The persistence plugin's `persist(index, 'json')`. */
  function Persist(index: Index): Blob {
    Blob(index.schema, index.documents)
  }

  /** The persistence plugin's `restore('json', blob)`. */
  function Restore(blob: Blob): Index {
    Index(blob.schema, blob.documents)
  }

  /** Restoring a persisted index gives back the index. */
  lemma RestorePersist(index: Index)
    ensures Restore(Persist(index)) == index
  {
  }

  /** The limits the adapter passes to the engine. */
  const SearchProductsLimit: nat := 500
  const TopSellingScanLimit: nat := 200
  const StatisticsScanLimit: nat := 10000
  const VectorSearchLimit: nat := 10
  const VectorSimilarity: real := 0.8
}
