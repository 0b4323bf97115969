/** The domain records (domain/entities.py). */
module Entities {
  import opened Wrappers
  import opened Py
  import Dedup

  /** An ingested unit of content. */
  datatype Document = Document(
    content: string,
    metadata: Dict,
    source: Option<string>,
    pageNumber: Option<int>,
    chunkId: Option<string>)

  /** One retrieved candidate; `score` is typed `float` but the use case also handles `None`. */
  datatype SearchResult = SearchResult(
    content: string,
    metadata: Dict,
    id: string,
    score: Option<real>,
    source: Option<string>,
    pageNumber: Option<int>)

  /** The key results are de-duplicated by. */
  function IdOf(r: SearchResult): string {
    r.id
  }

  /** The set of ids in a list of results. */
  function Ids(rs: seq<SearchResult>): set<string> {
    Dedup.Keys(rs, IdOf)
  }
}
