/** The search backend as the command engine sees it (`src/backend.rs`). */
module Backend {
  import opened Wrappers

  /** One search hit: an optional thumbnail URL, the backend's id and a title. */
  datatype SearchResult = SearchResult(thumbnail: Option<string>, id: string, title: string)

  /** The `Backend` trait as a record of its three operations; a query may
      panic inside the implementation, which ends the program. */
  datatype Backend = Backend(
    findRelatedTracks: string -> Outcome<seq<SearchResult>>,
    search: string -> Outcome<seq<SearchResult>>,
    genDownloadUrl: string -> string)
}
