/** `search_anime`: picking the hit out of the decoded Jikan response. */
module SearchClient {
  import opened Records

  /** The decoded body of `GET /anime?q=<title>&limit=1`, reduced to what
      `search_anime` looks at: None when the body or its `data` member is
      JSON null or empty of keys, otherwise the `data` array. */
  type Payload = Option<seq<AnimeRecord>>

  /** `if data and data['data']: return data['data'][0]` and None otherwise:
      a hit exactly when the payload holds a non-empty array, and then the
      service's first-ranked entry, never re-ranked. */
  function SelectResult(payload: Payload): (r: Option<AnimeRecord>)
    ensures r.Some? <==> payload.Some? && payload.value != []
    ensures r.Some? ==> r.value == payload.value[0]
  {
    match payload
    case None => None
    case Some(hits) => if hits == [] then None else Some(hits[0])
  }
}
