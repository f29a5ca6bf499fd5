/** The REST contract between the browser client and the backend: the search request
    and the shapes of the replies the client reads. */
module Api {
  import opened Js

  /** The body of `POST /scrape`. Fields are JavaScript values: a replayed history
      entry can carry anything under these names. */
  datatype SearchParams = SearchParams(keyword: Val, location: Val, platform: Val, maxResults: Val)

  /** The outcome of `await fetch(...)` followed by `await response.json()`: either
      one of the two threw (network failure, unparsable body) with a message, or the
      parsed body arrived. */
  datatype Reply<B> = Threw(message: string) | Ok(body: B)

  /** `{status, results, detail}` from `POST /scrape`; `results` is `None` when the
      property is absent or `null`. */
  datatype ScrapeBody = ScrapeBody(status: Val, results: Option<seq<Record>>, detail: Val)

  /** `{history: [...]}` from `GET /history` or `{leads: [...]}` from `GET /leads`:
      the list under the key, or `None` when the key is absent or `null`. */
  type ListBody = Option<seq<Record>>

  /** `{status}` from `POST /leads` and `DELETE /leads/{id}`. */
  datatype StatusBody = StatusBody(status: Val)

  /** `data.status === 'success'`. */
  predicate Succeeded(status: Val) {
    status == Str("success")
  }
}
