/** A completed HTTP exchange as the services see it. The network itself is
    not modelled: the response arrives as an input to each operation. */
module Http {

  /** `status` and `statusText` of the response, the raw body text as read by
      `response.text()`, and the value `response.json()` parsed from it. */
  datatype Response<T> = Response(status: int, statusText: string, body: string, json: T) {
    /** `response.ok`. */
    predicate Ok() {
      200 <= status <= 299
    }
  }
}
