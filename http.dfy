/** What an Express middleware or handler does with a request. */
module Http {

  /** Either hand the request on with `next()`, or answer it with a status and the
      `{ success: false, error }` body. */
  datatype Decision = Next | Reject(status: int, error: string)
}
