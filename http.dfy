/** The HTTP status codes the relay produces and the Fetch Standard's "ok status". */
module Http {

  /** 200 OK (section 15.3.1 of RFC 9110), the default status of `NextResponse.json`. */
  const STATUS_OK: int := 200

  /** 500 Internal Server Error (section 15.6.1 of RFC 9110). */
  const STATUS_INTERNAL_SERVER_ERROR: int := 500

  /** An "ok status" of the Fetch Standard, which `Response.ok` reports: 200 to 299. */
  predicate IsOkStatus(status: int) {
    200 <= status <= 299
  }
}
