/** The two HTTP status codes the client distinguishes (net/http's
    StatusOK and StatusNotFound). */
module HttpStatus {

  const StatusOK: int := 200
  const StatusNotFound: int := 404
}
