/** The outside world the client talks to (pkg/zendesk/interface.go), reduced
    to what the account fetch observes: a GET request goes out, and either a
    transport error or a response with a status code and a body comes back.
    Reading the body and decoding its JSON are library code; only their
    three possible results are kept. */
module Transport {
  import opened Results
  import opened Errors

  /** The decoded account payload (`accountResponse`). Only `url` and
      `subdomain` are consulted; the other fields ride along. */
  datatype AccountRecord = AccountRecord(
    url: string,
    name: string,
    sandbox: bool,
    subdomain: string,
    timeFormat: int,
    timeZone: string,
    ownerId: int,
    multiproduct: bool)

  /** What reading the body and decoding it as an AccountRecord yields. */
  datatype Body =
    | ReadFailed(cause: Err)        // ioutil.ReadAll failed
    | Malformed(cause: Err)         // json.Unmarshal failed
    | Decoded(record: AccountRecord)

  datatype Response = Response(status: int, body: Body)

  /** A request without body or headers: the only thing that varies is the URL. */
  datatype Request = Get(url: string)

  /** The `doer` capability: one request in, one response or error out. */
  type Doer = Request -> Result<Response, Err>

  /** The error `http.NewRequest(GET, url, nil)` reports for a URL, if any. */
  type RequestCheck = string -> Option<Err>
}
