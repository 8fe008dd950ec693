# Zendesk account gateway: error classification model

A Dafny model of the core of a small Go client for the Zendesk account API
(`pkg/zendesk`). The client fetches `/api/v2/account.json` for one tenant and
returns the account's `url` or `subdomain`. Every failure comes back as a Go
error that carries one or both of two sentinels, `ErrNotFound` and
`ErrUnexpected`. Callers test for them with `IsErrNotFound` and
`isErrUnexpected`.

The model has these modules:

- `Errors` (error.go). Go errors become a tree: `Sentinel(kind)`,
  `Opaque(msg)`, `Wrap(context, inner)` for `fmt.Errorf("context: %w", inner)`,
  and `Join(errs)` for `errors.Join`.
  - `Contains` models `errors.Is`. It is proved equal to a separate reading:
    "the sentinel is somewhere in the error tree", where the tree is reached
    through unwrap paths.
  - `Text` models `Error()`. It is proved to keep the text of every wrapped
    error visible.
  - `ConvertToError`, `IsErrNotFound` and `IsErrUnexpected` are error.go's
    functions.
- `Strings`: substring search, plus `%d` formatting with a parser. The
  round trip shows that the formatting loses nothing; `StatusTextIdentifiesCode`
  uses it to show that a status error's text identifies its code.
- `HttpStatus`: the two status codes the client tells apart.
- `Transport` (interface.go, and the record of account.go):
  - the request;
  - the response, as a status code plus the outcome of reading and decoding
    the body;
  - the `doer` capability, as a function from request to response-or-error;
  - the decoded `AccountRecord`.
- `Gateways` (main.go): the immutable gateway record and `NewGateway`.
- `Account` (account.go):
  - `RequestUrl` builds the URL.
  - `Send` is the exchange with the transport.
  - `Interpret` is the status, read and decode decision chain.
  - `FetchAccount` is `account()`.
  - `Lookup` is the protocol that `Url()` and `Subdomain()` share.
  - One lemma per kind of transport answer states what a caller sees.

`http.NewRequest` and the transport are not modelled. Their results are
inputs:

- a `RequestCheck` function returns the error `http.NewRequest` gives for a
  URL, if any;
- the gateway's `client` function returns the transport's answer to a request.

## Model

| member | source | states |
|---|---|---|
| `Errors.SentinelText` | pkg/zendesk/error.go:9-10 | the texts of `ErrNotFound` and `ErrUnexpected`, which differ from each other |
| `Errors.Contains` | pkg/zendesk/error.go:13 | `errors.Is` against a sentinel: unwraps a wrapper and searches a join's members. `ContainsIffInTree` proves it equal to "the sentinel is in the unwrap tree" |
| `Errors.ContainsAny` | pkg/zendesk/error.go:17 | the member search of `errors.Is` on a join. `ContainsAnyExists` proves it holds exactly when some member contains the kind |
| `Errors.Text` | pkg/zendesk/account.go:25 | `Error()`: a wrapper prints its context, `: ` and the wrapped text. `SubtreeTextVisible` proves every wrapped or joined error's text appears in the whole |
| `Errors.Lines` | pkg/zendesk/account.go:29 | `Error()` of a join: the members' texts on separate lines. `LinesShowMember` proves every member's text appears in it |
| `Errors.ContainsAnyExists` | pkg/zendesk/error.go:12-18 | `errors.Is` on a join holds exactly when it holds for some member of the join |
| `Errors.ContainsIffInTree` | pkg/zendesk/error.go:12-18 | the structural `errors.Is` check holds exactly when the sentinel occurs somewhere in the error's unwrap tree, in both directions |
| `Errors.JoinOfTwo` | pkg/zendesk/error.go:25 | a two-member `errors.Join` carries the kinds of either member, and its text is both texts on separate lines |
| `Errors.SubtreeTextVisible` | pkg/zendesk/account.go:54-72 | wrapping with a context label or joining never hides text: the text of any error in the tree appears inside the whole error's text |
| `Errors.Wrapf` | pkg/zendesk/account.go:25 | `fmt.Errorf("context: %w", e)` keeps exactly `e`'s classification; its text starts with the label and contains `e`'s text |
| `Errors.UnexpectedFailure` | pkg/zendesk/account.go:54 | `errors.Join(ErrUnexpected, fmt.Errorf("label: %w", cause))` is Unexpected. It is NotFound exactly when the cause is. Its text shows the label and the cause's text |
| `Errors.StatusDetail` | pkg/zendesk/error.go:25 | the opaque `unexpected status code %d` text, which contains the code's `%d` rendering |
| `Errors.ConvertToError` | pkg/zendesk/error.go:20-26 | status 404 gives exactly `ErrNotFound` (NotFound, not Unexpected). Every other code is Unexpected and not NotFound, and the error text contains the code in decimal. The function is total |
| `Errors.IsErrNotFound` | pkg/zendesk/error.go:12-14 | true exactly when the error is non-nil and `ErrNotFound` is in its tree |
| `Errors.IsErrUnexpected` | pkg/zendesk/error.go:16-18 | true exactly when the error is non-nil and `ErrUnexpected` is in its tree |
| `Errors.SentinelsAreDistinguished` | pkg/zendesk/error.go:9-18 | each predicate accepts its own sentinel and rejects the other one |
| `Errors.PredicatesThroughComposition` | pkg/zendesk/error.go:12-18 | both predicates see through a wrapper, and hold for a join exactly when they hold for some member |
| `Strings.DigitsRoundTrip` | pkg/zendesk/error.go:25 | the decimal digits printed for a natural number read back to that number |
| `Strings.FormatIntRoundTrip` | pkg/zendesk/error.go:25 | the `%d` rendering of any int, including the sign, parses back to the same int |
| `Strings.FormatInt` | pkg/zendesk/error.go:25 | the `%d` rendering: a minus sign exactly for negative numbers. Its partner is `ParseInt`, through `FormatIntRoundTrip` |
| `Strings.FormatIntInjective` | pkg/zendesk/error.go:25 | different ints are printed differently |
| `Errors.StatusTextIdentifiesCode` | pkg/zendesk/error.go:20-26 | any two codes whose errors have the same text are the same code (404 alone prints "not found error") |
| `Gateways.NewGateway` | pkg/zendesk/main.go:9-15 | construction never fails. The gateway holds exactly the given client, subdomain and host |
| `Account.RequestUrl` | pkg/zendesk/account.go:51 | the URL is `http://`, then subdomain, dot and host, then `.com/api/v2/account.json` |
| `Account.RequestUrlIdentifiesTenant` | pkg/zendesk/account.go:51 | if neither subdomain contains a dot, equal request URLs mean equal subdomains and equal hosts |
| `Account.AccountRequest` | pkg/zendesk/account.go:51-52 | a GET with no body of exactly `RequestUrl(subdomain, host)`: `http://`, then `subdomain.host`, then the path `.com/api/v2/account.json` |
| `Account.Send` | pkg/zendesk/account.go:51-60 | the transport is called only if the URL was accepted, and only with a GET of the gateway's own account URL. A refused URL stops the exchange with the refusal's error |
| `Account.Interpret` | pkg/zendesk/account.go:52-75 | only a 200 with a decodable body succeeds, and it returns the decoded record. Every failure is classified: see the per-branch rows below |
| `Account.FetchAccount` | pkg/zendesk/account.go:48-76 | every failure of `account()` is classified. A success means the transport answered the account request with 200 and a body that decoded to the returned record |
| `Account.StatusFailureIgnoresBody` | pkg/zendesk/account.go:62-66 | when the status is not 200, the outcome does not depend on the body |
| `Account.FetchDependsOnlyOnExchange` | pkg/zendesk/account.go:48-76 | no hidden state: two gateways with the same tenant names whose transports answer the account request alike get the same outcome |
| `Account.EmptyFieldError` | pkg/zendesk/account.go:29 | the empty-field error is both NotFound and Unexpected |
| `Account.Lookup` | pkg/zendesk/account.go:22-46 | the value is non-empty exactly when the error is nil. A fetch failure reaches the caller prefixed with `g.account():`, with the same kinds and its text intact. An empty field is both NotFound and Unexpected. Otherwise the field's value is returned |
| `Account.Url` | pkg/zendesk/account.go:22-33 | value and error are exclusive. A nil error means the transport answered 200 with a record whose `url` is returned |
| `Account.Subdomain` | pkg/zendesk/account.go:35-46 | value and error are exclusive. A nil error means the transport answered 200 with a record whose `subdomain` is returned |
| `Account.TransportFailureReply` | pkg/zendesk/account.go:57-60 | transport failure: empty value, Unexpected, NotFound only if the transport's own error was NotFound. The text contains `g.client.Do:` |
| `Account.NotFoundReply` | pkg/zendesk/account.go:62-63 | status 404: empty value, NotFound and not Unexpected |
| `Account.BadStatusReply` | pkg/zendesk/account.go:62-63 | any other status that is not 200: empty value, Unexpected and not NotFound. The text contains the status code |
| `Account.MalformedBodyReply` | pkg/zendesk/account.go:71-73 | a 200 whose body does not decode: empty value, Unexpected. The text contains `json.Unmarshal:` |
| `Account.EmptyFieldReply` | pkg/zendesk/account.go:28-30 | a 200 whose record has the requested field empty: empty value, both NotFound and Unexpected |
| `Account.FoundReply` | pkg/zendesk/account.go:28-32 | a 200 whose record has the requested field set: exactly that value, and a nil error |

`Url` and `Subdomain` are `Lookup` with the field fixed. So every
`...Reply` lemma, which is stated for any field, covers both accessors.
A refused URL and an unreadable body are covered by `Account.Interpret`:
both are Unexpected, and the text names `http.NewRequest:` or
`ioutil.ReadAll:`.

### Behaviour of the code worth knowing

- A failed request, transport call, body read or decode is NotFound exactly
  when its cause is (account.go:54,59,68,72). A real transport never returns
  one of this package's sentinels, and neither does the tests' mock.
- `convertToError` returns the `ErrNotFound` sentinel itself for 404. For any
  other code it returns the Unexpected sentinel joined with an opaque text
  that carries the code.
- An empty `url` or `subdomain` gives one joined error that carries both
  kinds (account.go:29,42).

## Left out

- HTTP transport (`doer.Do`): foreign I/O. It is a function in the gateway
  from request to response-or-error. A nil response with a nil error cannot be
  represented; account.go:62 would dereference the nil response there.
- `http.NewRequest` URL validation: library parsing rules. The caller
  supplies which URLs are refused and with what error (`RequestCheck`).
- `ioutil.ReadAll` and `json.Unmarshal` internals: library code. The body is
  given as `ReadFailed`, `Malformed` or `Decoded(record)`.
  - When decoding fails, account.go returns a record that may be partly
    filled. The model returns no record. Neither `Url()` nor `Subdomain()`
    reads the record after an error.
- Closing the response body: account.go never closes it, and resources are
  not modelled.
- Error text in general: Go's exact formatting is presentation. Only these
  are modelled:
  - the sentinel texts;
  - the `context: ` prefixes;
  - the newline between joined errors;
  - the `%d` rendering of the status code.
- A nil `doer`: `NewGateway` accepts one (main.go:9-14), and `g.client.Do`
  then panics (account.go:57). The model's `Doer` is a total function, so a
  nil client cannot occur.
- A 200 response with a nil `Body`: `ioutil.ReadAll` panics on it
  (account.go:66). `Body` has no case for it.
- `Join([])`: it is a non-nil error with empty text in the model. Go's
  `errors.Join` of nothing is nil, and the package never builds one.
- Pointer identity of the sentinels: they are compared by kind. An opaque
  error with the same text is not a sentinel, as in Go.
- `errors.Is` also honours custom `Is` methods; this package defines none.
- The unused receiver of `IsErrNotFound` and `isErrUnexpected`: the
  predicates take only the error.
- The 64-bit width of `time_format` and `owner_id`: no arithmetic is done on
  them.
- Concurrency, retries and timeouts: the Go package has none.
