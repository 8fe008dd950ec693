/** The account fetch of pkg/zendesk/account.go: build the URL, ask the
    transport, check the status, read and decode the body; and the two field
    accessors `Url()` and `Subdomain()` built on it. */
module Account {
  import opened Results
  import opened Strings
  import opened HttpStatus
  import opened Errors
  import opened Transport
  import opened Gateways

  // ---------------------------------------------------------------------
  // Request construction

  /** `fmt.Sprintf("http://%s.%s.com/api/v2/account.json", subdomain, host)`:
      a fixed scheme, a fixed path, and the two names joined by a dot. */
  function RequestUrl(subdomain: string, host: string): (r: string)
    ensures StartsWith(r, "http://")
    ensures |r| == 7 + |subdomain| + 1 + |host| + 24
    ensures r[7..|r| - 24] == subdomain + "." + host
    ensures r[|r| - 24..] == ".com/api/v2/account.json"
  {
    "http://" + subdomain + "." + host + ".com/api/v2/account.json"
  }

  /** The text of `m` before its first dot. */
  function BeforeDot(m: string): string
  {
    if |m| == 0 || m[0] == '.' then "" else [m[0]] + BeforeDot(m[1..])
  }

  lemma {:induction false} BeforeDotOfJoin(s: string, h: string)
    requires '.' !in s
    ensures BeforeDot(s + "." + h) == s
  {
    if |s| > 0 {
      assert (s + "." + h)[1..] == s[1..] + "." + h;
      assert '.' !in s[1..] by {
        forall i | 0 <= i < |s[1..]|
          ensures s[1..][i] != '.'
        {
          assert s[1..][i] == s[i + 1];
        }
      }
      BeforeDotOfJoin(s[1..], h);
      assert [s[0]] + s[1..] == s;
    }
  }

  /** For subdomains without a dot the URL identifies the tenant: two
      gateways that send the same URL have the same subdomain and host. */
  lemma RequestUrlIdentifiesTenant(s1: string, h1: string, s2: string, h2: string)
    requires '.' !in s1 && '.' !in s2
    requires RequestUrl(s1, h1) == RequestUrl(s2, h2)
    ensures s1 == s2 && h1 == h2
  {
    var u := RequestUrl(s1, h1);
    var m := u[7..|u| - 24];
    assert m == s1 + "." + h1 == s2 + "." + h2;
    BeforeDotOfJoin(s1, h1);
    BeforeDotOfJoin(s2, h2);
    assert h1 == m[|s1| + 1..];
    assert h2 == m[|s2| + 1..];
  }

  // ---------------------------------------------------------------------
  // The exchange with the transport

  /** How far the request got before something answered. */
  datatype Attempt =
    | RequestRejected(cause: Err)    // http.NewRequest refused the URL
    | TransportFailed(cause: Err)    // g.client.Do returned an error
    | Responded(response: Response)  // g.client.Do returned a response

  /** The request the gateway sends: a GET, without body or headers, of the
      account URL built from the gateway's subdomain and host. */
  function AccountRequest(g: Gateway): (r: Request)
    ensures StartsWith(r.url, "http://")
    ensures |r.url| == |g.subdomain| + |g.host| + 32
    ensures r.url[7..|r.url| - 24] == g.subdomain + "." + g.host
    ensures r.url[|r.url| - 24..] == ".com/api/v2/account.json"
    ensures r.url == RequestUrl(g.subdomain, g.host)
  {
    Get(RequestUrl(g.subdomain, g.host))
  }

  /** Steps 1-3 of `account()`: the transport is consulted only when the URL
      was accepted, and then only about the gateway's own account request. */
  function Send(g: Gateway, newRequest: RequestCheck): (a: Attempt)
    ensures a.RequestRejected? <==> newRequest(RequestUrl(g.subdomain, g.host)).Some?
    ensures a.RequestRejected? ==> newRequest(RequestUrl(g.subdomain, g.host)) == Some(a.cause)
    ensures a.TransportFailed? ==> g.client(AccountRequest(g)) == Failure(a.cause)
    ensures a.Responded? ==> g.client(AccountRequest(g)) == Success(a.response)
  {
    var url := RequestUrl(g.subdomain, g.host);
    match newRequest(url)
    case Some(e) => RequestRejected(e)
    case None =>
      match g.client(Get(url))
      case Failure(e) => TransportFailed(e)
      case Success(resp) => Responded(resp)
  }

  /** The decision chain of `account()` once the transport has answered:
      each failure is classified, and only a 200 with a decodable body
      succeeds. */
  function Interpret(a: Attempt): (r: Result<AccountRecord, Err>)
    ensures r.Success? <==> a.Responded? && a.response.status == StatusOK && a.response.body.Decoded?
    ensures r.Success? ==> r.value == a.response.body.record
    ensures r.Failure? ==> Classified(r.error)
    ensures a.RequestRejected? ==>
      Contains(r.error, Unexpected) && (Contains(r.error, NotFound) <==> Contains(a.cause, NotFound))
      && Mentions(Text(r.error), "http.NewRequest:")
    ensures a.TransportFailed? ==>
      Contains(r.error, Unexpected) && (Contains(r.error, NotFound) <==> Contains(a.cause, NotFound))
      && Mentions(Text(r.error), "g.client.Do:")
    ensures a.Responded? && a.response.status == StatusNotFound ==>
      r.Failure? && Contains(r.error, NotFound) && !Contains(r.error, Unexpected)
    ensures a.Responded? && a.response.status != StatusOK && a.response.status != StatusNotFound ==>
      r.Failure? && Contains(r.error, Unexpected) && !Contains(r.error, NotFound)
      && Mentions(Text(r.error), FormatInt(a.response.status))
    ensures a.Responded? && a.response.status == StatusOK && a.response.body.ReadFailed? ==>
      Contains(r.error, Unexpected) && (Contains(r.error, NotFound) <==> Contains(a.response.body.cause, NotFound))
      && Mentions(Text(r.error), "ioutil.ReadAll:")
    ensures a.Responded? && a.response.status == StatusOK && a.response.body.Malformed? ==>
      Contains(r.error, Unexpected) && (Contains(r.error, NotFound) <==> Contains(a.response.body.cause, NotFound))
      && Mentions(Text(r.error), "json.Unmarshal:")
  {
    match a
    case RequestRejected(e) => Failure(UnexpectedFailure("http.NewRequest", e))
    case TransportFailed(e) => Failure(UnexpectedFailure("g.client.Do", e))
    case Responded(resp) =>
      if resp.status != StatusOK then Failure(ConvertToError(resp.status))
      else match resp.body
        case ReadFailed(e) => Failure(UnexpectedFailure("ioutil.ReadAll", e))
        case Malformed(e) => Failure(UnexpectedFailure("json.Unmarshal", e))
        case Decoded(record) => Success(record)
  }

  /** `g.account()`: every failure is classified, and a success is exactly a
      200 response whose body decoded to the returned record. */
  function FetchAccount(g: Gateway, newRequest: RequestCheck): (r: Result<AccountRecord, Err>)
    ensures r.Failure? ==> Classified(r.error)
    ensures r.Success? <==>
      newRequest(RequestUrl(g.subdomain, g.host)).None?
      && g.client(AccountRequest(g)).Success?
      && g.client(AccountRequest(g)).value.status == StatusOK
      && g.client(AccountRequest(g)).value.body.Decoded?
    ensures r.Success? ==> g.client(AccountRequest(g)) == Success(Response(StatusOK, Decoded(r.value)))
  {
    Interpret(Send(g, newRequest))
  }

  /** A non-200 status ends the fetch before the body is looked at. */
  lemma StatusFailureIgnoresBody(status: int, b1: Body, b2: Body)
    requires status != StatusOK
    ensures Interpret(Responded(Response(status, b1))) == Interpret(Responded(Response(status, b2)))
  {
  }

  /** No hidden state: the outcome depends only on the tenant names, the
      request check, and what the transport answers to the account request. */
  lemma FetchDependsOnlyOnExchange(g1: Gateway, g2: Gateway, newRequest: RequestCheck)
    requires g1.subdomain == g2.subdomain && g1.host == g2.host
    requires g1.client(AccountRequest(g1)) == g2.client(AccountRequest(g2))
    ensures FetchAccount(g1, newRequest) == FetchAccount(g2, newRequest)
  {
  }

  // ---------------------------------------------------------------------
  // Field accessors

  /** Which field of the account an accessor returns. */
  datatype Field = UrlField | SubdomainField

  function FieldOf(record: AccountRecord, f: Field): string
  {
    match f
    case UrlField => record.url
    case SubdomainField => record.subdomain
  }

  /** Go's `(string, error)` result pair; `err == None` is a nil error. */
  datatype Reply = Reply(value: string, err: Option<Err>)

  /** The error for a 200 response whose field is empty:
      `errors.Join(ErrUnexpected, fmt.Errorf("g.account(): %w", ErrNotFound))`. */
  function EmptyFieldError(): (r: Err)
    ensures Contains(r, NotFound) && Contains(r, Unexpected)
  {
    JoinOfTwo(ErrUnexpected, Wrapf("g.account()", ErrNotFound));
    Join([ErrUnexpected, Wrapf("g.account()", ErrNotFound)])
  }

  /** The protocol `Url()` and `Subdomain()` share. The answer is a value or
      an error, never both and never neither; a fetch failure reaches the
      caller behind "g.account(): " with its classification and text intact;
      an empty field is both NotFound and Unexpected. */
  function Lookup(g: Gateway, newRequest: RequestCheck, f: Field): (r: Reply)
    ensures r.value != "" <==> r.err.None?
    ensures r.err.Some? ==> Classified(r.err.value)
    ensures FetchAccount(g, newRequest).Failure? ==>
      r.err.Some?
      && (forall k :: Contains(r.err.value, k) <==> Contains(FetchAccount(g, newRequest).error, k))
      && StartsWith(Text(r.err.value), "g.account():")
      && Mentions(Text(r.err.value), Text(FetchAccount(g, newRequest).error))
    ensures FetchAccount(g, newRequest).Success? && FieldOf(FetchAccount(g, newRequest).value, f) == "" ==>
      r.err.Some? && Contains(r.err.value, NotFound) && Contains(r.err.value, Unexpected)
    ensures r.err.None? <==>
      FetchAccount(g, newRequest).Success? && FieldOf(FetchAccount(g, newRequest).value, f) != ""
    ensures r.err.None? ==> r.value == FieldOf(FetchAccount(g, newRequest).value, f)
  {
    match FetchAccount(g, newRequest)
    case Failure(e) => Reply("", Some(Wrapf("g.account()", e)))
    case Success(record) =>
      var value := FieldOf(record, f);
      if value == "" then Reply("", Some(EmptyFieldError())) else Reply(value, None)
  }

  /** `g.Url()`: the account's url, or a classified error. */
  function Url(g: Gateway, newRequest: RequestCheck): (r: Reply)
    ensures r.value != "" <==> r.err.None?
    ensures r.err.None? ==>
      FetchAccount(g, newRequest).Success?
      && g.client(AccountRequest(g)) == Success(Response(StatusOK, Decoded(FetchAccount(g, newRequest).value)))
      && r.value == FetchAccount(g, newRequest).value.url
  {
    Lookup(g, newRequest, UrlField)
  }

  /** `g.Subdomain()`: the account's subdomain, or a classified error. */
  function Subdomain(g: Gateway, newRequest: RequestCheck): (r: Reply)
    ensures r.value != "" <==> r.err.None?
    ensures r.err.None? ==>
      FetchAccount(g, newRequest).Success?
      && g.client(AccountRequest(g)) == Success(Response(StatusOK, Decoded(FetchAccount(g, newRequest).value)))
      && r.value == FetchAccount(g, newRequest).value.subdomain
  {
    Lookup(g, newRequest, SubdomainField)
  }

  // ---------------------------------------------------------------------
  // What a caller of Url() or Subdomain() sees, one transport answer at a time

  /** The transport fails: Unexpected, NotFound only if the transport's own
      error was, and the text names the failing call. */
  lemma TransportFailureReply(g: Gateway, newRequest: RequestCheck, f: Field)
    requires newRequest(RequestUrl(g.subdomain, g.host)).None?
    requires g.client(AccountRequest(g)).Failure?
    ensures Lookup(g, newRequest, f).value == ""
    ensures IsErrUnexpected(Lookup(g, newRequest, f).err)
    ensures IsErrNotFound(Lookup(g, newRequest, f).err) <==> Contains(g.client(AccountRequest(g)).error, NotFound)
    ensures Mentions(Text(Lookup(g, newRequest, f).err.value), "g.client.Do:")
  {
    var e := FetchAccount(g, newRequest).error;
    MentionsTransitive(Text(Lookup(g, newRequest, f).err.value), Text(e), "g.client.Do:");
  }

  /** A 404: NotFound and not Unexpected, whatever the body. */
  lemma NotFoundReply(g: Gateway, newRequest: RequestCheck, f: Field)
    requires newRequest(RequestUrl(g.subdomain, g.host)).None?
    requires g.client(AccountRequest(g)).Success?
    requires g.client(AccountRequest(g)).value.status == StatusNotFound
    ensures Lookup(g, newRequest, f).value == ""
    ensures IsErrNotFound(Lookup(g, newRequest, f).err)
    ensures !IsErrUnexpected(Lookup(g, newRequest, f).err)
  {
  }

  /** Any other non-200 status: Unexpected, not NotFound, and the text
      carries the status code. */
  lemma BadStatusReply(g: Gateway, newRequest: RequestCheck, f: Field)
    requires newRequest(RequestUrl(g.subdomain, g.host)).None?
    requires g.client(AccountRequest(g)).Success?
    requires g.client(AccountRequest(g)).value.status != StatusOK
    requires g.client(AccountRequest(g)).value.status != StatusNotFound
    ensures Lookup(g, newRequest, f).value == ""
    ensures IsErrUnexpected(Lookup(g, newRequest, f).err)
    ensures !IsErrNotFound(Lookup(g, newRequest, f).err)
    ensures Mentions(Text(Lookup(g, newRequest, f).err.value), FormatInt(g.client(AccountRequest(g)).value.status))
  {
    var e := FetchAccount(g, newRequest).error;
    MentionsTransitive(Text(Lookup(g, newRequest, f).err.value), Text(e),
      FormatInt(g.client(AccountRequest(g)).value.status));
  }

  /** A 200 whose body is not JSON: Unexpected, and the text names the
      decoder. */
  lemma MalformedBodyReply(g: Gateway, newRequest: RequestCheck, f: Field)
    requires newRequest(RequestUrl(g.subdomain, g.host)).None?
    requires g.client(AccountRequest(g)).Success?
    requires g.client(AccountRequest(g)).value.status == StatusOK
    requires g.client(AccountRequest(g)).value.body.Malformed?
    ensures Lookup(g, newRequest, f).value == ""
    ensures IsErrUnexpected(Lookup(g, newRequest, f).err)
    ensures Mentions(Text(Lookup(g, newRequest, f).err.value), "json.Unmarshal:")
  {
    var e := FetchAccount(g, newRequest).error;
    MentionsTransitive(Text(Lookup(g, newRequest, f).err.value), Text(e), "json.Unmarshal:");
  }

  /** A 200 whose body decodes but lacks the field: both NotFound and
      Unexpected. */
  lemma EmptyFieldReply(g: Gateway, newRequest: RequestCheck, f: Field)
    requires newRequest(RequestUrl(g.subdomain, g.host)).None?
    requires g.client(AccountRequest(g)).Success?
    requires g.client(AccountRequest(g)).value.status == StatusOK
    requires g.client(AccountRequest(g)).value.body.Decoded?
    requires FieldOf(g.client(AccountRequest(g)).value.body.record, f) == ""
    ensures Lookup(g, newRequest, f).value == ""
    ensures IsErrNotFound(Lookup(g, newRequest, f).err)
    ensures IsErrUnexpected(Lookup(g, newRequest, f).err)
  {
  }

  /** A 200 whose body carries the field: exactly that value, no error. */
  lemma FoundReply(g: Gateway, newRequest: RequestCheck, f: Field)
    requires newRequest(RequestUrl(g.subdomain, g.host)).None?
    requires g.client(AccountRequest(g)).Success?
    requires g.client(AccountRequest(g)).value.status == StatusOK
    requires g.client(AccountRequest(g)).value.body.Decoded?
    requires FieldOf(g.client(AccountRequest(g)).value.body.record, f) != ""
    ensures Lookup(g, newRequest, f) == Reply(FieldOf(g.client(AccountRequest(g)).value.body.record, f), None)
  {
  }
}
