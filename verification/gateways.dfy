/** The client object of pkg/zendesk/main.go: a transport plus the tenant's
    subdomain and host, fixed at construction. */
module Gateways {
  import opened Results
  import opened Errors
  import opened Transport

  datatype Gateway = Gateway(client: Doer, subdomain: string, host: string)

  /** `NewGateway` accepts any transport and any strings (no validation) and
      cannot fail: the error it returns is always nil. */
  function NewGateway(client: Doer, subdomain: string, host: string): (r: Result<Gateway, Err>)
    ensures r.Success?
    ensures r.value.client == client
    ensures r.value.subdomain == subdomain
    ensures r.value.host == host
  {
    Success(Gateway(client, subdomain, host))
  }
}
