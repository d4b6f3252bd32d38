/**
 * The slice of a Starlette request and response that the gateway's two
 * middlewares look at. Header names are kept as the code writes them; the
 * case-insensitive matching of real HTTP headers is not modelled.
 */
module HttpExchange {
  import opened Wrappers
  import opened PyValues

  datatype Request = Request(
    verb: string,
    path: string,
    headers: map<string, string>,
    /** `request.client.host`, absent when the server does not know the peer. */
    client: Option<string>)

  datatype Response = Response(status: int, headers: map<string, string>, body: Dict)

  /** `request.headers.get(name)`. */
  function Header(r: Request, name: string): Option<string> {
    if name in r.headers then Some(r.headers[name]) else None
  }

  /** `if header:` — present and not the empty string. */
  predicate HeaderGiven(r: Request, name: string) {
    Header(r, name).Some? && Header(r, name).value != ""
  }

  /** `response.headers[name] = value` on a response that may not exist because the handler raised. */
  function WithHeader(o: Outcome<Response>, name: string, value: string): (r: Outcome<Response>)
    ensures r.Raise? <==> o.Raise?
    ensures o.Raise? ==> r == o
    ensures o.Ok? ==> r.value.status == o.value.status && r.value.body == o.value.body
    ensures o.Ok? ==> name in r.value.headers && r.value.headers[name] == value
    ensures o.Ok? ==> forall h :: h in o.value.headers && h != name ==> h in r.value.headers && r.value.headers[h] == o.value.headers[h]
  {
    match o
    case Ok(resp) => Ok(resp.(headers := resp.headers[name := value]))
    case Raise(_) => o
  }
}
