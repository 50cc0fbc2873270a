/** The slice of the web platform the catalog adapters use: a URL's query
    parameters built with `searchParams.append`, and `fetch` seen as a function
    from request to reply. */
module Http {
  import opened Wrappers

  datatype Param = Param(name: string, value: string)

  /** A GET request: the endpoint URL and its query parameters in order
      (percent-encoding is not modelled). */
  datatype Request = Request(endpoint: string, params: seq<Param>)

  /** What `await fetch(...)` followed by `await response.json()` yields: the
      promise rejected, the response was not ok, or the decoded body. */
  datatype Reply<T> = Rejected(reason: string) | NotOk(statusText: string) | Ok(body: T)

  /** The outcome of an adapter call together with the requests it sent, in
      the order it sent them. */
  datatype Traced<T> = Traced(result: Result<T, string>, sent: seq<Request>)

  /** A third-party API as an adapter sees it: the key read from the
      environment and the remote side. */
  datatype Service<T> = Service(apiKey: Option<string>, fetch: Request -> Reply<T>)

  /** `!apiKey`: the key is unset or empty. */
  predicate KeyMissing(apiKey: Option<string>) {
    !Truthy(apiKey)
  }

  /** `searchParams.get(name)`: the value of the first parameter with that name. */
  function Get(params: seq<Param>, name: string): Option<string> {
    if params == [] then None
    else if params[0].name == name then Some(params[0].value)
    else Get(params[1..], name)
  }

  /** `get` finds nothing exactly when no parameter has the name. */
  lemma {:induction false} GetNone(params: seq<Param>, name: string)
    ensures Get(params, name).None? <==> forall k :: 0 <= k < |params| ==> params[k].name != name
  {
    if params != [] && params[0].name != name {
      GetNone(params[1..], name);
      assert forall k :: 1 <= k < |params| ==> params[k] == params[1..][k - 1];
    }
  }

  /** `get` finds the first parameter of the name. */
  lemma {:induction false} GetFirst(params: seq<Param>, k: nat, name: string)
    requires k < |params| && params[k].name == name
    requires forall j :: 0 <= j < k ==> params[j].name != name
    ensures Get(params, name) == Some(params[k].value)
  {
    if k > 0 {
      GetFirst(params[1..], k - 1, name);
    }
  }

  /** The names of the parameters, in order. */
  function Names(params: seq<Param>): seq<string> {
    seq(|params|, k requires 0 <= k < |params| => params[k].name)
  }

  /** `url.searchParams`: the query parameters of a URL under construction. */
  class SearchParams {
    var entries: seq<Param>

    constructor ()
      ensures entries == []
    {
      entries := [];
    }

    /** `append(name, value)` adds a parameter at the end, even when one of that
        name is already present. */
    method Append(name: string, value: string)
      modifies this
      ensures entries == old(entries) + [Param(name, value)]
    {
      entries := entries + [Param(name, value)];
    }
  }
}
