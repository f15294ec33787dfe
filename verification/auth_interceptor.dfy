/**
 * The request interceptor: requests to the login and register endpoints pass
 * through untouched; every other request gets `Authorization: Bearer <token>`
 * (the header form of section 2.1 of RFC 6750) when a token is stored, and is
 * passed on unchanged otherwise. It never blocks a request itself; it can only
 * throw from its header-logging line or from the header-value check of OkHttp,
 * neither of which is part of this model.
 */
module Interceptor {
  import opened Common
  import opened Text
  import Preferences

  const LOGIN_PATH := "/api/auth/login"
  const REGISTER_PATH := "/api/auth/register"
  const AUTHORIZATION := "Authorization"

  datatype Header = Header(name: string, value: string)

  /** An outgoing request: its URL, its HTTP method (`verb`) and its headers in order. */
  datatype Request = Request(url: string, verb: string, headers: seq<Header>)

  datatype Response = Response(code: int, body: string)

  /** A URL is public when it contains the login or the register path anywhere. */
  predicate IsPublicEndpoint(url: string): (b: bool)
    ensures b <==> (exists i :: OccursAt(url, LOGIN_PATH, i)) || (exists i :: OccursAt(url, REGISTER_PATH, i))
  {
    Contains(url, LOGIN_PATH) || Contains(url, REGISTER_PATH)
  }

  /** OkHttp's `Headers.Builder.removeAll(name)`: drops every header of that name, ignoring case. */
  function RemoveAll(hs: seq<Header>, name: string): (r: seq<Header>)
    ensures |r| <= |hs|
    ensures forall h :: h in r <==> h in hs && !EqualsIgnoreCase(h.name, name)
  {
    if hs == [] then []
    else if EqualsIgnoreCase(hs[0].name, name) then RemoveAll(hs[1..], name)
    else [hs[0]] + RemoveAll(hs[1..], name)
  }

  /**
   * OkHttp's `Request.Builder.header(name, value)`: afterwards exactly one header
   * of that name is left, with that value, and every header of another name is
   * kept in order.
   */
  function SetHeader(hs: seq<Header>, name: string, value: string): (r: seq<Header>)
    ensures Values(r, name) == [value]
    ensures RemoveAll(r, name) == RemoveAll(hs, name)
  {
    var r := RemoveAll(hs, name) + [Header(name, value)];
    ValuesAppend(RemoveAll(hs, name), [Header(name, value)], name);
    ValuesOfRemoved(hs, name);
    RemoveAllAppend(RemoveAll(hs, name), [Header(name, value)], name);
    RemoveAllTwice(hs, name);
    r
  }

  /** OkHttp's `Headers.values(name)`: the values of that name, in order, ignoring case. */
  function Values(hs: seq<Header>, name: string): (r: seq<string>)
    ensures |r| <= |hs|
    ensures r == [] <==> forall h :: h in hs ==> !EqualsIgnoreCase(h.name, name)
  {
    if hs == [] then []
    else if EqualsIgnoreCase(hs[0].name, name) then [hs[0].value] + Values(hs[1..], name)
    else Values(hs[1..], name)
  }

  /** The request `intercept` hands to `chain.proceed`, given the stored token. */
  function Outgoing(req: Request, token: Option<string>): (out: Request)
    ensures out.url == req.url && out.verb == req.verb
    ensures IsPublicEndpoint(req.url) || token == None ==> out == req
    ensures !IsPublicEndpoint(req.url) && token.Some? ==>
      && Values(out.headers, AUTHORIZATION) == ["Bearer " + token.value]
      && RemoveAll(out.headers, AUTHORIZATION) == RemoveAll(req.headers, AUTHORIZATION)
  {
    if IsPublicEndpoint(req.url) then req
    else match token
      case None => req
      case Some(t) =>
        req.(headers := SetHeader(req.headers, AUTHORIZATION, "Bearer " + t))
  }

  lemma {:induction false} ValuesOfRemoved(hs: seq<Header>, name: string)
    ensures Values(RemoveAll(hs, name), name) == []
  {
    if hs != [] {
      ValuesOfRemoved(hs[1..], name);
    }
  }

  lemma {:induction false} RemoveAllTwice(hs: seq<Header>, name: string)
    ensures RemoveAll(RemoveAll(hs, name), name) == RemoveAll(hs, name)
  {
    if hs != [] {
      RemoveAllTwice(hs[1..], name);
    }
  }

  lemma {:induction false} ValuesAppend(a: seq<Header>, b: seq<Header>, name: string)
    ensures Values(a + b, name) == Values(a, name) + Values(b, name)
  {
    if a != [] {
      assert (a + b)[1..] == a[1..] + b;
      ValuesAppend(a[1..], b, name);
    } else {
      assert a + b == b;
    }
  }

  lemma {:induction false} RemoveAllAppend(a: seq<Header>, b: seq<Header>, name: string)
    ensures RemoveAll(a + b, name) == RemoveAll(a, name) + RemoveAll(b, name)
  {
    if a != [] {
      assert (a + b)[1..] == a[1..] + b;
      RemoveAllAppend(a[1..], b, name);
    } else {
      assert a + b == b;
    }
  }

  /** For a public URL the forwarded request does not depend on the stored token. */
  lemma PublicIgnoresToken(req: Request, t1: Option<string>, t2: Option<string>)
    requires IsPublicEndpoint(req.url)
    ensures Outgoing(req, t1) == Outgoing(req, t2) == req
  {
  }

  /** Any URL with the login or the register path inside it is public, whatever surrounds it. */
  lemma PublicPathAnywhere(prefix: string, path: string, suffix: string)
    requires path == LOGIN_PATH || path == REGISTER_PATH
    ensures IsPublicEndpoint(prefix + path + suffix)
  {
    var url := prefix + path + suffix;
    assert url[|prefix|..|prefix| + |path|] == path;
    assert OccursAt(url, path, |prefix|);
  }

  /** `Interceptor.Chain`: the request being sent, and the rest of the chain as a reply function. */
  class Chain {
    const request: Request
    const next: Request -> Response
    /** Every request handed to `proceed`, in order. */
    var proceeded: seq<Request>

    constructor (request: Request, next: Request -> Response)
      ensures this.request == request && this.next == next && proceeded == []
    {
      this.request := request;
      this.next := next;
      proceeded := [];
    }

    method Proceed(r: Request) returns (response: Response)
      modifies this
      ensures proceeded == old(proceeded) + [r]
      ensures response == next(r)
    {
      proceeded := proceeded + [r];
      response := next(r);
    }
  }

  /**
   * `AuthInterceptor.intercept`: calls `proceed` exactly once, with the outgoing
   * request, and returns that response as it is. The session store is only read.
   */
  method Intercept(chain: Chain, store: Preferences.UserPreferences) returns (response: Response)
    requires store.Valid()
    modifies chain
    ensures chain.proceeded == old(chain.proceeded) + [Outgoing(chain.request, store.GetToken())]
    ensures response == chain.next(Outgoing(chain.request, store.GetToken()))
  {
    var original := chain.request;
    if IsPublicEndpoint(original.url) {
      response := chain.Proceed(original);
      return;
    }
    var token := store.GetToken();
    var outgoing := if token.Some? then original.(headers := SetHeader(original.headers, AUTHORIZATION, "Bearer " + token.value)) else original;
    response := chain.Proceed(outgoing);
  }
}
