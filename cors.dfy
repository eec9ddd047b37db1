/** The CORS middleware: it echoes an allow-listed origin, always sets the
    allowed headers, methods and credentials, answers a preflight `OPTIONS`
    request itself with 200 and hands every other request to `next`. */
module Cors {
  import opened Js

  const AllowedOrigins: seq<string> := ["http://localhost:5173", "https://helpdesk-fuxiona-v2-0.onrender.com"]

  /** The four response headers the middleware may set. */
  datatype Header = AllowOrigin | AllowHeaders | AllowMethods | AllowCredentials

  function HeaderName(h: Header): string {
    match h
    case AllowOrigin => "Access-Control-Allow-Origin"
    case AllowHeaders => "Access-Control-Allow-Headers"
    case AllowMethods => "Access-Control-Allow-Methods"
    case AllowCredentials => "Access-Control-Allow-Credentials"
  }

  /** The origin is one of the two allowed ones. */
  predicate Listed(origin: Option<string>) {
    origin.Some? && origin.value in AllowedOrigins
  }

  /** The headers the middleware sets for a request from `origin`. The
      credentials flag is the boolean `true`, which the response turns into
      the text "true". */
  function CorsHeaders(origin: Option<string>): (h: map<Header, string>)
    ensures AllowOrigin in h <==> Listed(origin)
    ensures AllowOrigin in h ==> h[AllowOrigin] == origin.value && h[AllowOrigin] != "*"
    ensures AllowHeaders in h && AllowMethods in h && AllowCredentials in h
  {
    var fixed := map[
      AllowHeaders := "content-type, Authorization",
      AllowMethods := "GET, POST, PUT, DELETE, PATCH, OPTIONS",
      AllowCredentials := "true"];
    if Listed(origin) then fixed[AllowOrigin := origin.value] else fixed
  }

  /** The response side of one request as the middleware sees it. */
  class Exchange {
    var headers: map<Header, string>
    var sentStatus: Option<nat>
    var nextCalls: nat

    constructor ()
      ensures headers == map[] && sentStatus == None && nextCalls == 0
    {
      headers := map[];
      sentStatus := None;
      nextCalls := 0;
    }

    method SetHeader(name: Header, value: string)
      modifies this
      ensures headers == old(headers)[name := value]
      ensures sentStatus == old(sentStatus) && nextCalls == old(nextCalls)
    {
      headers := headers[name := value];
    }

    /** The middleware itself, step by step as the source runs it. */
    method Handle(origin: Option<string>, httpMethod: string)
      modifies this
      ensures headers == old(headers) + CorsHeaders(origin)
      ensures httpMethod == "OPTIONS" ==> sentStatus == Some(200) && nextCalls == old(nextCalls)
      ensures httpMethod != "OPTIONS" ==> sentStatus == old(sentStatus) && nextCalls == old(nextCalls) + 1
    {
      ghost var before := headers;
      if Listed(origin) {
        SetHeader(AllowOrigin, origin.value);
      }
      SetHeader(AllowHeaders, "content-type, Authorization");
      SetHeader(AllowMethods, "GET, POST, PUT, DELETE, PATCH, OPTIONS");
      SetHeader(AllowCredentials, "true");
      assert headers == before + CorsHeaders(origin);
      if httpMethod == "OPTIONS" {
        sentStatus := Some(200);
        return;
      }
      nextCalls := nextCalls + 1;
    }
  }

  /** The origin header is never a wildcard, and an unlisted or missing
      origin gets no Allow-Origin header at all. */
  lemma UnlistedOriginGetsNoHeader(origin: Option<string>)
    requires !Listed(origin)
    ensures AllowOrigin !in CorsHeaders(origin)
  {
  }

  /** A preflight from the development origin: the origin is echoed, 200 is
      sent and `next` is not called. */
  method PreflightFromDevServer() returns (e: Exchange)
    ensures AllowOrigin in e.headers && e.headers[AllowOrigin] == "http://localhost:5173"
    ensures e.sentStatus == Some(200) && e.nextCalls == 0
  {
    e := new Exchange();
    var dev := AllowedOrigins[0];
    assert Listed(Some(dev));
    e.Handle(Some(dev), "OPTIONS");
  }
}
