// The HTTP client's interceptors: the bearer header on requests and the 401 redirect on errors.
module ApiClient {
  import opened Wrappers
  import opened Strings

  /** The part of a request configuration the request interceptor touches. */
  class RequestConfig {
    var url: string
    var headers: map<string, string>

    constructor (url: string, headers: map<string, string>)
      ensures this.url == url && this.headers == headers
    {
      this.url := url;
      this.headers := headers;
    }
  }

  /** The request interceptor. `inBrowser` says whether `window` exists and
      `storedToken` is what local storage holds under `authToken`. */
  method AttachToken(config: RequestConfig, inBrowser: bool, storedToken: Option<string>) returns (r: RequestConfig)
    modifies config
    ensures r == config && config.url == old(config.url)
    ensures inBrowser && storedToken.Some? && storedToken.value != "" ==>
      config.headers == old(config.headers)["Authorization" := "Bearer " + storedToken.value]
    ensures !(inBrowser && storedToken.Some? && storedToken.value != "") ==>
      config.headers == old(config.headers)
  {
    if inBrowser {
      if storedToken.Some? && storedToken.value != "" {
        config.headers := config.headers["Authorization" := "Bearer " + storedToken.value];
      }
    }
    return config;
  }

  /** The header a stored token produces, and that nothing else changes. */
  lemma BearerHeader(headers: map<string, string>, token: string, name: string)
    requires token != ""
    ensures var h := headers["Authorization" := "Bearer " + token];
      h["Authorization"] == "Bearer " + token && h["Authorization"][..7] == "Bearer " &&
      (name != "Authorization" ==> (name in h <==> name in headers) && (name in headers ==> h[name] == headers[name]))
  {
  }

  /** A failed request: the HTTP status, when a response arrived. */
  datatype HttpError = HttpError(status: Option<int>, url: string)

  /** `currentPath.split("/")[1]`; JavaScript reads `undefined` past the end. */
  function TenantSegment(currentPath: string): (seg: string)
    ensures '/' !in seg
  {
    var parts := SplitOn(currentPath, '/');
    if |parts| > 1 then parts[1] else "undefined"
  }

  /** The login page of the tenant named by the path's first segment: always a
      slash, one segment without a slash, and `/login`. */
  function LoginRedirectPath(currentPath: string): (target: string)
    ensures |target| >= 7 && target[0] == '/' && target[|target| - 6..] == "/login"
    ensures '/' !in target[1..|target| - 6]
  {
    "/" + TenantSegment(currentPath) + "/login"
  }

  /** A path that starts with a tenant segment redirects to that tenant's login page. */
  lemma RedirectToTenantLogin(tenant: string, rest: string)
    requires '/' !in tenant
    requires rest == [] || rest[0] == '/'
    ensures LoginRedirectPath("/" + tenant + rest) == "/" + tenant + "/login"
  {
    var path := "/" + tenant + rest;
    assert path[0] == '/' && path[1..] == tenant + rest;
    SplitFirstPiece(tenant, rest, '/');
  }

  /** For example, a 401 on /crown/tickets sends the browser to /crown/login. */
  lemma CrownTicketsExample(tenant: string, rest: string)
    requires tenant == "crown" && rest == "/tickets"
    ensures LoginRedirectPath("/" + tenant + rest) == "/" + "crown" + "/login"
  {
    RedirectToTenantLogin(tenant, rest);
  }

  /** The browser location the error handler may assign. */
  class BrowserLocation {
    var pathname: string
    var href: string

    constructor (pathname: string)
      ensures this.pathname == pathname && href == pathname
    {
      this.pathname := pathname;
      href := pathname;
    }
  }

  /** What `api.get` delivers to a caller: a response whose data is an array, a
      response whose data is something else, or a rejected request. */
  datatype ApiOutcome<T> = ArrayData(items: seq<T>) | OtherData | RequestFailed

  /** The response interceptor's success handler: the response passes through. */
  function OnResponse<T>(response: T): T {
    response
  }

  /** The response interceptor's error handler: a 401 in the browser sends the
      location to the tenant's login page; every error is rejected unchanged. */
  method OnResponseError(err: HttpError, inBrowser: bool, location: BrowserLocation) returns (rejected: HttpError)
    modifies location
    ensures rejected == err
    ensures location.pathname == old(location.pathname)
    ensures err.status == Some(401) && inBrowser ==> location.href == LoginRedirectPath(old(location.pathname))
    ensures !(err.status == Some(401) && inBrowser) ==> location.href == old(location.href)
  {
    if err.status == Some(401) {
      if inBrowser {
        var currentPath := location.pathname;
        var tenant := TenantSegment(currentPath);
        location.href := "/" + tenant + "/login";
      }
    }
    return err;
  }
}
