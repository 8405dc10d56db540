/**
 * WorkerValidationMiddleware: a request addressed to a specific site (the
 * deployment-id header) that reaches a container not specialized for that
 * site, or any request whose URL contains "fail", is answered 503 with an
 * X-INVALIDATE-CACHE header, so the front end drops its routing entry;
 * every other request goes on to the next middleware.
 */
module WorkerValidation {
  import opened Common
  import opened Environments

  const AzureWebsiteName := "WEBSITE_SITE_NAME"
  const InvalidateCacheHeader := "X-INVALIDATE-CACHE"
  const ServiceUnavailable := 503

  /** What the middleware reads of the request. */
  datatype Request = Request(
    displayUrl: string,               // GetDisplayUrl()
    siteDeploymentId: Option<string>) // the deployment-id header, null when absent

  /** IsWrongWorker(request), given the container's site name. */
  predicate IsWrongWorker(runtimeSiteName: Option<string>, siteDeploymentId: Option<string>)
  {
    !IsNullOrEmpty(siteDeploymentId)
    && (IsNullOrEmpty(runtimeSiteName) || !EqualsIgnoreCaseNullable(runtimeSiteName, siteDeploymentId))
  }

  /** ShouldFail(request) */
  predicate ShouldFail(displayUrl: string)
  {
    ContainsIgnoreCase(displayUrl, "fail")
  }

  /** A request without a site header is never a wrong-worker request. */
  lemma UnaddressedRequestIsRightWorker(runtimeSiteName: Option<string>, siteDeploymentId: Option<string>)
    ensures IsNullOrEmpty(siteDeploymentId) ==> !IsWrongWorker(runtimeSiteName, siteDeploymentId)
    ensures !IsNullOrEmpty(siteDeploymentId) && IsNullOrEmpty(runtimeSiteName) ==> IsWrongWorker(runtimeSiteName, siteDeploymentId)
  {
  }

  /** The runtime-site check ignores case. */
  lemma SameSiteIsRightWorker(site: string, deploymentId: string)
    requires EqualsIgnoreCase(site, deploymentId)
    ensures !IsWrongWorker(Some(site), Some(deploymentId))
  {
  }

  /** The two cases the middleware tests use, for a container running "site1". */
  lemma WorkerExamples()
    ensures IsWrongWorker(Some("site1"), Some("site2"))
    ensures !IsWrongWorker(Some("site1"), Some("site1"))
  {
    assert ToUpper("site1")[4] == '1' && ToUpper("site2")[4] == '2';
  }

  lemma ShouldFailExamples()
    ensures ShouldFail("http://x/api/FAIL")
    ensures ShouldFail("fail")
    ensures !ShouldFail("http://x/api/ok")
  {
    var u := "http://x/api/FAIL";
    assert MatchesAt(u, "fail", 13) by { assert u[13..17] == "FAIL"; }
    assert MatchesAt("fail", "fail", 0) by { assert "fail"[0..4] == "fail"; }
    var ok := "http://x/api/ok";
    forall i | 0 <= i <= |ok| - 4 ensures !MatchesAt(ok, "fail", i) {
      assert UpperChar(ok[i]) != 'F';
      assert ToUpper(ok[i..i + 4])[0] != ToUpper("fail")[0];
    }
  }

  /** The response the middleware writes to. */
  class HttpResponse {
    var statusCode: int
    var headers: map<string, string>

    constructor (statusCode: int, headers: map<string, string>)
      ensures this.statusCode == statusCode && this.headers == headers
    {
      this.statusCode := statusCode;
      this.headers := headers;
    }

    /** A header with this name, compared ignoring case as the header dictionary does, is present. */
    predicate HasHeader(name: string)
      reads this
    {
      exists k :: k in headers && EqualsIgnoreCase(k, name)
    }

    /** Headers.Add(name, value): adding a header that is already there, in any case, throws. */
    method AddHeader(name: string, value: string) returns (r: Result<()>)
      modifies this`headers
      ensures r.Ok? <==> !old(HasHeader(name))
      ensures headers == if r.Ok? then old(headers)[name := value] else old(headers)
    {
      if HasHeader(name) {
        return Err(ArgumentInvalid("key"));
      }
      headers := headers[name := value];
      r := Ok(());
    }
  }

  class WorkerValidationMiddleware {
    const environment: ProcessEnvironment
    /** The outcome of `_next.Invoke(context)`. */
    const next: Request -> Result<()>
    /** The requests handed to `_next`, in order. */
    var forwarded: seq<Request>

    constructor (next: Request -> Result<()>, environment: ProcessEnvironment)
      ensures this.next == next && this.environment == environment && forwarded == []
    {
      this.next := next;
      this.environment := environment;
      forwarded := [];
    }

    predicate ShortCircuits(request: Request)
      reads environment
    {
      IsWrongWorker(environment.GetEnvironmentVariable(AzureWebsiteName), request.siteDeploymentId)
      || ShouldFail(request.displayUrl)
    }

    /**
     * Invoke(context). A short-circuited request gets status 503 and the
     * cache-invalidation header and is not forwarded (if the header is
     * already there, Add throws before the status is set); any other request
     * is forwarded exactly once and the response is left to `_next`.
     */
    method Invoke(request: Request, response: HttpResponse) returns (r: Result<()>)
      modifies this`forwarded, response
      ensures ShortCircuits(request) ==>
                forwarded == old(forwarded)
                && (r.Ok? <==> !old(response.HasHeader(InvalidateCacheHeader)))
                && (r.Ok? ==> response.statusCode == ServiceUnavailable
                              && response.headers == old(response.headers)[InvalidateCacheHeader := "1"])
                && (r.Err? ==> response.statusCode == old(response.statusCode) && response.headers == old(response.headers))
      ensures !ShortCircuits(request) ==>
                forwarded == old(forwarded) + [request] && r == next(request)
                && response.statusCode == old(response.statusCode) && response.headers == old(response.headers)
    {
      var runtimeSiteName := environment.GetEnvironmentVariable(AzureWebsiteName);
      if IsWrongWorker(runtimeSiteName, request.siteDeploymentId) || ShouldFail(request.displayUrl) {
        r := response.AddHeader(InvalidateCacheHeader, "1");
        if r.Err? {
          return;
        }
        response.statusCode := ServiceUnavailable;
      } else {
        forwarded := forwarded + [request];
        r := next(request);
      }
    }
  }
}
