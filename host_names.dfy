/**
 * HostNameProvider: the app's current host name. It is derived lazily from
 * the environment and cached; the front end's WAS_DEFAULT_HOSTNAME header on
 * each request can overwrite the cache, except in a Linux App Service
 * container that is not (or not yet) running the site the request is for.
 */
module HostNames {
  import opened Common
  import opened Environments

  const AzureWebsiteHostName := "WEBSITE_HOSTNAME"
  const AzureWebsiteName := "WEBSITE_SITE_NAME"
  const RuntimeSiteName := "WEBSITE_RUNTIME_SITE_NAME"
  const DefaultDomain := ".azurewebsites.net"

  /** What the Value getter returns, and leaves in the cache. */
  function DerivedHostName(cached: Option<string>, websiteHostName: Option<string>, websiteName: Option<string>)
    : (r: Option<string>)
    ensures !IsNullOrEmpty(cached) ==> r == cached
    ensures IsNullOrEmpty(cached) && !IsNullOrEmpty(websiteHostName) ==> r == websiteHostName
    ensures IsNullOrEmpty(cached) && IsNullOrEmpty(websiteHostName) && !IsNullOrEmpty(websiteName) ==>
              r == Some(websiteName.value + DefaultDomain)
    ensures IsNullOrEmpty(cached) && IsNullOrEmpty(websiteHostName) && IsNullOrEmpty(websiteName) ==> r == websiteHostName
  {
    if !IsNullOrEmpty(cached) then cached
    else if !IsNullOrEmpty(websiteHostName) then websiteHostName
    else if !IsNullOrEmpty(websiteName) then Some(websiteName.value + DefaultDomain)
    else websiteHostName
  }

  /** Asking again with the same environment returns the same name. */
  lemma DerivedHostNameIdempotent(cached: Option<string>, websiteHostName: Option<string>, websiteName: Option<string>)
    ensures DerivedHostName(DerivedHostName(cached, websiteHostName, websiteName), websiteHostName, websiteName)
         == DerivedHostName(cached, websiteHostName, websiteName)
  {
  }

  /** The Value cases the host name tests list. */
  lemma DerivedHostNameExamples()
    ensures DerivedHostName(None, Some("test.azurewebsites.net"), Some("test")) == Some("test.azurewebsites.net")
    ensures DerivedHostName(None, None, Some("test")) == Some("test.azurewebsites.net")
    ensures DerivedHostName(None, Some(""), Some("test")) == Some("test.azurewebsites.net")
    ensures DerivedHostName(None, None, None) == None
    ensures DerivedHostName(None, Some(""), Some("")) == Some("")
  {
    assert "test" + DefaultDomain == "test.azurewebsites.net";
  }

  /** Whether a Linux App Service container refuses the header: no runtime site yet, or a different one. */
  predicate SkipsUpdate(isLinuxAppService: bool, runtimeSiteName: Option<string>, siteDeploymentId: Option<string>)
  {
    isLinuxAppService && (IsNullOrEmpty(runtimeSiteName) || !EqualsIgnoreCaseNullable(runtimeSiteName, siteDeploymentId))
  }

  /**
   * The cache after Synchronize(request). The header is ignored when it is
   * absent or empty, when it already equals the current value (as
   * string.Compare sees it), or when the container refuses it; otherwise it
   * becomes the cached name.
   */
  function SynchronizedHostName(current: Option<string>, header: Option<string>, siteDeploymentId: Option<string>,
                                isLinuxAppService: bool, runtimeSiteName: Option<string>)
    : (r: Option<string>)
    ensures IsNullOrEmpty(header) ==> r == current
    ensures header == current ==> r == current
    ensures SkipsUpdate(isLinuxAppService, runtimeSiteName, siteDeploymentId) ==> r == current
    ensures !IsNullOrEmpty(header) && header != current && !SkipsUpdate(isLinuxAppService, runtimeSiteName, siteDeploymentId) ==>
              r == header
    ensures r == current || r == header
  {
    if !IsNullOrEmpty(header) && current != header then
      if SkipsUpdate(isLinuxAppService, runtimeSiteName, siteDeploymentId) then current
      else header
    else current
  }

  class HostNameProvider {
    const environment: ProcessEnvironment
    /** IEnvironment.IsLinuxAppServiceEnvironment() */
    const isLinuxAppServiceEnvironment: bool
    /** `_hostName` */
    var hostName: Option<string>

    constructor (environment: ProcessEnvironment, isLinuxAppServiceEnvironment: bool)
      ensures this.environment == environment && this.isLinuxAppServiceEnvironment == isLinuxAppServiceEnvironment
      ensures hostName == None
    {
      this.environment := environment;
      this.isLinuxAppServiceEnvironment := isLinuxAppServiceEnvironment;
      hostName := None;
    }

    function Derived(cached: Option<string>): Option<string>
      reads environment
    {
      DerivedHostName(cached, environment.GetEnvironmentVariable(AzureWebsiteHostName),
                      environment.GetEnvironmentVariable(AzureWebsiteName))
    }

    /** The Value getter: a non-empty cache is returned without looking at the environment. */
    method Value() returns (r: Option<string>)
      modifies this`hostName
      ensures r == hostName && hostName == Derived(old(hostName))
      ensures !IsNullOrEmpty(old(hostName)) ==> r == old(hostName)
    {
      if IsNullOrEmpty(hostName) {
        hostName := environment.GetEnvironmentVariable(AzureWebsiteHostName);
        if IsNullOrEmpty(hostName) {
          var websiteName := environment.GetEnvironmentVariable(AzureWebsiteName);
          if !IsNullOrEmpty(websiteName) {
            hostName := Some(websiteName.value + DefaultDomain);
          }
        }
      }
      r := hostName;
    }

    /**
     * Synchronize(request), given the WAS_DEFAULT_HOSTNAME and
     * deployment-id headers (null when absent). The Value getter runs
     * first, so the cache is derived before the header is looked at.
     */
    method Synchronize(hostNameHeader: Option<string>, siteDeploymentId: Option<string>)
      modifies this`hostName
      ensures hostName == SynchronizedHostName(Derived(old(hostName)), hostNameHeader, siteDeploymentId,
                                               isLinuxAppServiceEnvironment, environment.GetEnvironmentVariable(RuntimeSiteName))
    {
      var runtimeSiteName := environment.GetEnvironmentVariable(RuntimeSiteName);
      var value := Value();
      if !IsNullOrEmpty(hostNameHeader) && value != hostNameHeader {
        if isLinuxAppServiceEnvironment {
          if IsNullOrEmpty(runtimeSiteName) {
            return;
          }
          if !EqualsIgnoreCaseNullable(runtimeSiteName, siteDeploymentId) {
            return;
          }
        }
        value := Value();
        if value != hostNameHeader {
          hostName := hostNameHeader;
        }
      }
    }

    /** Reset(): empty the cache, so the next Value derives the name again. */
    method Reset()
      modifies this`hostName
      ensures hostName == None
    {
      hostName := None;
    }
  }

  /** An accepted header is what Value returns from then on. */
  lemma AcceptedHeaderIsValue(current: Option<string>, header: string, siteDeploymentId: Option<string>,
                              isLinuxAppService: bool, runtimeSiteName: Option<string>,
                              websiteHostName: Option<string>, websiteName: Option<string>)
    requires header != "" && current != Some(header)
    requires !SkipsUpdate(isLinuxAppService, runtimeSiteName, siteDeploymentId)
    ensures var cached := SynchronizedHostName(current, Some(header), siteDeploymentId, isLinuxAppService, runtimeSiteName);
            DerivedHostName(cached, websiteHostName, websiteName) == Some(header)
  {
  }

  /**
   * The update sequence of the host name tests, outside Linux App Service:
   * no header, an empty header, a new name, the same name again, another name.
   */
  lemma SynchronizeExample()
    ensures var v0 := DerivedHostName(None, None, None);
            var v1 := SynchronizedHostName(v0, None, None, false, None);
            var v2 := SynchronizedHostName(v1, Some(""), None, false, None);
            var v3 := SynchronizedHostName(v2, Some("test.azurewebsites.net"), None, false, None);
            var v4 := SynchronizedHostName(v3, Some("test.azurewebsites.net"), None, false, None);
            var v5 := SynchronizedHostName(v4, Some("test2.azurewebsites.net"), None, false, None);
            v0 == None && v1 == None && v2 == None && v3 == Some("test.azurewebsites.net")
            && v4 == v3 && v5 == Some("test2.azurewebsites.net")
  {
  }

  /** A Linux App Service container that is specialized to another site keeps its name. */
  lemma OtherSiteIsRefused()
    ensures SynchronizedHostName(Some("site1.azurewebsites.net"), Some("test.azurewebsites.net"), Some("test"), true, Some("site1"))
         == Some("site1.azurewebsites.net")
    ensures SynchronizedHostName(None, Some("test.azurewebsites.net"), Some("test"), true, None) == None
    ensures SynchronizedHostName(Some("test.azurewebsites.net"), Some("azurewebsites.test.com"), Some("TEST"), true, Some("test"))
         == Some("azurewebsites.test.com")
  {
    assert !EqualsIgnoreCase("site1", "test") by {
      assert ToUpper("site1")[0] == 'S' && ToUpper("test")[0] == 'T';
    }
    assert EqualsIgnoreCase("test", "TEST") by {
      assert ToUpper("test") == "TEST";
      assert ToUpper("TEST") == "TEST";
    }
  }
}
