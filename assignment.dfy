/**
 * HostAssignmentContext: what the platform sends to specialize a placeholder
 * container into one site. It picks the package URL out of the app settings,
 * compares assignments by site and modification time, and copies the app
 * settings into the process environment.
 */
module Assignment {
  import opened Common
  import opened Environments

  /** The two app-setting names that carry a run-from-package URL. */
  const AzureWebsiteAltZipDeployment := "WEBSITE_RUN_FROM_PACKAGE"
  const AzureWebsiteZipDeployment := "WEBSITE_RUN_FROM_ZIP"
  const AzureWebEncryptionKey := "AzureWebEncryptionKey"

  /** One entry of the Environment dictionary; JSON may leave the value null. */
  datatype Setting = Setting(name: string, value: Option<string>)

  /** Dictionary keys are unique (and compared ordinally). */
  predicate DistinctNames(settings: seq<Setting>)
  {
    forall i, j :: 0 <= i < j < |settings| ==> settings[i].name != settings[j].name
  }

  /** `settings.ContainsKey(name) ? settings[name] : absent`. */
  function Lookup(settings: seq<Setting>, name: string): (r: Option<Option<string>>)
    ensures r.None? <==> forall i :: 0 <= i < |settings| ==> settings[i].name != name
    ensures r.Some? ==> exists i :: 0 <= i < |settings| && settings[i] == Setting(name, r.value)
  {
    if settings == [] then None
    else if settings[0].name == name then Some(settings[0].value)
    else
      var rest := Lookup(settings[1..], name);
      assert rest.Some? ==> exists i :: 0 <= i < |settings| && settings[i] == Setting(name, rest.value) by {
        if rest.Some? {
          var i :| 0 <= i < |settings[1..]| && settings[1..][i] == Setting(name, rest.value);
          assert settings[i + 1] == Setting(name, rest.value);
        }
      }
      rest
  }

  /** In a dictionary the entry for a key is the one value Lookup returns. */
  lemma LookupFindsEntry(settings: seq<Setting>, i: int)
    requires DistinctNames(settings) && 0 <= i < |settings|
    ensures Lookup(settings, settings[i].name) == Some(settings[i].value)
  {
    var r := Lookup(settings, settings[i].name);
    var j :| 0 <= j < |settings| && settings[j] == Setting(settings[i].name, r.value);
    assert i == j;
  }

  /** The variables after SetEnvironmentVariable ran for each setting in order. */
  function Applied(variables: map<string, string>, settings: seq<Setting>): map<string, string>
  {
    if settings == [] then variables
    else
      var last := settings[|settings| - 1];
      SetVariable(Applied(variables, settings[..|settings| - 1]), last.name, last.value)
  }

  /** The index of the first setting whose name SetEnvironmentVariable rejects, or |settings|. */
  function FirstInvalid(settings: seq<Setting>): (r: nat)
    ensures r <= |settings|
    ensures forall i :: 0 <= i < r ==> ValidVariableName(settings[i].name)
    ensures r < |settings| ==> !ValidVariableName(settings[r].name)
  {
    if settings == [] || !ValidVariableName(settings[0].name) then 0
    else 1 + FirstInvalid(settings[1..])
  }

  predicate NamesEncryptionKey(s: Setting)
  {
    EqualsIgnoreCase(s.name, AzureWebEncryptionKey)
  }

  /** A variable that no setting names keeps whatever value it had. */
  lemma {:induction false} AppliedKeepsOthers(variables: map<string, string>, settings: seq<Setting>, name: string)
    requires forall i :: 0 <= i < |settings| ==> settings[i].name != name
    ensures name in Applied(variables, settings) <==> name in variables
    ensures name in variables ==> Applied(variables, settings)[name] == variables[name]
    decreases |settings|
  {
    if settings != [] {
      var init := settings[..|settings| - 1];
      assert forall i :: 0 <= i < |init| ==> init[i].name != name by {
        forall i | 0 <= i < |init| ensures init[i].name != name { assert init[i] == settings[i]; }
      }
      AppliedKeepsOthers(variables, init, name);
    }
  }

  /**
   * Every setting of a dictionary ends up in the environment: a null or empty
   * value, or one starting with NUL, removes the variable; any other value is
   * stored as is.
   */
  lemma {:induction false} AppliedSetsEachSetting(variables: map<string, string>, settings: seq<Setting>, i: int)
    requires DistinctNames(settings) && 0 <= i < |settings|
    ensures RemovesVariable(settings[i].value) ==> settings[i].name !in Applied(variables, settings)
    ensures !RemovesVariable(settings[i].value) ==>
              settings[i].name in Applied(variables, settings)
              && Applied(variables, settings)[settings[i].name] == settings[i].value.value
    decreases |settings|
  {
    var init := settings[..|settings| - 1];
    if i < |settings| - 1 {
      assert init[i] == settings[i];
      assert DistinctNames(init) by {
        forall a, b | 0 <= a < b < |init| ensures init[a].name != init[b].name {
          assert init[a] == settings[a] && init[b] == settings[b];
        }
      }
      AppliedSetsEachSetting(variables, init, i);
    }
  }

  datatype HostAssignmentContext = HostAssignmentContext(
    siteId: int,
    siteName: Option<string>,
    /** The Environment dictionary, in its enumeration order. */
    environment: seq<Setting>,
    /** LastModifiedTime, as DateTime ticks. */
    lastModifiedTime: int)
  {
    /** ZipUrl: the alt-deployment setting first, then the zip-deployment one, else "". */
    function ZipUrl(): (r: Option<string>)
      ensures Lookup(environment, AzureWebsiteAltZipDeployment).Some? ==>
                r == Lookup(environment, AzureWebsiteAltZipDeployment).value
      ensures Lookup(environment, AzureWebsiteAltZipDeployment).None? && Lookup(environment, AzureWebsiteZipDeployment).Some? ==>
                r == Lookup(environment, AzureWebsiteZipDeployment).value
      ensures Lookup(environment, AzureWebsiteAltZipDeployment).None? && Lookup(environment, AzureWebsiteZipDeployment).None? ==>
                r == Some("")
    {
      match Lookup(environment, AzureWebsiteAltZipDeployment)
      case Some(alt) => alt
      case None =>
        match Lookup(environment, AzureWebsiteZipDeployment)
        case Some(zip) => zip
        case None => Some("")
    }

    /** Equals(other): same site and same modification time; null is never equal. */
    predicate Equals(other: Option<HostAssignmentContext>)
    {
      other.Some? && siteId == other.value.siteId && lastModifiedTime == other.value.lastModifiedTime
    }

    /**
     * ApplyAppSettings(): SetEnvironmentVariable for each setting in
     * enumeration order. A rejected name throws and leaves the settings
     * before it applied. `encryptionKeyFound` is what the closing log line
     * reports; it does not influence what is applied.
     */
    method ApplyAppSettings(process: ProcessEnvironment) returns (r: Result<()>, encryptionKeyFound: bool)
      modifies process
      ensures r.Ok? <==> FirstInvalid(environment) == |environment|
      ensures process.variables == Applied(old(process.variables), environment[..FirstInvalid(environment)])
      ensures r.Ok? ==> (encryptionKeyFound <==> exists i :: 0 <= i < |environment| && NamesEncryptionKey(environment[i]))
    {
      encryptionKeyFound := false;
      var k := 0;
      while k < |environment|
        invariant 0 <= k <= FirstInvalid(environment)
        invariant process.variables == Applied(old(process.variables), environment[..k])
        invariant encryptionKeyFound <==> exists i :: 0 <= i < k && NamesEncryptionKey(environment[i])
      {
        var pair := environment[k];
        if EqualsIgnoreCase(pair.name, AzureWebEncryptionKey) {
          encryptionKeyFound := true;
        }
        var applied := process.SetEnvironmentVariable(pair.name, pair.value);
        if applied.Err? {
          return applied, encryptionKeyFound;
        }
        assert environment[..k + 1][..k] == environment[..k];
        k := k + 1;
      }
      assert environment[..k] == environment;
      r := Ok(());
    }
  }

  /** Equals ignores the site name and the settings. */
  lemma EqualsIgnoresNameAndSettings(c: HostAssignmentContext, siteName: Option<string>, environment: seq<Setting>)
    ensures c.Equals(Some(c.(siteName := siteName, environment := environment)))
  {
  }

  /** Equals is reflexive, symmetric and transitive on non-null contexts. */
  lemma EqualsIsEquivalence(a: HostAssignmentContext, b: HostAssignmentContext, c: HostAssignmentContext)
    ensures a.Equals(Some(a))
    ensures a.Equals(Some(b)) <==> b.Equals(Some(a))
    ensures a.Equals(Some(b)) && b.Equals(Some(c)) ==> a.Equals(Some(c))
    ensures !a.Equals(None)
  {
  }

  /** The alt setting wins over the zip setting whenever both are present. */
  lemma ZipUrlPrefersAlt(c: HostAssignmentContext, i: int)
    requires DistinctNames(c.environment) && 0 <= i < |c.environment|
    requires c.environment[i].name == AzureWebsiteAltZipDeployment
    ensures c.ZipUrl() == c.environment[i].value
  {
    LookupFindsEntry(c.environment, i);
  }

  /** Without the alt setting, the zip setting's value is the URL. */
  lemma ZipUrlFallsBackToZip(c: HostAssignmentContext, i: int)
    requires DistinctNames(c.environment) && 0 <= i < |c.environment|
    requires c.environment[i].name == AzureWebsiteZipDeployment
    requires forall j :: 0 <= j < |c.environment| ==> c.environment[j].name != AzureWebsiteAltZipDeployment
    ensures c.ZipUrl() == c.environment[i].value
  {
    LookupFindsEntry(c.environment, i);
  }

  /**
   * When every name is accepted, each setting is applied and every variable
   * no setting names keeps its value.
   */
  lemma ApplyAppSettingsOutcome(variables: map<string, string>, settings: seq<Setting>, i: int, other: string)
    requires DistinctNames(settings) && 0 <= i < |settings|
    requires forall j :: 0 <= j < |settings| ==> settings[j].name != other
    ensures RemovesVariable(settings[i].value) ==> settings[i].name !in Applied(variables, settings)
    ensures !RemovesVariable(settings[i].value) ==>
              settings[i].name in Applied(variables, settings)
              && Applied(variables, settings)[settings[i].name] == settings[i].value.value
    ensures (other in Applied(variables, settings) <==> other in variables)
    ensures other in variables ==> Applied(variables, settings)[other] == variables[other]
  {
    AppliedSetsEachSetting(variables, settings, i);
    AppliedKeepsOthers(variables, settings, other);
  }
}
