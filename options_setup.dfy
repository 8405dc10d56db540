/**
 * ScriptApplicationHostOptionsSetup: binds the WebHost configuration section
 * onto ScriptApplicationHostOptions and, while the host is a standby
 * placeholder, redirects its log, script and secrets paths into the temp
 * directory. Asking for the options under the name "SkipPlaceholder" skips
 * the redirection; that is how specialization finds the real script path.
 */
module HostOptionsSetup {
  import opened Common

  const SkipPlaceholder := "SkipPlaceholder"

  /** The sub-paths under the temp root (written with backslashes, kept verbatim on Linux). */
  const StandbyLogs := "functions\\standby\\logs"
  const StandbyWwwroot := "functions\\standby\\wwwroot"
  const StandbySecrets := "functions\\standby\\secrets"

  /** The ScriptApplicationHostOptions properties that Configure reads or writes. */
  datatype HostOptions = HostOptions(
    scriptPath: Option<string>,
    logPath: Option<string>,
    secretsPath: Option<string>,
    isSelfHost: bool,
    hasParentScope: bool)

  /**
   * The WebHost configuration section: ConfigurationBinder.Bind copies every
   * property the section holds and leaves the others as they were.
   */
  datatype Binding = Binding(
    scriptPath: Option<string>,
    logPath: Option<string>,
    secretsPath: Option<string>,
    isSelfHost: Option<bool>,
    hasParentScope: Option<bool>)

  function Pick<T>(bound: Option<T>, current: T): T
  {
    if bound.Some? then bound.value else current
  }

  /** The section bound onto existing options. */
  function Bind(o: HostOptions, b: Binding): HostOptions
  {
    HostOptions(
      if b.scriptPath.Some? then b.scriptPath else o.scriptPath,
      if b.logPath.Some? then b.logPath else o.logPath,
      if b.secretsPath.Some? then b.secretsPath else o.secretsPath,
      Pick(b.isSelfHost, o.isSelfHost),
      Pick(b.hasParentScope, o.hasParentScope))
  }

  /** Whether Configure applies the standby override (the name is compared ordinally). */
  predicate UsesStandbyPaths(name: Option<string>, inStandbyMode: bool)
  {
    inStandbyMode && name != Some(SkipPlaceholder)
  }

  /** The options after Configure(name, options) ran on `o`. */
  function Configured(name: Option<string>, o: HostOptions, b: Binding, inStandbyMode: bool, tempRoot: string): (r: HostOptions)
    ensures r.hasParentScope
    ensures r.isSelfHost == Bind(o, b).isSelfHost
    ensures UsesStandbyPaths(name, inStandbyMode) ==>
      r.logPath == Some(Combine(tempRoot, StandbyLogs))
      && r.scriptPath == Some(Combine(tempRoot, StandbyWwwroot))
      && r.secretsPath == Some(Combine(tempRoot, StandbySecrets))
    ensures !UsesStandbyPaths(name, inStandbyMode) ==>
      r.scriptPath == Bind(o, b).scriptPath && r.logPath == Bind(o, b).logPath && r.secretsPath == Bind(o, b).secretsPath
  {
    var bound := Bind(o, b).(hasParentScope := true);
    if UsesStandbyPaths(name, inStandbyMode) then
      bound.(logPath := Some(Combine(tempRoot, StandbyLogs)),
             scriptPath := Some(Combine(tempRoot, StandbyWwwroot)),
             secretsPath := Some(Combine(tempRoot, StandbySecrets)))
    else bound
  }

  /** The script path specialization unpacks into: the options created under SkipPlaceholder. */
  function NonPlaceholderScriptPath(defaults: HostOptions, b: Binding, inStandbyMode: bool, tempRoot: string): (r: Option<string>)
    ensures r == Bind(defaults, b).scriptPath
  {
    Configured(Some(SkipPlaceholder), defaults, b, inStandbyMode, tempRoot).scriptPath
  }

  lemma CombinePrefix(root: string, name: string)
    requires root != "" && name != "" && name[0] != '/'
    ensures root <= Combine(root, name)
    ensures Combine(root, name) == root + name || Combine(root, name) == root + "/" + name
  {
  }

  /**
   * The three standby paths are pairwise different and all lie under the
   * temp root, so placeholder files stay isolated from each other.
   */
  lemma StandbyPathsIsolated(tempRoot: string)
    requires tempRoot != ""
    ensures tempRoot <= Combine(tempRoot, StandbyLogs)
    ensures tempRoot <= Combine(tempRoot, StandbyWwwroot)
    ensures tempRoot <= Combine(tempRoot, StandbySecrets)
    ensures Combine(tempRoot, StandbyLogs) != Combine(tempRoot, StandbyWwwroot)
    ensures Combine(tempRoot, StandbyLogs) != Combine(tempRoot, StandbySecrets)
    ensures Combine(tempRoot, StandbyWwwroot) != Combine(tempRoot, StandbySecrets)
  {
    CombinePrefix(tempRoot, StandbyLogs);
    CombinePrefix(tempRoot, StandbyWwwroot);
    CombinePrefix(tempRoot, StandbySecrets);
    var n := |tempRoot|;
    var offset := if tempRoot[n - 1] == '/' then n else n + 1;
    assert Combine(tempRoot, StandbyLogs)[offset + 18] == 'l';
    assert Combine(tempRoot, StandbyWwwroot)[offset + 18] == 'w';
    assert Combine(tempRoot, StandbySecrets)[offset + 18] == 's';
  }

  /** Configuring options that were already configured the same way changes nothing. */
  lemma ConfigureIdempotent(name: Option<string>, o: HostOptions, b: Binding, inStandbyMode: bool, tempRoot: string)
    ensures Configured(name, Configured(name, o, b, inStandbyMode, tempRoot), b, inStandbyMode, tempRoot)
         == Configured(name, o, b, inStandbyMode, tempRoot)
  {
  }

  class ScriptApplicationHostOptions {
    var scriptPath: Option<string>
    var logPath: Option<string>
    var secretsPath: Option<string>
    var isSelfHost: bool
    var hasParentScope: bool

    constructor (initial: HostOptions)
      ensures Value() == initial
    {
      scriptPath, logPath, secretsPath := initial.scriptPath, initial.logPath, initial.secretsPath;
      isSelfHost, hasParentScope := initial.isSelfHost, initial.hasParentScope;
    }

    function Value(): HostOptions
      reads this
    {
      HostOptions(scriptPath, logPath, secretsPath, isSelfHost, hasParentScope)
    }
  }

  class ScriptApplicationHostOptionsSetup {
    /** The WebHost configuration section. */
    const binding: Binding
    /** Path.GetTempPath() */
    const tempRoot: string
    /** StandbyOptions.CurrentValue.InStandbyMode, re-read on every call. */
    var inStandbyMode: bool

    constructor (binding: Binding, tempRoot: string, inStandbyMode: bool)
      ensures this.binding == binding && this.tempRoot == tempRoot && this.inStandbyMode == inStandbyMode
    {
      this.binding := binding;
      this.tempRoot := tempRoot;
      this.inStandbyMode := inStandbyMode;
    }

    /** Configure(name, options) */
    method ConfigureNamed(name: Option<string>, options: ScriptApplicationHostOptions)
      modifies options
      ensures options.Value() == Configured(name, old(options.Value()), binding, inStandbyMode, tempRoot)
    {
      var bound := Bind(options.Value(), binding);
      options.scriptPath, options.logPath, options.secretsPath := bound.scriptPath, bound.logPath, bound.secretsPath;
      options.isSelfHost, options.hasParentScope := bound.isSelfHost, bound.hasParentScope;
      options.hasParentScope := true;
      var currentValueInStandbyMode := inStandbyMode && name != Some(SkipPlaceholder);
      if currentValueInStandbyMode {
        options.logPath := Some(Combine(tempRoot, StandbyLogs));
        options.scriptPath := Some(Combine(tempRoot, StandbyWwwroot));
        options.secretsPath := Some(Combine(tempRoot, StandbySecrets));
        options.isSelfHost := options.isSelfHost;
      }
    }

    /** Configure(options): the unnamed options, so the standby override applies. */
    method Configure(options: ScriptApplicationHostOptions)
      modifies options
      ensures options.Value() == Configured(None, old(options.Value()), binding, inStandbyMode, tempRoot)
      ensures inStandbyMode ==> options.scriptPath == Some(Combine(tempRoot, StandbyWwwroot))
    {
      ConfigureNamed(None, options);
    }
  }
}
