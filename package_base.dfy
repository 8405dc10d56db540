/**
 * RunFromPackageHandlerBase: download a run-from-package archive into the
 * temp directory, decide whether it is a squashfs image or a zip, and either
 * mount it through the mesh service or extract it into the script path.
 *
 * The external steps (a bash command, an HTTP download, a fuse mount, a zip
 * extraction) are not run: each pipeline function returns the steps it
 * starts, in order, and the platform says how each one turns out.
 */
module PackageBase {
  import opened Common

  /** Packages larger than this many bytes are downloaded with aria2c. */
  const AriaThreshold := 100 * 1024 * 1024
  const SquashfsExtensions := [".squashfs", ".sfs", ".sqsh", ".img", ".fs"]
  const ZipExtensions := [".zip"]
  const BundleDirectory := "worker-bundle"

  datatype CodePackageType = Squashfs | Zip

  /** RunFromPackageContext: the package the assignment names. */
  datatype RunFromPackageContext = RunFromPackageContext(
    url: string,
    packageContentLength: Option<int>,
    isScmRunFromPackage: bool,   // IsScmRunFromPackage(): the package comes from the SCM build
    isWarmUpRequest: bool)

  /** The parts of System.Uri the handler reads. */
  datatype Uri = Uri(absoluteUri: string, absolutePath: string, display: string)

  /** What RunBashCommand returns: trimmed stdout, trimmed stderr, exit code. */
  datatype BashResult = BashResult(output: string, error: string, exitCode: int)

  /** An external step the handler starts. */
  datatype Step =
    | Bash(command: string)
    | HttpDownload(uri: string, filePath: string)
    | MountFuse(kind: string, filePath: string, targetPath: string)
    | Unzip(filePath: string, targetPath: string)

  /** The outcomes of the handler's collaborators. */
  datatype Platform = Platform(
    parseUri: string -> Option<Uri>,       // new Uri(text); None when it throws
    tryCleanUrl: string -> bool,           // Utility.TryCleanUrl
    bash: string -> Option<BashResult>,    // the bash process; None when starting it throws
    throws: Step -> bool,                  // whether a download (after its retries), mount or extraction throws
    tempPath: string,                      // Path.GetTempPath()
    isMountEnabled: bool,
    isMountDisabled: bool)

  /** A result together with the external steps started to produce it. */
  datatype Traced<T> = Traced(result: Result<T>, steps: seq<Step>)

  /** RunBashCommand: an exception while running the process yields ("", "", -1). */
  function RunBashCommand(p: Platform, command: string): BashResult
  {
    match p.bash(command)
    case Some(b) => b
    case None => BashResult("", "", -1)
  }

  function ProbeCommand(filePath: string): string
  {
    "file -b " + filePath
  }

  function AriaCommand(directory: string, fileName: string, uri: Uri): string
  {
    "aria2c --allow-overwrite -x12 -d " + directory + " -o " + fileName + " '" + uri.display + "'"
  }

  function UnsquashCommand(filePath: string, scriptPath: string): string
  {
    "unsquashfs -f -d '" + scriptPath + "' '" + filePath + "'"
  }

  /** The URL path ends, ignoring case, in one of the extensions. */
  predicate FileIsAny(uri: Uri, extensions: seq<string>)
  {
    exists i :: 0 <= i < |extensions| && EndsWithIgnoreCase(uri.absolutePath, extensions[i])
  }

  /** The probe's verdict on the `file -b` output. */
  function ProbeVerdict(output: string, filePath: string): (r: Result<CodePackageType>)
    ensures r == Ok(Squashfs) <==> StartsWithIgnoreCase(output, "Squashfs")
    ensures r == Ok(Zip) <==> !StartsWithIgnoreCase(output, "Squashfs") && StartsWithIgnoreCase(output, "Zip")
    ensures output == "" ==> r == Err(UnknownPackageType(filePath))
  {
    if StartsWithIgnoreCase(output, "Squashfs") then Ok(Squashfs)
    else if StartsWithIgnoreCase(output, "Zip") then Ok(Zip)
    else Err(UnknownPackageType(filePath))
  }

  /**
   * GetPackageType: the SCM flag first, then the URL's extension, and only
   * then the `file` probe, which is the one step this may start.
   */
  function GetPackageType(filePath: string, pkg: RunFromPackageContext, p: Platform): (r: Traced<CodePackageType>)
    ensures pkg.isScmRunFromPackage ==> r == Traced(Ok(Squashfs), [])
    ensures r.steps == [] || r.steps == [Bash(ProbeCommand(filePath))]
    ensures !pkg.isScmRunFromPackage && p.parseUri(pkg.url).Some? ==>
              var uri := p.parseUri(pkg.url).value;
              (FileIsAny(uri, SquashfsExtensions) ==> r == Traced(Ok(Squashfs), []))
              && (!FileIsAny(uri, SquashfsExtensions) && FileIsAny(uri, ZipExtensions) ==> r == Traced(Ok(Zip), []))
              && (!FileIsAny(uri, SquashfsExtensions) && !FileIsAny(uri, ZipExtensions) ==>
                    r.steps == [Bash(ProbeCommand(filePath))]
                    && r.result == ProbeVerdict(RunBashCommand(p, ProbeCommand(filePath)).output, filePath))
    ensures r.steps != [] ==> !pkg.isScmRunFromPackage
    ensures r.result.Err? && r.steps == [] ==> r.result == Err(UriFormat)
  {
    if pkg.isScmRunFromPackage then Traced(Ok(Squashfs), [])
    else
      match p.parseUri(pkg.url)
      case None => Traced(Err(UriFormat), [])
      case Some(uri) =>
        if FileIsAny(uri, SquashfsExtensions) then Traced(Ok(Squashfs), [])
        else if FileIsAny(uri, ZipExtensions) then Traced(Ok(Zip), [])
        else
          var command := ProbeCommand(filePath);
          var output := RunBashCommand(p, command).output;
          Traced(ProbeVerdict(output, filePath), [Bash(command)])
  }

  /** Whether Download uses aria2c rather than the HTTP client. */
  predicate UsesAria(length: Option<int>)
  {
    length.Some? && length.value > AriaThreshold
  }

  /** A step that installs the package into the script path. */
  predicate IsInstall(s: Step)
  {
    s.MountFuse? || s.Unzip? || (s.Bash? && |s.command| >= 10 && s.command[..10] == "unsquashfs")
  }

  /** The number of installing steps in a trace. */
  function CountInstalls(steps: seq<Step>): nat
  {
    if steps == [] then 0 else (if IsInstall(steps[0]) then 1 else 0) + CountInstalls(steps[1..])
  }

  lemma {:induction false} CountInstallsAppend(a: seq<Step>, b: seq<Step>)
    ensures CountInstalls(a + b) == CountInstalls(a) + CountInstalls(b)
    decreases |a|
  {
    if a == [] {
      assert a + b == b;
    } else {
      assert (a + b)[1..] == a[1..] + b;
      CountInstallsAppend(a[1..], b);
    }
  }

  /**
   * Download: fetch the package into the temp directory and return the file's
   * path. aria2c serves packages whose length is known and above 100 MiB; the
   * HTTP client serves all others.
   */
  function Download(pkg: RunFromPackageContext, p: Platform): (r: Traced<string>)
    ensures |r.steps| <= 1
    ensures r.steps == [] <==> p.parseUri(pkg.url).None? || !p.tryCleanUrl(p.parseUri(pkg.url).value.absoluteUri)
    ensures p.parseUri(pkg.url).Some? && !p.tryCleanUrl(p.parseUri(pkg.url).value.absoluteUri) ==> r.result == Err(InvalidUrl)
    ensures r.steps != [] ==> (r.steps[0].Bash? <==> UsesAria(pkg.packageContentLength))
                              && (r.steps[0].Bash? || r.steps[0].HttpDownload?)
    ensures r.result.Ok? ==> r.steps != []
                             && r.result.value == Combine(p.tempPath, GetFileName(p.parseUri(pkg.url).value.absolutePath))
    ensures r.steps != [] && r.steps[0].Bash? ==>
              (r.result.Ok? <==> RunBashCommand(p, r.steps[0].command).exitCode == 0)
    ensures r.steps != [] && r.steps[0].HttpDownload? ==> (r.result.Ok? <==> !p.throws(r.steps[0]))
    ensures CountInstalls(r.steps) == 0
  {
    match p.parseUri(pkg.url)
    case None => Traced(Err(UriFormat), [])
    case Some(zipUri) =>
      if !p.tryCleanUrl(zipUri.absoluteUri) then Traced(Err(InvalidUrl), [])
      else
        var tmpPath := p.tempPath;
        var fileName := GetFileName(zipUri.absolutePath);
        var filePath := Combine(tmpPath, fileName);
        if UsesAria(pkg.packageContentLength) then
          var command := AriaCommand(tmpPath, fileName, zipUri);
          var exitCode := RunBashCommand(p, command).exitCode;
          assert !IsInstall(Bash(command)) by { assert command[0] == 'a'; }
          Traced(if exitCode != 0 then Err(DownloadFailed(exitCode)) else Ok(filePath), [Bash(command)])
        else
          var step := HttpDownload(zipUri.absoluteUri, filePath);
          Traced(if p.throws(step) then Err(HttpFailure) else Ok(filePath), [step])
  }

  /**
   * The step that installs a package of the given type into the script path:
   * a squashfs image is mounted unless mounting is disabled, and then
   * unsquashed; a zip is extracted unless mounting is enabled, and then
   * mounted.
   */
  function InstallStep(t: CodePackageType, filePath: string, scriptPath: string, p: Platform): (s: Step)
    ensures IsInstall(s)
    ensures t == Squashfs ==> (s.MountFuse? <==> !p.isMountDisabled) && (s.Bash? <==> p.isMountDisabled) && !s.Unzip?
    ensures t == Zip ==> (s.MountFuse? <==> p.isMountEnabled) && (s.Unzip? <==> !p.isMountEnabled) && !s.Bash?
    ensures s.MountFuse? ==> (s.kind == if t == Squashfs then "squashfs" else "zip")
    ensures s.MountFuse? ==> s.filePath == filePath && s.targetPath == scriptPath
    ensures s.Unzip? ==> s.filePath == filePath && s.targetPath == scriptPath
    ensures s.Bash? ==> s.command == UnsquashCommand(filePath, scriptPath)
  {
    match t
    case Squashfs =>
      if p.isMountDisabled then
        var c := UnsquashCommand(filePath, scriptPath);
        assert c[..10] == "unsquashfs";
        Bash(c)
      else MountFuse("squashfs", filePath, scriptPath)
    case Zip =>
      if p.isMountEnabled then MountFuse("zip", filePath, scriptPath) else Unzip(filePath, scriptPath)
  }

  /**
   * How an installing step turns out. The unsquashfs exit code is never
   * inspected; ZipFile.ExtractToDirectory rejects a null target directory.
   */
  function InstallOutcome(s: Step, scriptPath: Option<string>, p: Platform): Result<()>
  {
    match s
    case Bash(_) => Ok(())
    case MountFuse(_, _, _) => if p.throws(s) then Err(MountFailure) else Ok(())
    case Unzip(_, _) =>
      if scriptPath.None? then Err(ArgumentNull("destinationDirectoryName"))
      else if p.throws(s) then Err(ExtractFailure) else Ok(())
    case HttpDownload(_, _) => if p.throws(s) then Err(HttpFailure) else Ok(())
  }

  /**
   * UnpackPackage: classify the package, then run exactly one installing
   * step. A null script path is interpolated as "" into the mount form and
   * the unsquashfs command.
   */
  function UnpackPackage(filePath: string, scriptPath: Option<string>, pkg: RunFromPackageContext, p: Platform): (r: Traced<()>)
    ensures var t := GetPackageType(filePath, pkg, p);
            (t.result.Err? ==> r == Traced(Err(t.result.error), t.steps))
            && (t.result.Ok? ==> r.steps == t.steps + [InstallStep(t.result.value, filePath, scriptPath.GetOr(""), p)])
    ensures var t := GetPackageType(filePath, pkg, p);
            t.result.Ok? ==>
              var s := InstallStep(t.result.value, filePath, scriptPath.GetOr(""), p);
              (r.result.Ok? <==> s.Bash? || (s.MountFuse? && !p.throws(s)) || (s.Unzip? && scriptPath.Some? && !p.throws(s)))
              && (s.Unzip? && scriptPath.None? ==> r.result == Err(ArgumentNull("destinationDirectoryName")))
    ensures CountInstalls(r.steps) == if GetPackageType(filePath, pkg, p).result.Ok? then 1 else 0
    ensures forall i :: 0 <= i < |r.steps| && r.steps[i].MountFuse? ==>
              r.steps[i].filePath == filePath && r.steps[i].targetPath == scriptPath.GetOr("")
    ensures r.result.Ok? ==> GetPackageType(filePath, pkg, p).result.Ok?
  {
    var t := GetPackageType(filePath, pkg, p);
    assert CountInstalls(t.steps) == 0 by {
      if t.steps != [] {
        assert t.steps == [Bash(ProbeCommand(filePath))];
        assert ProbeCommand(filePath)[0] == 'f';
      }
    }
    match t.result
    case Err(e) => Traced(Err(e), t.steps)
    case Ok(packageType) =>
      var install := InstallStep(packageType, filePath, scriptPath.GetOr(""), p);
      CountInstallsAppend(t.steps, [install]);
      Traced(InstallOutcome(install, scriptPath, p), t.steps + [install])
  }

  /**
   * ApplyBlobPackageContext: download, then unpack into the script path of
   * the options created under SkipPlaceholder, and report true. The worker
   * bundle check only logs. A null script path makes the zip extraction
   * throw inside UnpackPackage, and otherwise makes Path.Combine throw once
   * the package is installed.
   */
  function ApplyBlobPackageContext(pkg: RunFromPackageContext, scriptPath: Option<string>, p: Platform): (r: Traced<bool>)
    ensures r.result.Ok? ==> r.result.value
    ensures r.result.Ok? <==> scriptPath.Some? && Download(pkg, p).result.Ok?
                              && UnpackPackage(Download(pkg, p).result.value, scriptPath, pkg, p).result.Ok?
    ensures r.result.Ok? ==> CountInstalls(r.steps) == 1
    ensures forall i :: 0 <= i < |r.steps| && r.steps[i].MountFuse? ==> r.steps[i].targetPath == scriptPath.GetOr("")
    ensures Download(pkg, p).result.Err? ==> r.result == Err(Download(pkg, p).result.error) && r.steps == Download(pkg, p).steps
  {
    var downloaded := Download(pkg, p);
    match downloaded.result
    case Err(e) => Traced(Err(e), downloaded.steps)
    case Ok(filePath) =>
      var unpacked := UnpackPackage(filePath, scriptPath, pkg, p);
      var steps := downloaded.steps + unpacked.steps;
      CountInstallsAppend(downloaded.steps, unpacked.steps);
      if unpacked.result.Err? then Traced(Err(unpacked.result.error), steps)
      else if scriptPath.None? then Traced(Err(ArgumentNull("path1")), steps)
      else Traced(Ok(true), steps)
  }

  /**
   * The trace of ApplyBlobPackageContext after a completed download: the
   * download's step, then the unpacking steps, with an unpacking error passed
   * on as it is.
   */
  lemma ApplyBlobPackageSteps(pkg: RunFromPackageContext, scriptPath: Option<string>, p: Platform)
    ensures Download(pkg, p).result.Ok? ==>
            var r := ApplyBlobPackageContext(pkg, scriptPath, p);
            var u := UnpackPackage(Download(pkg, p).result.value, scriptPath, pkg, p);
            r.steps == Download(pkg, p).steps + u.steps
            && (u.result.Err? ==> r.result == Err(u.result.error))
            && (u.result.Ok? && scriptPath.None? ==> r.result == Err(ArgumentNull("path1")))
  {
  }

  /** On success the last step installs the downloaded file into the script path. */
  lemma ApplyBlobPackageInstallsLast(pkg: RunFromPackageContext, scriptPath: Option<string>, p: Platform)
    ensures var r := ApplyBlobPackageContext(pkg, scriptPath, p);
            r.result.Ok? ==>
            var filePath := Download(pkg, p).result.value;
            var t := GetPackageType(filePath, pkg, p);
            t.result.Ok? && r.steps[|r.steps| - 1] == InstallStep(t.result.value, filePath, scriptPath.value, p)
  {
    if ApplyBlobPackageContext(pkg, scriptPath, p).result.Ok? {
      ApplyBlobPackageSteps(pkg, scriptPath, p);
      var filePath := Download(pkg, p).result.value;
      var u := UnpackPackage(filePath, scriptPath, pkg, p);
      var t := GetPackageType(filePath, pkg, p);
      var s := InstallStep(t.result.value, filePath, scriptPath.value, p);
      assert u.steps == t.steps + [s];
    }
  }
}
