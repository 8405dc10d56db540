/**
 * RunFromPackageHandler: deploy a run-from-package archive either onto the
 * local disk or onto the Azure Files content share. The share is only
 * (re)deployed when its content root looks stale, under the deployment lock,
 * and a successful deployment is recorded in a marker file.
 */
module PackageHandler {
  import opened Common
  import opened Disks
  import opened PackageBase
  import opened DeploymentLocks

  const CurrentDeploymentMarkerFile := "marker"
  /** ScriptConstants.HostMetadataFileName */
  const HostMetadataFileName := "host.json"

  /** A filesystem query the handler makes while deciding whether to deploy. */
  datatype Check =
    | EnumerateEntries(path: string)
    | HostFolderExists(path: string)
    | MarkerExists(path: string)
    | MarkerRead(path: string)

  /**
   * HasContentChanged's verdict on the marker: `marker` is None when there is
   * no marker file, Some(Err) when reading it throws, Some(Ok(text)) otherwise.
   */
  function ContentChanged(marker: Option<Result<string>>, url: string): bool
  {
    match marker
    case None => true
    case Some(Err(_)) => true
    case Some(Ok(text)) => IsNullOrWhiteSpace(Some(text)) || !EqualsIgnoreCase(text, url)
  }

  /**
   * A marker as CommitDeployment leaves it, holding the container name, only
   * reads as "unchanged" when that name equals the package URL ignoring case.
   */
  lemma CommittedMarkerMatchesOnlyTheContainerName(containerName: Option<string>, url: string)
    ensures !ContentChanged(Some(Ok(containerName.GetOr(""))), url) <==>
              containerName.Some? && !IsNullOrWhiteSpace(containerName) && EqualsIgnoreCase(containerName.value, url)
  {
  }

  lemma MarkerAndLockDiffer(folder: string)
    ensures Combine(folder, CurrentDeploymentMarkerFile) != Combine(folder, DeploymentLockFile)
  {
    CombineFileName(folder, CurrentDeploymentMarkerFile);
    CombineFileName(folder, DeploymentLockFile);
  }

  class RunFromPackageHandler {
    const disk: Disk
    const platform: Platform
    const contentRootFolder: string      // IEnvironment.GetContentRootFolder()
    const lockManager: RunFromPackageDeploymentLockManager
    /** ScriptPath of the options created under SkipPlaceholder. */
    const scriptPath: Option<string>
    /** The external steps started so far. */
    var steps: seq<Step>
    /** The filesystem queries made so far. */
    ghost var checks: seq<Check>

    ghost predicate Valid()
    {
      lockManager.disk == disk
    }

    constructor (disk: Disk, platform: Platform, contentRootFolder: string, environment: LockEnvironment, scriptPath: Option<string>)
      ensures Valid() && fresh(lockManager)
      ensures this.disk == disk && this.platform == platform && this.contentRootFolder == contentRootFolder
      ensures lockManager.environment == environment && this.scriptPath == scriptPath
      ensures steps == [] && checks == []
    {
      this.disk := disk;
      this.platform := platform;
      this.contentRootFolder := contentRootFolder;
      this.scriptPath := scriptPath;
      lockManager := new RunFromPackageDeploymentLockManager(disk, environment);
      steps := [];
      checks := [];
    }

    /** GetCurrentDeploymentMarkerFilePath() */
    function MarkerFilePath(): string
    {
      Combine(lockManager.environment.deploymentMetadataFolder, CurrentDeploymentMarkerFile)
    }

    /** The marker as HasContentChanged finds it. */
    function MarkerState(): Option<Result<string>>
      reads disk
    {
      if MarkerFilePath() in disk.files then Some(disk.ReadOutcome(MarkerFilePath())) else None
    }

    /** Directory.EnumerateFileSystemEntries succeeds on the content root. */
    predicate RootReadable()
      reads disk
    {
      contentRootFolder != "" && contentRootFolder in disk.dirs && contentRootFolder !in disk.faulty
    }

    predicate HostFolderPresent()
      reads disk
    {
      Combine(contentRootFolder, HostMetadataFileName) in disk.dirs
    }

    /** The value `shouldDeploy` ends with when the content root is readable. */
    predicate ShouldDeploy(url: string)
      reads disk
    {
      disk.HasEntries(contentRootFolder) || !HostFolderPresent() || ContentChanged(MarkerState(), url)
    }

    /** The queries DeployToAzureFiles makes once both flags let it through. */
    ghost function DeployChecks(url: string): seq<Check>
      reads disk
    {
      var root := contentRootFolder;
      if !RootReadable() || disk.HasEntries(root) then [EnumerateEntries(root)]
      else if !HostFolderPresent() then [EnumerateEntries(root), HostFolderExists(root)]
      else if MarkerFilePath() !in disk.files then [EnumerateEntries(root), HostFolderExists(root), MarkerExists(MarkerFilePath())]
      else [EnumerateEntries(root), HostFolderExists(root), MarkerExists(MarkerFilePath()), MarkerRead(MarkerFilePath())]
    }

    /** The files after a deployment under the lock, given whether ApplyBlobPackageContext succeeded. */
    function FilesAfterDeployment(before: map<string, string>, success: bool): map<string, string>
      reads disk
    {
      var containerName := lockManager.environment.containerName.GetOr("");
      var locked := before[lockManager.LockPath() := containerName];
      var committed := if success && disk.CanWrite(MarkerFilePath()) then locked[MarkerFilePath() := containerName] else locked;
      committed - {lockManager.LockPath()}
    }

    /**
     * The skip branch cannot be taken: a content root without entries has no
     * `host.json` directory either, so `shouldDeploy` always ends true.
     */
    lemma SkipBranchUnreachable(url: string)
      requires RootReadable()
      ensures ShouldDeploy(url)
    {
      if HostFolderPresent() {
        var hostFolder := Combine(contentRootFolder, HostMetadataFileName);
        CombineIsChild(contentRootFolder, HostMetadataFileName);
        assert hostFolder in disk.Entries() && IsChildOf(hostFolder, contentRootFolder);
      }
    }

    /** IsEmpty(path): as written, true when the folder HAS entries. */
    method IsEmpty(path: string) returns (r: Result<bool>)
      modifies this`checks
      ensures checks == old(checks) + [EnumerateEntries(path)]
      ensures r.Err? <==> path == "" || path !in disk.dirs || path in disk.faulty
      ensures r.Ok? ==> r.value == disk.HasEntries(path)
    {
      checks := checks + [EnumerateEntries(path)];
      if path == "" || path !in disk.dirs || path in disk.faulty {
        return Err(IoFailure(path));
      }
      var isEmpty := disk.HasEntries(path);
      r := Ok(isEmpty);
    }

    /** IsValidFunctionsFolder(path): a directory named host.json exists in it. */
    method IsValidFunctionsFolder(path: string) returns (r: bool)
      modifies this`checks
      ensures checks == old(checks) + [HostFolderExists(path)]
      ensures r == (Combine(path, HostMetadataFileName) in disk.dirs)
    {
      checks := checks + [HostFolderExists(path)];
      r := disk.DirectoryExists(Combine(path, HostMetadataFileName));
    }

    /** HasContentChanged(pkg): any failure errs on the side of redeploying. */
    method HasContentChanged(pkg: RunFromPackageContext) returns (changed: bool)
      modifies this`checks
      ensures changed == ContentChanged(MarkerState(), pkg.url)
      ensures checks == old(checks) + [MarkerExists(MarkerFilePath())]
                       + if MarkerFilePath() in disk.files then [MarkerRead(MarkerFilePath())] else []
    {
      var markerFilePath := MarkerFilePath();
      checks := checks + [MarkerExists(markerFilePath)];
      if !disk.FileExists(markerFilePath) {
        return true;
      }
      checks := checks + [MarkerRead(markerFilePath)];
      var lastKnownDeploymentUrl := disk.ReadAllText(markerFilePath);
      if lastKnownDeploymentUrl.Err? {
        return true;
      }
      if IsNullOrWhiteSpace(Some(lastKnownDeploymentUrl.value)) {
        return true;
      }
      changed := !EqualsIgnoreCase(lastKnownDeploymentUrl.value, pkg.url);
    }

    /** CommitDeployment(): write CONTAINER_NAME (not the URL) into the marker; failures are swallowed. */
    method CommitDeployment()
      modifies disk`files
      ensures disk.files == if disk.CanWrite(MarkerFilePath())
                            then old(disk.files)[MarkerFilePath() := lockManager.environment.containerName.GetOr("")]
                            else old(disk.files)
    {
      var markerFilePath := MarkerFilePath();
      var _ := disk.WriteAllText(markerFilePath, lockManager.environment.containerName.GetOr(""));
    }

    /** ApplyBlobPackageContext, recording the steps it starts. */
    method ApplyBlobPackage(pkg: RunFromPackageContext) returns (r: Result<bool>)
      modifies this`steps
      ensures r == ApplyBlobPackageContext(pkg, scriptPath, platform).result
      ensures steps == old(steps) + ApplyBlobPackageContext(pkg, scriptPath, platform).steps
    {
      var applied := ApplyBlobPackageContext(pkg, scriptPath, platform);
      steps := steps + applied.steps;
      r := applied.result;
    }

    /** DeployToLocalDisk: only delegates; its exceptions reach the caller. */
    method DeployToLocalDisk(pkg: RunFromPackageContext) returns (r: Result<bool>)
      modifies this`steps
      ensures r == ApplyBlobPackageContext(pkg, scriptPath, platform).result
      ensures steps == old(steps) + ApplyBlobPackageContext(pkg, scriptPath, platform).steps
    {
      r := ApplyBlobPackage(pkg);
    }

    /**
     * DeployToAzureFiles: false sends the caller back to a local-disk
     * deployment; any exception becomes false.
     */
    method DeployToAzureFiles(azureFilesContentShareConfigured: bool, pkg: RunFromPackageContext) returns (ok: bool)
      requires Valid()
      modifies this`steps, this`checks, disk`files
      // the share is not configured, or the package is an SCM build: no query at all
      ensures !azureFilesContentShareConfigured || pkg.isScmRunFromPackage ==>
                !ok && steps == old(steps) && checks == old(checks) && disk.files == old(disk.files)
      // the queries run in order, each only while shouldDeploy is still false
      ensures azureFilesContentShareConfigured && !pkg.isScmRunFromPackage ==>
                checks == old(checks) + old(DeployChecks(pkg.url))
      // the content root cannot be listed: the exception becomes false
      ensures azureFilesContentShareConfigured && !pkg.isScmRunFromPackage && !old(RootReadable()) ==>
                !ok && steps == old(steps) && disk.files == old(disk.files)
      // nothing to deploy: true, with no lock and no download
      ensures azureFilesContentShareConfigured && !pkg.isScmRunFromPackage && old(RootReadable()) && !old(ShouldDeploy(pkg.url)) ==>
                ok && steps == old(steps) && disk.files == old(disk.files)
      // no lock: false, and no package is applied
      ensures azureFilesContentShareConfigured && !pkg.isScmRunFromPackage && old(RootReadable()) && old(ShouldDeploy(pkg.url))
              && !disk.CanWrite(lockManager.LockPath()) ==>
                !ok && steps == old(steps)
                && (disk.files == old(disk.files) || disk.files == old(disk.files) - {lockManager.LockPath()})
      // under the lock: apply, commit the marker on success, and always release the lock
      ensures azureFilesContentShareConfigured && !pkg.isScmRunFromPackage && old(RootReadable()) && old(ShouldDeploy(pkg.url))
              && disk.CanWrite(lockManager.LockPath()) ==>
                var applied := ApplyBlobPackageContext(pkg, scriptPath, platform);
                ok == applied.result.Ok?
                && steps == old(steps) + applied.steps
                && disk.files == FilesAfterDeployment(old(disk.files), ok)
    {
      if !azureFilesContentShareConfigured {
        return false;
      }
      if pkg.isScmRunFromPackage {
        return false;
      }
      var shouldDeploy := EvaluateShouldDeploy(pkg);
      if shouldDeploy.Err? {
        return false;
      }
      if !shouldDeploy.value {
        return true;
      }
      ok := DeployUnderLock(pkg);
    }

    /** Lines 148-174 of DeployToAzureFiles: the queries that set `shouldDeploy`. */
    method EvaluateShouldDeploy(pkg: RunFromPackageContext) returns (r: Result<bool>)
      modifies this`checks
      ensures r.Err? <==> !RootReadable()
      ensures r.Ok? ==> r.value == ShouldDeploy(pkg.url)
      ensures checks == old(checks) + DeployChecks(pkg.url)
    {
      var contentRoot := contentRootFolder;
      var shouldDeploy := false;

      var isEmpty := IsEmpty(contentRoot);
      if isEmpty.Err? {
        return Err(isEmpty.error);
      }
      if isEmpty.value {
        shouldDeploy := true;
      }
      if !shouldDeploy {
        var valid := IsValidFunctionsFolder(contentRoot);
        if !valid {
          shouldDeploy := true;
        }
      }
      if !shouldDeploy {
        shouldDeploy := HasContentChanged(pkg);
      }
      r := Ok(shouldDeploy);
    }

    /** Lines 184-206 of DeployToAzureFiles: take the lock, apply, commit, release. */
    method DeployUnderLock(pkg: RunFromPackageContext) returns (ok: bool)
      requires Valid()
      modifies this`steps, disk`files
      ensures !disk.CanWrite(lockManager.LockPath()) ==>
                !ok && steps == old(steps)
                && (disk.files == old(disk.files) || disk.files == old(disk.files) - {lockManager.LockPath()})
      ensures disk.CanWrite(lockManager.LockPath()) ==>
                var applied := ApplyBlobPackageContext(pkg, scriptPath, platform);
                ok == applied.result.Ok?
                && steps == old(steps) + applied.steps
                && disk.files == FilesAfterDeployment(old(disk.files), ok)
    {
      var deploymentLock := lockManager.TryAcquire();
      if deploymentLock.None? {
        return false;
      }
      var lock := deploymentLock.value;
      var applied := ApplyBlobPackage(pkg);
      var success := applied.Ok? && applied.value;
      if success {
        CommitDeployment();
      }
      MarkerAndLockDiffer(lockManager.environment.deploymentMetadataFolder);
      lock.Dispose();
      ok := success;
    }

    /**
     * Lines 184-206 as written: the lock manager returns null on every call,
     * so nothing is applied and the deployment reports false.
     */
    method DeployUnderLockAsWritten(pkg: RunFromPackageContext) returns (ok: bool)
      ensures !ok
    {
      var deploymentLock := lockManager.TryAcquireAsWritten();
      // the branch that applies, commits and disposes under the lock is never reached
      match deploymentLock {
        case None => ok := false;
      }
    }

    /**
     * DeployToAzureFiles as written: the skip branch cannot be taken and the
     * lock is never acquired, so every call reports false, starts no step and
     * leaves the disk unchanged; the caller always falls back to the local
     * disk.
     */
    method DeployToAzureFilesAsWritten(azureFilesContentShareConfigured: bool, pkg: RunFromPackageContext) returns (ok: bool)
      modifies this`checks
      ensures !ok
    {
      if !azureFilesContentShareConfigured {
        return false;
      }
      if pkg.isScmRunFromPackage {
        return false;
      }
      var shouldDeploy := EvaluateShouldDeploy(pkg);
      if shouldDeploy.Err? {
        return false;
      }
      SkipBranchUnreachable(pkg.url);
      if !shouldDeploy.value {
        return true;
      }
      ok := DeployUnderLockAsWritten(pkg);
    }
  }
}
