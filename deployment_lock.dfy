/**
 * RunFromPackageDeploymentLock and RunFromPackageDeploymentLockManager: an
 * advisory lock over one file, `<deployment metadata folder>/lockfile`.
 * Taking the lock deletes whatever lock file is there (after a delay, and
 * whoever wrote it) and writes this container's name; releasing it deletes
 * the file again.
 */
module DeploymentLocks {
  import opened Common
  import opened Disks

  const DeploymentLockFile := "lockfile"
  const LockFileTypeCurrent := "current"
  const LockFileTypePending := "pending"
  const DefaultDelaySeconds := 5

  /** The environment values the lock reads. */
  datatype LockEnvironment = LockEnvironment(
    deploymentMetadataFolder: string,   // IEnvironment.GetDeploymentMetadataFolderPath()
    containerName: Option<string>)      // CONTAINER_NAME

  /**
   * GetDeploymentLockFilepath() evaluated against the `_environment` field as
   * it stands at the time of the call: a null field throws.
   */
  function DeploymentLockFilepath(environment: Option<LockEnvironment>): (r: Result<string>)
    ensures environment.None? ==> r == Err(NullReference)
    ensures environment.Some? ==> r.Ok? && GetFileName(r.value) == DeploymentLockFile
    ensures environment.Some? && environment.value.deploymentMetadataFolder != "" ==>
              IsChildOf(r.value, environment.value.deploymentMetadataFolder)
  {
    match environment
    case None => Err(NullReference)
    case Some(e) =>
      var folder := e.deploymentMetadataFolder;
      var p := Combine(folder, DeploymentLockFile);
      CombineFileName(folder, DeploymentLockFile);
      assert folder != "" ==> IsChildOf(p, folder) by {
        if folder != "" { CombineIsChild(folder, DeploymentLockFile); }
      }
      Ok(p)
  }

  /**
   * The constructor as written: line 24 computes the path from `_environment`
   * before line 26 assigns it, so the field is still null there.
   */
  function ConstructedLockPathAsWritten(environment: LockEnvironment): (r: Result<string>)
    ensures r == Err(NullReference)
  {
    var fieldAtLine24: Option<LockEnvironment> := None;
    DeploymentLockFilepath(fieldAtLine24)
  }

  class RunFromPackageDeploymentLock {
    const disk: Disk
    const environment: LockEnvironment
    const lockFilePath: string
    const delaySeconds: int
    /** The Task.Delay waits performed so far, in seconds. */
    ghost var delays: seq<int>

    /** The constructor with the environment assigned before the path is computed from it. */
    constructor (disk: Disk, environment: LockEnvironment, delaySeconds: int := DefaultDelaySeconds)
      ensures this.disk == disk && this.environment == environment && this.delaySeconds == delaySeconds
      ensures Ok(lockFilePath) == DeploymentLockFilepath(Some(environment))
      ensures delays == []
    {
      this.disk := disk;
      this.environment := environment;
      this.lockFilePath := Combine(environment.deploymentMetadataFolder, DeploymentLockFile);
      this.delaySeconds := delaySeconds;
      delays := [];
    }

    /** DeleteDeploymentLockFile(delay, label): read the old lock, wait, delete it. */
    method DeleteDeploymentLockFile(delay: int, lockFileType: string) returns (r: Result<()>)
      modifies disk`files, this`delays
      ensures lockFilePath !in old(disk.files) ==> r.Ok? && disk.files == old(disk.files) && delays == old(delays)
      ensures lockFilePath in old(disk.files) && lockFilePath in disk.faulty ==>
                r.Err? && disk.files == old(disk.files) && delays == old(delays)
      ensures lockFilePath in old(disk.files) && lockFilePath !in disk.faulty ==>
                r.Ok? && disk.files == old(disk.files) - {lockFilePath} && delays == old(delays) + [delay]
    {
      if disk.FileExists(lockFilePath) {
        var contents := disk.ReadAllText(lockFilePath);
        if contents.Err? {
          return Err(contents.error);
        }
        delays := delays + [delay];
        r := disk.Delete(lockFilePath);
      } else {
        r := Ok(());
      }
    }

    /** Initialize(): CreateDeploymentLockFile. */
    method Initialize() returns (r: Result<()>)
      modifies disk`files, this`delays
      ensures r.Ok? <==> lockFilePath !in disk.faulty && lockFilePath !in disk.dirs
      ensures r.Ok? ==> disk.files == old(disk.files)[lockFilePath := environment.containerName.GetOr("")]
      ensures r.Err? ==> disk.files == if lockFilePath !in disk.faulty then old(disk.files) - {lockFilePath} else old(disk.files)
      ensures delays == old(delays) + if lockFilePath in old(disk.files) && lockFilePath !in disk.faulty then [delaySeconds] else []
    {
      var deleted := DeleteDeploymentLockFile(delaySeconds, LockFileTypePending);
      if deleted.Err? {
        return deleted;
      }
      var currentContainerName := environment.containerName;
      // File.WriteAllText with a null text writes an empty file.
      r := disk.WriteAllText(lockFilePath, currentContainerName.GetOr(""));
    }

    /** Dispose(): delete the lock file with no delay; a failure is logged, never thrown. */
    method Dispose()
      modifies disk`files, this`delays
      ensures lockFilePath !in disk.faulty ==> lockFilePath !in disk.files && disk.files == old(disk.files) - {lockFilePath}
      ensures lockFilePath in disk.faulty ==> disk.files == old(disk.files)
      ensures lockFilePath !in old(disk.files) ==> disk.files == old(disk.files) && delays == old(delays)
      ensures delays == old(delays) + if lockFilePath in old(disk.files) && lockFilePath !in disk.faulty then [0] else []
    {
      var _ := DeleteDeploymentLockFile(0, LockFileTypeCurrent);
    }
  }

  class RunFromPackageDeploymentLockManager {
    const disk: Disk
    const environment: LockEnvironment

    constructor (disk: Disk, environment: LockEnvironment)
      ensures this.disk == disk && this.environment == environment
    {
      this.disk := disk;
      this.environment := environment;
    }

    /** The path every lock this manager creates uses. */
    function LockPath(): string
    {
      Combine(environment.deploymentMetadataFolder, DeploymentLockFile)
    }

    /**
     * TryAcquire() with the lock constructed as written: the constructor
     * throws before the lock exists, the exception is caught, and the result
     * is null whatever the disk holds.
     */
    method TryAcquireAsWritten() returns (r: Option<RunFromPackageDeploymentLock>)
      ensures r.None?
    {
      var constructed := ConstructedLockPathAsWritten(environment);
      match constructed {
        case Err(_) => r := None;
      }
    }

    /**
     * TryAcquire() with a lock whose constructor assigns the environment
     * first: a fresh lock with the default delay, returned only once its
     * Initialize completed; any failure yields null.
     */
    method TryAcquire() returns (r: Option<RunFromPackageDeploymentLock>)
      modifies disk`files
      ensures r.Some? <==> LockPath() !in disk.faulty && LockPath() !in disk.dirs
      ensures r.Some? ==> fresh(r.value) && r.value.disk == disk && r.value.environment == environment
                          && r.value.lockFilePath == LockPath() && r.value.delaySeconds == DefaultDelaySeconds
                          && disk.files == old(disk.files)[LockPath() := environment.containerName.GetOr("")]
      ensures r.None? ==> disk.files == if LockPath() !in disk.faulty then old(disk.files) - {LockPath()} else old(disk.files)
      // the new lock waited its delay once exactly when it found an old lock file to delete
      ensures r.Some? ==> r.value.delays == if LockPath() in old(disk.files) then [DefaultDelaySeconds] else []
    {
      var deploymentLock := new RunFromPackageDeploymentLock(disk, environment);
      var initialized := deploymentLock.Initialize();
      if initialized.Err? {
        return None;
      }
      r := Some(deploymentLock);
    }
  }
}
