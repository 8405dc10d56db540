# Linux container specialization of the Azure Functions host, modelled in Dafny

A placeholder (standby) container runs the Functions host before it knows which
site it will serve. The platform then *assigns* the container to a site:

- it posts an encrypted assignment context to `admin/instance/assign`, or leaves one in the container's start-up environment;
- the host applies the site's app settings and deploys the site's run-from-package archive, onto the local disk or onto the Azure Files content share under a deployment lock;
- the next request specializes the host exactly once.

Around that flow sit:

- the request-path state (the cached host name, the wrong-worker check);
- the telemetry that leaves the container (function execution activities posted to the mesh service, the CSV-like log lines read by the platform);
- the metering queue;
- the delayed disposal of the old script host;
- the options setup that redirects the placeholder's paths into the temp directory.

The model has one Dafny module per source area. Code that changes things in
place is written as classes with `modifies` clauses. Each method's `ensures`
ties the new state to the old one. Decisions are written as functions, and
lemmas prove the properties the code promises. The collaborators the code
cannot see are function-typed inputs whose outcomes the caller chooses:
HTTP, bash, fuse mounts, zip extraction, decryption, JSON, the storage SDK,
blob reads and `Uri` parsing. Effects are recorded as traces: the requests
posted, the external steps started, the lines written, the calls made on the
instance manager. The filesystem is a `Disk` class: a map from path to text,
a set of directories, and a set of paths on which every file operation
throws.

Files, in dependency order:

- `common.dfy`: Option/Result, ASCII case-insensitive comparison, `Path.Combine`/`GetFileName`, comma join/split with the round-trip lemma.
- `disks.dfy`: the filesystem.
- `environments.dfy`: the process environment (`SetEnvironmentVariable` with a null or empty value, or one starting with NUL, deletes the variable).
- `options_setup.dfy`: `ScriptApplicationHostOptionsSetup`.
- `deployment_lock.dfy`: `RunFromPackageDeploymentLock` and its manager.
- `package_base.dfy`: `RunFromPackageHandlerBase`.
- `package_handler.dfy`: `RunFromPackageHandler`.
- `assignment.dfy`: `HostAssignmentContext`.
- `instance_controller.dfy`: `InstanceController`.
- `container_init.dfy`: the two container initialization services.
- `placeholder_middleware.dfy`: `PlaceholderSpecializationMiddleware`.
- `mesh_clients.dfy`: `MeshInitServiceClient` and `MeshServiceClient`.
- `activity_publisher.dfy`: `LinuxFunctionExecutionActivityPublisher`.
- `scheduled_disposer.dfy`: `ScheduledDisposer`.
- `metering.dfy`: `RawFunctionExecutionStatusSink` and `FunctionExecutionMeteringOptions`.
- `host_names.dfy`: `HostNameProvider`.
- `worker_validation.dfy`: `WorkerValidationMiddleware`.
- `log_events.dfy`: `LinuxEventGenerator` and `LinuxAppServiceEventGenerator`.
- `script_logger.dfy`: `LinuxScriptLogger`.
- `name_comparer.dfy`: `FunctionMetadataNameComparer`.

EnvironmentSettingNames.cs and ScriptConstants.cs are not part of this model.
The variable names the code reads therefore use their customary values, for
example `CONTAINER_NAME`, `CONTAINER_ENCRYPTION_KEY`, `CONTAINER_DISABLED`,
`CONTAINER_START_CONTEXT`, `CONTAINER_START_CONTEXT_SAS_URI`, `MESH_INIT_URI`,
`WEBSITE_RUN_FROM_PACKAGE`, `WEBSITE_RUN_FROM_ZIP`, `WEBSITE_HOSTNAME`,
`WEBSITE_SITE_NAME`, `WEBSITE_RUNTIME_SITE_NAME`, `MS_FUNCTION_LOGS` and
`host.json`. No proof depends on these values beyond their being pairwise
distinct.

Behaviour the code has and the model keeps as written:

- `RunFromPackageHandler.IsEmpty` returns `Any()`, so it is true when the content root *has* entries.
- `IsValidFunctionsFolder` asks `Directory.Exists` of `<root>/host.json`. A non-empty root is always redeployed, and an empty root has no `host.json` directory, so `shouldDeploy` always ends true. The branch that skips deployment cannot be reached (`PackageHandler.RunFromPackageHandler.SkipBranchUnreachable`).
- `CommitDeployment` writes `CONTAINER_NAME` into the marker, while `HasContentChanged` compares the marker with the package URL. A committed marker reads as "unchanged" only when the container name equals the URL.
- A `null` `CONTAINER_NAME` makes `File.WriteAllText` write an empty lock file or marker.
- The unsquashfs exit code is never inspected.
- A null script path makes `ZipFile.ExtractToDirectory` throw inside `UnpackPackage` when a zip is extracted. With a mount or unsquashfs it throws only after the package was installed, at `Path.Combine`.
- The standby paths are written with backslashes (`functions\standby\wwwroot`) and are kept verbatim.
- The metric event also writes a hard-coded details line marked "todo remove".
- `ScheduledDisposer` passes `3 * 60 * 60` to `Timer.Change`, which reads it as milliseconds (10.8 s).
- `ScheduledDisposer.Dispose` does not clear the slot.
- `MeshInitServiceClient.MountCifs` and `MountFuse` ignore the response status.
- Both mesh clients check the client, then the logger, then the environment in their constructors.
- A metadata object or name that is null compares equal to every other one (`FunctionNames.NamelessEqualsEverything`), so the comparer's "equal" is not transitive.

Where the tests or the interfaces disagree with the implementation, the model follows the implementation:

- `HostNameProvider.Synchronize` reads `WEBSITE_RUNTIME_SITE_NAME` and the deployment-id header. The test file exercises that API.
- The ScheduledDisposer tests exercise a different API (`ScheduleDispose` with `SemaphoreHelper`). The model follows `ScheduledDisposer.cs`.
- `ContainerFunctionExecutionActivity` defines no `Equals`, yet the publisher tests expect two activities that differ only in `EventTime` to collapse into one. The publisher therefore takes the element equality as a parameter. `ActivityTelemetry.UniqueActivitiesExample` shows the tests' equality.
- The mesh client interfaces disagree with their implementations (for example, `IMeshServiceClient.MountCifs` returns no flag). The model follows the implementations.

## Model

| member | source | states |
|---|---|---|
| HostOptionsSetup.Configured | src/WebJobs.Script.WebHost/Configuration/ScriptApplicationHostOptionsSetup.cs:48-86 | after Configure, HasParentScope is true and IsSelfHost is the bound value; in standby mode with a name other than SkipPlaceholder the log, script and secrets paths are the three temp-root standby paths; otherwise they are the bound values |
| HostOptionsSetup.NonPlaceholderScriptPath | src/WebJobs.Script.WebHost/Configuration/ScriptApplicationHostOptionsSetup.cs:58-62 | the options created under SkipPlaceholder carry the configured script path even in standby mode |
| HostOptionsSetup.StandbyPathsIsolated | src/WebJobs.Script.WebHost/Configuration/ScriptApplicationHostOptionsSetup.cs:71-79 | the three standby paths lie under the temp root and are pairwise different, so placeholder files stay isolated |
| HostOptionsSetup.ConfigureIdempotent | src/WebJobs.Script.WebHost/Configuration/ScriptApplicationHostOptionsSetup.cs:48-86 | configuring already configured options the same way changes nothing |
| HostOptionsSetup.ScriptApplicationHostOptionsSetup.ConfigureNamed | src/WebJobs.Script.WebHost/Configuration/ScriptApplicationHostOptionsSetup.cs:48-86 | the options object is updated in place to exactly the configured value |
| HostOptionsSetup.ScriptApplicationHostOptionsSetup.Configure | src/WebJobs.Script.WebHost/Configuration/ScriptApplicationHostOptionsSetup.cs:42-46 | behaves as Configure(null, options); in standby mode the script path becomes the standby wwwroot |
| Disks.Disk.WriteAllText | src/WebJobs.Script.WebHost/LinuxSpecialization/RunFromPackageDeploymentLock.cs:55 | a write succeeds iff the path is neither faulty nor a directory, and then maps the path to the text; a failed write changes nothing |
| Disks.Disk.Delete | src/WebJobs.Script.WebHost/LinuxSpecialization/RunFromPackageDeploymentLock.cs:69 | deleting a missing file is not an error; a delete fails only on a faulty path and then changes nothing |
| DeploymentLocks.DeploymentLockFilepath | src/WebJobs.Script.WebHost/LinuxSpecialization/RunFromPackageDeploymentLock.cs:31-34 | a null environment field throws; otherwise the path's file name is `lockfile` and it lies directly inside the deployment metadata folder |
| DeploymentLocks.ConstructedLockPathAsWritten | src/WebJobs.Script.WebHost/LinuxSpecialization/RunFromPackageDeploymentLock.cs:22-29 | as written, the constructor computes the path before `_environment` is assigned, so it always throws NullReferenceException |
| DeploymentLocks.RunFromPackageDeploymentLock.constructor | src/WebJobs.Script.WebHost/LinuxSpecialization/RunFromPackageDeploymentLock.cs:17-29 | with the environment assigned first, the lock path is fixed at construction from the metadata folder; the delay defaults to 5 s |
| DeploymentLocks.RunFromPackageDeploymentLock.DeleteDeploymentLockFile | src/WebJobs.Script.WebHost/LinuxSpecialization/RunFromPackageDeploymentLock.cs:58-76 | no lock file: no change and no delay; otherwise read it (a failure throws and changes nothing), wait the delay once and delete the file whoever wrote it |
| DeploymentLocks.RunFromPackageDeploymentLock.Initialize | src/WebJobs.Script.WebHost/LinuxSpecialization/RunFromPackageDeploymentLock.cs:36-56 | succeeds iff the lock path is writable, and then the lock file holds the CONTAINER_NAME value (empty for null); an existing lock file costs exactly one wait of the delay; on failure the lock file is removed if its path is not faulty, and nothing else changes |
| DeploymentLocks.RunFromPackageDeploymentLock.Dispose | src/WebJobs.Script.WebHost/LinuxSpecialization/RunFromPackageDeploymentLock.cs:78-94 | never throws; deletes the lock file with zero delay, so none remains unless the path is faulty; with no lock file nothing changes, so a second Dispose is a no-op |
| DeploymentLocks.RunFromPackageDeploymentLockManager.TryAcquireAsWritten | src/WebJobs.Script.WebHost/LinuxSpecialization/RunFromPackageDeploymentLockManager.cs:24-44 | as written, every call returns null, because the lock's constructor throws and the exception is caught |
| DeploymentLocks.RunFromPackageDeploymentLockManager.TryAcquire | src/WebJobs.Script.WebHost/LinuxSpecialization/RunFromPackageDeploymentLockManager.cs:24-44 | with the corrected lock, returns a fresh lock with the default delay iff its Initialize completed, and then the lock file holds the container name and the lock has waited its delay once exactly when an old lock file was there; any failure is null, and then the old lock file is deleted exactly when its path is not faulty and nothing else changes |
| PackageBase.ProbeVerdict | src/WebJobs.Script.WebHost/LinuxSpecialization/RunFromPackageHandlerBase.cs:214-226 | probe output starting with "Squashfs" (ignoring case) is Squashfs, else output starting with "Zip" is Zip, and any other output, the empty one included, throws |
| PackageBase.GetPackageType | src/WebJobs.Script.WebHost/LinuxSpecialization/RunFromPackageHandlerBase.cs:194-230 | an SCM package is Squashfs whatever its URL and starts nothing; a URL path ending in .squashfs/.sfs/.sqsh/.img/.fs or .zip decides before the probe; only otherwise is `file -b` run, once, with its verdict; the probe's failure yields the empty output and so throws |
| PackageBase.CountInstallsAppend | src/WebJobs.Script.WebHost/LinuxSpecialization/RunFromPackageHandlerBase.cs:158-181 | the install count of a trace is additive over concatenation |
| PackageBase.Download | src/WebJobs.Script.WebHost/LinuxSpecialization/RunFromPackageHandlerBase.cs:68-111 | an unparsable or uncleanable URL throws before any step; otherwise exactly one download step runs, aria2c iff the content length is present and above 100 MiB; a non-zero aria2c exit code or a failed HTTP download throws; success returns the temp directory combined with the URL path's file name |
| PackageBase.InstallStep | src/WebJobs.Script.WebHost/LinuxSpecialization/RunFromPackageHandlerBase.cs:158-181 | a Squashfs image is mounted iff mounting is not disabled, and otherwise unsquashed with `unsquashfs -f -d <script path> <file>`; a Zip is mounted iff mounting is enabled, and otherwise extracted; a mount has fuse type "squashfs" or "zip" to match the package type; every step installs the downloaded file into the script path |
| PackageBase.UnpackPackage | src/WebJobs.Script.WebHost/LinuxSpecialization/RunFromPackageHandlerBase.cs:150-190 | a failed classification is passed on with its steps and installs nothing; otherwise the probe steps are followed by exactly the InstallStep of that type; unsquashfs always succeeds, a mount or extraction succeeds iff it does not throw, and extracting into a null script path throws ArgumentNullException |
| PackageBase.ApplyBlobPackageContext | src/WebJobs.Script.WebHost/LinuxSpecialization/RunFromPackageHandlerBase.cs:46-66 | returns true iff the download succeeds, unpacking succeeds and the SkipPlaceholder script path is set, and then exactly one install step ran; every mount targets the script path; a download failure is passed on with its steps |
| PackageBase.ApplyBlobPackageSteps | src/WebJobs.Script.WebHost/LinuxSpecialization/RunFromPackageHandlerBase.cs:55-59 | after a completed download the trace is the download step followed by the unpacking steps; an unpacking error is passed on as it is, and a null script path that survives unpacking throws ArgumentNullException at Path.Combine |
| PackageBase.ApplyBlobPackageInstallsLast | src/WebJobs.Script.WebHost/LinuxSpecialization/RunFromPackageHandlerBase.cs:55-56 | on success the last step is the InstallStep of the downloaded file into the script path, for the classified package type |
| PackageHandler.CommittedMarkerMatchesOnlyTheContainerName | src/WebJobs.Script.WebHost/LinuxSpecialization/RunFromPackageHandler.cs:81-109 | a marker as CommitDeployment writes it reads as unchanged iff the container name is non-blank and equals the package URL ignoring case |
| PackageHandler.MarkerAndLockDiffer | src/WebJobs.Script.WebHost/LinuxSpecialization/RunFromPackageHandler.cs:19-44 | the marker file and the lock file in the metadata folder are different paths |
| PackageHandler.RunFromPackageHandler.SkipBranchUnreachable | src/WebJobs.Script.WebHost/LinuxSpecialization/RunFromPackageHandler.cs:46-182 | for every readable content root `shouldDeploy` ends true, so the "latest contents" branch is never taken |
| PackageHandler.RunFromPackageHandler.IsEmpty | src/WebJobs.Script.WebHost/LinuxSpecialization/RunFromPackageHandler.cs:53-58 | as written, true exactly when the folder has entries; listing a missing or faulty folder throws |
| PackageHandler.RunFromPackageHandler.IsValidFunctionsFolder | src/WebJobs.Script.WebHost/LinuxSpecialization/RunFromPackageHandler.cs:46-51 | true exactly when a directory named host.json exists in the folder |
| PackageHandler.RunFromPackageHandler.HasContentChanged | src/WebJobs.Script.WebHost/LinuxSpecialization/RunFromPackageHandler.cs:65-97 | true when the marker is missing, blank or unreadable, otherwise the case-insensitive inequality of the marker text and the URL; the marker is read only when it exists |
| PackageHandler.RunFromPackageHandler.CommitDeployment | src/WebJobs.Script.WebHost/LinuxSpecialization/RunFromPackageHandler.cs:99-118 | writes the CONTAINER_NAME value, not the URL, into the marker; a failed write is swallowed and changes nothing |
| PackageHandler.RunFromPackageHandler.DeployToLocalDisk | src/WebJobs.Script.WebHost/LinuxSpecialization/RunFromPackageHandler.cs:121-125 | only delegates to ApplyBlobPackageContext: same result, same steps |
| PackageHandler.RunFromPackageHandler.EvaluateShouldDeploy | src/WebJobs.Script.WebHost/LinuxSpecialization/RunFromPackageHandler.cs:148-174 | runs IsEmpty, then the host.json check, then HasContentChanged, each only while `shouldDeploy` is still false; an unlistable root throws |
| PackageHandler.RunFromPackageHandler.DeployUnderLock | src/WebJobs.Script.WebHost/LinuxSpecialization/RunFromPackageHandler.cs:184-206 | with the corrected lock: no lock means false and nothing applied; under the lock the package is applied, the marker is committed only on success, and the lock file is gone afterwards |
| PackageHandler.RunFromPackageHandler.DeployToAzureFiles | src/WebJobs.Script.WebHost/LinuxSpecialization/RunFromPackageHandler.cs:128-213 | with the corrected lock: no share or an SCM package is false with no query; the queries run in their fixed order; an exception is false; nothing to deploy is true with no lock and no download; no lock is false with nothing applied; under the lock the result is the apply result, and the disk ends with the marker committed on success and no lock file |
| PackageHandler.RunFromPackageHandler.DeployUnderLockAsWritten | src/WebJobs.Script.WebHost/LinuxSpecialization/RunFromPackageHandler.cs:184-192 | as written, the lock manager returns null, so the result is false and nothing is applied, committed or written |
| PackageHandler.RunFromPackageHandler.DeployToAzureFilesAsWritten | src/WebJobs.Script.WebHost/LinuxSpecialization/RunFromPackageHandler.cs:128-213 | as written, every call returns false, starts no step and leaves the disk unchanged: the skip branch is unreachable and the lock is never acquired, so the caller always falls back to the local disk |
| Assignment.Lookup | src/WebJobs.Script.WebHost/Models/HostAssignmentContext.cs:30-37 | `ContainsKey`/indexer: absent iff no entry has the name, and a found value is the value of an entry with that name |
| Assignment.LookupFindsEntry | src/WebJobs.Script.WebHost/Models/HostAssignmentContext.cs:21-37 | in a dictionary (distinct keys) the value found for an entry's key is that entry's value |
| Assignment.FirstInvalid | src/WebJobs.Script.WebHost/Models/HostAssignmentContext.cs:58-66 | the foreach stops at the first setting whose name SetEnvironmentVariable rejects; all earlier names are valid |
| Assignment.AppliedKeepsOthers | src/WebJobs.Script.WebHost/Models/HostAssignmentContext.cs:58-66 | applying the settings leaves every variable no setting names as it was |
| Assignment.AppliedSetsEachSetting | src/WebJobs.Script.WebHost/Models/HostAssignmentContext.cs:58-66 | after applying, each setting's name maps to its value, or is unset when the value is null, empty or starts with NUL |
| Assignment.HostAssignmentContext.ZipUrl | src/WebJobs.Script.WebHost/Models/HostAssignmentContext.cs:26-43 | the alt-deployment value when that key is present, else the zip-deployment value when present, else "" |
| Assignment.HostAssignmentContext.ApplyAppSettings | src/WebJobs.Script.WebHost/Models/HostAssignmentContext.cs:55-72 | sets the variables of the settings in order, up to an invalid name (which throws); completes iff every name is valid; the encryption-key flag only records whether an AzureWebEncryptionKey entry (ignoring case) exists |
| Assignment.EqualsIgnoresNameAndSettings | src/WebJobs.Script.WebHost/Models/HostAssignmentContext.cs:45-53 | Equals ignores the site name and the settings |
| Assignment.EqualsIsEquivalence | src/WebJobs.Script.WebHost/Models/HostAssignmentContext.cs:45-53 | Equals is reflexive, symmetric and transitive on non-null contexts and false for null |
| Assignment.ZipUrlPrefersAlt | src/WebJobs.Script.WebHost/Models/HostAssignmentContext.cs:30-33 | the alt-deployment value wins even when the zip key is present too |
| Assignment.ZipUrlFallsBackToZip | src/WebJobs.Script.WebHost/Models/HostAssignmentContext.cs:34-37 | without the alt key, the zip-deployment value is the URL |
| Assignment.ApplyAppSettingsOutcome | src/WebJobs.Script.WebHost/Models/HostAssignmentContext.cs:58-66 | every setting ends applied (or deleted for a null or empty value, or one starting with NUL) and every other variable is unchanged |
| InstanceApi.AssignmentContext | src/WebJobs.Script.WebHost/Controllers/InstanceController.cs:39-42 | a warm-up request is not decrypted and yields a null context; otherwise the decrypted context, and a decryption failure leaves the action |
| InstanceApi.AssignDecision | src/WebJobs.Script.WebHost/Controllers/InstanceController.cs:36-65 | a validation error is 400 with only ValidateContext called; a sidecar error is 500 and StartAssignment is not called; otherwise StartAssignment is called once, and the result is 202 iff it returned true or the request is a warm-up, else 409 "Instance already assigned" |
| InstanceApi.WarmupPassesNullContext | src/WebJobs.Script.WebHost/Controllers/InstanceController.cs:40-60 | for a warm-up request every manager call receives a null context and the answer is 400, 500 or 202, never 409 |
| InstanceApi.GetInstanceInfo | src/WebJobs.Script.WebHost/Controllers/InstanceController.cs:70-73 | 200 carrying the manager's info unchanged |
| InstanceApi.InstanceController.Assign | src/WebJobs.Script.WebHost/Controllers/InstanceController.cs:36-65 | reads ContainerEncryptionKey and answers as AssignDecision |
| InstanceApi.InstanceController.Disable | src/WebJobs.Script.WebHost/Controllers/InstanceController.cs:78-92 | in a Linux container: sets CONTAINER_DISABLED to "1", requests one restart and answers 200; elsewhere 409 with nothing changed |
| InstanceApi.InstanceController.Disable2 | src/WebJobs.Script.WebHost/Controllers/InstanceController.cs:97-111 | the same, but marks the container disabled with a file instead of a variable |
| ContainerInit.ReadOrEmpty | src/WebJobs.Script.WebHost/LinuxContainerInitializationService.cs:85-97 | an exception from the reader becomes "", otherwise the reader's text |
| ContainerInit.EffectiveStartContext | src/WebJobs.Script.WebHost/LinuxContainerInitializationService.cs:47-61 | a non-empty ContainerStartContext is used as is; the SAS URI is read only when that is empty and the URI is non-empty; otherwise the context is empty |
| ContainerInit.AssignedContext | src/WebJobs.Script.WebHost/LinuxContainerInitializationService.cs:63-82 | an empty context assigns nothing; a non-empty one that deserializes and decrypts with ContainerEncryptionKey assigns exactly the decrypted context; a failure of either step is an error |
| ContainerInit.InitializationCallCounts | src/WebJobs.Script.WebHost/LinuxContainerInitializationService.cs:47-82 | the reader is consulted at most once and exactly when the SAS URI is needed; StartAssignment runs at most once, exactly when the context is non-empty and both deserialization and decryption with ContainerEncryptionKey succeed, and then it is the last call and receives the decrypted context; never for an empty context |
| ContainerInit.CountsAppend | src/WebJobs.Script.WebHost/LinuxContainerInitializationService.cs:47-82 | read and start counts are additive over concatenated call traces |
| ContainerInit.ReaderFailureIsEmptyContext | src/WebJobs.Script.WebHost/LinuxContainerInitializationService.cs:85-97 | a reader that throws leads to the same calls and the same assignment as a reader that finds nothing |
| ContainerInit.LinuxContainerInitializationService.Run | src/WebJobs.Script.WebHost/LinuxContainerInitializationService.cs:31-37 | outside a Linux container nothing is read and nothing is assigned; inside one it initializes |
| ContainerInit.LinuxContainerInitializationService.InitializeAssignmentContext | src/WebJobs.Script.WebHost/LinuxContainerInitializationService.cs:39-83 | makes exactly the calls InitializationCalls lists; the result of StartAssignment only picks a log line |
| ContainerInit.LinuxContainerInitializationService.GetAssignmentContextFromSasUri | src/WebJobs.Script.WebHost/LinuxContainerInitializationService.cs:85-97 | one read of the URI, and its text or "" when it throws |
| ContainerInit.BlobRead | src/WebJobs.Script.WebHost/ContainerManagement/LinuxContainerInitializationHostService.cs:101-110 | a missing blob reads as ""; an existing one yields its text; an unparsable URI or a failing store throws |
| ContainerInit.LinuxContainerInitializationHostService.StartAsync | src/WebJobs.Script.WebHost/ContainerManagement/LinuxContainerInitializationHostService.cs:31-44 | keeps the token, then initializes only in a Linux container |
| ContainerInit.LinuxContainerInitializationHostService.InitializeAssignmentContext | src/WebJobs.Script.WebHost/ContainerManagement/LinuxContainerInitializationHostService.cs:46-84 | the same start-context flow as the other service, reading the blob store |
| ContainerInit.LinuxContainerInitializationHostService.GetAssignmentContextFromSasUri | src/WebJobs.Script.WebHost/ContainerManagement/LinuxContainerInitializationHostService.cs:86-98 | one read, whose exception becomes "" |
| ContainerInit.LinuxContainerInitializationHostService.Read | src/WebJobs.Script.WebHost/ContainerManagement/LinuxContainerInitializationHostService.cs:101-110 | the blob's text, or "" when the blob does not exist |
| ContainerInit.LinuxContainerInitializationHostService.StopAsync | src/WebJobs.Script.WebHost/ContainerManagement/LinuxContainerInitializationHostService.cs:112-116 | changes no state |
| PlaceholderSpecialization.Handle | src/WebJobs.Script.WebHost/Middleware/PlaceholderSpecializationMiddleware.cs:32-64 | once `_invoke` is `_next` a request only calls next; in standby or before the container is ready the check only calls next; otherwise SpecializeHostAsync runs, and on completion `_specialized` goes 0→1 once, `_invoke` becomes `_next` and next is called; on an exception nothing swaps and next is not called; neither field ever reverts |
| PlaceholderSpecialization.CountsAppend | src/WebJobs.Script.WebHost/Middleware/PlaceholderSpecializationMiddleware.cs:51-60 | completion and specialize-call counts are additive over concatenated traces |
| PlaceholderSpecialization.NextIsFinal | src/WebJobs.Script.WebHost/Middleware/PlaceholderSpecializationMiddleware.cs:32-59 | once `_invoke` is `_next`, any sequence of requests leaves the state unchanged and never calls SpecializeHostAsync |
| PlaceholderSpecialization.SpecializesOnce | src/WebJobs.Script.WebHost/Middleware/PlaceholderSpecializationMiddleware.cs:57-60 | over any sequence of requests at most one specialization completes the swap, and after it `_invoke` is `_next` |
| PlaceholderSpecialization.PlaceholderSpecializationMiddleware.constructor | src/WebJobs.Script.WebHost/Middleware/PlaceholderSpecializationMiddleware.cs:19-30 | initially every request runs the specialization check and `_specialized` is 0 |
| PlaceholderSpecialization.PlaceholderSpecializationMiddleware.Invoke | src/WebJobs.Script.WebHost/Middleware/PlaceholderSpecializationMiddleware.cs:32-35 | the fields and the call trace advance as Handle says; the request completes iff next was called |
| PlaceholderSpecialization.PlaceholderSpecializationMiddleware.InvokeSpecializationCheckFor | src/WebJobs.Script.WebHost/Middleware/PlaceholderSpecializationMiddleware.cs:37-64 | the check itself, with the same outcome |
| MeshClients.ConstructorCheck | src/WebJobs.Script.WebHost/Management/MeshInitServiceClient.cs:22-27 | construction succeeds iff client, logger and environment are all present, and otherwise throws ArgumentNullException naming the first one missing in that order |
| MeshClients.OperationName | src/WebJobs.Script.WebHost/Management/MeshServiceClient.cs:128 | the value of the first "operation" field, or null when there is none |
| MeshClients.OperationNames | src/WebJobs.Script.WebHost/Management/MeshServiceClient.cs:34-120 | the logged operation of the cifs, fuse, mountlocal, health-event and add-fes forms is cifs, the fuse type, mountlocal, add-health-event and add-fes |
| MeshClients.ActivityRequests | src/WebJobs.Script.WebHost/Management/MeshInitServiceClient.cs:63-85 | one add-fes request per activity, in order, each carrying that single activity's JSON |
| MeshClients.FailedActivities | src/WebJobs.Script.WebHost/Management/MeshInitServiceClient.cs:63-89 | exactly the activities whose request threw or answered with a failure status |
| MeshClients.FailedActivitiesAppend | src/WebJobs.Script.WebHost/Management/MeshInitServiceClient.cs:63-76 | failures are reported in request order: those of two batches sent one after the other are the first batch's followed by the second's |
| MeshClients.FailedActivitiesCounts | src/WebJobs.Script.WebHost/Management/MeshInitServiceClient.cs:63-76 | a failing activity is reported once per time it was sent, and a succeeding one never |
| MeshClients.MeshInitServiceClient.SendAsync | src/WebJobs.Script.WebHost/Management/MeshInitServiceClient.cs:93-99 | one POST of the form to the MESH_INIT_URI value |
| MeshClients.MeshInitServiceClient.MountCifs | src/WebJobs.Script.WebHost/Management/MeshInitServiceClient.cs:29-42 | a connection string that does not parse throws with nothing sent; otherwise one POST of operation=cifs, host, accountName, the base64 key, contentShare and targetPath, whatever the status |
| MeshClients.MeshInitServiceClient.MountBlob | src/WebJobs.Script.WebHost/Management/MeshInitServiceClient.cs:44-48 | always throws NotImplementedException |
| MeshClients.MeshInitServiceClient.MountFuse | src/WebJobs.Script.WebHost/Management/MeshInitServiceClient.cs:50-56 | one POST of exactly operation=type, filePath and targetPath |
| MeshClients.MeshInitServiceClient.PublishContainerFunctionExecutionActivities | src/WebJobs.Script.WebHost/Management/MeshInitServiceClient.cs:58-77 | posts one add-fes request per activity in order; a failing activity is logged and the loop goes on, so the method never throws |
| MeshClients.MeshInitServiceClient.PublishContainerFunctionExecutionActivity | src/WebJobs.Script.WebHost/Management/MeshInitServiceClient.cs:79-91 | one POST of the activity; it succeeds iff the POST neither throws nor answers with a failure status |
| MeshClients.MeshServiceClient.SendAsync | src/WebJobs.Script.WebHost/Management/MeshServiceClient.cs:126-134 | one POST to the MESH_INIT_URI value; the logged operation name is OperationName of the form |
| MeshClients.MeshServiceClient.MountCifs | src/WebJobs.Script.WebHost/Management/MeshServiceClient.cs:30-45 | returns the response's success flag rather than throwing on a failure status |
| MeshClients.MeshServiceClient.MountBlob | src/WebJobs.Script.WebHost/Management/MeshServiceClient.cs:47-51 | always throws NotImplementedException |
| MeshClients.MeshServiceClient.MountFuse | src/WebJobs.Script.WebHost/Management/MeshServiceClient.cs:53-59 | one POST of operation=type, filePath and targetPath |
| MeshClients.MeshServiceClient.MountLocal | src/WebJobs.Script.WebHost/Management/MeshServiceClient.cs:61-69 | one POST of operation=mountlocal, sourcePath and symLinkPath |
| MeshClients.MeshServiceClient.NotifyHealthEvent | src/WebJobs.Script.WebHost/Management/MeshServiceClient.cs:88-109 | one POST of operation=add-health-event with the serialized event, stamped with the current time, in the healthEvent field |
| MeshClients.MeshServiceClient.PublishContainerActivity | src/WebJobs.Script.WebHost/Management/MeshServiceClient.cs:71-124 | one add-fes POST whose content is the JSON of the whole collection; a failure is logged and swallowed |
| ActivityTelemetry.DedupProperties | src/WebJobs.Script.WebHost/ContainerManagement/LinuxFunctionExecutionActivityPublisher.cs:79-84 | the drained set holds only drained activities, holds each drained activity or an equal one, holds no two equal ones, and is empty iff nothing was drained |
| ActivityTelemetry.DedupSnoc | src/WebJobs.Script.WebHost/ContainerManagement/LinuxFunctionExecutionActivityPublisher.cs:81-84 | HashSet.Add of one more activity keeps the set when an equal one is there and appends it otherwise |
| ActivityTelemetry.UniqueActivitiesExample | test/WebJobs.Script.Tests.Integration/Management/LinuxFunctionExecutionActivityPublisherTests.cs:102-137 | two activities that differ only in EventTime are published as one under the tests' equality |
| ActivityTelemetry.LinuxFunctionExecutionActivityPublisher.constructor | src/WebJobs.Script.WebHost/ContainerManagement/LinuxFunctionExecutionActivityPublisher.cs:30-42 | the queue is empty, no flush is in progress and the timer is created stopped |
| ActivityTelemetry.LinuxFunctionExecutionActivityPublisher.StartAsync | src/WebJobs.Script.WebHost/ContainerManagement/LinuxFunctionExecutionActivityPublisher.cs:44-55 | the timer is armed with the flush interval only for Linux consumption |
| ActivityTelemetry.LinuxFunctionExecutionActivityPublisher.StopAsync | src/WebJobs.Script.WebHost/ContainerManagement/LinuxFunctionExecutionActivityPublisher.cs:57-63 | stops the timer if there still is one |
| ActivityTelemetry.LinuxFunctionExecutionActivityPublisher.SetTimerInterval | src/WebJobs.Script.WebHost/ContainerManagement/LinuxFunctionExecutionActivityPublisher.cs:105-120 | re-arms the timer if there still is one and leaves a disposed timer alone; as a private method it is called with the flush interval only for Linux consumption, and it keeps the publisher's invariant |
| ActivityTelemetry.LinuxFunctionExecutionActivityPublisher.Dispose | src/WebJobs.Script.WebHost/ContainerManagement/LinuxFunctionExecutionActivityPublisher.cs:122-129 | disposes the timer and nulls the field |
| ActivityTelemetry.LinuxFunctionExecutionActivityPublisher.PublishFunctionExecutionActivity | src/WebJobs.Script.WebHost/ContainerManagement/LinuxFunctionExecutionActivityPublisher.cs:131-137 | enqueues at the tail iff the host is not in standby mode; in standby the queue is unchanged |
| ActivityTelemetry.LinuxFunctionExecutionActivityPublisher.OnTimer | src/WebJobs.Script.WebHost/ContainerManagement/LinuxFunctionExecutionActivityPublisher.cs:65-69 | flushes, then re-arms the timer with the flush interval |
| ActivityTelemetry.LinuxFunctionExecutionActivityPublisher.FlushFunctionExecutionActivities | src/WebJobs.Script.WebHost/ContainerManagement/LinuxFunctionExecutionActivityPublisher.cs:71-103 | a no-op while a flush is in progress; otherwise the queue is emptied, the deduplicated set is handed to the mesh client once iff it is non-empty, and the flag is back to 0 whatever the publish did |
| ActivityTelemetry.LinuxFunctionExecutionActivityPublisher.DrainQueue | src/WebJobs.Script.WebHost/ContainerManagement/LinuxFunctionExecutionActivityPublisher.cs:79-84 | the TryDequeue loop empties the queue into the deduplicated set of its contents |
| Disposal.ScheduledDisposer.constructor | src/WebJobs.Script.WebHost/Helpers/ScheduledDisposer.cs:18-23 | the slot starts empty and the timer stopped |
| Disposal.ScheduledDisposer.SetTimerInterval | src/WebJobs.Script.WebHost/Helpers/ScheduledDisposer.cs:54-69 | arms the timer with the due time unless it is disposed, in which case the exception is caught |
| Disposal.ScheduledDisposer.TryDisposeWithDelay | src/WebJobs.Script.WebHost/Helpers/ScheduledDisposer.cs:25-52 | true iff the lock was taken and the slot was empty, and then the resource is stored and the timer armed with due time 3*60*60; on false the slot and timer are unchanged; nothing is ever disposed here |
| Disposal.ScheduledDisposer.OnTimer | src/WebJobs.Script.WebHost/Helpers/ScheduledDisposer.cs:71-98 | disposes the held resource, if any, and empties the slot; if that Dispose throws, the slot keeps the resource |
| Disposal.ScheduledDisposer.Dispose | src/WebJobs.Script.WebHost/Helpers/ScheduledDisposer.cs:100-105 | disposes the held resource, if any, then the timer; the slot is not cleared; an exception from the resource leaves the timer as it was |
| Metering.Fresh | src/WebJobs.Script.WebHost/Metering/RawFunctionExecutionStatusSink.cs:39-53 | the kept activities are drained ones that are not stale, and every non-stale drained activity is kept |
| Metering.FreshPlusStale | src/WebJobs.Script.WebHost/Metering/RawFunctionExecutionStatusSink.cs:41-53 | the returned count plus the stale count is the queue length before the call |
| Metering.FreshOfNoneStale | src/WebJobs.Script.WebHost/Metering/RawFunctionExecutionStatusSink.cs:45-52 | a queue with no stale activity comes back whole, in FIFO order |
| Metering.FreshAppend | src/WebJobs.Script.WebHost/Metering/RawFunctionExecutionStatusSink.cs:45-52 | the kept activities keep FIFO order: filtering two queues one after the other is filtering each in turn |
| Metering.FreshCounts | src/WebJobs.Script.WebHost/Metering/RawFunctionExecutionStatusSink.cs:45-52 | each non-stale activity is returned as many times as it was queued, and a stale one never |
| Metering.FreshIdempotent | src/WebJobs.Script.WebHost/Metering/RawFunctionExecutionStatusSink.cs:45-52 | filtering what was already filtered with the same cutoff changes nothing |
| Metering.RawFunctionExecutionStatusSink.TryAddFunctionActivityWithTime | src/WebJobs.Script.WebHost/Metering/RawFunctionExecutionStatusSink.cs:28-33 | always enqueues at the tail |
| Metering.RawFunctionExecutionStatusSink.GetActivities | src/WebJobs.Script.WebHost/Metering/RawFunctionExecutionStatusSink.cs:35-61 | leaves the queue empty and returns, in FIFO order, the drained activities not older than now minus 2 minutes, with the stale count; so a second call with no adds returns nothing |
| Metering.FunctionExecutionMeteringOptions.constructor | src/WebJobs.Script.WebHost/Metering/FunctionExecutionMeteringOptions.cs:15-18 | the sampling interval starts at 10 s |
| Metering.FunctionExecutionMeteringOptions.SetFunctionExecutionMetricsSamplingInterval | src/WebJobs.Script.WebHost/Metering/FunctionExecutionMeteringOptions.cs:23-38 | accepts exactly the values from 1 s to 30 s inclusive, which the getter then returns; any other value throws ArgumentOutOfRangeException and leaves the stored value unchanged; 1 s ≤ interval ≤ 30 s always holds |
| HostNames.DerivedHostName | src/WebJobs.Script.WebHost/HostNameProvider.cs:37-59 | a non-empty cache is returned as is; otherwise WEBSITE_HOSTNAME when non-empty, else "<site>.azurewebsites.net" when the site name is non-empty, else the WEBSITE_HOSTNAME value itself (null or "") |
| HostNames.DerivedHostNameIdempotent | src/WebJobs.Script.WebHost/HostNameProvider.cs:42-57 | deriving again from the derived value and the same environment returns the same name |
| HostNames.DerivedHostNameExamples | test/WebJobs.Script.Tests/HostNameProviderTests.cs:29-41 | the five Value cases of the tests |
| HostNames.SynchronizedHostName | src/WebJobs.Script.WebHost/HostNameProvider.cs:61-102 | nothing changes for a missing or empty header, a header equal to Value, or a Linux App Service container without a runtime site name or with one that differs (ignoring case) from the deployment id; otherwise the cache becomes the header |
| HostNames.HostNameProvider.Value | src/WebJobs.Script.WebHost/HostNameProvider.cs:37-59 | returns the derived name and caches it; a non-empty cache is returned without consulting the environment |
| HostNames.HostNameProvider.Synchronize | src/WebJobs.Script.WebHost/HostNameProvider.cs:61-102 | the cache ends as SynchronizedHostName of the derived value, the headers and RuntimeSiteName |
| HostNames.HostNameProvider.Reset | src/WebJobs.Script.WebHost/HostNameProvider.cs:104-107 | empties the cache, so the next Value derives the name again |
| HostNames.AcceptedHeaderIsValue | src/WebJobs.Script.WebHost/HostNameProvider.cs:96-100 | an accepted header is what Value returns from then on, whatever the environment says |
| HostNames.SynchronizeExample | test/WebJobs.Script.Tests/HostNameProviderTests.cs:43-87 | the update sequence of the tests: no header and an empty header keep null, a header updates, the same header again changes nothing, another header updates |
| HostNames.OtherSiteIsRefused | test/WebJobs.Script.Tests/HostNameProviderTests.cs:89-219 | on Linux App Service a container specialized to another site, or not yet specialized, keeps its name; one whose site matches the deployment id ignoring case takes the header |
| WorkerValidation.UnaddressedRequestIsRightWorker | src/WebJobs.Script.WebHost/Middleware/WorkerValidationMiddleware.cs:26-49 | a request with no deployment-id header is never the wrong worker; with the header, an empty site name makes it the wrong worker |
| WorkerValidation.SameSiteIsRightWorker | src/WebJobs.Script.WebHost/Middleware/WorkerValidationMiddleware.cs:39-40 | a site name equal to the deployment id ignoring case is the right worker |
| WorkerValidation.WorkerExamples | test/WebJobs.Script.Tests/Middleware/WorkerValidationMiddlewareTests.cs:29-80 | a container for site1 rejects a request for site2 and accepts one for site1 |
| WorkerValidation.ShouldFailExamples | src/WebJobs.Script.WebHost/Middleware/WorkerValidationMiddleware.cs:51-54 | display URLs containing "fail" in any case short-circuit, and one without it does not |
| WorkerValidation.HttpResponse.AddHeader | src/WebJobs.Script.WebHost/Middleware/WorkerValidationMiddleware.cs:64 | Headers.Add succeeds iff no header of that name, compared ignoring case, is present, and throws otherwise, with nothing changed |
| WorkerValidation.WorkerValidationMiddleware.Invoke | src/WebJobs.Script.WebHost/Middleware/WorkerValidationMiddleware.cs:56-74 | a wrong-worker or failing request gets status 503 and X-INVALIDATE-CACHE=1 and is not forwarded; any other request is forwarded exactly once, with the response left to next |
| LinuxEvents.ToEventLevel | src/WebJobs.Script.WebHost/Diagnostics/LinuxEventGenerator.cs:35-53 | Trace and Debug map to Verbose, Information to Informational, Warning, Error and Critical to themselves, and every other value to LogAlways (iff); the result lies in the 0-6 range the trace regex expects |
| LinuxEvents.ToEventLevelKeepsSeverityOrder | src/WebJobs.Script.WebHost/Diagnostics/LinuxEventGenerator.cs:35-53 | a more severe log level never maps to a less severe event level |
| LinuxEvents.NormalizeString | src/WebJobs.Script.WebHost/Diagnostics/LinuxEventGenerator.cs:17-28 | the value wrapped in quotes with each NewLine replaced by a space: length +2, no NewLine left, pointwise replacement, verbatim when there is no NewLine |
| LinuxEvents.TraceLineIsOneLine | src/WebJobs.Script.WebHost/Diagnostics/LinuxAppServiceEventGenerator.cs:35 | a trace line holds no NewLine iff none of its unquoted fields does |
| LinuxEvents.ParseTraceLine | src/WebJobs.Script.WebHost/Diagnostics/LinuxAppServiceEventGenerator.cs:21-35 | for comma-free values, splitting a trace line on ',' gives its 15 fields in order: level, ids, names, quoted details, summary and exception message |
| LinuxEvents.ParseMetricLine | src/WebJobs.Script.WebHost/Diagnostics/LinuxAppServiceEventGenerator.cs:23-43 | for comma-free values, splitting a metric line on ',' recovers the ten inputs in order |
| LinuxEvents.ParseDetailsLine | src/WebJobs.Script.WebHost/Diagnostics/LinuxAppServiceEventGenerator.cs:25-52 | a details line splits into its six columns, the last one "1" exactly when the function is disabled |
| LinuxEvents.LinuxAppServiceEventGenerator.LogFunctionTraceEvent | src/WebJobs.Script.WebHost/Diagnostics/LinuxAppServiceEventGenerator.cs:27-36 | one write of the 15-field line to functionslogs.log, with details, summary and exception message normalized |
| LinuxEvents.LinuxAppServiceEventGenerator.LogFunctionMetricEvent | src/WebJobs.Script.WebHost/Diagnostics/LinuxAppServiceEventGenerator.cs:38-47 | the 10-field line to functionsmetrics.log, then the hard-coded details line to functionsdetails.log |
| LinuxEvents.LinuxAppServiceEventGenerator.LogFunctionDetailsEvent | src/WebJobs.Script.WebHost/Diagnostics/LinuxAppServiceEventGenerator.cs:49-53 | one write to functionsdetails.log, with isDisabled as "1" or "0" |
| LinuxEvents.LinuxAppServiceEventGenerator.LogFunctionExecutionAggregateEvent | src/WebJobs.Script.WebHost/Diagnostics/LinuxAppServiceEventGenerator.cs:55-59 | always throws NotImplementedException |
| LinuxEvents.LinuxAppServiceEventGenerator.LogFunctionExecutionEvent | src/WebJobs.Script.WebHost/Diagnostics/LinuxAppServiceEventGenerator.cs:61-65 | always throws NotImplementedException |
| ScriptLogging.NormalizeString | src/WebJobs.Script/Logging/LinuxScriptLogger.cs:54-72 | NewLine becomes ' ' and '"' becomes "'", then the text is quoted: length +2, and '"' appears only at the two ends |
| ScriptLogging.TruncatedDetails | src/WebJobs.Script/Logging/LinuxScriptLogger.cs:14-49 | details longer than 10000 Unicode scalar values keep their first 10000; shorter ones are unchanged; the result is always a prefix |
| ScriptLogging.ColumnsCommaFree | src/WebJobs.Script/Logging/LinuxScriptLogger.cs:49-51 | quoting and truncation add no comma to comma-free values |
| ScriptLogging.StreamLinePrefix | src/WebJobs.Script/Logging/LinuxScriptLogger.cs:51 | a line is the stream name, a space, and the joined columns |
| ScriptLogging.ParseStreamLine | src/WebJobs.Script/Logging/LinuxScriptLogger.cs:45-52 | for comma-free values, the line after the stream name splits on ',' into the 20 columns in order, ending container, stamp, tenant, runtimeSiteName and slotName |
| ScriptLogging.QuotedColumns | src/WebJobs.Script/Logging/LinuxScriptLogger.cs:51-72 | the details, summary and exception-message columns are quoted with no inner '"' or NewLine |
| ScriptLogging.LinuxScriptLogger.constructor | src/WebJobs.Script/Logging/LinuxScriptLogger.cs:22-29 | the container name is upper-cased and defaults to "T-CNAME"; stamp and tenant are lower-cased and default to "T-SNAME" and "T-TID" |
| ScriptLogging.LinuxScriptLogger.LogFunctionTraceEvent | src/WebJobs.Script/Logging/LinuxScriptLogger.cs:45-52 | one console line: the stream name and the 20 columns, with the details truncated |
| ScriptLogging.LinuxScriptLogger.Log | src/WebJobs.Script/Logging/LinuxScriptLogger.cs:38-43 | one Information event whose summary is the message, with the fixed placeholders elsewhere |
| ScriptLogging.LogLevelColumn | src/WebJobs.Script/Logging/LinuxScriptLogger.cs:40-92 | Log's level column is "4", Informational, under the shared ToEventLevel table |
| FunctionNames.Compare | src/WebJobs.Script/Extensions/FunctionMetadataNameComparer.cs:14-22 | 0 when either object or either name is null; otherwise 0 exactly for names equal ignoring case |
| FunctionNames.CompareIgnoreCaseZero | src/WebJobs.Script/Extensions/FunctionMetadataNameComparer.cs:21 | the ordinal case-insensitive comparison is 0 exactly on names differing only in case |
| FunctionNames.CompareIgnoreCaseAntisymmetric | src/WebJobs.Script/Extensions/FunctionMetadataNameComparer.cs:21 | swapping the names negates the comparison |
| FunctionNames.CompareIgnoreCaseTransitive | src/WebJobs.Script/Extensions/FunctionMetadataNameComparer.cs:21 | "comes before" is transitive on names |
| FunctionNames.CompareAntisymmetric | src/WebJobs.Script/Extensions/FunctionMetadataNameComparer.cs:14-22 | Compare(y, x) == -Compare(x, y) for all arguments, nulls included |
| FunctionNames.NamelessEqualsEverything | src/WebJobs.Script/Extensions/FunctionMetadataNameComparer.cs:16-19 | a nameless entry compares 0 with "a" and with "b" although they differ, so the comparer's "equal" is not transitive |
| FunctionNames.SortedNamesExample | test/WebJobs.Script.Tests/Extensions/FunctionMetadataNameComparerTests.cs:14-34 | "1" < "2" < "3" < "4" under the comparer, the order the test sorts into |

## Left out

- Real I/O: process execution, HTTP, fuse mounts, zip extraction, blob storage and file appends are opaque outcomes chosen by the caller. This covers `RunBashCommand`, `AriaDownload`, the `HttpClientDownload` stream copy, `UnzipPackage`, `UnsquashImage` and the `FileLogWriter`/console writers.
- JSON (de)serialization, `Decrypt`, `CloudStorageAccount.Parse`/`ExportKey` with base64, `Utility.TryCleanUrl` and `Uri` parsing are uninterpreted inputs.
- `Utility.InvokeWithRetriesAsync` is not shown. Each retried operation is modelled as one eventual outcome, and the 0.5 s backoff is left out.
- Time: the 5 s lock delay is recorded, not waited. Timers are state plus an explicit "fired" method. `DateTime.UtcNow` and the formatted time stamps are inputs. `ScriptHost.Version` is an input.
- Concurrency: `Interlocked`, `Monitor.TryEnter`, `async void` and `ExecutionContext.SuppressFlow` run sequentially. A try-lock is a boolean input.
- Log message texts and the worker-bundle log line; the `FileInfo.Length` log after aria2c.
- The FileUtility helpers are not part of this model. `MarkContainerDisabled` is a flag.
- The `Format()` JSON of the metering options.
- The streaming services, the folder notification and download services, the metrics repository, the metering service and the framework middleware.
- The `LinuxScriptLogger.Instance` singleton.
- A null `Environment` dictionary in `HostAssignmentContext`.
- A null `webHostEnvironment` in the publisher's constructor.
- InstanceApi.InstanceController.Assign: a null request body is not modelled. The source dereferences it unguarded and throws NullReferenceException.
- A null string argument to the loggers.
- Multi-valued request headers (`StringValues`).
- The response writer in `WorkerValidationMiddleware`.
- ActivityTelemetry.LinuxFunctionExecutionActivityPublisher.FlushFunctionExecutionActivities: the HashSet is an ordered sequence in first-seen order. Its enumeration order is not modelled.
- Common.EqualsIgnoreCase: case folding is ASCII only. Non-ASCII `OrdinalIgnoreCase` and `ToUpperInvariant`/`ToLowerInvariant` mappings are not modelled.
- HostNames.HostNameProvider.Synchronize: the culture-sensitive `string.Compare(Value, header) != 0` is modelled as string inequality.
- Metering.RawFunctionExecutionStatusSink.GetActivities: the stale-count log line is not modelled. The count is returned instead.
- ScriptLogging.TruncatedDetails: a Dafny string is a sequence of Unicode scalar values, while .NET `Length` and `Substring` count UTF-16 code units, so details holding characters outside the Basic Multilingual Plane are cut later in the model than in the source (6000 copies of U+1F600 are 12000 code units but 6000 scalar values).
- FunctionNames.Compare: ordinal order compares scalar values, not UTF-16 code units, so the order differs from the source's for text outside the Basic Multilingual Plane.
- LinuxEvents.LinuxAppServiceEventGenerator.LogFunctionTraceEvent: the `FunctionsSystemLogsEventSource.Instance.SetActivityId(activityId)` call is not modelled; it only tags the event source with the activity id and writes nothing to the log line.
- Environments.ProcessEnvironment.GetEnvironmentVariable: the environment is a plain map. `SystemEnvironment` decodes the values of the settings named in `EncodedSettingNames` with `Utility.DecodeEnvironment`; that decoding is not modelled.

## Findings

| source | as written | input that shows it | evidently intended | confidence | as-written member | corrected member |
|---|---|---|---|---|---|---|
| src/WebJobs.Script.WebHost/LinuxSpecialization/RunFromPackageDeploymentLock.cs:24-26 | the constructor calls GetDeploymentLockFilepath, which reads `_environment`, before `_environment` is assigned, so it throws NullReferenceException; RunFromPackageDeploymentLockManager.TryAcquire catches it and always returns null, and with the skip branch unreachable DeployToAzureFiles returns false on every call | any call of TryAcquire, on any environment and any disk | assign `_environment` first, so the lock file at `<metadata folder>/lockfile` is created holding the container name | not executed | DeploymentLocks.ConstructedLockPathAsWritten, DeploymentLocks.RunFromPackageDeploymentLockManager.TryAcquireAsWritten, PackageHandler.RunFromPackageHandler.DeployToAzureFilesAsWritten | DeploymentLocks.RunFromPackageDeploymentLockManager.TryAcquire, PackageHandler.RunFromPackageHandler.DeployToAzureFiles |
