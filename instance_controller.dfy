/**
 * InstanceController: the admin endpoints the platform calls on a standby
 * container to assign it to a site, to query it and to disable it.
 */
module InstanceApi {
  import opened Common
  import opened Environments
  import opened Assignment

  const ContainerEncryptionKey := "CONTAINER_ENCRYPTION_KEY"
  const ContainerDisabled := "CONTAINER_DISABLED"

  const Status200OK := 200
  const Status202Accepted := 202
  const Status400BadRequest := 400
  const Status409Conflict := 409
  const Status500InternalServerError := 500

  /** An IActionResult: a status code and an optional string body. */
  datatype ActionResult = ActionResult(statusCode: int, body: Option<string>)

  /** The request body of admin/instance/assign. */
  datatype EncryptedHostAssignmentContext = EncryptedHostAssignmentContext(
    encryptedContext: Option<string>,
    isWarmup: bool)

  /**
   * The IInstanceManager answers Assign consults, and the Decrypt extension
   * (any failure of it is an exception that leaves the action).
   */
  datatype InstanceManager = InstanceManager(
    decrypt: (Option<string>, Option<string>) -> Result<HostAssignmentContext>,
    validateContext: (Option<HostAssignmentContext>, bool) -> Option<string>,
    specializeMSISidecar: (Option<HostAssignmentContext>, bool) -> Option<string>,
    startAssignment: (Option<HostAssignmentContext>, bool) -> bool)

  /** The calls Assign makes on the instance manager, in order. */
  datatype ManagerCall =
    | ValidateContext(context: Option<HostAssignmentContext>, isWarmup: bool)
    | SpecializeMSISidecar(context: Option<HostAssignmentContext>, isWarmup: bool)
    | StartAssignment(context: Option<HostAssignmentContext>, isWarmup: bool)

  datatype AssignOutcome = AssignOutcome(result: Result<ActionResult>, calls: seq<ManagerCall>)

  /** The context Assign works with: none for a warm-up, the decrypted one otherwise. */
  function AssignmentContext(request: EncryptedHostAssignmentContext, containerKey: Option<string>, m: InstanceManager)
    : (r: Result<Option<HostAssignmentContext>>)
    ensures request.isWarmup ==> r == Ok(None)
    ensures !request.isWarmup ==>
              (r.Ok? <==> m.decrypt(request.encryptedContext, containerKey).Ok?)
              && (r.Ok? ==> r.value == Some(m.decrypt(request.encryptedContext, containerKey).value))
  {
    if request.isWarmup then Ok(None)
    else
      match m.decrypt(request.encryptedContext, containerKey)
      case Ok(c) => Ok(Some(c))
      case Err(e) => Err(e)
  }

  predicate IsStart(c: ManagerCall)
  {
    c.StartAssignment?
  }

  /** Assign(request), with the ContainerEncryptionKey value already read. */
  function AssignDecision(request: EncryptedHostAssignmentContext, containerKey: Option<string>, m: InstanceManager)
    : (r: AssignOutcome)
    // Decryption failing is the only way out without calling the manager.
    ensures r.calls == [] <==> AssignmentContext(request, containerKey, m).Err?
    ensures r.result.Err? <==> AssignmentContext(request, containerKey, m).Err?
    ensures AssignmentContext(request, containerKey, m).Ok? ==>
      var ctx := AssignmentContext(request, containerKey, m).value;
      var w := request.isWarmup;
      r.calls[0] == ValidateContext(ctx, w)
      // a validation error: 400 with the error, and nothing else is called
      && (m.validateContext(ctx, w).Some? ==>
            r.result == Ok(ActionResult(Status400BadRequest, m.validateContext(ctx, w))) && |r.calls| == 1)
      // a sidecar error: 500 with the error, and StartAssignment is not called
      && (m.validateContext(ctx, w).None? && m.specializeMSISidecar(ctx, w).Some? ==>
            r.result == Ok(ActionResult(Status500InternalServerError, m.specializeMSISidecar(ctx, w)))
            && r.calls == [ValidateContext(ctx, w), SpecializeMSISidecar(ctx, w)])
      // both checks passed: StartAssignment once, then 202 or 409
      && (m.validateContext(ctx, w).None? && m.specializeMSISidecar(ctx, w).None? ==>
            r.calls == [ValidateContext(ctx, w), SpecializeMSISidecar(ctx, w), StartAssignment(ctx, w)]
            && r.result.Ok?
            && (r.result.value.statusCode == Status202Accepted <==> m.startAssignment(ctx, w) || w)
            && (r.result.value.statusCode != Status202Accepted ==>
                  r.result.value == ActionResult(Status409Conflict, Some("Instance already assigned"))))
    // StartAssignment runs at most once, and only when both checks passed.
    ensures forall i :: 0 <= i < |r.calls| && IsStart(r.calls[i]) ==> i == 2 && |r.calls| == 3
  {
    match AssignmentContext(request, containerKey, m)
    case Err(e) => AssignOutcome(Err(e), [])
    case Ok(ctx) =>
      var w := request.isWarmup;
      var validate := ValidateContext(ctx, w);
      match m.validateContext(ctx, w)
      case Some(error) => AssignOutcome(Ok(ActionResult(Status400BadRequest, Some(error))), [validate])
      case None =>
        var sidecar := SpecializeMSISidecar(ctx, w);
        match m.specializeMSISidecar(ctx, w)
        case Some(error) => AssignOutcome(Ok(ActionResult(Status500InternalServerError, Some(error))), [validate, sidecar])
        case None =>
          var calls := [validate, sidecar, StartAssignment(ctx, w)];
          if m.startAssignment(ctx, w) || w then AssignOutcome(Ok(ActionResult(Status202Accepted, None)), calls)
          else AssignOutcome(Ok(ActionResult(Status409Conflict, Some("Instance already assigned"))), calls)
  }

  /** A warm-up request is never decrypted: every manager call receives a null context. */
  lemma WarmupPassesNullContext(request: EncryptedHostAssignmentContext, containerKey: Option<string>, m: InstanceManager)
    requires request.isWarmup
    ensures forall i :: 0 <= i < |AssignDecision(request, containerKey, m).calls| ==>
              AssignDecision(request, containerKey, m).calls[i].context == None
    ensures AssignDecision(request, containerKey, m).result.Ok?
    ensures AssignDecision(request, containerKey, m).result.value.statusCode in {Status400BadRequest, Status500InternalServerError, Status202Accepted}
  {
  }

  /** GetInstanceInfo(): 200 carrying the manager's info unchanged. */
  function GetInstanceInfo<T>(info: T): (r: (int, T))
    ensures r.0 == Status200OK && r.1 == info
  {
    (Status200OK, info)
  }

  /** The IScriptHostManager passed to the disable endpoints. */
  class ScriptHostManager {
    /** RestartHostAsync calls so far (the restart itself is not awaited). */
    var restartRequests: nat

    constructor ()
      ensures restartRequests == 0
    {
      restartRequests := 0;
    }

    method RestartHostAsync()
      modifies this
      ensures restartRequests == old(restartRequests) + 1
    {
      restartRequests := restartRequests + 1;
    }
  }

  /** The file FileUtility.MarkContainerDisabled creates (FileUtility is not part of this model). */
  class ContainerDisabledMarker {
    var marked: bool

    constructor ()
      ensures !marked
    {
      marked := false;
    }

    method MarkContainerDisabled()
      modifies this
      ensures marked
    {
      marked := true;
    }
  }

  class InstanceController {
    const environment: ProcessEnvironment
    /** IEnvironment.IsLinuxContainerEnvironment() */
    const isLinuxContainerEnvironment: bool

    constructor (environment: ProcessEnvironment, isLinuxContainerEnvironment: bool)
      ensures this.environment == environment && this.isLinuxContainerEnvironment == isLinuxContainerEnvironment
    {
      this.environment := environment;
      this.isLinuxContainerEnvironment := isLinuxContainerEnvironment;
    }

    /** Assign: reads ContainerEncryptionKey, then decides as AssignDecision does. */
    method Assign(request: EncryptedHostAssignmentContext, m: InstanceManager) returns (r: AssignOutcome)
      ensures r == AssignDecision(request, environment.GetEnvironmentVariable(ContainerEncryptionKey), m)
    {
      var containerKey := environment.GetEnvironmentVariable(ContainerEncryptionKey);
      r := AssignDecision(request, containerKey, m);
    }

    /**
     * Disable: in a Linux container, set ContainerDisabled to "1", request a
     * restart without waiting for it, and answer 200; elsewhere answer 409
     * and change nothing.
     */
    method Disable(hostManager: ScriptHostManager) returns (r: ActionResult)
      modifies environment, hostManager
      ensures isLinuxContainerEnvironment ==>
                r == ActionResult(Status200OK, None)
                && environment.variables == old(environment.variables)[ContainerDisabled := "1"]
                && hostManager.restartRequests == old(hostManager.restartRequests) + 1
      ensures !isLinuxContainerEnvironment ==>
                r == ActionResult(Status409Conflict, None)
                && environment.variables == old(environment.variables)
                && hostManager.restartRequests == old(hostManager.restartRequests)
    {
      if isLinuxContainerEnvironment {
        var _ := environment.SetEnvironmentVariable(ContainerDisabled, Some("1"));
        hostManager.RestartHostAsync();
        return ActionResult(Status200OK, None);
      }
      r := ActionResult(Status409Conflict, None);
    }

    /** Disable2: as Disable, but marks the container disabled with a file. */
    method Disable2(hostManager: ScriptHostManager, marker: ContainerDisabledMarker) returns (r: ActionResult)
      modifies marker, hostManager
      ensures isLinuxContainerEnvironment ==>
                r == ActionResult(Status200OK, None) && marker.marked
                && hostManager.restartRequests == old(hostManager.restartRequests) + 1
      ensures !isLinuxContainerEnvironment ==>
                r == ActionResult(Status409Conflict, None)
                && marker.marked == old(marker.marked)
                && hostManager.restartRequests == old(hostManager.restartRequests)
    {
      if isLinuxContainerEnvironment {
        marker.MarkContainerDisabled();
        hostManager.RestartHostAsync();
        return ActionResult(Status200OK, None);
      }
      r := ActionResult(Status409Conflict, None);
    }
  }
}
