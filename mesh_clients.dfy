/**
 * MeshInitServiceClient and MeshServiceClient: the host's two clients of the
 * container's mesh init server. Every operation is one form-encoded POST to
 * the MeshInitURI environment value; the form's "operation" field names it.
 */
module MeshClients {
  import opened Common
  import opened Environments

  const MeshInitURI := "MESH_INIT_URI"
  const Operation := "operation"

  /** The ExecutionStage values the function execution activities carry. */
  datatype ExecutionStage = InProgress | Finished

  /** ContainerFunctionExecutionActivity (EventTime as DateTime ticks). */
  datatype ContainerFunctionExecutionActivity = ContainerFunctionExecutionActivity(
    eventTime: int,
    functionName: Option<string>,
    executionStage: ExecutionStage,
    triggerType: Option<string>,
    success: bool)

  /** One KeyValuePair<string, string> of a form. */
  datatype FormField = FormField(key: string, value: string)

  /** A POST: the URI as read from the environment (null when unset) and the form. */
  datatype Request = Request(uri: Option<string>, form: seq<FormField>)

  /**
   * What CloudStorageAccount.Parse yields and Convert.ToBase64String makes
   * of the exported key.
   */
  datatype StorageAccount = StorageAccount(fileEndpointHost: string, accountName: string, accountKeyBase64: string)

  /** ContainerHealthEvent */
  datatype ContainerHealthEvent = ContainerHealthEvent(eventTime: int, eventType: int, details: Option<string>, source: string)

  /** The collaborators both clients hand their data to. */
  datatype Transport = Transport(
    /** HttpClient.PostAsync: a status code, or an exception. */
    post: Request -> Result<int>,
    /** CloudStorageAccount.Parse and Credentials.ExportKey; either may throw. */
    parseAccount: string -> Result<StorageAccount>,
    /** JsonConvert.SerializeObject of one activity, of a collection, of a health event. */
    serializeActivity: ContainerFunctionExecutionActivity -> string,
    serializeActivities: seq<ContainerFunctionExecutionActivity> -> string,
    serializeHealthEvent: ContainerHealthEvent -> string)

  /** HttpResponseMessage.IsSuccessStatusCode */
  predicate IsSuccessStatusCode(status: int)
  {
    200 <= status <= 299
  }

  /** A POST that neither throws nor answers with a failure status (what EnsureSuccessStatusCode accepts). */
  predicate Succeeds(outcome: Result<int>)
  {
    outcome.Ok? && IsSuccessStatusCode(outcome.value)
  }

  /**
   * Both constructors null-check client, then logger, then environment; the
   * first null one is the parameter the ArgumentNullException names.
   */
  function ConstructorCheck(hasClient: bool, hasEnvironment: bool, hasLogger: bool): (r: Result<()>)
    ensures r.Ok? <==> hasClient && hasEnvironment && hasLogger
    ensures !hasClient ==> r == Err(ArgumentNull("client"))
    ensures hasClient && !hasLogger ==> r == Err(ArgumentNull("logger"))
    ensures hasClient && hasLogger && !hasEnvironment ==> r == Err(ArgumentNull("environment"))
  {
    if !hasClient then Err(ArgumentNull("client"))
    else if !hasLogger then Err(ArgumentNull("logger"))
    else if !hasEnvironment then Err(ArgumentNull("environment"))
    else Ok(())
  }

  function MountCifsForm(account: StorageAccount, contentShare: string, targetPath: string): seq<FormField>
  {
    [FormField(Operation, "cifs"), FormField("host", account.fileEndpointHost), FormField("accountName", account.accountName),
     FormField("accountKey", account.accountKeyBase64), FormField("contentShare", contentShare), FormField("targetPath", targetPath)]
  }

  function MountFuseForm(fuseType: string, filePath: string, scriptPath: string): seq<FormField>
  {
    [FormField(Operation, fuseType), FormField("filePath", filePath), FormField("targetPath", scriptPath)]
  }

  function MountLocalForm(sourcePath: string, symLinkPath: string): seq<FormField>
  {
    [FormField(Operation, "mountlocal"), FormField("sourcePath", sourcePath), FormField("symLinkPath", symLinkPath)]
  }

  function HealthEventForm(healthEvent: string): seq<FormField>
  {
    [FormField(Operation, "add-health-event"), FormField("healthEvent", healthEvent)]
  }

  function AddFesForm(content: string): seq<FormField>
  {
    [FormField(Operation, "add-fes"), FormField("content", content)]
  }

  /**
   * formData.FirstOrDefault(f => f.Key == "operation").Value: the value of
   * the first "operation" field, null when there is none.
   */
  function OperationName(form: seq<FormField>): (r: Option<string>)
    ensures r.None? <==> forall i :: 0 <= i < |form| ==> form[i].key != Operation
    ensures r.Some? ==> exists i :: 0 <= i < |form| && form[i] == FormField(Operation, r.value)
                          && forall j :: 0 <= j < i ==> form[j].key != Operation
  {
    if form == [] then None
    else if form[0].key == Operation then Some(form[0].value)
    else
      var rest := OperationName(form[1..]);
      assert rest.Some? ==> exists i :: 0 <= i < |form| && form[i] == FormField(Operation, rest.value)
                              && forall j :: 0 <= j < i ==> form[j].key != Operation by {
        if rest.Some? {
          var i :| 0 <= i < |form[1..]| && form[1..][i] == FormField(Operation, rest.value)
                   && forall j :: 0 <= j < i ==> form[1..][j].key != Operation;
          assert form[i + 1] == FormField(Operation, rest.value);
          assert forall j :: 0 <= j < i + 1 ==> form[j].key != Operation by {
            forall j | 0 <= j < i + 1 ensures form[j].key != Operation {
              if j > 0 { assert form[j] == form[1..][j - 1]; }
            }
          }
        }
      }
      rest
  }

  /** Every form the clients build names its operation in its first field, and in no other. */
  lemma OperationNames(account: StorageAccount, share: string, path: string, t: string, file: string, source: string, link: string,
                       healthEvent: string, content: string)
    requires t != ""
    ensures OperationName(MountCifsForm(account, share, path)) == Some("cifs")
    ensures OperationName(MountFuseForm(t, file, path)) == Some(t)
    ensures OperationName(MountLocalForm(source, link)) == Some("mountlocal")
    ensures OperationName(HealthEventForm(healthEvent)) == Some("add-health-event")
    ensures OperationName(AddFesForm(content)) == Some("add-fes")
  {
  }

  /** The add-fes request for one activity, posted to `uri`. */
  function ActivityRequest(t: Transport, uri: Option<string>, a: ContainerFunctionExecutionActivity): Request
  {
    Request(uri, AddFesForm(t.serializeActivity(a)))
  }

  /** One add-fes request per activity, in order. */
  function ActivityRequests(t: Transport, uri: Option<string>, activities: seq<ContainerFunctionExecutionActivity>)
    : (r: seq<Request>)
    ensures |r| == |activities|
    ensures forall i :: 0 <= i < |activities| ==> r[i] == ActivityRequest(t, uri, activities[i])
  {
    if activities == [] then []
    else ActivityRequests(t, uri, activities[..|activities| - 1]) + [ActivityRequest(t, uri, activities[|activities| - 1])]
  }

  /** The activities whose request did not succeed, in order. */
  function FailedActivities(t: Transport, uri: Option<string>, activities: seq<ContainerFunctionExecutionActivity>)
    : (r: seq<ContainerFunctionExecutionActivity>)
    ensures |r| <= |activities|
    ensures forall a :: a in r ==> a in activities && !Succeeds(t.post(ActivityRequest(t, uri, a)))
    ensures forall a :: a in activities && !Succeeds(t.post(ActivityRequest(t, uri, a))) ==> a in r
  {
    if activities == [] then []
    else
      var last := activities[|activities| - 1];
      var init := activities[..|activities| - 1];
      assert activities == init + [last];
      FailedActivities(t, uri, init) + if Succeeds(t.post(ActivityRequest(t, uri, last))) then [] else [last]
  }

  /**
   * The failures keep request order: those of two batches one after the
   * other are the first batch's failures followed by the second's.
   */
  lemma {:induction false} FailedActivitiesAppend(t: Transport, uri: Option<string>,
                                                 xs: seq<ContainerFunctionExecutionActivity>, ys: seq<ContainerFunctionExecutionActivity>)
    ensures FailedActivities(t, uri, xs + ys) == FailedActivities(t, uri, xs) + FailedActivities(t, uri, ys)
    decreases |ys|
  {
    if ys == [] {
      assert xs + ys == xs;
    } else {
      var init := ys[..|ys| - 1];
      assert (xs + ys)[..|xs + ys| - 1] == xs + init;
      assert (xs + ys)[|xs + ys| - 1] == ys[|ys| - 1];
      FailedActivitiesAppend(t, uri, xs, init);
    }
  }

  /** A failing activity is reported once per time it was sent, a succeeding one never. */
  lemma {:induction false} FailedActivitiesCounts(t: Transport, uri: Option<string>,
                                                 activities: seq<ContainerFunctionExecutionActivity>, a: ContainerFunctionExecutionActivity)
    ensures multiset(FailedActivities(t, uri, activities))[a]
            == if Succeeds(t.post(ActivityRequest(t, uri, a))) then 0 else multiset(activities)[a]
    decreases |activities|
  {
    if activities != [] {
      var init := activities[..|activities| - 1];
      assert activities == init + [activities[|activities| - 1]];
      FailedActivitiesCounts(t, uri, init, a);
    }
  }

  class MeshInitServiceClient {
    const transport: Transport
    const environment: ProcessEnvironment
    /** The requests posted so far. */
    var sent: seq<Request>

    constructor (transport: Transport, environment: ProcessEnvironment)
      ensures this.transport == transport && this.environment == environment && sent == []
    {
      this.transport := transport;
      this.environment := environment;
      sent := [];
    }

    /** Where every request goes: the MeshInitURI value at the time of the call. */
    function Uri(): Option<string>
      reads environment
    {
      environment.GetEnvironmentVariable(MeshInitURI)
    }

    /** SendAsync(formData) */
    method SendAsync(form: seq<FormField>) returns (r: Result<int>)
      modifies this`sent
      ensures sent == old(sent) + [Request(Uri(), form)]
      ensures r == transport.post(Request(Uri(), form))
    {
      var request := Request(environment.GetEnvironmentVariable(MeshInitURI), form);
      sent := sent + [request];
      r := transport.post(request);
    }

    /** MountCifs: parse the connection string, then post; the response status is not looked at. */
    method MountCifs(connectionString: string, contentShare: string, targetPath: string) returns (r: Result<()>)
      modifies this`sent
      ensures transport.parseAccount(connectionString).Err? ==> r.Err? && sent == old(sent)
      ensures transport.parseAccount(connectionString).Ok? ==>
                var request := Request(Uri(), MountCifsForm(transport.parseAccount(connectionString).value, contentShare, targetPath));
                sent == old(sent) + [request] && (r.Ok? <==> transport.post(request).Ok?)
    {
      var account := transport.parseAccount(connectionString);
      if account.Err? {
        return Err(account.error);
      }
      var response := SendAsync(MountCifsForm(account.value, contentShare, targetPath));
      r := if response.Ok? then Ok(()) else Err(response.error);
    }

    /** MountBlob is not implemented. */
    method MountBlob(connectionString: string, contentShare: string, targetPath: string) returns (r: Result<()>)
      ensures r == Err(NotImplemented)
    {
      r := Err(NotImplemented);
    }

    /** MountFuse(type, filePath, scriptPath) */
    method MountFuse(fuseType: string, filePath: string, scriptPath: string) returns (r: Result<()>)
      modifies this`sent
      ensures sent == old(sent) + [Request(Uri(), MountFuseForm(fuseType, filePath, scriptPath))]
      ensures r.Ok? <==> transport.post(Request(Uri(), MountFuseForm(fuseType, filePath, scriptPath))).Ok?
    {
      var response := SendAsync(MountFuseForm(fuseType, filePath, scriptPath));
      r := if response.Ok? then Ok(()) else Err(response.error);
    }

    /**
     * PublishContainerFunctionExecutionActivities: one add-fes request per
     * activity, in order, each carrying that activity's JSON. A failed
     * request is logged and the loop goes on; nothing is thrown.
     */
    method PublishContainerFunctionExecutionActivities(activities: seq<ContainerFunctionExecutionActivity>)
      returns (failed: seq<ContainerFunctionExecutionActivity>)
      modifies this`sent
      ensures sent == old(sent) + ActivityRequests(transport, Uri(), activities)
      ensures failed == FailedActivities(transport, Uri(), activities)
    {
      var uri := environment.GetEnvironmentVariable(MeshInitURI);
      failed := [];
      var k := 0;
      while k < |activities|
        invariant 0 <= k <= |activities|
        invariant sent == old(sent) + ActivityRequests(transport, uri, activities[..k])
        invariant failed == FailedActivities(transport, uri, activities[..k])
      {
        var ok := PublishContainerFunctionExecutionActivity(activities[k]);
        if !ok {
          failed := failed + [activities[k]];
        }
        assert activities[..k + 1][..k] == activities[..k];
        k := k + 1;
      }
      assert activities[..k] == activities;
    }

    /** PublishContainerFunctionExecutionActivity: post one activity and check the status. */
    method PublishContainerFunctionExecutionActivity(activity: ContainerFunctionExecutionActivity) returns (ok: bool)
      modifies this`sent
      ensures sent == old(sent) + [ActivityRequest(transport, Uri(), activity)]
      ensures ok <==> Succeeds(transport.post(ActivityRequest(transport, Uri(), activity)))
    {
      var response := SendAsync(AddFesForm(transport.serializeActivity(activity)));
      ok := response.Ok? && IsSuccessStatusCode(response.value);
    }
  }

  class MeshServiceClient {
    const transport: Transport
    const environment: ProcessEnvironment
    var sent: seq<Request>

    constructor (transport: Transport, environment: ProcessEnvironment)
      ensures this.transport == transport && this.environment == environment && sent == []
    {
      this.transport := transport;
      this.environment := environment;
      sent := [];
    }

    function Uri(): Option<string>
      reads environment
    {
      environment.GetEnvironmentVariable(MeshInitURI)
    }

    /** SendAsync(formData): logs OperationName(formData), then posts. */
    method SendAsync(form: seq<FormField>) returns (r: Result<int>, operationName: Option<string>)
      modifies this`sent
      ensures sent == old(sent) + [Request(Uri(), form)]
      ensures r == transport.post(Request(Uri(), form))
      ensures operationName == OperationName(form)
    {
      operationName := OperationName(form);
      var request := Request(environment.GetEnvironmentVariable(MeshInitURI), form);
      sent := sent + [request];
      r := transport.post(request);
    }

    /** MountCifs: the response's success flag; only parsing and the POST itself can throw. */
    method MountCifs(connectionString: string, contentShare: string, targetPath: string) returns (r: Result<bool>)
      modifies this`sent
      ensures transport.parseAccount(connectionString).Err? ==> r.Err? && sent == old(sent)
      ensures transport.parseAccount(connectionString).Ok? ==>
                var request := Request(Uri(), MountCifsForm(transport.parseAccount(connectionString).value, contentShare, targetPath));
                sent == old(sent) + [request]
                && (r.Ok? <==> transport.post(request).Ok?)
                && (r.Ok? ==> (r.value <==> IsSuccessStatusCode(transport.post(request).value)))
    {
      var account := transport.parseAccount(connectionString);
      if account.Err? {
        return Err(account.error);
      }
      var response, _ := SendAsync(MountCifsForm(account.value, contentShare, targetPath));
      r := if response.Ok? then Ok(IsSuccessStatusCode(response.value)) else Err(response.error);
    }

    method MountBlob(connectionString: string, contentShare: string, targetPath: string) returns (r: Result<()>)
      ensures r == Err(NotImplemented)
    {
      r := Err(NotImplemented);
    }

    method MountFuse(fuseType: string, filePath: string, scriptPath: string) returns (r: Result<()>)
      modifies this`sent
      ensures sent == old(sent) + [Request(Uri(), MountFuseForm(fuseType, filePath, scriptPath))]
      ensures r.Ok? <==> transport.post(Request(Uri(), MountFuseForm(fuseType, filePath, scriptPath))).Ok?
    {
      var response, _ := SendAsync(MountFuseForm(fuseType, filePath, scriptPath));
      r := if response.Ok? then Ok(()) else Err(response.error);
    }

    method MountLocal(sourcePath: string, symLinkPath: string) returns (r: Result<()>)
      modifies this`sent
      ensures sent == old(sent) + [Request(Uri(), MountLocalForm(sourcePath, symLinkPath))]
      ensures r.Ok? <==> transport.post(Request(Uri(), MountLocalForm(sourcePath, symLinkPath))).Ok?
    {
      var response, _ := SendAsync(MountLocalForm(sourcePath, symLinkPath));
      r := if response.Ok? then Ok(()) else Err(response.error);
    }

    /** NotifyHealthEvent: the event, stamped with the current time, serialized into one field. */
    method NotifyHealthEvent(eventType: int, source: string, details: Option<string>, utcNow: int) returns (r: Result<()>)
      modifies this`sent
      ensures var form := HealthEventForm(transport.serializeHealthEvent(ContainerHealthEvent(utcNow, eventType, details, source)));
              sent == old(sent) + [Request(Uri(), form)] && (r.Ok? <==> transport.post(Request(Uri(), form)).Ok?)
    {
      var healthEvent := ContainerHealthEvent(utcNow, eventType, details, source);
      var response, _ := SendAsync(HealthEventForm(transport.serializeHealthEvent(healthEvent)));
      r := if response.Ok? then Ok(()) else Err(response.error);
    }

    /**
     * PublishContainerActivity: one add-fes request carrying the JSON of the
     * whole collection; a failure (after the retries) is logged and swallowed.
     */
    method PublishContainerActivity(activities: seq<ContainerFunctionExecutionActivity>) returns (published: bool)
      modifies this`sent
      ensures sent == old(sent) + [Request(Uri(), AddFesForm(transport.serializeActivities(activities)))]
      ensures published <==> Succeeds(transport.post(Request(Uri(), AddFesForm(transport.serializeActivities(activities)))))
    {
      var response, _ := SendAsync(AddFesForm(transport.serializeActivities(activities)));
      published := response.Ok? && IsSuccessStatusCode(response.value);
    }
  }
}
