/**
 * LinuxContainerInitializationService and LinuxContainerInitializationHostService:
 * at start-up of a Linux container, look for an assignment context (the
 * ContainerStartContext setting, or failing that the blob behind the
 * ContainerStartContextSasUri setting) and, when one is found, decrypt it and
 * start the assignment with it.
 */
module ContainerInit {
  import opened Common
  import opened Assignment
  import InstanceApi

  const ContainerStartContext := "CONTAINER_START_CONTEXT"
  const ContainerStartContextSasUri := "CONTAINER_START_CONTEXT_SAS_URI"

  datatype CancellationToken = CancellationToken(id: int)
  const NoCancellation := CancellationToken(0)

  /** The collaborators the start-up flow hands text to. */
  datatype Startup = Startup(
    /** JsonConvert.DeserializeObject<EncryptedHostAssignmentContext> */
    deserialize: string -> Result<InstanceApi.EncryptedHostAssignmentContext>,
    /** EncryptedHostAssignmentContext.Decrypt(containerKey) */
    decrypt: (Option<string>, Option<string>) -> Result<HostAssignmentContext>,
    /** IInstanceManager.StartAssignment(context) */
    startAssignment: HostAssignmentContext -> bool)

  /** The observable calls of the flow, in order. */
  datatype InitCall =
    | ReadContext(uri: string, token: CancellationToken)
    | StartAssignment(context: HostAssignmentContext)

  /** ScriptSettingsManager.GetSetting */
  function GetSetting(settings: map<string, string>, name: string): Option<string>
  {
    if name in settings then Some(settings[name]) else None
  }

  /** The SAS URI is read only when the start context setting is null or empty. */
  predicate ConsultsSasUri(settings: map<string, string>)
  {
    IsNullOrEmpty(GetSetting(settings, ContainerStartContext))
    && !IsNullOrEmpty(GetSetting(settings, ContainerStartContextSasUri))
  }

  /** GetAssignmentContextFromSasUri: the reader's text, or "" when it throws. */
  function ReadOrEmpty(outcome: Result<string>): (r: string)
    ensures outcome.Err? ==> r == ""
    ensures outcome.Ok? ==> r == outcome.value
  {
    if outcome.Ok? then outcome.value else ""
  }

  /** The start context InitializeAssignmentContext ends up with. */
  function EffectiveStartContext(settings: map<string, string>, read: string -> Result<string>): (r: Option<string>)
    ensures !IsNullOrEmpty(GetSetting(settings, ContainerStartContext)) ==> r == GetSetting(settings, ContainerStartContext)
    ensures ConsultsSasUri(settings) ==> r == Some(ReadOrEmpty(read(GetSetting(settings, ContainerStartContextSasUri).value)))
    ensures IsNullOrEmpty(GetSetting(settings, ContainerStartContext)) && !ConsultsSasUri(settings) ==> IsNullOrEmpty(r)
  {
    var startContext := GetSetting(settings, ContainerStartContext);
    if IsNullOrEmpty(startContext) && ConsultsSasUri(settings) then
      Some(ReadOrEmpty(read(GetSetting(settings, ContainerStartContextSasUri).value)))
    else startContext
  }

  /**
   * The context passed to StartAssignment: none for an empty start context,
   * otherwise the deserialized request decrypted with ContainerEncryptionKey;
   * a failure of either step is an exception out of the flow.
   */
  function AssignedContext(settings: map<string, string>, read: string -> Result<string>, s: Startup)
    : (r: Result<Option<HostAssignmentContext>>)
    ensures IsNullOrEmpty(EffectiveStartContext(settings, read)) ==> r == Ok(None)
    ensures !IsNullOrEmpty(EffectiveStartContext(settings, read)) ==>
              var request := s.deserialize(EffectiveStartContext(settings, read).value);
              (request.Err? ==> r.Err?)
              && (request.Ok? ==>
                    var d := s.decrypt(request.value.encryptedContext, GetSetting(settings, InstanceApi.ContainerEncryptionKey));
                    (d.Err? ==> r.Err?) && (d.Ok? ==> r == Ok(Some(d.value))))
  {
    var startContext := EffectiveStartContext(settings, read);
    if IsNullOrEmpty(startContext) then Ok(None)
    else
      match s.deserialize(startContext.value)
      case Err(e) => Err(e)
      case Ok(request) =>
        var containerKey := GetSetting(settings, InstanceApi.ContainerEncryptionKey);
        match s.decrypt(request.encryptedContext, containerKey)
        case Err(e) => Err(e)
        case Ok(context) => Ok(Some(context))
  }

  /**
   * The start context is non-empty, deserializes, and decrypts with
   * ContainerEncryptionKey into `context`.
   */
  predicate DecryptsTo(settings: map<string, string>, read: string -> Result<string>, s: Startup, context: HostAssignmentContext)
  {
    var c := EffectiveStartContext(settings, read);
    !IsNullOrEmpty(c)
    && var request := s.deserialize(c.value);
       request.Ok?
       && s.decrypt(request.value.encryptedContext, GetSetting(settings, InstanceApi.ContainerEncryptionKey)) == Ok(context)
  }

  /** The calls one InitializeAssignmentContext makes. */
  function InitializationCalls(settings: map<string, string>, read: string -> Result<string>, s: Startup, token: CancellationToken)
    : (r: seq<InitCall>)
  {
    (if ConsultsSasUri(settings) then [ReadContext(GetSetting(settings, ContainerStartContextSasUri).value, token)] else [])
    + (var c := AssignedContext(settings, read, s); if c.Ok? && c.value.Some? then [StartAssignment(c.value.value)] else [])
  }

  function CountReads(calls: seq<InitCall>): nat
  {
    if calls == [] then 0 else (if calls[0].ReadContext? then 1 else 0) + CountReads(calls[1..])
  }

  function CountStarts(calls: seq<InitCall>): nat
  {
    if calls == [] then 0 else (if calls[0].StartAssignment? then 1 else 0) + CountStarts(calls[1..])
  }

  /**
   * The reader is consulted at most once, and only when the start context
   * setting is empty; StartAssignment runs exactly once for a non-empty
   * context that decrypts, and never for an empty one.
   */
  lemma InitializationCallCounts(settings: map<string, string>, read: string -> Result<string>, s: Startup, token: CancellationToken)
    ensures var calls := InitializationCalls(settings, read, s, token);
      (CountReads(calls) == 1 <==> ConsultsSasUri(settings))
      && CountReads(calls) <= 1
      && (CountStarts(calls) == 1 <==> AssignedContext(settings, read, s).Ok? && AssignedContext(settings, read, s).value.Some?)
      && CountStarts(calls) <= 1
      && (IsNullOrEmpty(EffectiveStartContext(settings, read)) ==> CountStarts(calls) == 0)
      && (CountStarts(calls) == 1 <==> exists context :: DecryptsTo(settings, read, s, context))
      && (forall context :: DecryptsTo(settings, read, s, context) ==> calls[|calls| - 1] == StartAssignment(context))
  {
    var readCalls := if ConsultsSasUri(settings) then [ReadContext(GetSetting(settings, ContainerStartContextSasUri).value, token)] else [];
    var c := AssignedContext(settings, read, s);
    var starts := if c.Ok? && c.value.Some? then [StartAssignment(c.value.value)] else [];
    CountsAppend(readCalls, starts);
    if c.Ok? && c.value.Some? {
      assert DecryptsTo(settings, read, s, c.value.value);
    }
  }

  lemma {:induction false} CountsAppend(a: seq<InitCall>, b: seq<InitCall>)
    ensures CountReads(a + b) == CountReads(a) + CountReads(b)
    ensures CountStarts(a + b) == CountStarts(a) + CountStarts(b)
    decreases |a|
  {
    if a == [] {
      assert a + b == b;
    } else {
      assert (a + b)[1..] == a[1..] + b;
      CountsAppend(a[1..], b);
    }
  }

  /** A reader that throws and a reader that finds nothing lead to the same calls. */
  lemma ReaderFailureIsEmptyContext(settings: map<string, string>, failing: string -> Result<string>,
                                    empty: string -> Result<string>, s: Startup, token: CancellationToken)
    requires forall u :: failing(u).Err? && empty(u) == Ok("")
    ensures InitializationCalls(settings, failing, s, token) == InitializationCalls(settings, empty, s, token)
    ensures AssignedContext(settings, failing, s) == AssignedContext(settings, empty, s)
  {
  }

  class LinuxContainerInitializationService {
    /** ScriptSettingsManager: the settings and IsLinuxContainerEnvironment. */
    const settings: map<string, string>
    const isLinuxContainerEnvironment: bool
    /** IEncyptedHostAssignmentContextReader.Read(uri, token); a failure is an exception. */
    const read: string -> Result<string>
    const startup: Startup
    ghost var calls: seq<InitCall>

    constructor (settings: map<string, string>, isLinuxContainerEnvironment: bool, read: string -> Result<string>, startup: Startup)
      ensures this.settings == settings && this.isLinuxContainerEnvironment == isLinuxContainerEnvironment
      ensures this.read == read && this.startup == startup && calls == []
    {
      this.settings := settings;
      this.isLinuxContainerEnvironment := isLinuxContainerEnvironment;
      this.read := read;
      this.startup := startup;
      calls := [];
    }

    /** Run(token): outside a Linux container nothing is read and nothing is assigned. */
    method Run(cancellationToken: CancellationToken) returns (r: Result<()>)
      modifies this`calls
      ensures !isLinuxContainerEnvironment ==> r.Ok? && calls == old(calls)
      ensures isLinuxContainerEnvironment ==>
                calls == old(calls) + InitializationCalls(settings, read, startup, cancellationToken)
                && (r.Ok? <==> AssignedContext(settings, read, startup).Ok?)
    {
      if isLinuxContainerEnvironment {
        r := InitializeAssignmentContext(cancellationToken);
      } else {
        r := Ok(());
      }
    }

    method InitializeAssignmentContext(cancellationToken: CancellationToken) returns (r: Result<()>)
      modifies this`calls
      ensures calls == old(calls) + InitializationCalls(settings, read, startup, cancellationToken)
      ensures r.Ok? <==> AssignedContext(settings, read, startup).Ok?
    {
      var startContext := GetSetting(settings, ContainerStartContext);
      if IsNullOrEmpty(startContext) {
        var sasUri := GetSetting(settings, ContainerStartContextSasUri);
        if !IsNullOrEmpty(sasUri) {
          var text := GetAssignmentContextFromSasUri(sasUri.value, cancellationToken);
          startContext := Some(text);
        }
      }
      assert startContext == EffectiveStartContext(settings, read);
      if !IsNullOrEmpty(startContext) {
        var request := startup.deserialize(startContext.value);
        if request.Err? {
          return Err(request.error);
        }
        var containerKey := GetSetting(settings, InstanceApi.ContainerEncryptionKey);
        var assignmentContext := startup.decrypt(request.value.encryptedContext, containerKey);
        if assignmentContext.Err? {
          return Err(assignmentContext.error);
        }
        calls := calls + [StartAssignment(assignmentContext.value)];
        // The answer only selects a log line.
        var _ := startup.startAssignment(assignmentContext.value);
      }
      r := Ok(());
    }

    method GetAssignmentContextFromSasUri(sasUri: string, cancellationToken: CancellationToken) returns (text: string)
      modifies this`calls
      ensures text == ReadOrEmpty(read(sasUri))
      ensures calls == old(calls) + [ReadContext(sasUri, cancellationToken)]
    {
      calls := calls + [ReadContext(sasUri, cancellationToken)];
      var outcome := read(sasUri);
      if outcome.Err? {
        return "";
      }
      text := outcome.value;
    }
  }

  /** The blob store behind a SAS URI; each query may throw. */
  datatype BlobStore = BlobStore(
    parseUri: string -> Option<string>,
    blobExists: string -> Result<bool>,
    downloadText: string -> Result<string>)

  /** LinuxContainerInitializationHostService.Read(uri): "" when the blob does not exist. */
  function BlobRead(store: BlobStore, uri: string): (r: Result<string>)
    ensures store.parseUri(uri).None? ==> r == Err(UriFormat)
    ensures store.parseUri(uri).Some? && store.blobExists(store.parseUri(uri).value) == Ok(false) ==> r == Ok("")
    ensures store.parseUri(uri).Some? && store.blobExists(store.parseUri(uri).value) == Ok(true) ==>
              r == store.downloadText(store.parseUri(uri).value)
    ensures r.Ok? ==> store.parseUri(uri).Some? && store.blobExists(store.parseUri(uri).value).Ok?
  {
    match store.parseUri(uri)
    case None => Err(UriFormat)
    case Some(blob) =>
      match store.blobExists(blob)
      case Err(e) => Err(e)
      case Ok(found) => if found then store.downloadText(blob) else Ok("")
  }

  class LinuxContainerInitializationHostService {
    const settings: map<string, string>
    const isLinuxContainerEnvironment: bool
    const store: BlobStore
    const startup: Startup
    var cancellationToken: CancellationToken
    ghost var calls: seq<InitCall>

    constructor (settings: map<string, string>, isLinuxContainerEnvironment: bool, store: BlobStore, startup: Startup)
      ensures this.settings == settings && this.isLinuxContainerEnvironment == isLinuxContainerEnvironment
      ensures this.store == store && this.startup == startup
      ensures cancellationToken == NoCancellation && calls == []
    {
      this.settings := settings;
      this.isLinuxContainerEnvironment := isLinuxContainerEnvironment;
      this.store := store;
      this.startup := startup;
      cancellationToken := NoCancellation;
      calls := [];
    }

    function Reader(): string -> Result<string>
      reads this
    {
      uri => BlobRead(store, uri)
    }

    /** StartAsync(token): keep the token, then initialize only in a Linux container. */
    method StartAsync(token: CancellationToken) returns (r: Result<()>)
      modifies this
      ensures cancellationToken == token
      ensures !isLinuxContainerEnvironment ==> r.Ok? && calls == old(calls)
      ensures isLinuxContainerEnvironment ==>
                calls == old(calls) + InitializationCalls(settings, Reader(), startup, token)
                && (r.Ok? <==> AssignedContext(settings, Reader(), startup).Ok?)
    {
      cancellationToken := token;
      if isLinuxContainerEnvironment {
        r := InitializeAssignmentContext();
      } else {
        r := Ok(());
      }
    }

    method InitializeAssignmentContext() returns (r: Result<()>)
      modifies this`calls
      ensures calls == old(calls) + InitializationCalls(settings, Reader(), startup, cancellationToken)
      ensures r.Ok? <==> AssignedContext(settings, Reader(), startup).Ok?
    {
      var startContext := GetSetting(settings, ContainerStartContext);
      if IsNullOrEmpty(startContext) {
        var sasUri := GetSetting(settings, ContainerStartContextSasUri);
        if !IsNullOrEmpty(sasUri) {
          var text := GetAssignmentContextFromSasUri(sasUri.value);
          startContext := Some(text);
        }
      }
      assert startContext == EffectiveStartContext(settings, Reader());
      if !IsNullOrEmpty(startContext) {
        var request := startup.deserialize(startContext.value);
        if request.Err? {
          return Err(request.error);
        }
        var containerKey := GetSetting(settings, InstanceApi.ContainerEncryptionKey);
        var assignmentContext := startup.decrypt(request.value.encryptedContext, containerKey);
        if assignmentContext.Err? {
          return Err(assignmentContext.error);
        }
        calls := calls + [StartAssignment(assignmentContext.value)];
        var _ := startup.startAssignment(assignmentContext.value);
      }
      r := Ok(());
    }

    method GetAssignmentContextFromSasUri(sasUri: string) returns (text: string)
      modifies this`calls
      ensures text == ReadOrEmpty(BlobRead(store, sasUri))
      ensures calls == old(calls) + [ReadContext(sasUri, cancellationToken)]
    {
      calls := calls + [ReadContext(sasUri, cancellationToken)];
      var outcome := Read(sasUri);
      if outcome.Err? {
        return "";
      }
      text := outcome.value;
    }

    /** Read(uri) */
    method Read(uri: string) returns (r: Result<string>)
      ensures r == BlobRead(store, uri)
    {
      var blob := store.parseUri(uri);
      if blob.None? {
        return Err(UriFormat);
      }
      var found := store.blobExists(blob.value);
      if found.Err? {
        return Err(found.error);
      }
      if found.value {
        r := store.downloadText(blob.value);
      } else {
        r := Ok("");
      }
    }

    /** StopAsync(token): only logs. */
    method StopAsync(token: CancellationToken)
      ensures unchanged(this)
    {
    }
  }
}
