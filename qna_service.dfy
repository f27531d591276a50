/**
 * The client session: the configured knowledge-base id and query key, the
 * lazily created management and runtime clients, and the operations that
 * go through them (alteration, download, monitoring).
 */
module QnAServiceModel {
  import opened Wrappers
  import opened QnATypes
  import opened RemoteService
  import opened OperationMonitor
  import opened Alteration
  import opened AnswerIndex

  // Names of the configuration settings the session reads.
  const QueryEndpointKeySetting := "QueryEndpointKey"
  const KnowledgeBaseIdSetting := "KnowledgeBaseID"
  const AuthoringKeySetting := "AuthoringKey"
  const ResourceNameSetting := "ResourceName"
  const ApplicationNameSetting := "ApplicationName"

  /** A configuration lookup: null when the setting is missing. */
  function ConfigValue(config: map<string, string>, key: string): (r: Option<string>)
    ensures r.Some? <==> key in config
    ensures r.Some? ==> r.value == config[key]
  {
    if key in config then Some(config[key]) else None
  }

  /** The constructor's normalisation: an empty setting is treated as missing. */
  function NullIfEmpty(value: Option<string>): (r: Option<string>)
    ensures r.None? <==> value.None? || |value.value| == 0
    ensures r.Some? ==> r == value
  {
    if value.Some? && |value.value| == 0 then None else value
  }

  /** The management client the configuration describes. */
  function ConfiguredManagementClient(config: map<string, string>): (client: ManagementClient)
    ensures client.authoringKey.Some? <==> AuthoringKeySetting in config
    ensures client.resourceName.Some? <==> ResourceNameSetting in config
    ensures client.authoringKey.Some? ==> client.authoringKey.value == config[AuthoringKeySetting]
    ensures client.resourceName.Some? ==> client.resourceName.value == config[ResourceNameSetting]
  {
    ManagementClient(ConfigValue(config, AuthoringKeySetting), ConfigValue(config, ResourceNameSetting))
  }

  /** The environment a download reads: the published one or the test one. */
  function EnvironmentOf(published: bool): (env: Environment)
    ensures env == Prod <==> published
  {
    if published then Prod else Test
  }

  class QnAService {
    const config: map<string, string>
    const remote: Remote

    var azureEndpoint: Option<ManagementClient>
    var qnaEndpoint: Option<RuntimeClient>
    var knowledgeBaseID: Option<string>
    var queryEndpointKey: Option<string>

    // How many times each client has been created.
    ghost var managementCreations: nat
    ghost var runtimeCreations: nat

    /**
     * Each client is created only while its field is null and is never
     * dropped, so it is created at most once; the management client is the
     * one the configuration describes.
     */
    ghost predicate Valid()
      reads this
    {
      managementCreations == (if azureEndpoint.Some? then 1 else 0) &&
      runtimeCreations == (if qnaEndpoint.Some? then 1 else 0) &&
      (azureEndpoint.Some? ==> azureEndpoint.value == ConfiguredManagementClient(config)) &&
      (qnaEndpoint.Some? ==> qnaEndpoint.value.applicationName == ConfigValue(config, ApplicationNameSetting))
    }

    /** After a call that goes through AzureEndpoint: the configured client is cached, created now if it was not before. */
    twostate predicate ManagementClientResolved()
      reads this
    {
      azureEndpoint == Some(ConfiguredManagementClient(config)) &&
      managementCreations == old(managementCreations) + (if old(azureEndpoint).None? then 1 else 0)
    }

    /** Reads the query key and the knowledge-base id from the configuration; both clients start out absent. */
    constructor (config: map<string, string>, remote: Remote)
      ensures Valid()
      ensures this.config == config && this.remote == remote
      ensures queryEndpointKey == NullIfEmpty(ConfigValue(config, QueryEndpointKeySetting))
      ensures knowledgeBaseID == NullIfEmpty(ConfigValue(config, KnowledgeBaseIdSetting))
      ensures azureEndpoint == None && qnaEndpoint == None
    {
      this.config := config;
      this.remote := remote;
      azureEndpoint, qnaEndpoint := None, None;
      managementCreations, runtimeCreations := 0, 0;
      queryEndpointKey := ConfigValue(config, QueryEndpointKeySetting);
      knowledgeBaseID := ConfigValue(config, KnowledgeBaseIdSetting);
      new;
      if queryEndpointKey.Some? && |queryEndpointKey.value| == 0 {
        queryEndpointKey := None;
      }
      if knowledgeBaseID.Some? && |knowledgeBaseID.value| == 0 {
        knowledgeBaseID := None;
      }
    }

    /** The KnowledgeBaseID getter. */
    function KnowledgeBaseID(): (id: Option<string>)
      reads this
      ensures id == knowledgeBaseID
    {
      knowledgeBaseID
    }

    /** The KnowledgeBaseID setter: stores the id and forgets the query key, and nothing else. */
    method SetKnowledgeBaseID(value: Option<string>)
      requires Valid()
      modifies this`knowledgeBaseID, this`queryEndpointKey
      ensures Valid()
      ensures knowledgeBaseID == value && queryEndpointKey == None
      ensures azureEndpoint == old(azureEndpoint) && qnaEndpoint == old(qnaEndpoint)
    {
      knowledgeBaseID := value;
      queryEndpointKey := None;
    }

    /** The management client: the cached one, or a new one built from the configuration. */
    method AzureEndpoint() returns (client: ManagementClient)
      requires Valid()
      modifies this`azureEndpoint, this`managementCreations
      ensures Valid()
      ensures ManagementClientResolved()
      ensures client == ConfiguredManagementClient(config)
      ensures old(azureEndpoint).Some? ==> client == old(azureEndpoint).value
    {
      if azureEndpoint.Some? {
        client := azureEndpoint.value;
      } else {
        client := CreateConfiguredAzureEndpoint();
      }
    }

    /** Builds the management client from the authoring key and resource name and caches it. */
    method CreateConfiguredAzureEndpoint() returns (client: ManagementClient)
      requires Valid() && azureEndpoint.None?
      modifies this`azureEndpoint, this`managementCreations
      ensures Valid()
      ensures client == ConfiguredManagementClient(config)
      ensures azureEndpoint == Some(client) && managementCreations == old(managementCreations) + 1
    {
      client := ManagementClient(ConfigValue(config, AuthoringKeySetting), ConfigValue(config, ResourceNameSetting));
      azureEndpoint := Some(client);
      managementCreations := managementCreations + 1;
    }

    /** The query key: the cached one, or the one retrieved from the service. */
    method QueryKey() returns (key: Option<string>)
      requires Valid()
      modifies this`queryEndpointKey, this`azureEndpoint, this`managementCreations, remote`keyRequests
      ensures Valid()
      ensures queryEndpointKey == key
      ensures old(queryEndpointKey).Some? ==>
        key == old(queryEndpointKey) && remote.keyRequests == old(remote.keyRequests) &&
        azureEndpoint == old(azureEndpoint) && managementCreations == old(managementCreations)
      ensures old(queryEndpointKey).None? ==>
        key == remote.primaryKey && remote.keyRequests == old(remote.keyRequests) + 1 &&
        ManagementClientResolved()
    {
      if queryEndpointKey.Some? {
        key := queryEndpointKey;
      } else {
        key := RetrieveEndpointKey();
      }
    }

    /** Asks the service, through the management client, for the primary endpoint key and caches it. */
    method RetrieveEndpointKey() returns (key: Option<string>)
      requires Valid()
      modifies this`queryEndpointKey, this`azureEndpoint, this`managementCreations, remote`keyRequests
      ensures Valid()
      ensures key == remote.primaryKey && queryEndpointKey == key
      ensures remote.keyRequests == old(remote.keyRequests) + 1
      ensures ManagementClientResolved()
    {
      var client := AzureEndpoint();
      key := remote.GetKeys(client);
      queryEndpointKey := key;
    }

    /** The runtime client: the cached one, or a new one built from the query key. */
    method QnAEndpoint() returns (client: RuntimeClient)
      requires Valid()
      modifies this`qnaEndpoint, this`runtimeCreations, this`queryEndpointKey,
               this`azureEndpoint, this`managementCreations, remote`keyRequests
      ensures Valid()
      ensures qnaEndpoint == Some(client)
      ensures old(qnaEndpoint).Some? ==>
        client == old(qnaEndpoint).value && runtimeCreations == old(runtimeCreations) &&
        queryEndpointKey == old(queryEndpointKey) && remote.keyRequests == old(remote.keyRequests) &&
        azureEndpoint == old(azureEndpoint) && managementCreations == old(managementCreations)
      ensures old(qnaEndpoint).None? ==>
        runtimeCreations == old(runtimeCreations) + 1 &&
        client == RuntimeClient(queryEndpointKey, ConfigValue(config, ApplicationNameSetting)) &&
        (old(queryEndpointKey).Some? ==>
          queryEndpointKey == old(queryEndpointKey) && remote.keyRequests == old(remote.keyRequests) &&
          azureEndpoint == old(azureEndpoint) && managementCreations == old(managementCreations)) &&
        (old(queryEndpointKey).None? ==>
          queryEndpointKey == remote.primaryKey && remote.keyRequests == old(remote.keyRequests) + 1 &&
          ManagementClientResolved())
    {
      if qnaEndpoint.Some? {
        client := qnaEndpoint.value;
      } else {
        client := CreateQnAEndpoint();
      }
    }

    /** Builds the runtime client from the query key and the application name and caches it. */
    method CreateQnAEndpoint() returns (client: RuntimeClient)
      requires Valid() && qnaEndpoint.None?
      modifies this`qnaEndpoint, this`runtimeCreations, this`queryEndpointKey,
               this`azureEndpoint, this`managementCreations, remote`keyRequests
      ensures Valid()
      ensures qnaEndpoint == Some(client) && runtimeCreations == old(runtimeCreations) + 1
      ensures client == RuntimeClient(queryEndpointKey, ConfigValue(config, ApplicationNameSetting))
      ensures old(queryEndpointKey).Some? ==>
        queryEndpointKey == old(queryEndpointKey) && remote.keyRequests == old(remote.keyRequests) &&
        azureEndpoint == old(azureEndpoint) && managementCreations == old(managementCreations)
      ensures old(queryEndpointKey).None? ==>
        queryEndpointKey == remote.primaryKey && remote.keyRequests == old(remote.keyRequests) + 1 &&
        ManagementClientResolved()
    {
      var endpointKey := QueryKey();
      client := RuntimeClient(endpointKey, ConfigValue(config, ApplicationNameSetting));
      qnaEndpoint := Some(client);
      runtimeCreations := runtimeCreations + 1;
    }

    /**
     * The monitor's loop, for any attempt budget: while the operation is in
     * progress and attempts are left, re-fetches it by id through the
     * management client.
     */
    method PollWhileInProgress(operation: Operation, budget: nat) returns (op: Operation)
      requires Valid()
      modifies this`azureEndpoint, this`managementCreations, remote`polls
      ensures Valid()
      ensures remote.polls == old(remote.polls) + PollCount(operation, remote.statusReplies, old(remote.polls), budget)
      ensures op == Polled(operation, remote.statusReplies, old(remote.polls), PollCount(operation, remote.statusReplies, old(remote.polls), budget))
      ensures remote.polls == old(remote.polls) ==>
        azureEndpoint == old(azureEndpoint) && managementCreations == old(managementCreations)
      ensures remote.polls != old(remote.polls) ==> ManagementClientResolved()
    {
      ghost var start := remote.polls;
      ghost var replies := remote.statusReplies;
      ghost var total := PollCount(operation, replies, start, budget);
      op := operation;
      var i := 0;
      while i < budget && InProgress(op.state)
        invariant 0 <= i <= budget
        invariant Valid()
        invariant remote.polls == start + i
        invariant op == Polled(operation, replies, start, i)
        invariant total == i + PollCount(op, replies, start + i, budget - i)
        invariant i == 0 ==> azureEndpoint == old(azureEndpoint) && managementCreations == old(managementCreations)
        invariant i > 0 ==> ManagementClientResolved()
        decreases budget - i
      {
        PolledNext(operation, replies, start, i);
        var client := AzureEndpoint();
        op := remote.GetDetails(client, op.id);
        i := i + 1;
      }
    }

    /**
     * Polls the operation while it is in progress, at most MaxAttempts
     * times, and fails unless it ends Succeeded.
     */
    method MonitorOperation(operation: Operation) returns (r: Result<Operation, Error>)
      requires Valid()
      modifies this`azureEndpoint, this`managementCreations, remote`polls
      ensures Valid()
      ensures remote.polls == old(remote.polls) + PollCount(operation, remote.statusReplies, old(remote.polls), MaxAttempts)
      ensures r == Outcome(Final(operation, remote.statusReplies, old(remote.polls)))
      ensures remote.polls == old(remote.polls) ==>
        azureEndpoint == old(azureEndpoint) && managementCreations == old(managementCreations)
      ensures remote.polls != old(remote.polls) ==> ManagementClientResolved()
    {
      var op := PollWhileInProgress(operation, MaxAttempts);
      r := if op.state != Succeeded then Err(OperationFailed(op.id)) else Ok(op);
    }

    /**
     * Submits the alteration built from the three lists for the current
     * knowledge base, waits for it, and returns the final state and error text.
     */
    method AlterKb(additions: Option<seq<QnAEntry>>, updates: Option<seq<UpdateEntry>>,
                   deletes: Option<seq<Option<Int32>>>)
      returns (r: Result<(OperationState, Option<string>), Error>)
      requires Valid()
      modifies this`azureEndpoint, this`managementCreations, remote`polls, remote`submitted
      ensures Valid()
      ensures ManagementClientResolved()
      ensures remote.submitted == old(remote.submitted) + [(knowledgeBaseID, BuildUpdate(additions, updates, deletes))]
      ensures var submittedOp := remote.updateReplies(knowledgeBaseID, BuildUpdate(additions, updates, deletes));
        remote.polls == old(remote.polls) + PollCount(submittedOp, remote.statusReplies, old(remote.polls), MaxAttempts) &&
        r == AlterReply(Final(submittedOp, remote.statusReplies, old(remote.polls)))
      ensures r.Ok? ==> r.value.0 == Succeeded
    {
      var update := BuildUpdate(additions, updates, deletes);
      var client := AzureEndpoint();
      var op := remote.Update(client, knowledgeBaseID, update);
      var monitored := MonitorOperation(op);
      match monitored
      case Ok(fin) =>
        r := Ok((fin.state, fin.errorResponse));
      case Err(e) =>
        r := Err(e);
    }

    /**
     * Downloads the published or test version of the current knowledge base
     * and indexes its entries by answer text.
     */
    method GetExistingAnswers(published: bool) returns (r: Result<map<string, QnAEntry>, Error>)
      requires Valid()
      modifies this`azureEndpoint, this`managementCreations, remote`downloads
      ensures Valid()
      ensures ManagementClientResolved()
      ensures remote.downloads == old(remote.downloads) + 1
      ensures r == Index(remote.snapshots(knowledgeBaseID, EnvironmentOf(published)))
    {
      var client := AzureEndpoint();
      var kb := remote.Download(client, knowledgeBaseID, EnvironmentOf(published));
      var existing: map<string, QnAEntry> := map[];
      for i := 0 to |kb|
        invariant Fill(existing, kb[i..]) == Index(kb)
      {
        var entry := kb[i];
        if entry.answer in existing {
          return Err(DuplicateKey(entry.answer));
        }
        existing := existing[entry.answer := entry];
      }
      return Ok(existing);
    }
  }

  /**
   * The query key asked for twice in a row: once a key is known the second
   * call repeats it without a retrieval; a null key from the service is
   * not cached, so it is asked for again.
   */
  method QueryKeyTwice(s: QnAService) returns (first: Option<string>, second: Option<string>)
    requires s.Valid()
    modifies s`queryEndpointKey, s`azureEndpoint, s`managementCreations, s.remote`keyRequests
    ensures s.Valid()
    ensures first.Some? ==> second == first
    ensures s.remote.keyRequests == old(s.remote.keyRequests) +
      (if old(s.queryEndpointKey).Some? then 0 else if s.remote.primaryKey.Some? then 1 else 2)
  {
    first := s.QueryKey();
    second := s.QueryKey();
  }

  /**
   * Switching to another knowledge base and asking for the query key:
   * exactly one retrieval, whatever was cached before, and the runtime
   * client is kept as it was.
   */
  method QueryKeyAfterSwitch(s: QnAService, id: Option<string>) returns (key: Option<string>)
    requires s.Valid()
    modifies s`knowledgeBaseID, s`queryEndpointKey, s`azureEndpoint, s`managementCreations, s.remote`keyRequests
    ensures s.Valid()
    ensures s.knowledgeBaseID == id && key == s.remote.primaryKey && s.queryEndpointKey == key
    ensures s.remote.keyRequests == old(s.remote.keyRequests) + 1
    ensures s.qnaEndpoint == old(s.qnaEndpoint)
    ensures old(s.azureEndpoint).Some? ==> s.managementCreations == old(s.managementCreations)
  {
    s.SetKnowledgeBaseID(id);
    key := s.QueryKey();
  }

  /**
   * Each client accessor called twice: the same client both times, each
   * created at most once, and the key retrieved at most once.
   */
  method ClientsTwice(s: QnAService) returns (m1: ManagementClient, m2: ManagementClient, q1: RuntimeClient, q2: RuntimeClient)
    requires s.Valid()
    modifies s`qnaEndpoint, s`runtimeCreations, s`queryEndpointKey, s`azureEndpoint, s`managementCreations, s.remote`keyRequests
    ensures s.Valid()
    ensures m1 == m2 && q1 == q2
    ensures s.managementCreations == 1 && s.runtimeCreations == 1
    ensures s.remote.keyRequests <= old(s.remote.keyRequests) + 1
  {
    m1 := s.AzureEndpoint();
    m2 := s.AzureEndpoint();
    q1 := s.QnAEndpoint();
    q2 := s.QnAEndpoint();
  }
}
