# QnA knowledge-base client: a Dafny model

This project models the private half of `QnAService`, a client for a hosted
question-answering knowledge-base service. It covers:

- the **operation monitor**, a bounded polling loop over a long-running
  remote operation;
- the **alteration submitter**, which builds an update request that leaves
  out null and empty lists, submits it and waits for it;
- the **existing-answer index**, which downloads the published or test
  version of a knowledge base and indexes its entries by answer text;
- the **session cache**: the knowledge-base id, the query key and the two
  lazily created clients, with the id setter forgetting the query key.

The remote service is not part of the model. `RemoteService.Remote` stands
in for it as an oracle. It holds fixed reply functions: status replies,
update replies, download snapshots and the primary key. It also holds
counters of the calls made to it (status polls, key requests, downloads,
submitted alterations). Client handles are value tokens: `ManagementClient`
carries the configured authoring key and resource name, and `RuntimeClient`
carries the query key and the configured application name. Ghost counters on the
session count how many times each one is created. Configuration is a
`map<string, string>`, and a missing key reads as null (`None`).

Modules:

- `Wrappers`: `Option` for a nullable reference and `Result` for
  return-or-throw.
- `QnATypes`: operations, entries, the request payload, client handles and
  errors.
- `RemoteService`: the oracle.
- `OperationMonitor`: the polling loop as a function, with lemmas.
- `Alteration`: the request builder and the reply shape.
- `AnswerIndex`: the answer-text index as a function, with lemmas.
- `QnAServiceModel`: the `QnAService` class and the client scenarios.

## Behaviour of the code worth noting

- Indexing uses `Dictionary.Add`, so a repeated answer text raises an
  exception; a later entry never replaces an earlier one.
- The monitor's exception names only the operation id; the service's
  error response is not part of it.
- Nothing checks for a missing knowledge-base id before an alteration or a
  download: a null id is passed to the service as it is.
- The monitor accepts any operation, including one that is already final,
  and then makes no poll.

## Model

| member | source | states |
|---|---|---|
| `OperationMonitor.PollCount` | QnA/QnAServicePriv.cs:113-115 | the polling loop never makes more polls than its attempt budget |
| `OperationMonitor.Polled` | QnA/QnAServicePriv.cs:113-120 | the successive values of `operation` in the loop: element 0 is the operation handed over, and `PolledNext` states that each later element is the reply to a poll about the id of the one before it |
| `OperationMonitor.Outcome` | QnA/QnAServicePriv.cs:122-126 | the monitor returns the operation exactly when its state is Succeeded; any other final state (Failed, or NotStarted/Running left after the budget) raises OperationFailed naming the operation id |
| `OperationMonitor.Final` | QnA/QnAServicePriv.cs:113-120 | the operation the loop ends with: if it is still NotStarted or Running, all 20 attempts were spent; an operation handed over already final is the one it ends with |
| `OperationMonitor.PolledNext` | QnA/QnAServicePriv.cs:119 | each element of the polled stream after the first is the service's reply to a poll about the id of the element before it |
| `OperationMonitor.PollStopsAtFirstFinal` | QnA/QnAServicePriv.cs:113-120 | every operation seen before the last poll was NotStarted or Running, and the loop stops before its budget only on a final state |
| `OperationMonitor.PollCountIsFirstFinal` | QnA/QnAServicePriv.cs:113-120 | the monitor makes exactly m polls (m at most 20) if and only if the first m elements of the polled stream are in progress and either m is 20 or element m is final; so the count is min(20, k) for the first final element k, and 0 when the operation handed over is already final |
| `OperationMonitor.NoPollWhenFinal` | QnA/QnAServicePriv.cs:113-126 | an operation that is already neither NotStarted nor Running gets no poll and is judged as it is |
| `OperationMonitor.SucceedsAfterThreePolls` | QnA/QnAServicePriv.cs:113-126 | statuses Running, Running, Succeeded: three polls, and the Succeeded operation is returned |
| `OperationMonitor.FailsAfterTwentyInProgress` | QnA/QnAServicePriv.cs:113-126 | twenty in-progress statuses: twenty polls, then OperationFailed naming the operation |
| `OperationMonitor.FailsAfterOneFailedPoll` | QnA/QnAServicePriv.cs:113-126 | a first status of Failed: one poll, then OperationFailed |
| `Alteration.BuildUpdate` | QnA/QnAServicePriv.cs:80-85 | each of Add, Update and Delete is absent exactly when its input list is null or has no elements, and otherwise carries that list unchanged |
| `Alteration.BuildUpdateKeepsElements` | QnA/QnAServicePriv.cs:82-84 | reading each part of the request back gives the caller's elements (null reads as none), and no part is an empty list |
| `Alteration.AlterReply` | QnA/QnAServicePriv.cs:87-88 | the reply is a value exactly when the final operation Succeeded; its state is then Succeeded and its error text is null exactly when the operation has no error response; otherwise the monitor's OperationFailed propagates |
| `AnswerIndex.Fill` | QnA/QnAServicePriv.cs:98-102 | the `Dictionary.Add` loop from a given dictionary: a success keeps every earlier key and value and maps each new key to an entry with that answer text, a failure is DuplicateKey; `FillSucceedsIff`, `FillContents` and `FillNamesFirstRepeat` state exactly when it succeeds, what it holds and which text it names |
| `AnswerIndex.Index` | QnA/QnAServicePriv.cs:97-103 | the loop from an empty dictionary: every key of a successful index maps to an entry with that answer text, a failure is DuplicateKey; `IndexDistinct` and `IndexDuplicate` state exactly when it succeeds and what it holds |
| `AnswerIndex.FillSucceedsIff` | QnA/QnAServicePriv.cs:98-102 | adding the entries one by one succeeds exactly when their answer texts are distinct and none is already a key |
| `AnswerIndex.FillContents` | QnA/QnAServicePriv.cs:98-102 | a successful fill has exactly the old keys plus the answer texts, keeps the old values, and maps each answer text to its entry |
| `AnswerIndex.FillNamesFirstRepeat` | QnA/QnAServicePriv.cs:99-101 | a failed fill names the answer text of the first entry whose text was seen before |
| `AnswerIndex.IndexDistinct` | QnA/QnAServicePriv.cs:97-103 | indexing a download succeeds exactly when its answer texts are distinct, and then its keys are exactly those texts, each mapped to its entry |
| `AnswerIndex.IndexDuplicate` | QnA/QnAServicePriv.cs:99-101 | when indexing fails, two entries share an answer text, and the error names the first text that repeats an earlier one |
| `QnAServiceModel.ConfigValue` | QnA/QnAServicePriv.cs:31-36 | a setting reads as its configured value when present and as null when missing |
| `QnAServiceModel.NullIfEmpty` | QnA/QnAServicePriv.cs:32-40 | a null or empty setting becomes null; a non-empty one is kept as it is |
| `QnAServiceModel.EnvironmentOf` | QnA/QnAServicePriv.cs:97 | the published flag selects the production version, otherwise the test version |
| `QnAServiceModel.ConfiguredManagementClient` | QnA/QnAServicePriv.cs:140-142 | the management client carries the AuthoringKey and ResourceName settings, each null exactly when the setting is missing |
| `QnAServiceModel.QnAService.constructor` | QnA/QnAServicePriv.cs:28-41 | the query key and knowledge-base id are the configured values with empty ones normalised to null; no client exists yet |
| `QnAServiceModel.QnAService.KnowledgeBaseID` | QnA/QnAServicePriv.cs:50-53 | the getter returns the stored knowledge-base id field |
| `QnAServiceModel.QnAService.SetKnowledgeBaseID` | QnA/QnAServicePriv.cs:54-58 | stores the new id and clears the cached query key; the management and runtime clients are left as they were |
| `QnAServiceModel.QnAService.AzureEndpoint` | QnA/QnAServicePriv.cs:67-70 | returns the cached management client if there is one; otherwise creates the configured one; either way it is cached afterwards, and a creation happens only when none was cached |
| `QnAServiceModel.QnAService.CreateConfiguredAzureEndpoint` | QnA/QnAServicePriv.cs:138-144 | builds the client from the authoring key and resource name settings, caches it and counts one creation |
| `QnAServiceModel.QnAService.QueryKey` | QnA/QnAServicePriv.cs:153-156 | a cached key is returned with no retrieval and no other change; otherwise exactly one retrieval is made and its result is cached and returned |
| `QnAServiceModel.QnAService.RetrieveEndpointKey` | QnA/QnAServicePriv.cs:157-162 | asks the service once, through the management client, for the primary key and caches whatever it returns, null included |
| `QnAServiceModel.QnAService.QnAEndpoint` | QnA/QnAServicePriv.cs:132-135 | returns the cached runtime client with nothing else changed; otherwise creates one from the query key (retrieving the key only if none is cached) and the application name |
| `QnAServiceModel.QnAService.CreateQnAEndpoint` | QnA/QnAServicePriv.cs:145-152 | resolves the query key, builds the runtime client from it and the application name, caches it and counts one creation |
| `QnAServiceModel.QnAService.PollWhileInProgress` | QnA/QnAServicePriv.cs:113-120 | the loop, for any attempt budget, makes exactly `PollCount` polls, each through the management client about the id of the operation known before it, and ends with the element of the polled stream at that count; the management client is resolved only if a poll is made |
| `QnAServiceModel.QnAService.MonitorOperation` | QnA/QnAServicePriv.cs:110-127 | with the budget of 20 attempts, the monitor makes `PollCount` polls and returns `Outcome` of the operation it ends with: that operation when it Succeeded, OperationFailed naming its id otherwise |
| `QnAServiceModel.QnAService.AlterKb` | QnA/QnAServicePriv.cs:78-89 | submits `BuildUpdate` of the three lists for the current id once, monitors the returned operation, and returns `AlterReply` of the final one, so a returned state is always Succeeded |
| `QnAServiceModel.QnAService.GetExistingAnswers` | QnA/QnAServicePriv.cs:95-104 | downloads the selected version once and returns `Index` of its entries: the answer-text map when the texts are distinct, DuplicateKey otherwise |
| `QnAServiceModel.QueryKeyTwice` | QnA/QnAServicePriv.cs:153-162 | a second key request right after a first that produced a key returns the same key without a retrieval; a null key from the service is asked for again |
| `QnAServiceModel.QueryKeyAfterSwitch` | QnA/QnAServicePriv.cs:54-58 | after setting the id, the next key request makes exactly one retrieval, and the runtime client is not invalidated |
| `QnAServiceModel.ClientsTwice` | QnA/QnAServicePriv.cs:67-152 | calling each client accessor twice yields the same client both times, creates each client once at most, and retrieves the key once at most |
| `RemoteService.Remote.GetDetails` | QnA/QnAServicePriv.cs:119 | a status poll answers the reply for that id and poll number, and counts one poll |
| `RemoteService.Remote.Update` | QnA/QnAServicePriv.cs:86 | a submission records the id and payload and answers the operation for them |
| `RemoteService.Remote.Download` | QnA/QnAServicePriv.cs:97 | a download answers the snapshot of that id and version, and counts one download |
| `RemoteService.Remote.GetKeys` | QnA/QnAServicePriv.cs:159 | a key request answers the primary key, and counts one request |

## Left out

- `AddToQnA`, `UpdateQnA`, creation, publication, queries and training: these sit in the public half of the partial class `QnAService`, which is not part of this model. The add-versus-update comparison and the merging of question lists are therefore not modelled.
- The remote SDK: `QnAMakerClient`, `QnAMakerRuntimeClient`, the credential classes and their calls. They are replaced by the `Remote` oracle. Exceptions the SDK may raise (transport errors, authorisation, a missing knowledge base) are not modelled.
- Configuration loading from appsettings.json: the configuration is given as a map fixed for the whole session. The source builds it with `reloadOnChange: true` and reads AuthoringKey, ResourceName and ApplicationName only when a client is created, so a reload between creations is not modelled; the `Valid` clause that the cached management client is the configured one relies on the configuration not changing. Setting names are matched exactly, although the configuration's keys are case-insensitive.
- `Console.WriteLine` and the 5-second `Task.Delay` in the polling loop: only the poll count is modelled.
- Endpoint URL formatting for the management and runtime clients: the handles carry the configured resource and application names instead.
- async/await: every call is sequential.
- `ErrorResponse.ToString()`: the error response is modelled as text already rendered.
- Entry fields other than id, answer and questions (metadata, source, context), and a null answer text (which `Dictionary.Add` would reject with a different exception).
- `RemoteService.Remote`: a status reply depends only on the operation id and on how many polls came before. A reply that depends on time is not modelled.
- `QnAServiceModel.ClientsTwice`: states an upper bound of one key retrieval rather than the exact count, which depends on whether a key was cached.
- `QnAServiceModel.QnAService.CreateConfiguredAzureEndpoint` and `QnAServiceModel.QnAService.CreateQnAEndpoint` require their field to be null: their only caller in the class calls them only then, and this keeps "created at most once" an invariant.
