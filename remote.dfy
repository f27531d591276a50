/**
 * The hosted service behind the SDK clients, as an oracle. Its answers are
 * fixed functions of the request (and, for status polls, of how many polls
 * came before); counters record how often each remote call was made.
 */
module RemoteService {
  import opened Wrappers
  import opened QnATypes

  class Remote {
    /** Reply to the n-th status request (counted over the oracle's lifetime) about an operation id. */
    const statusReplies: (string, nat) -> Operation
    /** Operation returned when an alteration is submitted for a knowledge-base id. */
    const updateReplies: (Option<string>, UpdateKbOperation) -> Operation
    /** Entries returned when a knowledge base is downloaded from an environment. */
    const snapshots: (Option<string>, Environment) -> seq<QnAEntry>
    /** The primary endpoint key the service hands out (it may be null). */
    const primaryKey: Option<string>

    var polls: nat
    var keyRequests: nat
    var downloads: nat
    var submitted: seq<(Option<string>, UpdateKbOperation)>

    constructor (statusReplies: (string, nat) -> Operation,
                 updateReplies: (Option<string>, UpdateKbOperation) -> Operation,
                 snapshots: (Option<string>, Environment) -> seq<QnAEntry>,
                 primaryKey: Option<string>)
      ensures this.statusReplies == statusReplies && this.updateReplies == updateReplies
      ensures this.snapshots == snapshots && this.primaryKey == primaryKey
      ensures polls == 0 && keyRequests == 0 && downloads == 0 && submitted == []
    {
      this.statusReplies := statusReplies;
      this.updateReplies := updateReplies;
      this.snapshots := snapshots;
      this.primaryKey := primaryKey;
      polls, keyRequests, downloads, submitted := 0, 0, 0, [];
    }

    /** Operations.GetDetailsAsync: the current state of operation `id`. */
    method GetDetails(client: ManagementClient, id: string) returns (op: Operation)
      modifies this`polls
      ensures op == statusReplies(id, old(polls))
      ensures polls == old(polls) + 1
    {
      op := statusReplies(id, polls);
      polls := polls + 1;
    }

    /** Knowledgebase.UpdateAsync: submits an alteration and returns the operation performing it. */
    method Update(client: ManagementClient, kbId: Option<string>, payload: UpdateKbOperation) returns (op: Operation)
      modifies this`submitted
      ensures op == updateReplies(kbId, payload)
      ensures submitted == old(submitted) + [(kbId, payload)]
    {
      op := updateReplies(kbId, payload);
      submitted := submitted + [(kbId, payload)];
    }

    /** Knowledgebase.DownloadAsync: the entries of a knowledge base in one environment. */
    method Download(client: ManagementClient, kbId: Option<string>, env: Environment) returns (entries: seq<QnAEntry>)
      modifies this`downloads
      ensures entries == snapshots(kbId, env)
      ensures downloads == old(downloads) + 1
    {
      entries := snapshots(kbId, env);
      downloads := downloads + 1;
    }

    /** EndpointKeys.GetKeysAsync, reduced to the primary endpoint key it carries. */
    method GetKeys(client: ManagementClient) returns (key: Option<string>)
      modifies this`keyRequests
      ensures key == primaryKey
      ensures keyRequests == old(keyRequests) + 1
    {
      key := primaryKey;
      keyRequests := keyRequests + 1;
    }
  }
}
