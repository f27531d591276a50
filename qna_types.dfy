/**
 * The values the question-and-answer client exchanges with the hosted
 * knowledge-base service: operations and their states, knowledge-base
 * entries, the alteration payload, and the opaque client handles.
 */
module QnATypes {
  import opened Wrappers

  /** A C# `int` (the element type of the list of ids to delete). */
  newtype Int32 = x: int | -0x8000_0000 <= x < 0x8000_0000

  /** The states a long-running remote operation reports. */
  datatype OperationState = NotStarted | Running | Succeeded | Failed

  /**
   * A long-running remote operation. `errorResponse` is the error the
   * service attached to it, already rendered as text (None when absent).
   */
  datatype Operation = Operation(id: string, state: OperationState, errorResponse: Option<string>)

  /** One question/answer entry of a knowledge base, as downloaded or added. */
  datatype QnAEntry = QnAEntry(id: Option<Int32>, answer: string, questions: seq<string>)

  /** One update of an existing entry: its id, its answer and the question phrasings to add and to remove. */
  datatype UpdateEntry = UpdateEntry(id: Int32, answer: string, questionsToAdd: seq<string>, questionsToDelete: seq<string>)

  /** The two versions of a knowledge base: `Prod` is the published one, `Test` the one edits land in. */
  datatype Environment = Prod | Test

  /** The alteration request: each of the three parts is absent (None) or a list. */
  datatype UpdateKbOperation = UpdateKbOperation(
    add: Option<seq<QnAEntry>>,
    update: Option<seq<UpdateEntry>>,
    delete: Option<seq<Option<Int32>>>)

  /** Handle of the management (authoring) client: built from the configured authoring key and resource name. */
  datatype ManagementClient = ManagementClient(authoringKey: Option<string>, resourceName: Option<string>)

  /** Handle of the runtime (query) client: built from the query key and the configured application name. */
  datatype RuntimeClient = RuntimeClient(endpointKey: Option<string>, applicationName: Option<string>)

  /** The exceptions the core raises. */
  datatype Error =
    | OperationFailed(operationId: string)  // the monitored operation did not end in Succeeded
    | DuplicateKey(key: string)             // Dictionary.Add met an answer text already present
}
