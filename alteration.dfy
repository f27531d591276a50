/**
 * Building and judging an alteration of a knowledge base: the request
 * leaves out every list that is null or empty, and the caller receives the
 * final operation's state and error text once the monitor accepts it.
 */
module Alteration {
  import opened Wrappers
  import opened QnATypes
  import opened OperationMonitor

  /** One part of the request: the list itself when it has elements, otherwise absent. */
  function Requested<T>(list: Option<seq<T>>): (part: Option<seq<T>>) {
    if list.Some? && |list.value| > 0 then list else None
  }

  /** The alteration request built from the three (possibly null) lists. */
  function BuildUpdate(additions: Option<seq<QnAEntry>>, updates: Option<seq<UpdateEntry>>,
                       deletes: Option<seq<Option<Int32>>>): (r: UpdateKbOperation)
    ensures r.add.None? <==> additions.None? || |additions.value| == 0
    ensures r.update.None? <==> updates.None? || |updates.value| == 0
    ensures r.delete.None? <==> deletes.None? || |deletes.value| == 0
    ensures r.add.Some? ==> r.add == additions
    ensures r.update.Some? ==> r.update == updates
    ensures r.delete.Some? ==> r.delete == deletes
  {
    UpdateKbOperation(Requested(additions), Requested(updates), Requested(deletes))
  }

  /** The elements a part stands for: a null list and an absent part stand for none. */
  function Items<T>(list: Option<seq<T>>): (elements: seq<T>) {
    if list.Some? then list.value else []
  }

  /**
   * The request loses no element of any list and never carries an empty
   * list: reading each part back gives the caller's elements.
   */
  lemma BuildUpdateKeepsElements(additions: Option<seq<QnAEntry>>, updates: Option<seq<UpdateEntry>>,
                                 deletes: Option<seq<Option<Int32>>>)
    ensures var r := BuildUpdate(additions, updates, deletes);
      Items(r.add) == Items(additions) && Items(r.update) == Items(updates) && Items(r.delete) == Items(deletes)
    ensures var r := BuildUpdate(additions, updates, deletes);
      r.add != Some([]) && r.update != Some([]) && r.delete != Some([])
  {
  }

  /**
   * The value AlterKb returns once the monitor ends with `fin`: the monitor's
   * exception, or the pair (state, error text) of the accepted operation.
   */
  function AlterReply(fin: Operation): (r: Result<(OperationState, Option<string>), Error>)
    ensures r.Ok? <==> fin.state == Succeeded
    ensures r.Ok? ==> r.value.0 == Succeeded
    ensures r.Ok? ==> r.value.1 == fin.errorResponse
    ensures r.Err? ==> r.error == OperationFailed(fin.id)
  {
    match Outcome(fin)
    case Ok(op) => Ok((op.state, op.errorResponse))
    case Err(e) => Err(e)
  }
}
