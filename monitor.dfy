/**
 * The operation monitor: re-fetches a long-running operation while it is
 * NotStarted or Running, at most MaxAttempts times, and fails unless the
 * operation it ends with has Succeeded.
 *
 * `replies(id, n)` is what the service answers to the n-th status request
 * (counted over the service's lifetime) about operation `id`; `from` is the
 * number of status requests made before the monitor starts.
 */
module OperationMonitor {
  import opened Wrappers
  import opened QnATypes

  /** The attempt budget of the polling loop. */
  const MaxAttempts: nat := 20

  /** The loop's continuation test: the operation has not reached a final state. */
  predicate InProgress(s: OperationState) {
    s == NotStarted || s == Running
  }

  /**
   * The k-th element of the polled stream: the operation known after k
   * polls, each poll asking about the id of the operation known before it.
   * Element 0 is the operation handed to the monitor.
   */
  function Polled(op: Operation, replies: (string, nat) -> Operation, from: nat, k: nat): (r: Operation)
    decreases k
  {
    if k == 0 then op else Polled(replies(op.id, from), replies, from + 1, k - 1)
  }

  /**
   * The number of polls the loop makes, starting from `op`, with `budget`
   * attempts left: none once the budget is spent or the operation is final,
   * otherwise one more than for the reply.
   */
  function PollCount(op: Operation, replies: (string, nat) -> Operation, from: nat, budget: nat): (n: nat)
    ensures n <= budget
    decreases budget
  {
    if budget == 0 || !InProgress(op.state) then 0
    else 1 + PollCount(replies(op.id, from), replies, from + 1, budget - 1)
  }

  /** The operation the monitor ends with: the element of the polled stream at its poll count. */
  function Final(op: Operation, replies: (string, nat) -> Operation, from: nat): (fin: Operation)
    ensures InProgress(fin.state) ==> PollCount(op, replies, from, MaxAttempts) == MaxAttempts
    ensures !InProgress(op.state) ==> fin == op
  {
    PollStopsAtFirstFinal(op, replies, from, MaxAttempts);
    Polled(op, replies, from, PollCount(op, replies, from, MaxAttempts))
  }

  /** What the monitor returns for the operation it ends with: that operation, or the exception naming its id. */
  function Outcome(fin: Operation): (r: Result<Operation, Error>)
    ensures r.Ok? <==> fin.state == Succeeded
    ensures r.Ok? ==> r.value == fin
    ensures r.Err? ==> r.error == OperationFailed(fin.id)
  {
    if fin.state != Succeeded then Err(OperationFailed(fin.id)) else Ok(fin)
  }

  /** Each element of the polled stream after the first is the reply to a poll about the id of the element before it. */
  lemma {:induction false} PolledNext(op: Operation, replies: (string, nat) -> Operation, from: nat, k: nat)
    ensures Polled(op, replies, from, k + 1) == replies(Polled(op, replies, from, k).id, from + k)
    decreases k
  {
    if k > 0 {
      PolledNext(replies(op.id, from), replies, from + 1, k - 1);
    }
  }

  /**
   * With any budget, the loop stops after n polls where every operation seen
   * before the n-th poll was still in progress, and stopping early (n below
   * the budget) happens only on a final state.
   */
  lemma {:induction false} PollStopsAtFirstFinal(op: Operation, replies: (string, nat) -> Operation, from: nat, budget: nat)
    ensures var n := PollCount(op, replies, from, budget);
      (forall j | 0 <= j < n :: InProgress(Polled(op, replies, from, j).state)) &&
      (n < budget ==> !InProgress(Polled(op, replies, from, n).state))
    decreases budget
  {
    if budget > 0 && InProgress(op.state) {
      var next := replies(op.id, from);
      PollStopsAtFirstFinal(next, replies, from + 1, budget - 1);
      var n := PollCount(next, replies, from + 1, budget - 1);
      forall j | 0 <= j < n + 1
        ensures InProgress(Polled(op, replies, from, j).state)
      {
        if j > 0 {
          assert Polled(op, replies, from, j) == Polled(next, replies, from + 1, j - 1);
        }
      }
      assert Polled(op, replies, from, n + 1) == Polled(next, replies, from + 1, n);
    }
  }

  /**
   * The monitor makes exactly m polls, for m up to MaxAttempts, if and only
   * if the first m elements of the polled stream are in progress and either
   * the budget is spent or element m is final: the poll count is
   * min(MaxAttempts, k) for the first final element k.
   */
  lemma PollCountIsFirstFinal(op: Operation, replies: (string, nat) -> Operation, from: nat, m: nat)
    requires m <= MaxAttempts
    ensures PollCount(op, replies, from, MaxAttempts) == m <==>
      (forall j | 0 <= j < m :: InProgress(Polled(op, replies, from, j).state)) &&
      (m == MaxAttempts || !InProgress(Polled(op, replies, from, m).state))
  {
    PollStopsAtFirstFinal(op, replies, from, MaxAttempts);
    var n := PollCount(op, replies, from, MaxAttempts);
    if n < m {
      assert !InProgress(Polled(op, replies, from, n).state);
    } else if m < n {
      assert InProgress(Polled(op, replies, from, m).state);
    }
  }

  /** No poll is made for an operation that is already final, and it is judged as it is. */
  lemma NoPollWhenFinal(op: Operation, replies: (string, nat) -> Operation, from: nat)
    requires !InProgress(op.state)
    ensures PollCount(op, replies, from, MaxAttempts) == 0 && Final(op, replies, from) == op
    ensures Outcome(Final(op, replies, from)).Ok? <==> op.state == Succeeded
  {
  }

  /**
   * The polls numbered from, from + 1, ... answer the given statuses,
   * whatever operation id they ask about.
   */
  ghost predicate RepliesAre(replies: (string, nat) -> Operation, from: nat, statuses: seq<OperationState>) {
    forall id, k | from <= k < from + |statuses| :: replies(id, k).state == statuses[k - from]
  }

  /** Statuses Running, Running, Succeeded: the monitor returns the Succeeded operation after three polls. */
  lemma SucceedsAfterThreePolls(op: Operation, replies: (string, nat) -> Operation, from: nat)
    requires op.state == Running
    requires RepliesAre(replies, from, [Running, Running, Succeeded])
    ensures PollCount(op, replies, from, MaxAttempts) == 3
    ensures Final(op, replies, from).state == Succeeded
    ensures Outcome(Final(op, replies, from)) == Ok(Final(op, replies, from))
  {
    PolledNext(op, replies, from, 0);
    PolledNext(op, replies, from, 1);
    PolledNext(op, replies, from, 2);
    PollCountIsFirstFinal(op, replies, from, 3);
  }

  /** Twenty in-progress statuses in a row: the monitor gives up after twenty polls and fails. */
  lemma FailsAfterTwentyInProgress(op: Operation, replies: (string, nat) -> Operation, from: nat)
    requires InProgress(op.state)
    requires forall id, k | from <= k < from + MaxAttempts :: InProgress(replies(id, k).state)
    ensures PollCount(op, replies, from, MaxAttempts) == MaxAttempts
    ensures InProgress(Final(op, replies, from).state)
    ensures Outcome(Final(op, replies, from)) == Err(OperationFailed(Final(op, replies, from).id))
  {
    forall j | 0 <= j <= MaxAttempts
      ensures InProgress(Polled(op, replies, from, j).state)
    {
      if j > 0 {
        PolledNext(op, replies, from, j - 1);
      }
    }
    PollCountIsFirstFinal(op, replies, from, MaxAttempts);
  }

  /** A first status of Failed: the monitor fails after exactly one poll. */
  lemma FailsAfterOneFailedPoll(op: Operation, replies: (string, nat) -> Operation, from: nat)
    requires InProgress(op.state)
    requires RepliesAre(replies, from, [Failed])
    ensures PollCount(op, replies, from, MaxAttempts) == 1
    ensures Final(op, replies, from).state == Failed
    ensures Outcome(Final(op, replies, from)) == Err(OperationFailed(Final(op, replies, from).id))
  {
    PolledNext(op, replies, from, 0);
    PollCountIsFirstFinal(op, replies, from, 1);
  }
}
