/** The supervised agent loop: requests, replies, restarts and the final status. */
module Orchestrator {
  import opened Wrappers

  /** Of all errors only an abort is told apart: it decides the final status. */
  datatype AgentError = Aborted | Other(code: nat)

  datatype SupervisorAction = Restart | Stop | Escalate

  /** A supervisor may decide by the error and by how many failures it has already been asked about. */
  type Supervisor = (nat, AgentError) -> SupervisorAction

  datatype PromptOutcome = Success(answer: nat) | Failure(error: AgentError) | CancelledMidPrompt

  /** What the loop's wait yields each time round. */
  datatype Poll = Cancelled | Closed | Request(id: nat, outcome: PromptOutcome)

  /** A reply attempt: the agent's answer, or the error sent back. Answers are told apart by numbers. */
  datatype Reply = Answered(id: nat, answer: nat) | Refused(id: nat, error: AgentError)

  datatype AgentStatus = Running | CompletedStatus | FailedStatus | CancelledStatus

  /** The loop's final result: success, or an error. */
  datatype LoopResult = Finished | Broken(error: AgentError)

  const STOPPED := Other(0)

  function ResolveStatus(r: LoopResult): AgentStatus {
    match r
    case Finished => CompletedStatus
    case Broken(Aborted) => CancelledStatus
    case Broken(_) => FailedStatus
  }

  // ---- the history of a loop, read off its polls -------------------------------------------------

  predicate IsFailure(p: Poll) {
    p.Request? && p.outcome.Failure?
  }

  predicate IsSuccess(p: Poll) {
    p.Request? && p.outcome.Success?
  }

  function Failures(polls: seq<Poll>): nat {
    if polls == [] then 0 else Failures(polls[..|polls| - 1]) + if IsFailure(polls[|polls| - 1]) then 1 else 0
  }

  function Successes(polls: seq<Poll>): nat {
    if polls == [] then 0 else Successes(polls[..|polls| - 1]) + if IsSuccess(polls[|polls| - 1]) then 1 else 0
  }

  /** What the supervisor says of the failure at the end of these polls; no supervisor escalates. */
  function Verdict(supervisor: Option<Supervisor>, polls: seq<Poll>): SupervisorAction
    requires polls != [] && IsFailure(polls[|polls| - 1])
  {
    if supervisor.None? then Escalate
    else supervisor.value(Failures(polls[..|polls| - 1]), polls[|polls| - 1].outcome.error)
  }

  predicate AsksRestart(supervisor: Option<Supervisor>, polls: seq<Poll>) {
    polls != [] && IsFailure(polls[|polls| - 1]) && Verdict(supervisor, polls) == Restart
  }

  /** Failures answered by a restart since the last success. */
  function ConsecutiveRestarts(supervisor: Option<Supervisor>, polls: seq<Poll>): nat {
    if polls == [] then 0
    else if IsSuccess(polls[|polls| - 1]) then 0
    else ConsecutiveRestarts(supervisor, polls[..|polls| - 1]) + if AsksRestart(supervisor, polls) then 1 else 0
  }

  /** Failures answered by a restart in all. */
  function TotalRestarts(supervisor: Option<Supervisor>, polls: seq<Poll>): nat {
    if polls == [] then 0
    else TotalRestarts(supervisor, polls[..|polls| - 1]) + if AsksRestart(supervisor, polls) then 1 else 0
  }

  /** Whether the last of these polls ends the loop. */
  predicate Ends(supervisor: Option<Supervisor>, maxRestarts: nat, polls: seq<Poll>) {
    polls != [] &&
    match polls[|polls| - 1]
    case Cancelled => true
    case Closed => true
    case Request(_, CancelledMidPrompt) => true
    case Request(_, Success(_)) => false
    case Request(_, Failure(_)) =>
      || Verdict(supervisor, polls) == Stop
      || (Verdict(supervisor, polls) == Restart && ConsecutiveRestarts(supervisor, polls[..|polls| - 1]) >= maxRestarts)
  }

  /** The loop is still going after these polls. */
  predicate Survives(supervisor: Option<Supervisor>, maxRestarts: nat, polls: seq<Poll>) {
    polls == [] || (Survives(supervisor, maxRestarts, polls[..|polls| - 1]) && !Ends(supervisor, maxRestarts, polls))
  }

  /** The reply each request is owed, in the order the requests were taken. */
  function RepliesTo(polls: seq<Poll>): seq<Reply> {
    if polls == [] then []
    else
      var before := RepliesTo(polls[..|polls| - 1]);
      match polls[|polls| - 1]
      case Request(id, Success(answer)) => before + [Answered(id, answer)]
      case Request(id, Failure(error)) => before + [Refused(id, error)]
      case Request(id, CancelledMidPrompt) => before + [Refused(id, Aborted)]
      case _ => before
  }

  // ---- the loop --------------------------------------------------------------------------------------

  lemma ReplySnoc(polls: seq<Poll>, i: nat)
    requires i < |polls|
    ensures polls[..i + 1][..i] == polls[..i] && polls[..i + 1][i] == polls[i]
  {
  }

  /** Takes polls until one ends the loop. `taken` counts them, `replies` lists the reply attempts,
      `agents` the agents built, `restarts` the counter at the end. */
  method RunAgentLoop(polls: seq<Poll>, supervisor: Option<Supervisor>, maxRestarts: nat)
    returns (taken: nat, replies: seq<Reply>, agents: nat, restarts: nat, status: AgentStatus)
    ensures taken <= |polls|
    ensures replies == RepliesTo(polls[..taken])
    ensures status == Running ==>
              && taken == |polls| && Survives(supervisor, maxRestarts, polls)
              && agents == 1 + TotalRestarts(supervisor, polls)
              && restarts == ConsecutiveRestarts(supervisor, polls)
    ensures status != Running ==>
              && 0 < taken && Ends(supervisor, maxRestarts, polls[..taken])
              && Survives(supervisor, maxRestarts, polls[..taken - 1])
              && agents == 1 + TotalRestarts(supervisor, polls[..taken - 1])
              && restarts == ConsecutiveRestarts(supervisor, polls[..taken - 1])
    ensures status == CompletedStatus <==> 0 < taken && polls[taken - 1].Closed?
    ensures status == CancelledStatus <==>
              0 < taken && (polls[taken - 1].Cancelled? || (polls[taken - 1].Request? && polls[taken - 1].outcome.CancelledMidPrompt?))
    ensures status == FailedStatus <==>
              && 0 < taken && IsFailure(polls[taken - 1])
              && (Verdict(supervisor, polls[..taken]) == Stop
                  || (Verdict(supervisor, polls[..taken]) == Restart
                      && ConsecutiveRestarts(supervisor, polls[..taken - 1]) >= maxRestarts))
  {
    agents := 1;
    restarts := 0;
    replies := [];
    taken := 0;
    var failures := 0;
    while taken < |polls|
      invariant taken <= |polls|
      invariant replies == RepliesTo(polls[..taken])
      invariant failures == Failures(polls[..taken])
      invariant restarts == ConsecutiveRestarts(supervisor, polls[..taken])
      invariant agents == 1 + TotalRestarts(supervisor, polls[..taken])
      invariant Survives(supervisor, maxRestarts, polls[..taken])
    {
      var poll := polls[taken];
      ReplySnoc(polls, taken);
      taken := taken + 1;
      match poll {
        case Cancelled =>
          return taken, replies, agents, restarts, ResolveStatus(Broken(Aborted));
        case Closed =>
          return taken, replies, agents, restarts, ResolveStatus(Finished);
        case Request(id, CancelledMidPrompt) =>
          replies := replies + [Refused(id, Aborted)];
          return taken, replies, agents, restarts, ResolveStatus(Broken(Aborted));
        case Request(id, Success(answer)) =>
          replies := replies + [Answered(id, answer)];
          restarts := 0;
        case Request(id, Failure(error)) =>
          replies := replies + [Refused(id, error)];
          var action := if supervisor.None? then Escalate else supervisor.value(failures, error);
          failures := failures + 1;
          if action == Restart && restarts < maxRestarts {
            restarts := restarts + 1;
            agents := agents + 1;
          } else if action != Escalate {
            return taken, replies, agents, restarts, ResolveStatus(Broken(STOPPED));
          }
      }
    }
    assert polls[..|polls|] == polls;
    status := Running;
  }

  // ---- what the loop keeps -----------------------------------------------------------------------------

  /** While the loop runs the counter never exceeds its maximum, and restarts are paid for by successes. */
  lemma {:induction false} RestartBudget(supervisor: Option<Supervisor>, maxRestarts: nat, polls: seq<Poll>)
    requires Survives(supervisor, maxRestarts, polls)
    ensures ConsecutiveRestarts(supervisor, polls) <= maxRestarts
    ensures TotalRestarts(supervisor, polls) <= maxRestarts * Successes(polls) + ConsecutiveRestarts(supervisor, polls)
    ensures TotalRestarts(supervisor, polls) <= maxRestarts * (Successes(polls) + 1)
  {
    if polls != [] {
      var init := polls[..|polls| - 1];
      RestartBudget(supervisor, maxRestarts, init);
      assert maxRestarts * (Successes(init) + 1) == maxRestarts * Successes(init) + maxRestarts;
      assert maxRestarts * (Successes(polls) + 1) == maxRestarts * Successes(polls) + maxRestarts;
    }
  }

  function RequestIds(polls: seq<Poll>): seq<nat> {
    if polls == [] then []
    else
      var before := RequestIds(polls[..|polls| - 1]);
      if polls[|polls| - 1].Request? then before + [polls[|polls| - 1].id] else before
  }

  /** Every request taken gets exactly one reply attempt, in the order taken. */
  lemma {:induction false} OneReplyEach(polls: seq<Poll>)
    ensures |RepliesTo(polls)| == |RequestIds(polls)|
    ensures forall i :: 0 <= i < |RepliesTo(polls)| ==> RepliesTo(polls)[i].id == RequestIds(polls)[i]
  {
    if polls != [] {
      OneReplyEach(polls[..|polls| - 1]);
    }
  }

  // ---- what callers hear -----------------------------------------------------------------------------

  /** Replies to polls after one another are the replies to the first, then those to the rest. */
  lemma {:induction false} RepliesInOrder(a: seq<Poll>, b: seq<Poll>)
    ensures RepliesTo(a + b) == RepliesTo(a) + RepliesTo(b)
    decreases |b|
  {
    if b == [] {
      assert a + b == a && RepliesTo(a) + [] == RepliesTo(a);
    } else {
      var init, last := b[..|b| - 1], b[|b| - 1];
      assert (a + b)[..|a + b| - 1] == a + init && (a + b)[|a + b| - 1] == last;
      RepliesInOrder(a, init);
    }
  }

  /** The reply to each request: its answer exactly if the prompt succeeded, its error exactly if it
      failed, and an abort exactly if it was cancelled. */
  lemma ReplyAt(polls: seq<Poll>, i: nat)
    requires i < |polls| && polls[i].Request?
    ensures var k, id, outcome := |RepliesTo(polls[..i])|, polls[i].id, polls[i].outcome;
            && k < |RepliesTo(polls)|
            && var reply := RepliesTo(polls)[k];
               && (outcome.Success? <==> reply.Answered?)
               && (outcome.Success? ==> reply == Answered(id, outcome.answer))
               && (outcome.Failure? ==> reply == Refused(id, outcome.error))
               && (outcome.CancelledMidPrompt? ==> reply == Refused(id, Aborted))
  {
    assert polls == polls[..i] + ([polls[i]] + polls[i + 1..]);
    RepliesInOrder(polls[..i], [polls[i]] + polls[i + 1..]);
    RepliesInOrder([polls[i]], polls[i + 1..]);
    OneReply(polls[i]);
  }

  /** A request has one reply, a poll that is none has no reply. */
  lemma OneReply(p: Poll)
    ensures RepliesTo([]) == []
    ensures RepliesTo([p]) ==
            if !p.Request? then []
            else if p.outcome.Success? then [Answered(p.id, p.outcome.answer)]
            else if p.outcome.Failure? then [Refused(p.id, p.outcome.error)]
            else [Refused(p.id, Aborted)]
  {
    assert [p][..0] == [];
  }

  // ---- what supervisors decide -----------------------------------------------------------------------

  lemma FailureSnoc(supervisor: Option<Supervisor>, polls: seq<Poll>, id: nat, error: AgentError)
    ensures var more := polls + [Request(id, Failure(error))];
            && more[..|polls|] == polls && more[|polls|] == Request(id, Failure(error))
            && Verdict(supervisor, more) == if supervisor.None? then Escalate else supervisor.value(Failures(polls), error)
  {
  }

  /** The failures so far are the polls that are requests whose prompt failed. */
  lemma {:induction false} FailuresAre(polls: seq<Poll>)
    ensures Failures(polls) == |FailedAt(polls)|
  {
    if polls != [] {
      var n := |polls| - 1;
      FailuresAre(polls[..n]);
      assert FailedAt(polls) == if IsFailure(polls[n]) then FailedAt(polls[..n]) + {n} else FailedAt(polls[..n]);
    }
  }

  /** The successes so far are the polls that are requests whose prompt succeeded. */
  lemma {:induction false} SuccessesAre(polls: seq<Poll>)
    ensures Successes(polls) == |SucceededAt(polls)|
  {
    if polls != [] {
      var n := |polls| - 1;
      SuccessesAre(polls[..n]);
      assert SucceededAt(polls) == if IsSuccess(polls[n]) then SucceededAt(polls[..n]) + {n} else SucceededAt(polls[..n]);
    }
  }

  ghost function SucceededAt(polls: seq<Poll>): set<nat> {
    set i: nat | i < |polls| && polls[i].Request? && polls[i].outcome.Success?
  }

  ghost function FailedAt(polls: seq<Poll>): set<nat> {
    set i: nat | i < |polls| && polls[i].Request? && polls[i].outcome.Failure?
  }

  /** Without a supervisor no failure stops the agent or restarts it. */
  lemma {:induction false} NoSupervisorKeepsGoing(maxRestarts: nat, polls: seq<Poll>)
    requires forall i :: 0 <= i < |polls| ==> polls[i].Request? && !polls[i].outcome.CancelledMidPrompt?
    ensures Survives(None, maxRestarts, polls)
    ensures ConsecutiveRestarts(None, polls) == 0 && TotalRestarts(None, polls) == 0
  {
    if polls != [] {
      NoSupervisorKeepsGoing(maxRestarts, polls[..|polls| - 1]);
    }
  }

  /** A success gives the whole restart budget back. */
  lemma SuccessResets(supervisor: Option<Supervisor>, polls: seq<Poll>, id: nat, answer: nat)
    ensures ConsecutiveRestarts(supervisor, polls + [Request(id, Success(answer))]) == 0
    ensures TotalRestarts(supervisor, polls + [Request(id, Success(answer))]) == TotalRestarts(supervisor, polls)
  {
    assert (polls + [Request(id, Success(answer))])[..|polls|] == polls;
  }

  /** With a supervisor that always restarts, an agent whose budget is whole survives as many failures
      in a row as it has restarts, and not one more. */
  lemma {:induction false} RestartsInARow(supervisor: Supervisor, maxRestarts: nat, polls: seq<Poll>, failures: seq<Poll>)
    requires forall n, e :: supervisor(n, e) == Restart
    requires Survives(Some(supervisor), maxRestarts, polls) && ConsecutiveRestarts(Some(supervisor), polls) == 0
    requires forall i :: 0 <= i < |failures| ==> failures[i].Request? && failures[i].outcome.Failure?
    ensures ConsecutiveRestarts(Some(supervisor), polls + failures) == |failures|
    ensures TotalRestarts(Some(supervisor), polls + failures) == TotalRestarts(Some(supervisor), polls) + |failures|
    ensures Survives(Some(supervisor), maxRestarts, polls + failures) <==> |failures| <= maxRestarts
    decreases |failures|
  {
    if failures == [] {
      assert polls + failures == polls;
    } else {
      var init, last := failures[..|failures| - 1], failures[|failures| - 1];
      assert (polls + failures)[..|polls + failures| - 1] == polls + init && (polls + failures)[|polls + failures| - 1] == last;
      RestartsInARow(supervisor, maxRestarts, polls, init);
    }
  }

  /** A supervisor that stops ends the loop at the first failure, whatever the budget; one that escalates never does. */
  lemma StopOrEscalate(supervisor: Supervisor, maxRestarts: nat, polls: seq<Poll>, id: nat, error: AgentError)
    requires Survives(Some(supervisor), maxRestarts, polls)
    ensures var more, action := polls + [Request(id, Failure(error))], supervisor(Failures(polls), error);
            && (action == Stop ==> !Survives(Some(supervisor), maxRestarts, more))
            && (action == Escalate ==> Survives(Some(supervisor), maxRestarts, more)
                                       && ConsecutiveRestarts(Some(supervisor), more) == ConsecutiveRestarts(Some(supervisor), polls))
  {
    FailureSnoc(Some(supervisor), polls, id, error);
  }
}
