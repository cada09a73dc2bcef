// The retry budget, read off the network: what each queued action's tries were spent on
// (washnpress-mobile/App.tsx:195-228 with src/offline/queue-rules.ts:48-53).
module TriesOnTheWire {
  import opened Prelude
  import opened DrainPass
  import opened QueueRuns
  import opened QueueCounts
  import opened RequestLayer

  // The session and the network behind one call of the runner.
  datatype Line = Line(token: Option<string>, network: Network)

  // The call is the runner's, over a network whose servers leave the reserved codes alone.
  predicate MadeOver(call: Offer, line: Line) {
    call.answer == RunnerAnswer(line.token, call.action, line.network) && !ServerUsesReservedCode(line.network(1))
  }

  predicate AllMadeOver(calls: seq<Offer>, lines: seq<Line>) {
    |calls| == |lines| && forall i | 0 <= i < |calls| :: MadeOver(calls[i], lines[i])
  }

  // The call failed, and not for silence.
  predicate FailedHeard(call: Offer, line: Line) {
    call.answer.Failed? && !(IsSent(line.token, call.action) && line.network(1).Silence?)
  }

  function HeardFailures(calls: seq<Offer>, lines: seq<Line>, id: string): nat
    requires |calls| == |lines|
  {
    if calls == [] then 0
    else
      HeardFailures(Init(calls), Init(lines), id) +
      if Last(calls).action.id == id && FailedHeard(Last(calls), Last(lines)) then 1 else 0
  }

  lemma {:induction false} RefusalsAreHeardFailures(calls: seq<Offer>, lines: seq<Line>, id: string)
    requires AllMadeOver(calls, lines)
    ensures Refusals(calls, id) == HeardFailures(calls, lines, id)
  {
    if calls != [] {
      var call, line := Last(calls), Last(lines);
      RefusalsAreHeardFailures(Init(calls), Init(lines), id);
      assert MadeOver(call, line);
      OnlySilenceIsFree(line.token, call.action, line.network);
    }
  }

  // Over every run whose finished drains ran over these networks: the tries a stored action
  // has used are the failures of it that something other than silence caused, and they are
  // fewer than five; and the fifth is when it is given up on.
  lemma TriesAreHeardFailures(ops: seq<Op>, lines: seq<Line>, id: string)
    requires FreshRun(ops) && AllMadeOver(ClosedCalls(Run(ops).log), lines)
    ensures var stored, tries := WithId(Run(ops).store, id), HeardFailures(ClosedCalls(Run(ops).log), lines, id);
            && (stored != [] ==> stored[0].attempts == Some(tries) && tries < 5)
            && (tries == 5 <==> GivenUpIn(ClosedCalls(Run(ops).log), id))
            && tries <= 5
  {
    AttemptsAreRefusals(ops, id);
    RefusalsAreHeardFailures(ClosedCalls(Run(ops).log), lines, id);
  }
}
