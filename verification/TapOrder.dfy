// Taps go straight to the server and are queued only when that goes unanswered, so a tap
// can pass work of its own order that is still stored
// (washnpress-mobile/src/portals/OperationsPortal.tsx:490-511, 769-790).
module TapOrder {
  import opened Prelude
  import opened QueueRules
  import opened DrainPass
  import opened QueueRuns
  import opened QueueCounts
  import opened QueueRepeats

  // A tap with what its direct send comes to, or an operation on the queue.
  datatype Happening = Tap(action: Action, answer: Answer, persisted: bool) | OnQueue(op: Op)

  // The operations the queue sees: an unanswered tap is enqueued, any other is not.
  function QueueOps(hs: seq<Happening>): seq<Op> {
    if hs == [] then []
    else
      match Last(hs)
      case Tap(action, answer, persisted) =>
        if Unanswered(answer) then QueueOps(Init(hs)) + [Enqueue(action, persisted)] else QueueOps(Init(hs))
      case OnQueue(op) => QueueOps(Init(hs)) + [op]
  }

  function Queue(hs: seq<Happening>): QueueState {
    Run(QueueOps(hs))
  }

  // The two ways a failure can say that nothing came back.
  predicate LostSignal(answer: Answer) {
    answer.Failed? &&
    (answer.error.code == Some("network_unreachable") || answer.error.code == Some("network_timeout"))
  }

  // A tap is put behind what is stored exactly when nothing came back and the device takes
  // the write; a tap the server refused is not queued, nor one it accepted.
  lemma TapIsQueuedIffUnanswered(hs: seq<Happening>, action: Action, answer: Answer, persisted: bool)
    ensures var next := Queue(hs + [Tap(action, answer, persisted)]);
            && (LostSignal(answer) && persisted ==> next.store == Queue(hs).store + [action])
            && (!LostSignal(answer) || !persisted ==> next == Queue(hs))
  {
    assert Init(hs + [Tap(action, answer, persisted)]) == hs;
    assert Init(QueueOps(hs) + [Enqueue(action, persisted)]) == QueueOps(hs);
  }

  predicate TappedAndDone(hs: seq<Happening>, id: string) {
    hs != [] &&
    (TappedAndDone(Init(hs), id) || (Last(hs).Tap? && Last(hs).action.id == id && CarriesOut(Last(hs).answer)))
  }

  predicate CalledAndDone(log: seq<Event>, id: string) {
    exists e | e in log :: e.Called? && e.call.action.id == id && CarriesOut(e.call.answer)
  }

  // The server has carried this action out, whether or not the app has heard.
  predicate Done(hs: seq<Happening>, id: string) {
    TappedAndDone(hs, id) || CalledAndDone(Queue(hs).log, id)
  }

  // The server has carried an action out once a tap of it, or a call of it by the queue,
  // was accepted or carried out with its reply lost; and not before.
  lemma DoneByTapOrCall(hs: seq<Happening>, h: Happening, id: string)
    ensures !Done([], id)
    ensures match h
            case Tap(action, answer, _) =>
              Done(hs + [h], id) <==> Done(hs, id) || (action.id == id && (answer.Accepted? || answer.carriedOut))
            case OnQueue(op) =>
              Done(hs + [h], id) <==> TappedAndDone(hs, id) || DoneInCalls(Run(QueueOps(hs) + [op]).log, id)
  {
    var next := hs + [h];
    assert Init(next) == hs;
    if h.Tap? && Unanswered(h.answer) {
      QueuedIsNoCall(QueueOps(hs), Enqueue(h.action, h.persisted), id);
    }
  }

  predicate DoneInCalls(log: seq<Event>, id: string) {
    exists i | 0 <= i < |log| ::
      log[i].Called? && log[i].call.action.id == id && (log[i].call.answer.Accepted? || log[i].call.answer.carriedOut)
  }

  lemma QueuedIsNoCall(ops: seq<Op>, op: Op, id: string)
    requires op.Enqueue?
    ensures CalledAndDone(Run(ops + [op]).log, id) <==> CalledAndDone(Run(ops).log, id)
  {
    assert Init(ops + [op]) == ops;
    if CalledAndDone(Run(ops).log, id) {
      var e :| e in Run(ops).log && e.Called? && e.call.action.id == id && CarriesOut(e.call.answer);
      assert e in Run(ops + [op]).log;
    }
  }

  // Everything tapped before in the line that was queued has left the queue or been done.
  predicate EarlierTapsAreDone(hs: seq<Happening>, line: string) {
    forall a | a in QueuedIn(Queue(hs).log, line) :: GoneIn(Queue(hs).log, a.id) || Done(hs, a.id)
  }

  // Something of the line is stored that the server has not done.
  predicate WorkIsOwed(hs: seq<Happening>, line: string) {
    exists a | a in Of(Queue(hs).store, line) :: !Done(hs, a.id)
  }

  // Whatever the server does of a line, it does after all that was tapped before it.
  ghost predicate TapOrderKept(hs: seq<Happening>) {
    hs == [] ||
    (TapOrderKept(Init(hs)) &&
     match Last(hs)
     case Tap(action, answer, _) => CarriesOut(answer) ==> EarlierTapsAreDone(Init(hs), StreamOf(action))
     case OnQueue(_) => InOrder(Queue(hs).log))
  }

  // No tap is carried out directly while its line has work owed.
  predicate NoTapPasses(hs: seq<Happening>) {
    hs == [] ||
    (NoTapPasses(Init(hs)) &&
     (Last(hs).Tap? && CarriesOut(Last(hs).answer) ==> !WorkIsOwed(Init(hs), StreamOf(Last(hs).action))))
  }

  lemma {:induction false} StoredHasId(actions: seq<Action>, line: string, a: Action)
    requires a in Of(actions, line)
    ensures WithId(actions, a.id) != []
  {
    if Last(actions) != a {
      StoredHasId(Init(actions), line, a);
    }
  }

  // At any moment these are the same thing, by the accounting of the queue.
  lemma EarlierTapsAreDoneIff(hs: seq<Happening>, line: string)
    requires FreshRun(QueueOps(hs))
    ensures EarlierTapsAreDone(hs, line) <==> !WorkIsOwed(hs, line)
  {
    var st := Queue(hs);
    var queued, gone, stored := QueuedIn(st.log, line), SettledIn(st.log, line), Of(st.store, line);
    EveryActionIsAccountedFor(QueueOps(hs), line);
    assert Ids(queued) == Ids(gone) + Ids(stored);
    if EarlierTapsAreDone(hs, line) {
      forall a | a in stored ensures Done(hs, a.id) {
        var i :| 0 <= i < |stored| && stored[i] == a;
        var q := queued[|gone| + i];
        assert Ids(queued)[|gone| + i] == q.id && Ids(stored)[i] == a.id;
        OnlyCutDrainsRepeat(QueueOps(hs), a.id);
        StoredHasId(st.store, line, a);
      }
    } else {
      var a :| a in queued && !GoneIn(st.log, a.id) && !Done(hs, a.id);
      var i :| 0 <= i < |queued| && queued[i] == a;
      assert Ids(queued)[i] == a.id;
      if i < |gone| {
        assert Ids(gone)[i] == a.id;
        SettledIsGone(st.log, line, a.id);
      } else {
        assert Ids(stored)[i - |gone|] == a.id && stored[i - |gone|] in stored;
      }
    }
  }

  // Over every run of taps, drains and clears, the server does each order's steps in the
  // order they were tapped if and only if no tap is carried out directly while its order
  // has work stored that has not been.
  lemma {:induction false} TapOrderKeptIffNoTapPasses(hs: seq<Happening>)
    requires FreshRun(QueueOps(hs))
    ensures TapOrderKept(hs) <==> NoTapPasses(hs)
  {
    if hs != [] {
      var before := QueueOps(Init(hs));
      assert QueueOps(hs) == before || (QueueOps(hs) != [] && Init(QueueOps(hs)) == before);
      TapOrderKeptIffNoTapPasses(Init(hs));
      match Last(hs)
      case Tap(action, _, _) => EarlierTapsAreDoneIff(Init(hs), StreamOf(action));
      case OnQueue(_) => NothingOvertakes(QueueOps(hs));
    }
  }

  // In particular the order is kept when nobody taps on while the order has stored work.
  lemma {:induction false} WaitingKeepsTapOrder(hs: seq<Happening>)
    requires FreshRun(QueueOps(hs)) && WaitsForStored(hs)
    ensures TapOrderKept(hs)
  {
    WaitingPassesNothing(hs);
    TapOrderKeptIffNoTapPasses(hs);
  }

  predicate WaitsForStored(hs: seq<Happening>) {
    hs == [] ||
    (WaitsForStored(Init(hs)) && (Last(hs).Tap? ==> Of(Queue(Init(hs)).store, StreamOf(Last(hs).action)) == []))
  }

  lemma {:induction false} WaitingPassesNothing(hs: seq<Happening>)
    requires WaitsForStored(hs)
    ensures NoTapPasses(hs)
  {
    if hs != [] {
      WaitingPassesNothing(Init(hs));
    }
  }

  // And it can be broken: a tap lost in a basement, then one upstairs on the same order.
  lemma LaterTapGoesFirst(first: Action, second: Action, lost: Answer)
    requires StreamOf(first) == StreamOf(second) && first.id != second.id
    requires Unanswered(lost) && !lost.carriedOut
    ensures !TapOrderKept([Tap(first, lost, true)] + [Tap(second, Accepted, true)])
  {
    var one := [Tap(first, lost, true)];
    assert Init(one + [Tap(second, Accepted, true)]) == one;
    LostTapIsStored(first, lost);
    var st := Queue(one);
    assert QueuedIn(st.log, StreamOf(first)) == [first] && first in [first] by { assert Init([Queued(first)]) == []; }
    assert !GoneIn(st.log, first.id) by { assert Init([Queued(first)]) == []; }
    assert !TappedAndDone(one, first.id) by { assert Init(one) == []; }
  }

  lemma LostTapIsStored(first: Action, lost: Answer)
    requires Unanswered(lost)
    ensures Queue([Tap(first, lost, true)]) == QueueState([first], [Queued(first)])
  {
    var one := [Tap(first, lost, true)];
    assert Init(one) == [] && QueueOps(one) == [] + [Enqueue(first, true)];
    RunOfOne(Enqueue(first, true));
    assert [] + [first] == [first] && [] + [Queued(first)] == [Queued(first)];
  }

  lemma RunOfOne(op: Op)
    ensures Run([] + [op]) == Apply(EMPTY, op)
  {
    assert Init([] + [op]) == [];
  }
}
