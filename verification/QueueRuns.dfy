// Whole runs of the queue: any sequence of enqueues, drains and clears, against any
// answers, with the app dying, the final save being refused at any point of a drain, or a
// stored queue that could not be read being written over
// (washnpress-mobile/src/offline/queue.ts:44-108, async-storage.ts:42-63).
module QueueRuns {
  import opened Prelude
  import opened QueueRules
  import opened DrainPass

  datatype Event =
    | Queued(action: Action)         // an enqueue reached storage
    | Called(call: Offer)            // the runner was called, and came to this
    | Closed(calls: seq<Offer>)      // a drain that made these calls saved what remains
    | Cut                            // a drain ended with nothing saved
    | Dropped(actions: seq<Action>)  // the queue was cleared
    | Wiped(actions: seq<Action>)    // it could not be read, and was written over

  datatype QueueState = QueueState(store: seq<Action>, log: seq<Event>)

  const EMPTY := QueueState([], [])

  datatype Op =
    | Enqueue(action: Action, persisted: bool)
    | Sync(answers: Answers)
    | SyncCut(answers: Answers, upTo: nat)  // ends after `upTo` positions, unsaved
    | Clear(persisted: bool)
    | Forget  // what an unreadable load costs, once the write that follows goes through

  function CallEvents(calls: seq<Offer>): seq<Event> {
    seq(|calls|, i requires 0 <= i < |calls| => Called(calls[i]))
  }

  function Take<T>(xs: seq<T>, n: nat): seq<T> {
    if n <= |xs| then xs[..n] else xs
  }

  // What a load sees of the queue.
  function Seen(stored: seq<Action>, readable: bool): seq<Action> {
    if readable then stored else []
  }

  function Apply(st: QueueState, op: Op): QueueState {
    match op
    case Enqueue(action, persisted) =>
      if persisted then QueueState(st.store + [action], st.log + [Queued(action)]) else st
    case Sync(answers) =>
      var p := Drain(OffersFor(st.store, answers));
      QueueState(p.remaining, st.log + CallEvents(p.calls) + [Closed(p.calls)])
    case SyncCut(answers, upTo) =>
      var p := Drain(Take(OffersFor(st.store, answers), upTo));
      QueueState(st.store, st.log + CallEvents(p.calls) + [Cut])
    case Clear(persisted) =>
      if persisted then QueueState([], st.log + [Dropped(st.store)]) else st
    case Forget => QueueState([], st.log + [Wiped(st.store)])
  }

  function Run(ops: seq<Op>): QueueState {
    if ops == [] then EMPTY else Apply(Run(Init(ops)), Last(ops))
  }

  // ------------------------------------------------------------ reading the log

  function QueuedIn(log: seq<Event>, line: string): seq<Action> {
    if log == [] then []
    else
      match Last(log)
      case Queued(action) => AddIf(QueuedIn(Init(log), line), StreamOf(action) == line, action)
      case _ => QueuedIn(Init(log), line)
  }

  // What has durably left the queue, in the order it left: synced, given up, cleared, wiped.
  function SettledIn(log: seq<Event>, line: string): seq<Action> {
    if log == [] then []
    else
      match Last(log)
      case Closed(calls) => SettledIn(Init(log), line) + Of(Settled(calls), line)
      case Dropped(actions) => SettledIn(Init(log), line) + Of(actions, line)
      case Wiped(actions) => SettledIn(Init(log), line) + Of(actions, line)
      case _ => SettledIn(Init(log), line)
  }

  predicate AcceptedIn(log: seq<Event>, id: string) {
    exists e | e in log :: e.Called? && e.call.answer.Accepted? && e.call.action.id == id
  }

  lemma {:induction false} CallsQueueAndSettleNothing(log: seq<Event>, calls: seq<Offer>, line: string)
    ensures QueuedIn(log + CallEvents(calls), line) == QueuedIn(log, line)
    ensures SettledIn(log + CallEvents(calls), line) == SettledIn(log, line)
  {
    var longer := log + CallEvents(calls);
    if calls == [] {
      assert longer == log;
    } else {
      assert Init(longer) == log + CallEvents(Init(calls));
      CallsQueueAndSettleNothing(log, Init(calls), line);
    }
  }

  // ------------------------------------------------ nothing is lost or reordered

  ghost predicate Accounted(st: QueueState, line: string) {
    SplitsInto(QueuedIn(st.log, line), SettledIn(st.log, line), Of(st.store, line))
  }

  // In every run and for every line: the actions ever queued are those that have left,
  // in that order, followed by those still stored. So no queued action is ever lost but by
  // a wipe, whatever dies, and none leaves the queue before the one ahead of it.
  lemma {:induction false} EveryActionIsAccountedFor(ops: seq<Op>, line: string)
    ensures Accounted(Run(ops), line)
  {
    if ops != [] {
      EveryActionIsAccountedFor(Init(ops), line);
      ApplyKeepsAccount(Run(Init(ops)), Last(ops), line);
    }
  }

  lemma ApplyKeepsAccount(st: QueueState, op: Op, line: string)
    requires Accounted(st, line)
    ensures Accounted(Apply(st, op), line)
  {
    match op
    case Enqueue(action, persisted) =>
      if persisted {
        assert Init(st.log + [Queued(action)]) == st.log;
        OfSnoc(st.store, action, line);
        if StreamOf(action) == line {
          SplitKeeps(QueuedIn(st.log, line), SettledIn(st.log, line), Of(st.store, line), action, action);
        }
      }
    case Sync(answers) =>
      var offers := OffersFor(st.store, answers);
      var p := Drain(offers);
      var log := st.log + CallEvents(p.calls);
      CallsQueueAndSettleNothing(st.log, p.calls, line);
      assert Init(log + [Closed(p.calls)]) == log;
      assert Actions(offers) == st.store;
      DrainKeepsLineOrder(offers, line);
      SplitChains(QueuedIn(st.log, line), SettledIn(st.log, line), Of(st.store, line),
                  Of(Settled(p.calls), line), Of(p.remaining, line));
    case SyncCut(answers, upTo) =>
      var p := Drain(Take(OffersFor(st.store, answers), upTo));
      var log := st.log + CallEvents(p.calls);
      CallsQueueAndSettleNothing(st.log, p.calls, line);
      assert Init(log + [Cut]) == log;
    case Clear(persisted) =>
      if persisted {
        assert Init(st.log + [Dropped(st.store)]) == st.log;
        SplitChains(QueuedIn(st.log, line), SettledIn(st.log, line), Of(st.store, line), Of(st.store, line), []);
      }
    case Forget =>
      assert Init(st.log + [Wiped(st.store)]) == st.log;
      SplitChains(QueuedIn(st.log, line), SettledIn(st.log, line), Of(st.store, line), Of(st.store, line), []);
  }

  lemma SplitChains(all: seq<Action>, gone: seq<Action>, stored: seq<Action>, going: seq<Action>, kept: seq<Action>)
    requires SplitsInto(all, gone, stored) && SplitsInto(stored, going, kept)
    ensures SplitsInto(all, gone + going, kept)
  {
    assert Ids(gone + going) == Ids(gone) + Ids(going);
  }

  // ------------------------------------------------------ nothing is overtaken

  // Everything queued ahead of this action in its own line has left the queue, or the
  // runner has reported success on it.
  ghost predicate AtHead(before: seq<Event>, action: Action) {
    exists j | 0 <= j < |QueuedIn(before, StreamOf(action))| ::
      && QueuedIn(before, StreamOf(action))[j].id == action.id
      && AllDone(before, StreamOf(action), j)
  }

  ghost predicate AllDone(before: seq<Event>, line: string, j: nat)
    requires j <= |QueuedIn(before, line)|
  {
    forall i | 0 <= i < j ::
      QueuedIn(before, line)[i].id in Ids(SettledIn(before, line)) || AcceptedIn(before, QueuedIn(before, line)[i].id)
  }

  ghost predicate InOrder(log: seq<Event>) {
    forall k | 0 <= k < |log| && log[k].Called? :: AtHead(log[..k], log[k].call.action)
  }

  // No step of an order is ever sent before every step queued ahead of it has been
  // accepted, given up, cleared or wiped — in any run, interrupted drains included.
  lemma {:induction false} NothingOvertakes(ops: seq<Op>)
    ensures InOrder(Run(ops).log)
  {
    if ops != [] {
      NothingOvertakes(Init(ops));
      var st, op := Run(Init(ops)), Last(ops);
      match op
      case Enqueue(action, persisted) =>
        if persisted { QuietEventKeepsOrder(st.log, Queued(action)); }
      case Sync(answers) =>
        var offers := OffersFor(st.store, answers);
        assert Take(offers, |offers|) == offers;
        CallsKeepOrder(Init(ops), answers, |offers|, Drain(offers).calls);
        QuietEventKeepsOrder(st.log + CallEvents(Drain(offers).calls), Closed(Drain(offers).calls));
      case SyncCut(answers, upTo) =>
        var calls := Drain(Take(OffersFor(st.store, answers), upTo)).calls;
        CallsKeepOrder(Init(ops), answers, upTo, calls);
        QuietEventKeepsOrder(st.log + CallEvents(calls), Cut);
      case Clear(persisted) =>
        if persisted { QuietEventKeepsOrder(st.log, Dropped(st.store)); }
      case Forget =>
        QuietEventKeepsOrder(st.log, Wiped(st.store));
    }
  }

  lemma QuietEventKeepsOrder(log: seq<Event>, event: Event)
    requires InOrder(log) && !event.Called?
    ensures InOrder(log + [event])
  {
    var longer := log + [event];
    forall k | 0 <= k < |longer| && longer[k].Called?
      ensures AtHead(longer[..k], longer[k].call.action)
    {
      assert longer[..k] == log[..k] && longer[k] == log[k];
    }
  }

  lemma CallsKeepOrder(ops: seq<Op>, answers: Answers, upTo: nat, calls: seq<Offer>)
    requires InOrder(Run(ops).log)
    requires calls == Drain(Take(OffersFor(Run(ops).store, answers), upTo)).calls
    ensures InOrder(Run(ops).log + CallEvents(calls))
  {
    var st := Run(ops);
    var longer := st.log + CallEvents(calls);
    forall k | 0 <= k < |longer| && longer[k].Called?
      ensures AtHead(longer[..k], longer[k].call.action)
    {
      if k < |st.log| {
        assert longer[..k] == st.log[..k] && longer[k] == st.log[k];
      } else {
        var t := k - |st.log|;
        assert longer[..k] == st.log + CallEvents(calls[..t]);
        CallIsInOrder(ops, answers, upTo, calls, t);
      }
    }
  }

  lemma CallIsInOrder(ops: seq<Op>, answers: Answers, upTo: nat, calls: seq<Offer>, t: nat)
    requires calls == Drain(Take(OffersFor(Run(ops).store, answers), upTo)).calls
    requires t < |calls|
    ensures AtHead(Run(ops).log + CallEvents(calls[..t]), calls[t].action)
  {
    var st, line := Run(ops), StreamOf(calls[t].action);
    var ahead := OffersOf(calls[..t], line);
    EveryActionIsAccountedFor(ops, line);
    CallIsNextInStore(st.store, answers, upTo, calls, t);
    CalledPlaceInLine(QueuedIn(st.log, line), SettledIn(st.log, line), Of(st.store, line), ahead, calls[t]);
    AheadIsDone(st.log, calls[..t], calls[t], ahead);
  }

  // A called action comes in its line right after those just accepted.
  lemma CallIsNextInStore(store: seq<Action>, answers: Answers, upTo: nat, calls: seq<Offer>, t: nat)
    requires calls == Drain(Take(OffersFor(store, answers), upTo)).calls
    requires t < |calls|
    ensures var line := StreamOf(calls[t].action);
            var ahead := OffersOf(calls[..t], line);
            Actions(ahead + [calls[t]]) <= Of(store, line) && AllAccepted(ahead)
  {
    var offers := Take(OffersFor(store, answers), upTo);
    CallsAreAtHead(offers);
    assert CallIsAtHead(offers, calls, t);
    TakenIsPrefix(store, answers, upTo, StreamOf(calls[t].action));
  }

  lemma AheadIsDone(log: seq<Event>, calls: seq<Offer>, call: Offer, ahead: seq<Offer>)
    requires ahead == OffersOf(calls, StreamOf(call.action)) && AllAccepted(ahead)
    requires Stands(QueuedIn(log, StreamOf(call.action)), SettledIn(log, StreamOf(call.action)), ahead, call)
    ensures AtHead(log + CallEvents(calls), call.action)
  {
    var line, later := StreamOf(call.action), log + CallEvents(calls);
    var queued, gone := QueuedIn(log, line), SettledIn(log, line);
    CallsQueueAndSettleNothing(log, calls, line);
    OffersOfAreMembers(calls, line);
    forall i | 0 <= i < |gone| + |ahead|
      ensures queued[i].id in Ids(gone) || AcceptedIn(later, queued[i].id)
    {
      if i < |gone| {
        assert Ids(gone)[i] == queued[i].id;
      } else {
        AcceptedCallIsInLog(log, calls, ahead[i - |gone|]);
      }
    }
    assert AllDone(later, line, |gone| + |ahead|);
  }

  lemma AcceptedCallIsInLog(log: seq<Event>, calls: seq<Offer>, call: Offer)
    requires call in calls && call.answer.Accepted?
    ensures AcceptedIn(log + CallEvents(calls), call.action.id)
  {
    var at :| 0 <= at < |calls| && calls[at] == call;
    assert (log + CallEvents(calls))[|log| + at] == Called(call);
  }

  // Where a called action stands among all that were ever queued in its line.
  predicate Stands(queued: seq<Action>, gone: seq<Action>, ahead: seq<Offer>, call: Offer) {
    var j := |gone| + |ahead|;
    && j < |queued| && queued[j].id == call.action.id
    && (forall i | 0 <= i < |gone| :: queued[i].id == gone[i].id)
    && (forall i | |gone| <= i < j :: queued[i].id == ahead[i - |gone|].action.id)
  }

  lemma CalledPlaceInLine(queued: seq<Action>, gone: seq<Action>, stored: seq<Action>, ahead: seq<Offer>, call: Offer)
    requires SplitsInto(queued, gone, stored)
    requires Actions(ahead + [call]) <= stored
    ensures Stands(queued, gone, ahead, call)
  {
    var ids := Ids(gone) + Ids(stored);
    assert Ids(queued) == ids;
    assert forall i | 0 <= i < |queued| :: queued[i].id == ids[i];
    assert forall i | 0 <= i <= |ahead| :: stored[i] == (ahead + [call])[i].action;
  }

  lemma TakenIsPrefix(store: seq<Action>, answers: Answers, upTo: nat, line: string)
    ensures Actions(OffersOf(Take(OffersFor(store, answers), upTo), line)) <= Of(store, line)
  {
    var offers := OffersFor(store, answers);
    assert Actions(offers) == store;
    OffersOfActions(offers, line);
    if upTo <= |offers| {
      PrefixOfLine(offers, upTo, line);
    }
  }

  lemma PrefixOfLine(offers: seq<Offer>, upTo: nat, line: string)
    requires upTo <= |offers|
    ensures Actions(OffersOf(offers[..upTo], line)) <= Actions(OffersOf(offers, line))
  {
    OffersOfConcat(offers[..upTo], offers[upTo..], line);
    assert offers == offers[..upTo] + offers[upTo..];
    PrefixOfActions(OffersOf(offers[..upTo], line), OffersOf(offers[upTo..], line));
  }

  lemma PrefixOfActions(xs: seq<Offer>, ys: seq<Offer>)
    ensures Actions(xs) <= Actions(xs + ys)
  {
  }
}
