// Which actions the server can be sent twice, over whole runs with interruptions
// (washnpress-mobile/src/offline/queue.ts:79-107, async-storage.ts:56-63).
module QueueRepeats {
  import opened Prelude
  import opened QueueRules
  import opened DrainPass
  import opened QueueRuns
  import opened QueueCounts

  // Whether the action has durably left the queue.
  predicate GoneIn(log: seq<Event>, id: string) {
    log != [] &&
    (GoneIn(Init(log), id) ||
     match Last(log)
     case Closed(calls) => WithId(Settled(calls), id) != []
     case Dropped(actions) => WithId(actions, id) != []
     case Wiped(actions) => WithId(actions, id) != []
     case _ => false)
  }

  // Whether the runner has reported success on it with no drain cut short since.
  predicate AcceptedSinceCut(log: seq<Event>, id: string) {
    log != [] && !Last(log).Cut? &&
    (AcceptedSinceCut(Init(log), id) ||
     (Last(log).Called? && Last(log).call.answer.Accepted? && Last(log).call.action.id == id))
  }

  predicate Spent(log: seq<Event>, id: string) {
    GoneIn(log, id) || AcceptedSinceCut(log, id)
  }

  predicate Touches(event: Event, id: string) {
    event.Called? && event.call.action.id == id
  }

  ghost predicate NoNeedlessCall(log: seq<Event>, id: string) {
    forall k | 0 <= k < |log| && Touches(log[k], id) :: !Spent(log[..k], id)
  }

  lemma SpentSnoc(log: seq<Event>, event: Event, id: string)
    ensures GoneIn(log + [event], id) <==>
            GoneIn(log, id)
            || (event.Closed? && WithId(Settled(event.calls), id) != [])
            || ((event.Dropped? || event.Wiped?) && WithId(event.actions, id) != [])
    ensures AcceptedSinceCut(log + [event], id) <==>
            !event.Cut? && (AcceptedSinceCut(log, id) || (Touches(event, id) && event.call.answer.Accepted?))
  {
    assert Init(log + [event]) == log;
  }

  lemma NoNeedlessSnoc(log: seq<Event>, event: Event, id: string)
    requires NoNeedlessCall(log, id)
    requires Touches(event, id) ==> !Spent(log, id)
    ensures NoNeedlessCall(log + [event], id)
  {
    var longer := log + [event];
    forall k | 0 <= k < |longer| && Touches(longer[k], id)
      ensures !Spent(longer[..k], id)
    {
      if k < |log| {
        assert longer[..k] == log[..k] && longer[k] == log[k];
      } else {
        assert longer[..k] == log;
      }
    }
  }

  lemma {:induction false} CallsAreNotNeedless(log: seq<Event>, calls: seq<Offer>, id: string)
    requires NoNeedlessCall(log, id)
    requires |OnId(calls, id)| <= 1
    requires OnId(calls, id) != [] ==> !Spent(log, id)
    ensures var longer := log + CallEvents(calls);
            && NoNeedlessCall(longer, id)
            && GoneIn(longer, id) == GoneIn(log, id)
            && (AcceptedSinceCut(longer, id) <==>
                AcceptedSinceCut(log, id) || (OnId(calls, id) != [] && OnId(calls, id)[0].answer.Accepted?))
  {
    if calls == [] {
      assert log + CallEvents(calls) == log;
    } else {
      var before := log + CallEvents(Init(calls));
      assert log + CallEvents(calls) == before + [Called(Last(calls))];
      CallsAreNotNeedless(log, Init(calls), id);
      NoNeedlessSnoc(before, Called(Last(calls)), id);
      SpentSnoc(before, Called(Last(calls)), id);
    }
  }

  lemma {:induction false} SettledOnId(calls: seq<Offer>, id: string)
    requires |OnId(calls, id)| <= 1
    ensures WithId(Settled(calls), id) != [] <==> OnId(calls, id) != [] && Settles(OnId(calls, id)[0])
  {
    if calls != [] {
      SettledOnId(Init(calls), id);
      if Settles(Last(calls)) {
        WithIdSnoc(Settled(Init(calls)), Last(calls).action, id);
      }
    }
  }

  ghost predicate Consistent(st: QueueState, id: string) {
    && NoNeedlessCall(st.log, id)
    && (Spent(st.log, id) ==> WithId(st.store, id) == [])
    && (NeverQueued(st.log, id) ==> !Spent(st.log, id))
  }

  // An action is never sent again once it has left the queue, and one the runner has
  // reported success on is sent again only if some drain was cut short in between.
  lemma {:induction false} OnlyCutDrainsRepeat(ops: seq<Op>, id: string)
    requires FreshRun(ops)
    ensures Consistent(Run(ops), id)
  {
    if ops != [] {
      var st, op := Run(Init(ops)), Last(ops);
      OnlyCutDrainsRepeat(Init(ops), id);
      AttemptsAreRefusals(Init(ops), id);
      match op
      case Enqueue(action, persisted) =>
        if persisted {
          WithIdSnoc(st.store, action, id);
          QuietLogCounts(st.log, Queued(action), id);
          SpentSnoc(st.log, Queued(action), id);
          NoNeedlessSnoc(st.log, Queued(action), id);
        }
      case Sync(answers) =>
        SyncIsConsistent(st, answers, id);
      case SyncCut(answers, upTo) =>
        SyncCutIsConsistent(st, answers, upTo, id);
      case Clear(persisted) =>
        if persisted {
          QuietLogCounts(st.log, Dropped(st.store), id);
          SpentSnoc(st.log, Dropped(st.store), id);
          NoNeedlessSnoc(st.log, Dropped(st.store), id);
        }
      case Forget =>
        QuietLogCounts(st.log, Wiped(st.store), id);
        SpentSnoc(st.log, Wiped(st.store), id);
        NoNeedlessSnoc(st.log, Wiped(st.store), id);
    }
  }

  lemma SyncIsConsistent(st: QueueState, answers: Answers, id: string)
    requires Consistent(st, id) && Counted(st, id)
    ensures Consistent(Apply(st, Sync(answers)), id)
  {
    var offers := OffersFor(st.store, answers);
    var p := Drain(offers);
    DrainSeenFromStore(st.store, offers, id);
    CallsAreNotNeedless(st.log, p.calls, id);
    SettledOnId(p.calls, id);
    var log := st.log + CallEvents(p.calls);
    CallsCloseNothing(st.log, p.calls, id);
    QuietLogCounts(log, Closed(p.calls), id);
    SpentSnoc(log, Closed(p.calls), id);
    NoNeedlessSnoc(log, Closed(p.calls), id);
  }

  lemma SyncCutIsConsistent(st: QueueState, answers: Answers, upTo: nat, id: string)
    requires Consistent(st, id) && Counted(st, id)
    ensures Consistent(Apply(st, SyncCut(answers, upTo)), id)
  {
    var calls := Drain(Take(OffersFor(st.store, answers), upTo)).calls;
    CutCallsSeenFromStore(st.store, answers, upTo, id);
    CallsAreNotNeedless(st.log, calls, id);
    CutIsConsistent(st, st.log + CallEvents(calls), calls, id);
  }

  lemma CutCallsSeenFromStore(store: seq<Action>, answers: Answers, upTo: nat, id: string)
    requires |WithId(store, id)| <= 1
    ensures var calls := Drain(Take(OffersFor(store, answers), upTo)).calls;
            && |OnId(calls, id)| <= 1
            && (OnId(calls, id) != [] ==> WithId(store, id) != [])
  {
    var offers := OffersFor(store, answers);
    assert Actions(offers) == store;
    TakeSeenFromId(offers, upTo, id);
    assert Actions(Take(offers, upTo)) == Take(store, upTo);
    DrainSeenFromStore(Take(store, upTo), Take(offers, upTo), id);
  }

  lemma CutIsConsistent(st: QueueState, log: seq<Event>, calls: seq<Offer>, id: string)
    requires Consistent(st, id) && log == st.log + CallEvents(calls)
    requires NoNeedlessCall(log, id) && GoneIn(log, id) == GoneIn(st.log, id)
    ensures Consistent(QueueState(st.store, log + [Cut]), id)
  {
    CallsCloseNothing(st.log, calls, id);
    QuietLogCounts(log, Cut, id);
    SpentSnoc(log, Cut, id);
    NoNeedlessSnoc(log, Cut, id);
  }

  lemma {:induction false} TakeSeenFromId(offers: seq<Offer>, upTo: nat, id: string)
    ensures |WithId(Take(Actions(offers), upTo), id)| <= |WithId(Actions(offers), id)|
  {
    var actions := Actions(offers);
    if upTo < |actions| {
      assert Take(Init(actions), upTo) == Take(actions, upTo);
      ActionsInit(offers);
      TakeSeenFromId(Init(offers), upTo, id);
    } else {
      assert Take(actions, upTo) == actions;
    }
  }

  // A drain calls an action only if it was stored, at most once, and keeps it unless
  // that call settled it.
  lemma DrainSeenFromStore(store: seq<Action>, offers: seq<Offer>, id: string)
    requires Actions(offers) == store && |WithId(store, id)| <= 1
    ensures var p := Drain(offers);
            && |OnId(p.calls, id)| <= 1
            && (OnId(p.calls, id) != [] ==> WithId(store, id) != [])
            && (WithId(store, id) == [] ==> WithId(p.remaining, id) == [])
            && (OnId(p.calls, id) != [] && Settles(OnId(p.calls, id)[0]) ==> WithId(p.remaining, id) == [])
  {
    OnIdActions(offers, id);
    assert |Actions(OnId(offers, id))| == |OnId(offers, id)|;
    DrainTouchesOnce(offers, id);
  }

  // ------------------------------------------------------- which runs lose work

  // Synced, given up or cleared.
  predicate LeftProperly(log: seq<Event>, id: string) {
    log != [] &&
    (LeftProperly(Init(log), id) ||
     match Last(log)
     case Closed(calls) => WithId(Settled(calls), id) != []
     case Dropped(actions) => WithId(actions, id) != []
     case _ => false)
  }

  predicate WipedIn(log: seq<Event>, id: string) {
    log != [] && (WipedIn(Init(log), id) || (Last(log).Wiped? && WithId(Last(log).actions, id) != []))
  }

  lemma {:induction false} CallsLeaveNothing(log: seq<Event>, calls: seq<Offer>, id: string)
    ensures LeftProperly(log + CallEvents(calls), id) == LeftProperly(log, id)
    ensures WipedIn(log + CallEvents(calls), id) == WipedIn(log, id)
  {
    var longer := log + CallEvents(calls);
    if calls == [] {
      assert longer == log;
    } else {
      assert Init(longer) == log + CallEvents(Init(calls));
      CallsLeaveNothing(log, Init(calls), id);
    }
  }

  lemma LeftSnoc(log: seq<Event>, event: Event, id: string)
    ensures LeftProperly(log + [event], id) <==>
            LeftProperly(log, id)
            || (event.Closed? && WithId(Settled(event.calls), id) != [])
            || (event.Dropped? && WithId(event.actions, id) != [])
    ensures WipedIn(log + [event], id) <==> WipedIn(log, id) || (event.Wiped? && WithId(event.actions, id) != [])
  {
    assert Init(log + [event]) == log;
  }

  // Where an action that was queued is: stored, properly gone or wiped, and only one of them.
  predicate InOnePlace(st: QueueState, id: string) {
    var stored, left, wiped := WithId(st.store, id) != [], LeftProperly(st.log, id), WipedIn(st.log, id);
    && (NeverQueued(st.log, id) ==> !stored && !left && !wiped)
    && (!NeverQueued(st.log, id) ==> (stored || left || wiped) && !(stored && left) && !(stored && wiped) && !(left && wiped))
  }

  // A run loses exactly the work it wipes: an action ever queued is neither stored nor
  // synced, given up or cleared if and only if it stood in a queue that could not be read
  // and was written over.
  lemma OnlyAWipeLosesWork(ops: seq<Op>, id: string)
    requires FreshRun(ops)
    ensures var st := Run(ops);
            !NeverQueued(st.log, id) && WithId(st.store, id) == [] && !LeftProperly(st.log, id) <==> WipedIn(st.log, id)
  {
    EverythingIsInOnePlace(ops, id);
  }

  lemma {:induction false} EverythingIsInOnePlace(ops: seq<Op>, id: string)
    requires FreshRun(ops)
    ensures InOnePlace(Run(ops), id)
  {
    if ops != [] {
      var st, op := Run(Init(ops)), Last(ops);
      EverythingIsInOnePlace(Init(ops), id);
      AttemptsAreRefusals(Init(ops), id);
      match op
      case Enqueue(action, persisted) =>
        if persisted {
          WithIdSnoc(st.store, action, id);
          QuietLogCounts(st.log, Queued(action), id);
          LeftSnoc(st.log, Queued(action), id);
        }
      case Sync(answers) =>
        SyncKeepsPlace(st, answers, id);
      case SyncCut(answers, upTo) =>
        var calls := Drain(Take(OffersFor(st.store, answers), upTo)).calls;
        var log := st.log + CallEvents(calls);
        CallsCloseNothing(st.log, calls, id);
        CallsLeaveNothing(st.log, calls, id);
        QuietLogCounts(log, Cut, id);
        LeftSnoc(log, Cut, id);
      case Clear(persisted) =>
        QuietLogCounts(st.log, Dropped(st.store), id);
        LeftSnoc(st.log, Dropped(st.store), id);
      case Forget =>
        QuietLogCounts(st.log, Wiped(st.store), id);
        LeftSnoc(st.log, Wiped(st.store), id);
    }
  }

  lemma SyncKeepsPlace(st: QueueState, answers: Answers, id: string)
    requires InOnePlace(st, id) && Counted(st, id)
    ensures InOnePlace(Apply(st, Sync(answers)), id)
  {
    var offers := OffersFor(st.store, answers);
    var p := Drain(offers);
    var log := st.log + CallEvents(p.calls);
    DrainKeepsOrSettles(st.store, offers, id);
    CallsCloseNothing(st.log, p.calls, id);
    CallsLeaveNothing(st.log, p.calls, id);
    QuietLogCounts(log, Closed(p.calls), id);
    LeftSnoc(log, Closed(p.calls), id);
  }

  lemma DrainKeepsOrSettles(store: seq<Action>, offers: seq<Offer>, id: string)
    requires Actions(offers) == store && |WithId(store, id)| <= 1
    ensures var p := Drain(offers);
            && (WithId(store, id) != [] <==> WithId(p.remaining, id) != [] || WithId(Settled(p.calls), id) != [])
            && !(WithId(p.remaining, id) != [] && WithId(Settled(p.calls), id) != [])
  {
    OnIdActions(offers, id);
    assert |Actions(OnId(offers, id))| == |OnId(offers, id)|;
    DrainTouchesOnce(offers, id);
    SettledOnId(Drain(offers).calls, id);
  }

  // ------------------------------------------------- first successes stay in order

  lemma {:induction false} GoneForGood(log: seq<Event>, k: nat, m: nat, id: string)
    requires k <= m <= |log| && GoneIn(log[..k], id)
    ensures GoneIn(log[..m], id)
  {
    if k < m {
      GoneForGood(log, k, m - 1, id);
      assert Init(log[..m]) == log[..m - 1];
    }
  }

  // The actions an event takes out of the queue for good.
  function Leaving(event: Event): seq<Action> {
    match event
    case Closed(calls) => Settled(calls)
    case Dropped(actions) => actions
    case Wiped(actions) => actions
    case _ => []
  }

  lemma {:induction false} SettledIsGone(log: seq<Event>, line: string, id: string)
    requires id in Ids(SettledIn(log, line))
    ensures GoneIn(log, id)
  {
    var before, leaving := SettledIn(Init(log), line), Of(Leaving(Last(log)), line);
    assert SettledIn(log, line) == before + leaving;
    IdsAdd(before, leaving);
    if id in Ids(before) {
      SettledIsGone(Init(log), line, id);
    } else {
      LineHasId(Leaving(Last(log)), line, id);
    }
  }

  lemma IdsAdd(xs: seq<Action>, ys: seq<Action>)
    ensures Ids(xs + ys) == Ids(xs) + Ids(ys)
  {
  }

  lemma {:induction false} LineHasId(actions: seq<Action>, line: string, id: string)
    requires id in Ids(Of(actions, line))
    ensures WithId(actions, id) != []
  {
    if Last(actions).id != id {
      IdsAdd(Of(Init(actions), line), [Last(actions)]);
      LineHasId(Init(actions), line, id);
    }
  }

  // When a call is made, every action ahead of it in its line was accepted before, or is
  // never called from then on. So along a line first successes come in queue order, even
  // when interrupted drains make the server see some of them again.
  lemma FirstSuccessesFollowTheLine(ops: seq<Op>, k: nat)
    requires FreshRun(ops)
    requires k < |Run(ops).log| && Run(ops).log[k].Called?
    ensures var log, action := Run(ops).log, Run(ops).log[k].call.action;
            exists j :: SentInTurn(log, k, QueuedIn(log[..k], StreamOf(action)), action.id, j)
  {
    var log, action := Run(ops).log, Run(ops).log[k].call.action;
    var line := StreamOf(action);
    var queued := QueuedIn(log[..k], line);
    NothingOvertakes(ops);
    var j :| 0 <= j < |queued| && queued[j].id == action.id && AllDone(log[..k], line, j);
    forall i | 0 <= i < j
      ensures AcceptedIn(log[..k], queued[i].id) || NotCalledFrom(log, k, queued[i].id)
    {
      if !AcceptedIn(log[..k], queued[i].id) {
        SettledIsSilent(ops, k, line, queued[i].id);
      }
    }
    assert SentInTurn(log, k, queued, action.id, j);
  }

  // queued[j] is the action called at k, and each one ahead of it has succeeded already
  // or never will.
  predicate SentInTurn(log: seq<Event>, k: nat, queued: seq<Action>, id: string, j: int)
    requires k <= |log|
  {
    && 0 <= j < |queued| && queued[j].id == id
    && forall i | 0 <= i < j :: AcceptedIn(log[..k], queued[i].id) || NotCalledFrom(log, k, queued[i].id)
  }

  lemma SettledIsSilent(ops: seq<Op>, k: nat, line: string, id: string)
    requires FreshRun(ops) && k <= |Run(ops).log|
    requires id in Ids(SettledIn(Run(ops).log[..k], line))
    ensures NotCalledFrom(Run(ops).log, k, id)
  {
    var log := Run(ops).log;
    SettledIsGone(log[..k], line, id);
    OnlyCutDrainsRepeat(ops, id);
    forall m | k <= m < |log| ensures !Touches(log[m], id) {
      GoneForGood(log, k, m, id);
    }
  }

  predicate NotCalledFrom(log: seq<Event>, k: nat, id: string) {
    forall m | k <= m < |log| :: !Touches(log[m], id)
  }
}
