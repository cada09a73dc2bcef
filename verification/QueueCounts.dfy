// What the retry budget and the calls add up to over whole runs
// (washnpress-mobile/src/offline/queue.ts:79-108, queue-rules.ts:48-53).
module QueueCounts {
  import opened Prelude
  import opened QueueRules
  import opened DrainPass
  import opened QueueRuns

  // ------------------------------------------------------------ one action's view

  function WithId(actions: seq<Action>, id: string): seq<Action> {
    if actions == [] then [] else AddIf(WithId(Init(actions), id), Last(actions).id == id, Last(actions))
  }

  function OnId(calls: seq<Offer>, id: string): seq<Offer> {
    if calls == [] then [] else AddIf(OnId(Init(calls), id), Last(calls).action.id == id, Last(calls))
  }

  function Refusals(calls: seq<Offer>, id: string): nat {
    if calls == [] then 0
    else Refusals(Init(calls), id) + if Last(calls).action.id == id && Refused(Last(calls).answer) then 1 else 0
  }

  // Whether the server's last word on this action was a give-up.
  predicate GivenUpIn(calls: seq<Offer>, id: string) {
    exists c | c in calls :: c.action.id == id && GivesUp(c)
  }

  lemma WithIdSnoc(xs: seq<Action>, x: Action, id: string)
    ensures WithId(xs + [x], id) == AddIf(WithId(xs, id), x.id == id, x)
  {
    assert Init(xs + [x]) == xs;
  }

  lemma OnIdSnoc(xs: seq<Offer>, x: Offer, id: string)
    ensures OnId(xs + [x], id) == AddIf(OnId(xs, id), x.action.id == id, x)
  {
    assert Init(xs + [x]) == xs;
  }

  lemma {:induction false} OnIdActions(offers: seq<Offer>, id: string)
    ensures Actions(OnId(offers, id)) == WithId(Actions(offers), id)
  {
    if offers != [] {
      OnIdActions(Init(offers), id);
      ActionsInit(offers);
      WithIdSnoc(Actions(Init(offers)), Last(offers).action, id);
      var mine := OnId(Init(offers), id);
      if Last(offers).action.id == id {
        ActionsInit(mine + [Last(offers)]);
        assert Init(mine + [Last(offers)]) == mine;
      }
    }
  }

  // `mine` are the offers of one action: a drain leaves it alone, or calls it once and
  // keeps what that one call leaves.
  predicate TouchedOnce(p: Progress, mine: seq<Offer>, id: string)
    requires |mine| <= 1
  {
    if mine == [] then OnId(p.calls, id) == [] && WithId(p.remaining, id) == []
    else if OnId(p.calls, id) == [] then WithId(p.remaining, id) == [mine[0].action]
    else OnId(p.calls, id) == mine && WithId(p.remaining, id) == LeftBy(mine[0])
  }

  function LeftBy(call: Offer): seq<Action> {
    match KeptBy(call)
    case Some(action) => [action]
    case None => []
  }

  lemma {:induction false} DrainTouchesOnce(offers: seq<Offer>, id: string)
    requires |OnId(offers, id)| <= 1
    ensures TouchedOnce(Drain(offers), OnId(offers, id), id)
  {
    if offers != [] {
      DrainTouchesOnce(Init(offers), id);
      OneMoreTouched(Drain(Init(offers)), OnId(Init(offers), id), Last(offers), id);
    }
  }

  lemma OneMoreTouched(p: Progress, mine: seq<Offer>, offer: Offer, id: string)
    requires |mine| + (if offer.action.id == id then 1 else 0) <= 1
    requires TouchedOnce(p, mine, id)
    ensures TouchedOnce(Advance(p, offer), AddIf(mine, offer.action.id == id, offer), id)
  {
    if Waits(p, offer.action) {
      WithIdSnoc(p.remaining, offer.action, id);
    } else {
      OnIdSnoc(p.calls, offer, id);
      if !Settles(offer) {
        WithIdSnoc(p.remaining, KeptBy(offer).value, id);
      }
    }
    if offer.action.id == id {
      assert [] + [offer] == [offer];
    }
  }

  // Refusals are counted one action at a time.
  lemma {:induction false} CountsAdd(xs: seq<Offer>, ys: seq<Offer>, id: string)
    ensures Refusals(xs + ys, id) == Refusals(xs, id) + Refusals(ys, id)
    ensures GivenUpIn(xs + ys, id) <==> GivenUpIn(xs, id) || GivenUpIn(ys, id)
  {
    if ys == [] {
      assert xs + ys == xs;
    } else {
      assert Init(xs + ys) == xs + Init(ys) && Last(xs + ys) == Last(ys);
      CountsAdd(xs, Init(ys), id);
    }
  }

  lemma {:induction false} CountsOnId(calls: seq<Offer>, id: string)
    ensures Refusals(calls, id) == Refusals(OnId(calls, id), id)
    ensures GivenUpIn(calls, id) <==> GivenUpIn(OnId(calls, id), id)
  {
    if calls != [] {
      CountsOnId(Init(calls), id);
      var mine := OnId(Init(calls), id);
      assert calls == Init(calls) + [Last(calls)];
      CountsAdd(Init(calls), [Last(calls)], id);
      CountsAdd(mine, [Last(calls)], id);
      assert Init([Last(calls)]) == [];
    }
  }

  // ------------------------------------------------------------------- whole runs

  // The calls of every drain that finished, in order.
  function ClosedCalls(log: seq<Event>): seq<Offer> {
    if log == [] then []
    else ClosedCalls(Init(log)) + if Last(log).Closed? then Last(log).calls else []
  }

  predicate NeverQueued(log: seq<Event>, id: string) {
    forall e | e in log :: e.Queued? ==> e.action.id != id
  }

  // What `enqueue` builds: a new id, and no tries used.
  predicate FreshRun(ops: seq<Op>) {
    ops == [] ||
    (FreshRun(Init(ops)) &&
     (Last(ops).Enqueue? ==>
        Last(ops).action.attempts == Some(0) && NeverQueued(Run(Init(ops)).log, Last(ops).action.id)))
  }

  predicate TriesMatch(action: Action, history: seq<Offer>) {
    action.attempts == Some(Refusals(history, action.id)) && Refusals(history, action.id) < 5
  }

  predicate CountedAs(stored: seq<Action>, history: seq<Offer>, id: string) {
    && |stored| <= 1
    && (stored != [] ==> stored[0].id == id && TriesMatch(stored[0], history))
    && Refusals(history, id) <= 5
    && (Refusals(history, id) == 5 <==> GivenUpIn(history, id))
  }

  predicate Counted(st: QueueState, id: string) {
    && CountedAs(WithId(st.store, id), ClosedCalls(st.log), id)
    && (NeverQueued(st.log, id) ==> WithId(st.store, id) == [] && Refusals(ClosedCalls(st.log), id) == 0)
  }

  lemma {:induction false} CallsCloseNothing(log: seq<Event>, calls: seq<Offer>, id: string)
    ensures ClosedCalls(log + CallEvents(calls)) == ClosedCalls(log)
    ensures NeverQueued(log + CallEvents(calls), id) <==> NeverQueued(log, id)
  {
    var longer := log + CallEvents(calls);
    if calls == [] {
      assert longer == log;
    } else {
      assert Init(longer) == log + CallEvents(Init(calls));
      assert longer == Init(longer) + [Called(Last(calls))];
      CallsCloseNothing(log, Init(calls), id);
    }
  }

  lemma QuietLogCounts(log: seq<Event>, event: Event, id: string)
    ensures ClosedCalls(log + [event]) == ClosedCalls(log) + if event.Closed? then event.calls else []
    ensures NeverQueued(log + [event], id) <==>
            NeverQueued(log, id) && (event.Queued? ==> event.action.id != id)
  {
    assert Init(log + [event]) == log;
  }

  lemma CutCounts(st: QueueState, answers: Answers, upTo: nat, id: string)
    requires Counted(st, id)
    ensures Counted(Apply(st, SyncCut(answers, upTo)), id)
  {
    var calls := Drain(Take(OffersFor(st.store, answers), upTo)).calls;
    CallsCloseNothing(st.log, calls, id);
    QuietLogCounts(st.log + CallEvents(calls), Cut, id);
    assert ClosedCalls(st.log) + [] == ClosedCalls(st.log);
  }

  // Over every run: the tries an action has used are the refusals it has had in finished
  // drains, always fewer than five while it is stored; nobody is refused a sixth time;
  // and the fifth refusal is exactly when it is given up on. An unanswered call is not a
  // refusal, so it never counts.
  lemma {:induction false} AttemptsAreRefusals(ops: seq<Op>, id: string)
    requires FreshRun(ops)
    ensures Counted(Run(ops), id)
  {
    if ops != [] {
      var st, op := Run(Init(ops)), Last(ops);
      AttemptsAreRefusals(Init(ops), id);
      match op
      case Enqueue(action, persisted) =>
        if persisted {
          QuietLogCounts(st.log, Queued(action), id);
          WithIdSnoc(st.store, action, id);
          assert ClosedCalls(st.log) + [] == ClosedCalls(st.log);
        }
      case Sync(answers) =>
        SyncCounts(st, answers, id);
      case SyncCut(answers, upTo) =>
        CutCounts(st, answers, upTo, id);
      case Clear(persisted) =>
        QuietLogCounts(st.log, Dropped(st.store), id);
        assert ClosedCalls(st.log) + [] == ClosedCalls(st.log);
      case Forget =>
        QuietLogCounts(st.log, Wiped(st.store), id);
        assert ClosedCalls(st.log) + [] == ClosedCalls(st.log);
    }
  }

  lemma SyncCounts(st: QueueState, answers: Answers, id: string)
    requires Counted(st, id)
    ensures Counted(Apply(st, Sync(answers)), id)
  {
    var calls := Drain(OffersFor(st.store, answers)).calls;
    DrainCounts(st.store, ClosedCalls(st.log), answers, id);
    CallsCloseNothing(st.log, calls, id);
    QuietLogCounts(st.log + CallEvents(calls), Closed(calls), id);
  }

  lemma DrainCounts(store: seq<Action>, history: seq<Offer>, answers: Answers, id: string)
    requires CountedAs(WithId(store, id), history, id)
    ensures var p := Drain(OffersFor(store, answers));
            && CountedAs(WithId(p.remaining, id), history + p.calls, id)
            && (WithId(store, id) == [] ==>
                  WithId(p.remaining, id) == [] && Refusals(history + p.calls, id) == Refusals(history, id))
  {
    var offers := OffersFor(store, answers);
    var p, mine := Drain(offers), OnId(offers, id);
    assert Actions(offers) == store;
    OnIdActions(offers, id);
    assert |Actions(mine)| == |mine|;
    DrainTouchesOnce(offers, id);
    assert mine != [] ==> Actions(mine)[0] == mine[0].action;
    TouchCounts(p, mine, history, id);
  }

  lemma TouchCounts(p: Progress, mine: seq<Offer>, history: seq<Offer>, id: string)
    requires |mine| <= 1 && TouchedOnce(p, mine, id)
    requires CountedAs(if mine == [] then [] else [mine[0].action], history, id)
    ensures CountedAs(WithId(p.remaining, id), history + p.calls, id)
    ensures mine == [] ==> WithId(p.remaining, id) == [] && Refusals(history + p.calls, id) == Refusals(history, id)
  {
    CountsAdd(history, p.calls, id);
    CountsOnId(p.calls, id);
    if OnId(p.calls, id) == [] {
      assert Refusals(p.calls, id) == 0 && !GivenUpIn(p.calls, id);
    } else {
      assert mine == [mine[0]];
      OneCallCounts(history, mine[0], id);
      assert GivenUpIn(p.calls, id) <==> GivesUp(mine[0]);
    }
  }

  lemma OneCallCounts(history: seq<Offer>, call: Offer, id: string)
    requires call.action.id == id && TriesMatch(call.action, history)
    ensures Refusals([call], id) == if Refused(call.answer) then 1 else 0
    ensures GivenUpIn([call], id) <==> GivesUp(call)
    ensures GivesUp(call) <==> Refusals(history, id) + Refusals([call], id) == MAX_ACTION_ATTEMPTS
    ensures !Settles(call) ==>
              KeptBy(call).value.id == id &&
              KeptBy(call).value.attempts == Some(Refusals(history, id) + Refusals([call], id)) &&
              Refusals(history, id) + Refusals([call], id) < MAX_ACTION_ATTEMPTS
  {
    assert Init([call]) == [];
  }
}
