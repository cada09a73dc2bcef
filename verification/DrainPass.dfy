// One pass over the queue (the loop of `OfflineQueue.sync`,
// washnpress-mobile/src/offline/queue.ts:79-108), as a fold over the loaded actions.
module DrainPass {
  import opened Prelude
  import opened QueueRules

  // A queued action with what the runner would come to if it were called on it.
  datatype Offer = Offer(action: Action, answer: Answer)

  datatype Progress = Progress(
    remaining: seq<Action>,
    blocked: set<string>,
    synced: nat,
    givenUp: nat,
    stopped: bool,
    calls: seq<Offer>)  // the runner calls made so far, in order

  const START := Progress([], {}, 0, 0, false, [])

  predicate Waits(p: Progress, action: Action) {
    p.stopped || StreamOf(action) in p.blocked
  }

  function Advance(p: Progress, offer: Offer): Progress {
    if Waits(p, offer.action) then p.(remaining := p.remaining + [offer.action])
    else
      var called := p.(calls := p.calls + [offer]);
      match offer.answer
      case Accepted => called.(synced := p.synced + 1)
      case Failed(error, _) =>
        var verdict := AfterFailure(offer.action, error);
        var failed := called.(blocked := p.blocked + {StreamOf(offer.action)}, stopped := verdict.stopDraining);
        match verdict.keep
        case Some(action) => failed.(remaining := p.remaining + [action])
        case None => failed.(givenUp := p.givenUp + 1)
  }

  // What a call leaves in the queue: nothing once it is settled, otherwise the same
  // action, in the same line.
  function KeptBy(call: Offer): (kept: Option<Action>)
    ensures kept.Some? ==> kept.value.id == call.action.id && StreamOf(kept.value) == StreamOf(call.action)
  {
    match call.answer
    case Accepted => None
    case Failed(error, _) => AfterFailure(call.action, error).keep
  }

  function Drain(offers: seq<Offer>): Progress {
    if offers == [] then START else Advance(Drain(Init(offers)), Last(offers))
  }

  // The answers of one drain, by position in the queue it loaded.
  type Answers = int -> Answer

  function OffersFor(actions: seq<Action>, answers: Answers): seq<Offer> {
    seq(|actions|, i requires 0 <= i < |actions| => Offer(actions[i], answers(i)))
  }

  // ---------------------------------------------------------------- projections

  function Actions(offers: seq<Offer>): seq<Action> {
    seq(|offers|, i requires 0 <= i < |offers| => offers[i].action)
  }

  lemma ActionsInit(offers: seq<Offer>)
    requires offers != []
    ensures Actions(offers) == Actions(Init(offers)) + [Last(offers).action]
  {
    assert offers == Init(offers) + [Last(offers)];
  }

  function Ids(actions: seq<Action>): seq<string> {
    seq(|actions|, i requires 0 <= i < |actions| => actions[i].id)
  }

  // The actions of one line, in order.
  function Of(actions: seq<Action>, line: string): seq<Action> {
    if actions == [] then []
    else AddIf(Of(Init(actions), line), StreamOf(Last(actions)) == line, Last(actions))
  }

  function OffersOf(offers: seq<Offer>, line: string): seq<Offer> {
    if offers == [] then []
    else AddIf(OffersOf(Init(offers), line), StreamOf(Last(offers).action) == line, Last(offers))
  }

  // Whether a call is the last this action needs: it succeeded, or it was given up on.
  predicate Settles(call: Offer) {
    KeptBy(call).None?
  }

  function Settled(calls: seq<Offer>): seq<Action> {
    if calls == [] then []
    else AddIf(Settled(Init(calls)), Settles(Last(calls)), Last(calls).action)
  }

  function CountAccepted(calls: seq<Offer>): nat {
    if calls == [] then 0
    else CountAccepted(Init(calls)) + if Last(calls).answer.Accepted? then 1 else 0
  }

  predicate GivesUp(call: Offer) {
    Refused(call.answer) && TriesSoFar(call.action) + 1 >= MAX_ACTION_ATTEMPTS
  }

  function CountGivenUp(calls: seq<Offer>): nat {
    if calls == [] then 0
    else CountGivenUp(Init(calls)) + if GivesUp(Last(calls)) then 1 else 0
  }

  // xs can be had from ys by leaving elements out.
  predicate Subsequence<T(==)>(xs: seq<T>, ys: seq<T>) {
    xs == [] ||
    (ys != [] && ((Last(xs) == Last(ys) && Subsequence(Init(xs), Init(ys))) || Subsequence(xs, Init(ys))))
  }

  predicate AllAccepted(offers: seq<Offer>) {
    forall o | o in offers :: o.answer.Accepted?
  }

  lemma OfSnoc(xs: seq<Action>, x: Action, line: string)
    ensures Of(xs + [x], line) == AddIf(Of(xs, line), StreamOf(x) == line, x)
  {
    assert Init(xs + [x]) == xs;
  }

  lemma OffersOfSnoc(xs: seq<Offer>, x: Offer, line: string)
    ensures OffersOf(xs + [x], line) == AddIf(OffersOf(xs, line), StreamOf(x.action) == line, x)
  {
    assert Init(xs + [x]) == xs;
  }

  lemma SettledSnoc(xs: seq<Offer>, x: Offer)
    ensures Settled(xs + [x]) == AddIf(Settled(xs), Settles(x), x.action)
  {
    assert Init(xs + [x]) == xs;
  }

  lemma {:induction false} OffersOfActions(offers: seq<Offer>, line: string)
    ensures Actions(OffersOf(offers, line)) == Of(Actions(offers), line)
  {
    if offers != [] {
      OffersOfActions(Init(offers), line);
      ActionsInit(offers);
      OfSnoc(Actions(Init(offers)), Last(offers).action, line);
      var mine := OffersOf(Init(offers), line);
      if StreamOf(Last(offers).action) == line {
        ActionsInit(mine + [Last(offers)]);
        assert Init(mine + [Last(offers)]) == mine;
      }
    }
  }

  lemma {:induction false} OffersOfAreMembers(offers: seq<Offer>, line: string)
    ensures forall o | o in OffersOf(offers, line) :: o in offers
  {
    if offers != [] {
      OffersOfAreMembers(Init(offers), line);
      assert forall o | o in Init(offers) :: o in offers;
    }
  }

  lemma {:induction false} OffersOfConcat(xs: seq<Offer>, ys: seq<Offer>, line: string)
    ensures OffersOf(xs + ys, line) == OffersOf(xs, line) + OffersOf(ys, line)
  {
    if ys == [] {
      assert xs + ys == xs;
    } else {
      assert Init(xs + ys) == xs + Init(ys) && Last(xs + ys) == Last(ys);
      OffersOfConcat(xs, Init(ys), line);
      OffersOfSnoc(xs + Init(ys), Last(ys), line);
    }
  }

  lemma HasIdSnoc(xs: seq<Action>, x: Action, id: string)
    ensures id in Ids(xs + [x]) <==> id in Ids(xs) || id == x.id
  {
    assert Ids(xs + [x]) == Ids(xs) + [x.id];
  }

  // What one position of the drain does, seen from one line.
  lemma AdvanceSeenFromLine(p: Progress, offer: Offer, line: string)
    ensures var q, mine, kept := Advance(p, offer), StreamOf(offer.action) == line, KeptBy(offer);
            if Waits(p, offer.action) then
              && q.calls == p.calls
              && Of(q.remaining, line) == AddIf(Of(p.remaining, line), mine, offer.action)
            else
              && Of(q.remaining, line) ==
                 (if kept.Some? then AddIf(Of(p.remaining, line), mine, kept.value) else Of(p.remaining, line))
              && OffersOf(q.calls, line) == AddIf(OffersOf(p.calls, line), mine, offer)
              && Of(Settled(q.calls), line) ==
                 AddIf(Of(Settled(p.calls), line), mine && Settles(offer), offer.action)
  {
    if Waits(p, offer.action) {
      OfSnoc(p.remaining, offer.action, line);
    } else {
      OffersOfSnoc(p.calls, offer, line);
      SettledSnoc(p.calls, offer);
      if Settles(offer) {
        OfSnoc(Settled(p.calls), offer.action, line);
      } else {
        OfSnoc(p.remaining, KeptBy(offer).value, line);
      }
    }
  }

  lemma DrainSnoc(offers: seq<Offer>, offer: Offer)
    ensures Drain(offers + [offer]) == Advance(Drain(offers), offer)
  {
    assert Init(offers + [offer]) == offers;
  }

  // --------------------------------------------------------------- conservation

  // Every loaded action ends in exactly one of the three counts, and the runner is
  // called on a subsequence of what was loaded, so on no action twice.
  lemma {:induction false} DrainConserves(offers: seq<Offer>)
    ensures var p := Drain(offers);
            && p.synced + |p.remaining| + p.givenUp == |offers|
            && p.synced == CountAccepted(p.calls)
            && p.givenUp == CountGivenUp(p.calls)
            && Subsequence(p.calls, offers)
  {
    if offers != [] {
      DrainConserves(Init(offers));
      var p, offer := Drain(Init(offers)), Last(offers);
      if !Waits(p, offer.action) {
        assert Init(p.calls + [offer]) == p.calls;
        assert Subsequence(p.calls + [offer], offers);
      }
    }
  }

  lemma {:induction false} SubsequenceMembers<T>(xs: seq<T>, ys: seq<T>)
    requires Subsequence(xs, ys)
    ensures forall x | x in xs :: x in ys
  {
    if xs != [] {
      if Last(xs) == Last(ys) && Subsequence(Init(xs), Init(ys)) {
        SubsequenceMembers(Init(xs), Init(ys));
        assert xs == Init(xs) + [Last(xs)];
      } else {
        SubsequenceMembers(xs, Init(ys));
      }
    }
  }

  // ------------------------------------------------------- order within one line

  // `all` is `settled` followed by `kept`, action by action.
  predicate SplitsInto(all: seq<Action>, settled: seq<Action>, kept: seq<Action>) {
    Ids(all) == Ids(settled) + Ids(kept)
  }

  lemma SplitKeeps(all: seq<Action>, settled: seq<Action>, kept: seq<Action>, action: Action, keep: Action)
    requires SplitsInto(all, settled, kept) && keep.id == action.id
    ensures SplitsInto(all + [action], settled, kept + [keep])
  {
    assert Ids(all + [action]) == Ids(all) + [action.id];
    assert Ids(kept + [keep]) == Ids(kept) + [action.id];
  }

  lemma SplitSettles(all: seq<Action>, settled: seq<Action>, action: Action)
    requires SplitsInto(all, settled, [])
    ensures SplitsInto(all + [action], settled + [action], [])
  {
    assert Ids(all) == Ids(settled);
    assert Ids(all + [action]) == Ids(all) + [action.id];
  }

  // What one line loaded is what it settled, in order, followed by what it kept.
  // A line that keeps anything is blocked, or the whole drain has stopped.
  lemma {:induction false} DrainKeepsLineOrder(offers: seq<Offer>, line: string)
    ensures var p := Drain(offers);
            && SplitsInto(Of(Actions(offers), line), Of(Settled(p.calls), line), Of(p.remaining, line))
            && (!p.stopped && line !in p.blocked ==> Of(p.remaining, line) == [])
  {
    if offers != [] {
      var p, offer := Drain(Init(offers)), Last(offers);
      DrainKeepsLineOrder(Init(offers), line);
      AdvanceSeenFromLine(p, offer, line);
      ActionsInit(offers);
      OfSnoc(Actions(Init(offers)), offer.action, line);
      if StreamOf(offer.action) == line {
        var all, settled, kept := Of(Actions(Init(offers)), line), Of(Settled(p.calls), line), Of(p.remaining, line);
        if Waits(p, offer.action) {
          SplitKeeps(all, settled, kept, offer.action, offer.action);
        } else if Settles(offer) {
          SplitSettles(all, settled, offer.action);
        } else {
          SplitKeeps(all, settled, kept, offer.action, KeptBy(offer).value);
        }
      }
    }
  }

  // Whatever is loaded is kept or settled, and nothing else is.
  lemma {:induction false} DrainSplitsIds(offers: seq<Offer>, id: string)
    ensures id in Ids(Actions(offers)) <==>
            id in Ids(Drain(offers).remaining) || id in Ids(Settled(Drain(offers).calls))
  {
    if offers != [] {
      var p, offer := Drain(Init(offers)), Last(offers);
      DrainSplitsIds(Init(offers), id);
      ActionsInit(offers);
      HasIdSnoc(Actions(Init(offers)), offer.action, id);
      if Waits(p, offer.action) {
        HasIdSnoc(p.remaining, offer.action, id);
      } else {
        SettledSnoc(p.calls, offer);
        if Settles(offer) {
          HasIdSnoc(Settled(p.calls), offer.action, id);
        } else {
          HasIdSnoc(p.remaining, KeptBy(offer).value, id);
        }
      }
    }
  }

  // ----------------------------------------------------- independence of lines

  datatype LineResult = LineResult(remaining: seq<Action>, calls: seq<Offer>)

  // One line on its own: successes until the first failure, then everything waits.
  function Line(offers: seq<Offer>): LineResult {
    if offers == [] then LineResult([], [])
    else match offers[0].answer
      case Accepted =>
        var rest := Line(offers[1..]);
        LineResult(rest.remaining, [offers[0]] + rest.calls)
      case Failed(error, _) =>
        var waiting := Actions(offers[1..]);
        match KeptBy(offers[0])
        case Some(action) => LineResult([action] + waiting, [offers[0]])
        case None => LineResult(waiting, [offers[0]])
  }

  lemma {:induction false} LineSnoc(offers: seq<Offer>, offer: Offer)
    ensures AllAccepted(offers) ==> Line(offers) == LineResult([], offers)
    ensures AllAccepted(offers) ==>
              Line(offers + [offer]) == LineResult(Line([offer]).remaining, offers + [offer])
    ensures !AllAccepted(offers) ==>
              Line(offers + [offer]) == LineResult(Line(offers).remaining + [offer.action], Line(offers).calls)
  {
    if offers == [] {
      assert offers + [offer] == [offer];
    } else {
      assert (offers + [offer])[1..] == offers[1..] + [offer];
      assert offers == [offers[0]] + offers[1..];
      LineSnoc(offers[1..], offer);
      assert Actions(offers[1..] + [offer]) == Actions(offers[1..]) + [offer.action];
      if AllAccepted(offers) {
        assert [offers[0]] + (offers[1..] + [offer]) == offers + [offer];
      }
    }
  }

  // What the drain has done to the line is what the line's offers, `mine`, come to alone.
  predicate SameAsAlone(p: Progress, mine: seq<Offer>, line: string) {
    && Of(p.remaining, line) == Line(mine).remaining
    && OffersOf(p.calls, line) == Line(mine).calls
    && (line in p.blocked <==> !AllAccepted(mine))
  }

  // While every call is answered, a drain of the whole queue does to each line exactly
  // what the head-of-line rule says of that line alone.
  lemma {:induction false} DrainIsLineByLine(offers: seq<Offer>, line: string)
    requires !Drain(offers).stopped
    ensures SameAsAlone(Drain(offers), OffersOf(offers, line), line)
  {
    if offers != [] {
      DrainIsLineByLine(Init(offers), line);
      OneMoreAlone(Drain(Init(offers)), OffersOf(Init(offers), line), Last(offers), line);
    }
  }

  lemma OneMoreAlone(p: Progress, mine: seq<Offer>, offer: Offer, line: string)
    requires !Advance(p, offer).stopped && SameAsAlone(p, mine, line)
    ensures SameAsAlone(Advance(p, offer), AddIf(mine, StreamOf(offer.action) == line, offer), line)
  {
    AdvanceSeenFromLine(p, offer, line);
    if StreamOf(offer.action) == line {
      LineSnoc(mine, offer);
      AllAcceptedSnoc(mine, offer);
      assert [] + [offer] == [offer];
    }
  }

  lemma AllAcceptedSnoc(offers: seq<Offer>, offer: Offer)
    ensures AllAccepted(offers + [offer]) <==> AllAccepted(offers) && offer.answer.Accepted?
  {
    assert offer in offers + [offer] && forall o | o in offers :: o in offers + [offer];
  }

  // Draining everything and keeping one line is draining that line alone.
  lemma {:induction false} LinesAreIndependent(offers: seq<Offer>, line: string)
    requires !Drain(offers).stopped
    ensures var all, alone := Drain(offers), Drain(OffersOf(offers, line));
            && !alone.stopped
            && alone.remaining == Of(all.remaining, line)
            && alone.calls == OffersOf(all.calls, line)
            && (line in alone.blocked <==> line in all.blocked)
  {
    if offers != [] {
      var p, offer := Drain(Init(offers)), Last(offers);
      LinesAreIndependent(Init(offers), line);
      AdvanceSeenFromLine(p, offer, line);
      if StreamOf(offer.action) == line {
        DrainSnoc(OffersOf(Init(offers), line), offer);
      }
    }
  }

  // Whenever the runner is called, everything loaded ahead of that action in its line
  // has just been accepted.
  lemma {:induction false} CallsAreAtHead(offers: seq<Offer>)
    ensures forall t | 0 <= t < |Drain(offers).calls| :: CallIsAtHead(offers, Drain(offers).calls, t)
    ensures !Drain(offers).stopped ==>
              forall line :: line !in Drain(offers).blocked ==>
                OffersOf(Drain(offers).calls, line) == OffersOf(offers, line) && AllAccepted(OffersOf(offers, line))
  {
    if offers != [] {
      var before, offer := Init(offers), Last(offers);
      var p, q := Drain(before), Drain(offers);
      CallsAreAtHead(before);
      forall t | 0 <= t < |q.calls|
        ensures CallIsAtHead(offers, q.calls, t)
      {
        var line := StreamOf(q.calls[t].action);
        assert OffersOf(offers, line) == AddIf(OffersOf(before, line), StreamOf(offer.action) == line, offer);
        if t < |p.calls| {
          assert q.calls[t] == p.calls[t] && q.calls[..t] == p.calls[..t];
          assert CallIsAtHead(before, p.calls, t);
        } else {
          assert q.calls[..t] == p.calls && q.calls[t] == offer;
        }
      }
      if !q.stopped {
        forall line | line !in q.blocked
          ensures OffersOf(q.calls, line) == OffersOf(offers, line) && AllAccepted(OffersOf(offers, line))
        {
          AdvanceSeenFromLine(p, offer, line);
        }
      }
    }
  }

  // The drain of these offers called the runner on the i-th.
  predicate CalledAt(offers: seq<Offer>, i: nat)
    requires i < |offers|
  {
    |Drain(offers[..i + 1]).calls| > |Drain(offers[..i]).calls|
  }

  // The i-th call holds this action up: it went unanswered, or it failed on a step this one
  // has to wait for.
  predicate HoldsUp(offers: seq<Offer>, i: nat, action: Action)
    requires i < |offers|
  {
    CalledAt(offers, i) &&
    (Unanswered(offers[i].answer) || (!offers[i].answer.Accepted? && MustWait(offers[i].action, action)))
  }

  // Each action is called exactly when no call before it holds it up; so an action behind
  // a failed one of its own order is not called, and no other order's failure matters.
  lemma {:induction false} CalledIffNotHeldUp(offers: seq<Offer>, j: nat)
    requires j < |offers|
    ensures CalledAt(offers, j) <==> !exists i: nat | i < j :: HoldsUp(offers, i, offers[j].action)
  {
    assert offers[..j + 1] == offers[..j] + [offers[j]];
    DrainSnoc(offers[..j], offers[j]);
    WaitsIffHeldUp(offers, j, offers[j].action);
  }

  lemma {:induction false} WaitsIffHeldUp(offers: seq<Offer>, n: nat, action: Action)
    requires n <= |offers|
    ensures Waits(Drain(offers[..n]), action) <==> exists i: nat | i < n :: HoldsUp(offers, i, action)
  {
    if n > 0 {
      var p, offer := Drain(offers[..n - 1]), offers[n - 1];
      assert offers[..n] == offers[..n - 1] + [offer];
      DrainSnoc(offers[..n - 1], offer);
      WaitsIffHeldUp(offers, n - 1, action);
      LinesByPayload(offer.action, action);
      assert CalledAt(offers, n - 1) <==> !Waits(p, offer.action);
      assert Waits(Drain(offers[..n]), action) <==> Waits(p, action) || HoldsUp(offers, n - 1, action);
    } else {
      assert offers[..0] == [];
    }
  }

  predicate CallIsAtHead(offers: seq<Offer>, calls: seq<Offer>, t: nat)
    requires t < |calls|
  {
    var ahead := OffersOf(calls[..t], StreamOf(calls[t].action));
    && ahead + [calls[t]] <= OffersOf(offers, StreamOf(calls[t].action))
    && AllAccepted(ahead)
  }

  // ------------------------------------------------------------- a lost signal

  // A drain stops exactly when some call went unanswered.
  lemma {:induction false} StoppedIffUnanswered(offers: seq<Offer>)
    ensures Drain(offers).stopped <==> exists c :: c in Drain(offers).calls && Unanswered(c.answer)
  {
    if offers != [] {
      StoppedIffUnanswered(Init(offers));
      var p, offer := Drain(Init(offers)), Last(offers);
      assert forall c :: c in p.calls + [offer] <==> c in p.calls || c == offer;
    }
  }

  // The first unanswered call, at position k: the actions before it are drained as if
  // nothing had happened, and it and everything behind it stay exactly as they were.
  lemma {:induction false} StopsAtFirstUnanswered(offers: seq<Offer>) returns (k: nat)
    requires Drain(offers).stopped
    ensures k < |offers| && Unanswered(offers[k].answer)
    ensures var before, after := Drain(offers[..k]), Drain(offers);
            && !before.stopped
            && after.remaining == before.remaining + Actions(offers[k..])
            && after.calls == before.calls + [offers[k]]
            && after.synced == before.synced && after.givenUp == before.givenUp
  {
    var p, offer := Drain(Init(offers)), Last(offers);
    if p.stopped {
      k := StopsAtFirstUnanswered(Init(offers));
      assert Init(offers)[..k] == offers[..k];
      assert Actions(offers[k..]) == Actions(Init(offers)[k..]) + [offer.action];
    } else {
      k := |offers| - 1;
      assert offers[..k] == Init(offers);
      assert Actions(offers[k..]) == [offer.action];
    }
  }
}
