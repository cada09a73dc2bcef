// How many drains a queue can take while every call is answered: a refused action
// holds up its own line for a bounded number of drains and no other line at all
// (washnpress-mobile/src/offline/queue.ts:90-104 with queue-rules.ts:23, 48-53).
module DrainBound {
  import opened Prelude
  import opened QueueRules
  import opened DrainPass

  // The drains one action can still hold its line for.
  function Budget(action: Action): (b: nat)
    ensures b >= 1
  {
    if TriesSoFar(action) < MAX_ACTION_ATTEMPTS then MAX_ACTION_ATTEMPTS - TriesSoFar(action) else 1
  }

  function LineBudget(actions: seq<Action>): nat {
    if actions == [] then 0 else Budget(actions[0]) + LineBudget(actions[1..])
  }

  lemma NoBudgetNoActions(actions: seq<Action>)
    ensures LineBudget(actions) == 0 <==> actions == []
  {
  }

  function AfterDrain(actions: seq<Action>, answers: Answers): seq<Action> {
    Drain(OffersFor(actions, answers)).remaining
  }

  // The queue after n drains, when drain r is answered by server(r).
  function AfterDrains(stored: seq<Action>, server: int -> Answers, n: nat): seq<Action> {
    if n == 0 then stored
    else AfterDrain(AfterDrains(stored, server, n - 1), server(n - 1))
  }

  // Every call the first n drains make is answered, one way or the other.
  predicate EveryCallAnswered(stored: seq<Action>, server: int -> Answers, n: nat) {
    n == 0 ||
    (EveryCallAnswered(stored, server, n - 1) &&
     !Drain(OffersFor(AfterDrains(stored, server, n - 1), server(n - 1))).stopped)
  }

  // One answered drain of one line uses up at least one unit of its budget.
  lemma {:induction false} LineSpendsBudget(offers: seq<Offer>)
    requires forall c | c in Line(offers).calls :: !Unanswered(c.answer)
    ensures LineBudget(Line(offers).remaining) + (if offers == [] then 0 else 1) <= LineBudget(Actions(offers))
  {
    if offers != [] {
      assert Actions(offers)[1..] == Actions(offers[1..]);
      var head := offers[0];
      if head.answer.Accepted? {
        assert Line(offers).calls == [head] + Line(offers[1..]).calls;
        LineSpendsBudget(offers[1..]);
      } else {
        assert head in Line(offers).calls;
        var waiting := Actions(offers[1..]);
        if KeptBy(head).Some? {
          assert ([KeptBy(head).value] + waiting)[1..] == waiting;
        }
      }
    }
  }

  // A line that is refused throughout uses exactly one.
  lemma RefusedLineSpendsOne(offers: seq<Offer>)
    requires forall o | o in offers :: Refused(o.answer)
    ensures LineBudget(Line(offers).remaining) + (if offers == [] then 0 else 1) == LineBudget(Actions(offers))
  {
    if offers != [] {
      assert Actions(offers)[1..] == Actions(offers[1..]);
      var head := offers[0];
      assert head in offers;
      if KeptBy(head).Some? {
        assert ([KeptBy(head).value] + Actions(offers[1..]))[1..] == Actions(offers[1..]);
      }
    }
  }

  lemma OneDrainOfLine(actions: seq<Action>, answers: Answers, line: string)
    requires var p := Drain(OffersFor(actions, answers)); !p.stopped
    ensures LineBudget(Of(AfterDrain(actions, answers), line)) + (if Of(actions, line) == [] then 0 else 1) <= LineBudget(Of(actions, line))
  {
    var offers := OffersFor(actions, answers);
    assert Actions(offers) == actions;
    OffersOfActions(offers, line);
    DrainIsLineByLine(offers, line);
    StoppedIffUnanswered(offers);
    OffersOfAreMembers(Drain(offers).calls, line);
    LineSpendsBudget(OffersOf(offers, line));
  }

  lemma {:induction false} BudgetLeft(stored: seq<Action>, server: int -> Answers, n: nat, line: string)
    requires EveryCallAnswered(stored, server, n)
    ensures LineBudget(Of(AfterDrains(stored, server, n), line)) <= Remaining(LineBudget(Of(stored, line)), n)
  {
    if n > 0 {
      BudgetLeft(stored, server, n - 1, line);
      var before := AfterDrains(stored, server, n - 1);
      OneDrainOfLine(before, server(n - 1), line);
      NoBudgetNoActions(Of(before, line));
    }
  }

  function Remaining(budget: nat, drains: nat): nat {
    if drains < budget then budget - drains else 0
  }

  // A line is empty once as many answered drains have run as its actions had tries left.
  lemma LineEmptiesWithinBudget(stored: seq<Action>, server: int -> Answers, n: nat, line: string)
    requires EveryCallAnswered(stored, server, n)
    requires n >= LineBudget(Of(stored, line))
    ensures Of(AfterDrains(stored, server, n), line) == []
  {
    BudgetLeft(stored, server, n, line);
    NoBudgetNoActions(Of(stored, line));
    NoBudgetNoActions(Of(AfterDrains(stored, server, n), line));
  }

  // The whole queue is empty after the largest of those budgets.
  lemma QueueEmptiesWithinLargestBudget(stored: seq<Action>, server: int -> Answers, n: nat)
    requires EveryCallAnswered(stored, server, n)
    requires forall line :: LineBudget(Of(stored, line)) <= n
    ensures AfterDrains(stored, server, n) == []
  {
    var left := AfterDrains(stored, server, n);
    if left != [] {
      LineEmptiesWithinBudget(stored, server, n, StreamOf(Last(left)));
      assert false;
    }
  }

  // The bound is exact: a server that refuses everything empties a line after precisely
  // its budget, and not one drain sooner.
  lemma {:induction false} RefusedLineTakesWholeBudget(stored: seq<Action>, server: int -> Answers, n: nat, line: string)
    requires forall r: nat, i: nat {:trigger server(r)(i)} :: Refused(server(r)(i))
    ensures var budget, left := LineBudget(Of(stored, line)), Of(AfterDrains(stored, server, n), line);
            && LineBudget(left) == Remaining(budget, n)
            && (left == [] <==> n >= budget)
  {
    if n > 0 {
      RefusedLineTakesWholeBudget(stored, server, n - 1, line);
      OneRefusedDrainOfLine(AfterDrains(stored, server, n - 1), server(n - 1), line);
    }
    NoBudgetNoActions(Of(AfterDrains(stored, server, n), line));
  }

  lemma OneRefusedDrainOfLine(actions: seq<Action>, answers: Answers, line: string)
    requires forall i: nat :: Refused(answers(i))
    ensures LineBudget(Of(AfterDrain(actions, answers), line)) + (if Of(actions, line) == [] then 0 else 1) == LineBudget(Of(actions, line))
  {
    var offers := OffersFor(actions, answers);
    assert Actions(offers) == actions;
    StoppedIffUnanswered(offers);
    DrainConserves(offers);
    SubsequenceMembers(Drain(offers).calls, offers);
    OffersOfActions(offers, line);
    OffersOfAreMembers(offers, line);
    DrainIsLineByLine(offers, line);
    RefusedLineSpendsOne(OffersOf(offers, line));
  }

  // ---------------------------------------------- with enqueues between the drains

  // The queue after n rounds: what arrives before round r, then a drain answered by server(r).
  function AfterRounds(stored: seq<Action>, arrivals: int -> seq<Action>, server: int -> Answers, n: nat): seq<Action> {
    if n == 0 then stored
    else AfterDrain(AfterRounds(stored, arrivals, server, n - 1) + arrivals(n - 1), server(n - 1))
  }

  predicate EveryRoundAnswered(stored: seq<Action>, arrivals: int -> seq<Action>, server: int -> Answers, n: nat) {
    n == 0 ||
    (EveryRoundAnswered(stored, arrivals, server, n - 1) &&
     !Drain(OffersFor(AfterRounds(stored, arrivals, server, n - 1) + arrivals(n - 1), server(n - 1))).stopped)
  }

  // Everything ever stored in the line, in order.
  function EverInLine(stored: seq<Action>, arrivals: int -> seq<Action>, n: nat, line: string): seq<Action> {
    if n == 0 then Of(stored, line) else EverInLine(stored, arrivals, n - 1, line) + Of(arrivals(n - 1), line)
  }

  // One answered drain of a line settles its first k actions, and uses up a unit of the
  // budget of any `ahead` actions at its head that are not all settled.
  lemma {:induction false} HeadSpendsBudget(offers: seq<Offer>, ahead: nat) returns (k: nat)
    requires ahead <= |offers| && forall c | c in Line(offers).calls :: !Unanswered(c.answer)
    ensures k <= |offers| && Ids(Line(offers).remaining) == Ids(Actions(offers))[k..]
    ensures Remaining(ahead, k) <= |Line(offers).remaining|
    ensures LineBudget(Line(offers).remaining[..Remaining(ahead, k)]) + (if ahead == 0 then 0 else 1) <=
            LineBudget(Actions(offers)[..ahead])
  {
    var all := Actions(offers);
    if offers == [] {
      k := 0;
    } else {
      var head, rest := offers[0], Actions(offers[1..]);
      assert all == [head.action] + rest;
      BudgetOfHead(head.action, rest, ahead);
      if head.answer.Accepted? {
        assert Line(offers).calls == [head] + Line(offers[1..]).calls;
        k := HeadSpendsBudget(offers[1..], Remaining(ahead, 1));
        assert Ids(all)[1..] == Ids(rest);
        k := k + 1;
      } else {
        assert head in Line(offers).calls;
        if KeptBy(head).Some? {
          k := 0;
          assert Ids([KeptBy(head).value] + rest) == Ids(all);
          BudgetOfHead(KeptBy(head).value, rest, ahead);
        } else {
          k := 1;
          assert Ids(all)[1..] == Ids(rest);
        }
      }
    }
  }

  lemma BudgetOfHead(head: Action, rest: seq<Action>, ahead: nat)
    requires ahead <= |rest| + 1
    ensures LineBudget(([head] + rest)[..ahead]) == if ahead == 0 then 0 else Budget(head) + LineBudget(rest[..ahead - 1])
  {
    if ahead > 0 {
      assert ([head] + rest)[..ahead] == [head] + rest[..ahead - 1];
    }
  }

  lemma {:induction false} OfConcat(xs: seq<Action>, ys: seq<Action>, line: string)
    ensures Of(xs + ys, line) == Of(xs, line) + Of(ys, line)
  {
    if ys == [] {
      assert xs + ys == xs;
    } else {
      assert Init(xs + ys) == xs + Init(ys) && Last(xs + ys) == Last(ys);
      OfConcat(xs, Init(ys), line);
    }
  }

  // Seen from one line, one round takes k actions off its head.
  lemma OneRoundOfLine(stored: seq<Action>, arrived: seq<Action>, answers: Answers, line: string, ahead: nat)
    returns (k: nat)
    requires !Drain(OffersFor(stored + arrived, answers)).stopped
    requires ahead <= |Of(stored, line)|
    ensures var before, after := Of(stored, line) + Of(arrived, line), Of(AfterDrain(stored + arrived, answers), line);
            && k <= |before| && Ids(after) == Ids(before)[k..] && Remaining(ahead, k) <= |after|
            && LineBudget(after[..Remaining(ahead, k)]) + (if ahead == 0 then 0 else 1) <= LineBudget(Of(stored, line)[..ahead])
  {
    var offers := OffersFor(stored + arrived, answers);
    assert Actions(offers) == stored + arrived;
    OfConcat(stored, arrived, line);
    OffersOfActions(offers, line);
    DrainIsLineByLine(offers, line);
    StoppedIffUnanswered(offers);
    OffersOfAreMembers(Drain(offers).calls, line);
    assert |Actions(OffersOf(offers, line))| == |OffersOf(offers, line)|;
    k := HeadSpendsBudget(OffersOf(offers, line), ahead);
    assert (Of(stored, line) + Of(arrived, line))[..ahead] == Of(stored, line)[..ahead];
  }

  // `left` is all that was `ever` in the line but its first `gone`, and those of the first
  // `ahead` among it have no more than this budget.
  predicate EndOfLine(left: seq<Action>, ever: seq<Action>, gone: nat, ahead: nat, budget: nat) {
    && gone <= |ever| && Ids(left) == Ids(ever)[gone..]
    && Remaining(ahead, gone) <= |left| && LineBudget(left[..Remaining(ahead, gone)]) <= budget
  }

  // What is left of a line is always an end of all that was ever in it, and the actions of
  // its first `ahead` still left have at most the budget the rounds so far have not spent.
  lemma {:induction false} LineLosesItsHead(
    stored: seq<Action>, arrivals: int -> seq<Action>, server: int -> Answers, n: nat, line: string, ahead: nat)
    returns (gone: nat)
    requires EveryRoundAnswered(stored, arrivals, server, n) && ahead <= |Of(stored, line)|
    ensures EndOfLine(Of(AfterRounds(stored, arrivals, server, n), line), EverInLine(stored, arrivals, n, line),
                      gone, ahead, Remaining(LineBudget(Of(stored, line)[..ahead]), n))
  {
    if n == 0 {
      gone := 0;
    } else {
      var before, arrived := AfterRounds(stored, arrivals, server, n - 1), arrivals(n - 1);
      gone := LineLosesItsHead(stored, arrivals, server, n - 1, line, ahead);
      var ever := EverInLine(stored, arrivals, n - 1, line);
      var k := OneRoundOfLine(before, arrived, server(n - 1), line, Remaining(ahead, gone));
      EndOfLineStep(ever, Of(arrived, line), Of(before, line), Of(AfterRounds(stored, arrivals, server, n), line),
                    gone, k, ahead, LineBudget(Of(stored, line)[..ahead]), n);
      gone := gone + k;
    }
  }

  lemma EndOfLineStep(
    ever: seq<Action>, arrived: seq<Action>, before: seq<Action>, after: seq<Action>,
    gone: nat, k: nat, ahead: nat, budget: nat, n: nat)
    requires n > 0 && EndOfLine(before, ever, gone, ahead, Remaining(budget, n - 1))
    requires k <= |before + arrived| && Ids(after) == Ids(before + arrived)[k..]
    requires var held := Remaining(ahead, gone);
             Remaining(held, k) <= |after| &&
             LineBudget(after[..Remaining(held, k)]) + (if held == 0 then 0 else 1) <= LineBudget(before[..held])
    ensures EndOfLine(after, ever + arrived, gone + k, ahead, Remaining(budget, n))
  {
    IdsConcat(ever, arrived);
    IdsConcat(before, arrived);
    assert |Ids(before)| == |before| && |Ids(after)| == |after|;
    assert Ids(before + arrived) == Ids(ever + arrived)[gone..];
    NoBudgetNoActions(after[..Remaining(ahead, gone + k)]);
  }

  lemma IdsConcat(xs: seq<Action>, ys: seq<Action>)
    ensures Ids(xs + ys) == Ids(xs) + Ids(ys)
  {
  }

  // Whatever is enqueued meanwhile, an action leaves within the budget of its line up to and
  // including itself: by then what is left of the line begins behind it.
  lemma ActionLeavesWithinBudget(
    stored: seq<Action>, arrivals: int -> seq<Action>, server: int -> Answers, n: nat, line: string, place: nat)
    returns (gone: nat)
    requires EveryRoundAnswered(stored, arrivals, server, n)
    requires place < |Of(stored, line)| && n >= LineBudget(Of(stored, line)[..place + 1])
    ensures place < gone <= |EverInLine(stored, arrivals, n, line)|
    ensures Ids(Of(AfterRounds(stored, arrivals, server, n), line)) == Ids(EverInLine(stored, arrivals, n, line))[gone..]
  {
    gone := LineLosesItsHead(stored, arrivals, server, n, line, place + 1);
    NoBudgetNoActions(Of(AfterRounds(stored, arrivals, server, n), line)[..Remaining(place + 1, gone)]);
  }
}
