// The shared data loader of the mobile screens, and its guard against late responses
// (washnpress-mobile/src/hooks.ts:17-44).
module Loader {
  import opened Prelude

  // What one load comes to.
  datatype Outcome<T> = Got(value: T) | Threw(message: string)

  datatype Screen<T> = Screen(
    generation: nat,
    mounted: bool,
    data: Option<T>,
    busy: bool,
    error: Option<string>)

  function FirstScreen<T>(): Screen<T> {
    Screen(0, true, None, true, None)
  }

  function Started<T>(s: Screen<T>): Screen<T> {
    s.(generation := s.generation + 1, busy := true, error := None)
  }

  predicate Heeded<T>(s: Screen<T>, mine: nat) {
    mine == s.generation && s.mounted
  }

  function Settled<T>(s: Screen<T>, mine: nat, outcome: Outcome<T>): Screen<T> {
    if !Heeded(s, mine) then s
    else
      match outcome
      case Got(value) => s.(data := Some(value), busy := false)
      case Threw(message) => s.(error := Some(message), busy := false)
  }

  // The hook's own state. A load is begun and settles in two separate steps, with
  // anything in between.
  class UseLoader<T> {
    var data: Option<T>
    var busy: bool
    var error: Option<string>
    var generation: nat
    var mounted: bool

    constructor ()
      ensures State() == FirstScreen()
    {
      data, busy, error := None, true, None;
      generation, mounted := 0, true;
    }

    function State(): Screen<T>
      reads this
    {
      Screen(generation, mounted, data, busy, error)
    }

    method Reload() returns (mine: nat)
      modifies this
      ensures State() == Started(old(State())) && mine == generation
      ensures mine > old(generation) && busy && error == None && data == old(data)
    {
      generation := generation + 1;
      mine := generation;
      busy := true;
      error := None;
    }

    method Settle(mine: nat, outcome: Outcome<T>)
      modifies this
      ensures State() == Settled(old(State()), mine, outcome)
      ensures mine != generation || !mounted ==> State() == old(State())
      ensures mine == generation && mounted ==> !busy
    {
      match outcome {
        case Got(value) =>
          if mine == generation && mounted { data := Some(value); }
        case Threw(message) =>
          if mine == generation && mounted { error := Some(message); }
      }
      if mine == generation && mounted { busy := false; }
    }

    method Unmount()
      modifies this
      ensures State() == old(State()).(mounted := false)
      ensures data == old(data) && error == old(error) && forall mine, outcome :: Settled(State(), mine, outcome) == State()
    {
      mounted := false;
    }
  }

  // -------------------------------------------------------------- whole histories

  datatype Event<T> =
    | Reload
    | Settle(load: nat, outcome: Outcome<T>)  // the load numbered so comes to this
    | Unmount

  // The screen, what each load has come to, and which loads' results it has shown.
  datatype History<T> = History(screen: Screen<T>, outcomes: map<nat, Outcome<T>>, shown: seq<nat>)

  function After<T>(h: History<T>, event: Event<T>): History<T> {
    match event
    case Reload => h.(screen := Started(h.screen))
    case Unmount => h.(screen := h.screen.(mounted := false))
    case Settle(load, outcome) =>
      // Each load settles once, after it was started.
      if !(1 <= load <= h.screen.generation) || load in h.outcomes then h
      else
        History(Settled(h.screen, load, outcome), h.outcomes[load := outcome],
                if Heeded(h.screen, load) && outcome.Got? then h.shown + [load] else h.shown)
  }

  function Run<T>(events: seq<Event<T>>): History<T> {
    if events == [] then History(FirstScreen(), map[], []) else After(Run(Init(events)), Last(events))
  }

  predicate Increasing(xs: seq<nat>) {
    forall i, j | 0 <= i < j < |xs| :: xs[i] < xs[j]
  }

  // The data on screen is that of the last load shown.
  ghost predicate ShowsLast<T>(h: History<T>) {
    if h.shown == [] then h.screen.data == None
    else
      var load := Last(h.shown);
      load <= h.screen.generation && load in h.outcomes && h.outcomes[load].Got? &&
      h.screen.data == Some(h.outcomes[load].value)
  }

  predicate BusyWithNewest<T>(h: History<T>) {
    h.screen.busy <==> h.screen.generation !in h.outcomes
  }

  ghost predicate ShowsNewest<T>(h: History<T>) {
    if h.screen.generation !in h.outcomes then h.screen.error == None
    else
      match h.outcomes[h.screen.generation]
      case Got(value) => h.screen.data == Some(value) && h.screen.error == None
      case Threw(message) => h.screen.error == Some(message)
  }

  // However loads overlap and in whatever order they settle: results appear in the order
  // their loads were started, and while the screen is up it is busy exactly as long as
  // the newest load is out, and then shows what that load came to.
  lemma {:induction false} NewestLoadWins<T>(events: seq<Event<T>>)
    ensures var h := Run(events);
            && (forall load | load in h.outcomes :: 1 <= load <= h.screen.generation)
            && Increasing(h.shown) && ShowsLast(h)
            && (h.screen.mounted ==> BusyWithNewest(h) && ShowsNewest(h))
  {
    if events != [] {
      NewestLoadWins(Init(events));
      var h, event := Run(Init(events)), Last(events);
      if event.Settle? && Heeded(h.screen, event.load) && event.load !in h.outcomes && event.outcome.Got? {
        assert h.shown == [] || Last(h.shown) != event.load;
      }
    }
  }

  // ------------------------------------------------------- what the events alone say

  function Loads<T>(events: seq<Event<T>>): nat {
    if events == [] then 0 else Loads(Init(events)) + if Last(events).Reload? then 1 else 0
  }

  predicate HasSettled<T>(events: seq<Event<T>>, load: nat) {
    events != [] &&
    (HasSettled(Init(events), load) ||
     (Last(events).Settle? && Last(events).load == load && 1 <= load <= Loads(Init(events))))
  }

  predicate Unmounted<T>(events: seq<Event<T>>) {
    events != [] && (Last(events).Unmount? || Unmounted(Init(events)))
  }

  // The last event is the success of a load that is still the newest, on a mounted screen.
  predicate TimelySuccess<T>(events: seq<Event<T>>) {
    && events != [] && Last(events).Settle? && Last(events).outcome.Got?
    && 1 <= Last(events).load == Loads(Init(events))
    && !HasSettled(Init(events), Last(events).load) && !Unmounted(Init(events))
  }

  // What the last load that succeeded while it was still the newest brought.
  function TimelyData<T>(events: seq<Event<T>>): Option<T> {
    if events == [] then None
    else if TimelySuccess(events) then Some(Last(events).outcome.value)
    else TimelyData(Init(events))
  }

  lemma {:induction false} EventsTellTheScreen<T>(events: seq<Event<T>>)
    ensures var h := Run(events);
            && h.screen.generation == Loads(events) && h.screen.mounted == !Unmounted(events)
            && (forall load :: load in h.outcomes <==> HasSettled(events, load))
            && h.screen.data == TimelyData(events)
  {
    if events != [] {
      EventsTellTheScreen(Init(events));
      NewestLoadWins(Init(events));
    }
  }

  // Two mounted screens whose loads have come to the same things look the same exactly when
  // the newest load succeeded, or the last load that succeeded while still the newest
  // brought the same to both: any other response may arrive in any order.
  lemma ArrivalOrderIsInvisibleIff<T>(a: seq<Event<T>>, b: seq<Event<T>>)
    requires !Unmounted(a) && !Unmounted(b) && Loads(a) == Loads(b)
    requires Run(a).outcomes == Run(b).outcomes
    ensures var outcomes := Run(a).outcomes;
            Run(a).screen == Run(b).screen <==>
            (Loads(a) in outcomes && outcomes[Loads(a)].Got?) || TimelyData(a) == TimelyData(b)
  {
    EventsTellTheScreen(a);
    EventsTellTheScreen(b);
    NewestLoadWins(a);
    NewestLoadWins(b);
  }

  // When the newest load failed it does make a difference: an older result that arrived
  // while its load was still the newest stays on screen, and one that arrived late does not.
  lemma ArrivalOrderShowsBehindAnError<T>(value: T, message: string)
    ensures var early := Run([Reload, Settle(1, Got(value)), Reload, Settle(2, Threw(message))]);
            var late := Run([Reload, Reload, Settle(1, Got(value)), Settle(2, Threw(message))]);
            && early.outcomes == late.outcomes && early.screen.generation == late.screen.generation
            && early.screen.data == Some(value) && late.screen.data == None
  {
    var first: seq<Event<T>> := [Reload];
    RunSnoc<T>([], Reload);
    RunSnoc(first, Settle(1, Got(value)));
    RunSnoc(first + [Settle(1, Got(value))], Reload);
    RunSnoc(first + [Settle(1, Got(value))] + [Reload], Settle(2, Threw(message)));
    RunSnoc(first, Reload);
    RunSnoc(first + [Reload], Settle(1, Got(value)));
    RunSnoc(first + [Reload] + [Settle(1, Got(value))], Settle(2, Threw(message)));
    assert [] + [Reload] == first;
    assert first + [Settle(1, Got(value))] + [Reload] + [Settle(2, Threw(message))] ==
           [Reload, Settle(1, Got(value)), Reload, Settle(2, Threw(message))];
    assert first + [Reload] + [Settle(1, Got(value))] + [Settle(2, Threw(message))] ==
           [Reload, Reload, Settle(1, Got(value)), Settle(2, Threw(message))];
  }

  lemma RunSnoc<T>(events: seq<Event<T>>, event: Event<T>)
    ensures Run(events + [event]) == After(Run(events), event)
  {
    assert Init(events + [event]) == events;
  }
}
