// The queue with its awaits taken apart: load, every runner call and save are separate
// steps, and any number of operations may be in flight on the one queue object
// (washnpress-mobile/src/offline/queue.ts:44-50, 68-70, 79-108; App.tsx:242-243).
module Interleaving {
  import opened Prelude
  import opened QueueRules
  import opened DrainPass
  import opened QueueRuns
  import opened QueueCounts

  // An operation between its load and its save.
  datatype Proc =
    | Adding(loaded: seq<Action>, action: Action)
    | Draining(loaded: seq<Action>, done: seq<Offer>)

  // `blind` are the operations whose load was not served, and which took the queue for empty.
  datatype Machine = Machine(store: seq<Action>, log: seq<Event>, procs: map<nat, Proc>, blind: set<nat>)

  datatype Step =
    | SendDirect(action: Action, answer: Answer)  // a tap, sent straight to the server
    | LoadToEnqueue(pid: nat, action: Action, readable: bool)
    | LoadToSync(pid: nat, readable: bool)
    | Handle(pid: nat, answer: Answer)  // the loop takes the next loaded action
    | Save(pid: nat)
    | SaveRefused(pid: nat)
    | Die                               // the app is killed
    | ClearStore

  const START_MACHINE := Machine([], [], map[], {})

  predicate ReadyToSave(m: Machine, pid: nat) {
    pid in m.procs && (m.procs[pid].Draining? ==> |m.procs[pid].done| == |m.procs[pid].loaded|)
  }

  predicate Enabled(m: Machine, step: Step) {
    match step
    case SendDirect(_, _) => true
    case LoadToEnqueue(pid, _, _) => pid !in m.procs
    case LoadToSync(pid, _) => pid !in m.procs
    case Handle(pid, _) =>
      pid in m.procs && m.procs[pid].Draining? && |m.procs[pid].done| < |m.procs[pid].loaded|
    case Save(pid) => ReadyToSave(m, pid)
    case SaveRefused(pid) => ReadyToSave(m, pid)
    case Die => true
    case ClearStore => true
  }

  function Saved(proc: Proc): seq<Action> {
    match proc
    case Adding(loaded, action) => loaded + [action]
    case Draining(_, done) => Drain(done).remaining
  }

  function Begin(m: Machine, pid: nat, proc: Proc, readable: bool): Machine {
    m.(procs := m.procs[pid := proc], blind := if readable then m.blind - {pid} else m.blind + {pid})
  }

  // A step that is not enabled does nothing.
  function Next(m: Machine, step: Step): Machine {
    if !Enabled(m, step) then m
    else
      match step
      case SendDirect(_, _) => m
      case LoadToEnqueue(pid, action, readable) => Begin(m, pid, Adding(Seen(m.store, readable), action), readable)
      case LoadToSync(pid, readable) => Begin(m, pid, Draining(Seen(m.store, readable), []), readable)
      case Handle(pid, answer) =>
        var proc := m.procs[pid];
        var offer := Offer(proc.loaded[|proc.done|], answer);
        m.(log := AddIf(m.log, !Waits(Drain(proc.done), offer.action), Called(offer)),
           procs := m.procs[pid := Draining(proc.loaded, proc.done + [offer])])
      case Save(pid) =>
        Machine(Saved(m.procs[pid]),
                AddIf(m.log, pid in m.blind, Wiped(m.store)) + [SaveEvent(m.procs[pid])],
                m.procs - {pid}, m.blind - {pid})
      case SaveRefused(pid) =>
        m.(log := AddIf(m.log, m.procs[pid].Draining?, Cut), procs := m.procs - {pid}, blind := m.blind - {pid})
      case Die => m.(log := m.log + [Cut], procs := map[], blind := {})
      case ClearStore => m.(store := [], log := m.log + [Dropped(m.store)])
  }

  function SaveEvent(proc: Proc): Event {
    match proc
    case Adding(_, action) => Queued(action)
    case Draining(_, done) => Closed(Drain(done).calls)
  }

  function Exec(steps: seq<Step>): Machine {
    if steps == [] then START_MACHINE else Next(Exec(Init(steps)), Last(steps))
  }

  // Whatever is in flight, the app can be killed, and keeps what is stored and nothing else;
  // and the store can be cleared, with what is in flight still to save over it.
  lemma KillingAndClearingNeverWait(m: Machine)
    ensures var dead := Next(m, Die); dead.store == m.store && dead.procs == map[] && dead.log == m.log + [Cut]
    ensures var bare := Next(m, ClearStore);
            bare.store == [] && bare.procs == m.procs && bare.log == m.log + [Dropped(m.store)]
  {
  }

  // No operation loads, and nothing is cleared, while another is between its load and save.
  predicate Exclusive(steps: seq<Step>) {
    steps == [] ||
    (Exclusive(Init(steps)) &&
     (Last(steps).LoadToEnqueue? || Last(steps).LoadToSync? || Last(steps).ClearStore? ==>
        Exec(Init(steps)).procs == map[]))
  }

  predicate FreshSteps(steps: seq<Step>) {
    steps == [] ||
    (FreshSteps(Init(steps)) &&
     (Last(steps).LoadToEnqueue? ==>
        Last(steps).action.attempts == Some(0) && NeverQueued(Exec(Init(steps)).log, Last(steps).action.id)))
  }

  // ------------------------------------------ runs that do not overlap are atomic

  function AnswersOf(done: seq<Offer>): Answers {
    i => if 0 <= i < |done| then done[i].answer else Accepted
  }

  // The machine, explained as a run of whole operations: `ops` and, when one operation
  // is in flight, what it has done so far.
  ghost predicate Explained(m: Machine, ops: seq<Op>, newIds: bool) {
    && Run(ops).store == m.store
    && (newIds ==> FreshRun(ops))
    && (m.procs == map[] ==> Run(ops).log == m.log)
    && (forall pid | pid in m.procs ::
          m.procs == map[pid := m.procs[pid]] && InFlight(m, ops, m.procs[pid], pid !in m.blind, newIds))
  }

  ghost predicate InFlight(m: Machine, ops: seq<Op>, proc: Proc, readable: bool, newIds: bool) {
    && proc.loaded == Seen(m.store, readable)
    && match proc
       case Adding(_, action) =>
         && Run(ops).log == m.log
         && (newIds ==> action.attempts == Some(0) && NeverQueued(m.log, action.id))
       case Draining(loaded, done) =>
         && |done| <= |loaded| && Actions(done) == loaded[..|done|]
         && m.log == Run(ops).log + CallEvents(Drain(done).calls)
  }

  lemma DoneIsOffered(loaded: seq<Action>, done: seq<Offer>)
    requires |done| <= |loaded| && Actions(done) == loaded[..|done|]
    ensures Take(OffersFor(loaded, AnswersOf(done)), |done|) == done
  {
    assert forall i | 0 <= i < |done| :: Actions(done)[i] == loaded[i];
  }

  lemma RunSnoc(ops: seq<Op>, op: Op)
    ensures Run(ops + [op]) == Apply(Run(ops), op)
    ensures FreshRun(ops + [op]) <==>
            FreshRun(ops) &&
            (op.Enqueue? ==> op.action.attempts == Some(0) && NeverQueued(Run(ops).log, op.action.id))
  {
    assert Init(ops + [op]) == ops;
  }

  lemma {:induction false} Explain(steps: seq<Step>, newIds: bool) returns (ops: seq<Op>)
    requires Exclusive(steps) && (newIds ==> FreshSteps(steps))
    ensures Explained(Exec(steps), ops, newIds)
  {
    if steps == [] {
      ops := [];
    } else {
      ops := Explain(Init(steps), newIds);
      ops := ExplainStep(Exec(Init(steps)), ops, Last(steps), newIds);
    }
  }

  lemma ExplainStep(m: Machine, ops: seq<Op>, step: Step, newIds: bool) returns (ops': seq<Op>)
    requires Explained(m, ops, newIds)
    requires step.LoadToEnqueue? || step.LoadToSync? || step.ClearStore? ==> m.procs == map[]
    requires newIds && step.LoadToEnqueue? ==> step.action.attempts == Some(0) && NeverQueued(m.log, step.action.id)
    ensures Explained(Next(m, step), ops', newIds)
  {
    ops' := ops;
    if Enabled(m, step) {
      match step
      case SendDirect(_, _) =>
      case LoadToEnqueue(pid, action, readable) =>
      case LoadToSync(pid, readable) =>
        assert Run(ops).log + CallEvents([]) == m.log;
      case Handle(pid, answer) =>
        ExplainHandle(m, ops, pid, answer, newIds);
      case Save(pid) =>
        ops' := ExplainSave(m, ops, pid, newIds);
      case SaveRefused(pid) =>
        assert m.procs - {pid} == map[];
        if m.procs[pid].Draining? {
          ops' := ExplainCut(m, ops, pid, Next(m, step), newIds);
        }
      case Die =>
        if pid :| pid in m.procs && m.procs[pid].Draining? {
          ops' := ExplainCut(m, ops, pid, Next(m, step), newIds);
        } else {
          assert Run(ops).log == m.log by {
            if pid :| pid in m.procs { assert m.procs[pid].Adding?; }
          }
          RunSnoc(ops, SyncCut(AnswersOf([]), 0));
          assert m.log + CallEvents([]) + [Cut] == m.log + [Cut];
          ops' := ops + [SyncCut(AnswersOf([]), 0)];
        }
      case ClearStore =>
        RunSnoc(ops, Clear(true));
        ops' := ops + [Clear(true)];
    }
  }

  lemma ExplainHandle(m: Machine, ops: seq<Op>, pid: nat, answer: Answer, newIds: bool)
    requires Explained(m, ops, newIds) && Enabled(m, Handle(pid, answer))
    ensures Explained(Next(m, Handle(pid, answer)), ops, newIds)
  {
    var proc := m.procs[pid];
    var offer := Offer(proc.loaded[|proc.done|], answer);
    var done := proc.done + [offer];
    DrainSnoc(proc.done, offer);
    assert Actions(done) == Actions(proc.done) + [offer.action];
    var calls := Drain(proc.done).calls;
    assert CallEvents(calls + [offer]) == CallEvents(calls) + [Called(offer)];
    assert m.procs[pid := Draining(proc.loaded, done)] == map[pid := Draining(proc.loaded, done)];
  }

  // A save whose load was not served forgets the queue first.
  function AfterLoad(ops: seq<Op>, readable: bool): seq<Op> {
    if readable then ops else ops + [Forget]
  }

  lemma ExplainSave(m: Machine, ops: seq<Op>, pid: nat, newIds: bool) returns (ops': seq<Op>)
    requires Explained(m, ops, newIds) && ReadyToSave(m, pid)
    ensures Explained(Next(m, Save(pid)), ops', newIds)
  {
    assert m.procs - {pid} == map[];
    var proc, readable := m.procs[pid], pid !in m.blind;
    var before := AfterLoad(ops, readable);
    RunSnoc(ops, Forget);
    assert InFlight(m, ops, proc, readable, newIds);
    match proc
    case Adding(loaded, action) =>
      assert NeverQueued(m.log + [Wiped(m.store)], action.id) <==> NeverQueued(m.log, action.id);
      RunSnoc(before, Enqueue(action, true));
      ops' := before + [Enqueue(action, true)];
    case Draining(loaded, done) =>
      DoneIsOffered(loaded, done);
      assert OffersFor(loaded, AnswersOf(done)) == done;
      RunSnoc(before, Sync(AnswersOf(done)));
      ops' := before + [Sync(AnswersOf(done))];
      if !readable {
        assert done == [] && Drain(done).calls == [];
        assert m.log + CallEvents([]) == m.log && Run(ops).log + CallEvents([]) == Run(ops).log;
        assert m.log + [Wiped(m.store)] + CallEvents([]) == m.log + [Wiped(m.store)];
      }
  }

  lemma ExplainCut(m: Machine, ops: seq<Op>, pid: nat, next: Machine, newIds: bool) returns (ops': seq<Op>)
    requires Explained(m, ops, newIds) && pid in m.procs && m.procs[pid].Draining?
    requires next.store == m.store && next.log == m.log + [Cut] && next.procs == map[]
    ensures Explained(next, ops', newIds)
  {
    var done := m.procs[pid].done;
    assert InFlight(m, ops, m.procs[pid], pid !in m.blind, newIds);
    DoneIsOffered(m.procs[pid].loaded, done);
    RunSnoc(ops, SyncCut(AnswersOf(done), |done|));
    ops' := ops + [SyncCut(AnswersOf(done), |done|)];
  }

  // A run whose load-to-save windows never overlap is, whenever nothing is in flight,
  // a run of whole operations: same storage, same calls in the same order.
  lemma ExclusiveRunsAreAtomic(steps: seq<Step>)
    requires Exclusive(steps) && Exec(steps).procs == map[]
    ensures exists ops :: Run(ops) == QueueState(Exec(steps).store, Exec(steps).log)
  {
    var ops := Explain(steps, false);
    assert Run(ops) == QueueState(Exec(steps).store, Exec(steps).log);
  }

  // Part way through, it is a run of whole operations cut short where it stands.
  ghost predicate AtomicIfCutNow(m: Machine, ops: seq<Op>) {
    && Run(ops).store == m.store
    && (Run(ops).log == m.log || Run(ops).log == m.log + [Cut])
  }

  lemma ExclusiveRunsAreAtomicThroughout(steps: seq<Step>, newIds: bool) returns (ops: seq<Op>)
    requires Exclusive(steps) && (newIds ==> FreshSteps(steps))
    ensures AtomicIfCutNow(Exec(steps), ops)
    ensures newIds ==> FreshRun(ops)
  {
    var m := Exec(steps);
    ops := Explain(steps, newIds);
    if pid :| pid in m.procs {
      if m.procs[pid].Draining? {
        ops := ExplainCut(m, ops, pid, m.(log := m.log + [Cut], procs := map[]), newIds);
      }
    }
  }
}
