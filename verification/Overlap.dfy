// What goes wrong when operations on the queue overlap, and that nothing goes wrong
// otherwise (washnpress-mobile/src/offline/queue.ts:44-50, 79-108).
module Overlap {
  import opened Prelude
  import opened QueueRules
  import opened DrainPass
  import opened QueueRuns
  import opened QueueCounts
  import opened QueueRepeats
  import opened Interleaving

  // Queued, and now neither stored nor synced, given up, cleared or wiped.
  ghost predicate Lost(m: Machine, action: Action) {
    && Queued(action) in m.log
    && action.id !in Ids(m.store)
    && action.id !in Ids(SettledIn(m.log, StreamOf(action)))
  }

  lemma {:induction false} QueuedIsInLine(log: seq<Event>, action: Action)
    requires Queued(action) in log
    ensures action.id in Ids(QueuedIn(log, StreamOf(action)))
  {
    var line := StreamOf(action);
    var all := QueuedIn(log, line);
    if Last(log) == Queued(action) {
      assert Ids(all)[|all| - 1] == action.id;
    } else {
      assert log == Init(log) + [Last(log)];
      QueuedIsInLine(Init(log), action);
      var before := QueuedIn(Init(log), line);
      assert before <= all;
      var i :| 0 <= i < |before| && Ids(before)[i] == action.id;
      assert Ids(all)[i] == action.id;
    }
  }

  lemma {:induction false} OfMembers(actions: seq<Action>, line: string, id: string)
    requires id in Ids(Of(actions, line))
    ensures id in Ids(actions)
  {
    var before := Init(actions);
    assert actions == before + [Last(actions)];
    HasIdSnoc(before, Last(actions), id);
    if Last(actions).id != id {
      HasIdSnoc(Of(before, line), Last(actions), id);
      OfMembers(before, line, id);
    }
  }

  lemma CutChangesNoAccount(log: seq<Event>, line: string)
    ensures QueuedIn(log + [Cut], line) == QueuedIn(log, line)
    ensures SettledIn(log + [Cut], line) == SettledIn(log, line)
  {
    assert Init(log + [Cut]) == log;
  }

  // A run in which windows never overlap loses nothing but what it wipes, at any moment of
  // the run: an action can only be lost otherwise where two windows overlapped.
  lemma LossMeansOverlap(steps: seq<Step>, action: Action)
    requires Lost(Exec(steps), action)
    ensures !Exclusive(steps)
  {
    if Exclusive(steps) {
      var m, line := Exec(steps), StreamOf(action);
      var ops := ExclusiveRunsAreAtomicThroughout(steps, false);
      EveryActionIsAccountedFor(ops, line);
      CutChangesNoAccount(m.log, line);
      QueuedIsInLine(m.log, action);
      assert Ids(QueuedIn(m.log, line)) == Ids(SettledIn(m.log, line)) + Ids(Of(m.store, line));
      OfMembers(m.store, line, action.id);
    }
  }

  // Without overlap, an action that was queued is neither stored nor synced, given up or
  // cleared if and only if it was wiped: written over by an operation whose load failed.
  lemma ExclusiveRunsLoseExactlyWhatTheyWipe(steps: seq<Step>, id: string)
    requires FreshSteps(steps) && Exclusive(steps)
    ensures var m := Exec(steps);
            !NeverQueued(m.log, id) && WithId(m.store, id) == [] && !LeftProperly(m.log, id) <==> WipedIn(m.log, id)
  {
    var m := Exec(steps);
    var ops := ExclusiveRunsAreAtomicThroughout(steps, true);
    OnlyAWipeLosesWork(ops, id);
    QuietLogCounts(m.log, Cut, id);
    LeftSnoc(m.log, Cut, id);
  }

  // So in any run, work that is gone and was not done was wiped, or two windows overlapped.
  lemma LossMeansOverlapOrWipe(steps: seq<Step>, id: string)
    requires FreshSteps(steps)
    requires var m := Exec(steps); !NeverQueued(m.log, id) && WithId(m.store, id) == [] && !LeftProperly(m.log, id)
    ensures !Exclusive(steps) || WipedIn(Exec(steps).log, id)
  {
    if Exclusive(steps) {
      ExclusiveRunsLoseExactlyWhatTheyWipe(steps, id);
    }
  }

  // The runner reported success on the same action twice, with no drain cut short in between.
  ghost predicate AcceptedTwice(log: seq<Event>, j: nat, k: nat, id: string) {
    && j < k < |log|
    && Touches(log[j], id) && log[j].call.answer.Accepted?
    && Touches(log[k], id)
    && (forall i | j < i < k :: !log[i].Cut?)
  }

  lemma RepeatMeansOverlap(steps: seq<Step>, j: nat, k: nat, id: string)
    requires FreshSteps(steps) && AcceptedTwice(Exec(steps).log, j, k, id)
    ensures !Exclusive(steps)
  {
    if Exclusive(steps) {
      var log := Exec(steps).log;
      var ops := ExclusiveRunsAreAtomicThroughout(steps, true);
      OnlyCutDrainsRepeat(ops, id);
      assert Run(ops).log[..k] == log[..k] && Run(ops).log[k] == log[k];
      StillAccepted(log, j, k, id);
    }
  }

  lemma {:induction false} StillAccepted(log: seq<Event>, j: nat, k: nat, id: string)
    requires j < k <= |log| && Touches(log[j], id) && log[j].call.answer.Accepted?
    requires forall i | j < i < k :: !log[i].Cut?
    ensures AcceptedSinceCut(log[..k], id)
  {
    assert Init(log[..k]) == log[..k - 1];
    if j < k - 1 {
      StillAccepted(log, j, k - 1, id);
    }
  }

  // -------------------------------------------------- the order of sends survives too

  lemma ExclusiveRunsSendInOrder(steps: seq<Step>)
    requires Exclusive(steps)
    ensures InOrder(Exec(steps).log)
  {
    var log := Exec(steps).log;
    var ops := ExclusiveRunsAreAtomicThroughout(steps, false);
    NothingOvertakes(ops);
    forall k | 0 <= k < |log| && log[k].Called?
      ensures AtHead(log[..k], log[k].call.action)
    {
      assert Run(ops).log[..k] == log[..k] && Run(ops).log[k] == log[k];
    }
  }

  // -------------------------------------------------------- overlaps that do harm

  function BothLoad(a: Action, b: Action): seq<Step> {
    [LoadToEnqueue(0, a, true), Save(0), LoadToSync(1, true), LoadToEnqueue(2, b, true)]
  }

  // One action stored, a drain that has loaded it, an enqueue that has loaded it too.
  lemma BothHaveLoaded(a: Action, b: Action)
    ensures Exec(BothLoad(a, b)) ==
            Machine([a], [Queued(a)], map[1 := Draining([a], []), 2 := Adding([a], b)], {})
  {
    var s1 := [LoadToEnqueue(0, a, true), Save(0)];
    ExecTwo([], LoadToEnqueue(0, a, true), Save(0));
    assert [] + s1 == s1;
    assert Next(START_MACHINE, LoadToEnqueue(0, a, true)).procs - {0} == map[];
    assert [] + [a] == [a];
    assert Exec(s1) == Machine([a], [Queued(a)], map[], {});
    ExecTwo(s1, LoadToSync(1, true), LoadToEnqueue(2, b, true));
    assert BothLoad(a, b) == s1 + [LoadToSync(1, true), LoadToEnqueue(2, b, true)];
  }

  // An action queued while a drain is waiting on the runner is wiped out by that drain's
  // save: stored, never sent, and gone.
  lemma EnqueueDuringDrainIsLost(a: Action, b: Action)
    requires a.id != b.id
    ensures Lost(Exec(BothLoad(a, b) + [Save(2), Handle(1, Accepted)] + [Save(1)]), b)
  {
    var s := BothLoad(a, b);
    BothHaveLoaded(a, b);
    ExecTwo(s, Save(2), Handle(1, Accepted));
    var call := Offer(a, Accepted);
    DrainOne(call);
    var m := Next(Next(Exec(s), Save(2)), Handle(1, Accepted));
    assert m.log == [Queued(a), Queued(b), Called(call)];
    assert m.procs[1] == Draining([a], [call]);
    ExecSnoc(s + [Save(2), Handle(1, Accepted)], Save(1));
    var m' := Next(m, Save(1));
    assert m'.store == [] && m'.log == [Queued(a), Queued(b), Called(call), Closed([call])];
    assert m'.log[1] == Queued(b);
    OnlyFirstSettled(a, b);
  }

  lemma OnlyFirstSettled(a: Action, b: Action)
    requires a.id != b.id
    ensures var call := Offer(a, Accepted);
            b.id !in Ids(SettledIn([Queued(a), Queued(b), Called(call), Closed([call])], StreamOf(b)))
  {
    var call, line := Offer(a, Accepted), StreamOf(b);
    var log := [Queued(a), Queued(b), Called(call), Closed([call])];
    var l3, l2, l1 := Init(log), Init(Init(log)), Init(Init(Init(log)));
    assert SettledIn(l1, line) == [] by { assert Init(l1) == []; }
    assert SettledIn(l2, line) == SettledIn(l1, line);
    assert SettledIn(l3, line) == SettledIn(l2, line);
    assert SettledIn(log, line) == [] + Of(Settled([call]), line);
    assert Init([call]) == [] && Settled([call]) == [a];
    assert Init([a]) == [];
  }

  // Two drains in flight at once send the same action twice, and the runner reports
  // success on both.
  lemma OverlappingDrainsSendTwice(a: Action)
    ensures var steps := [LoadToEnqueue(0, a, true), Save(0)] + [LoadToSync(1, true), LoadToSync(2, true)]
                         + [Handle(1, Accepted), Handle(2, Accepted)];
            AcceptedTwice(Exec(steps).log, 1, 2, a.id)
  {
    var s1 := [LoadToEnqueue(0, a, true), Save(0)];
    var s2 := s1 + [LoadToSync(1, true), LoadToSync(2, true)];
    ExecTwo([], LoadToEnqueue(0, a, true), Save(0));
    assert [] + [a] == [a] && [] + s1 == s1;
    var m1 := Exec(s1);
    assert m1.store == [a] && m1.log == [Queued(a)] && m1.procs == map[];
    ExecTwo(s1, LoadToSync(1, true), LoadToSync(2, true));
    var m2 := Exec(s2);
    assert m2.procs[1] == m2.procs[2] == Draining([a], []) && m2.log == m1.log;
    ExecTwo(s2, Handle(1, Accepted), Handle(2, Accepted));
    var call := Offer(a, Accepted);
    assert Exec(s2 + [Handle(1, Accepted), Handle(2, Accepted)]).log == [Queued(a), Called(call), Called(call)];
  }

  lemma ExecSnoc(steps: seq<Step>, step: Step)
    ensures Exec(steps + [step]) == Next(Exec(steps), step)
  {
    assert Init(steps + [step]) == steps;
  }

  lemma ExecTwo(steps: seq<Step>, s: Step, t: Step)
    ensures Exec(steps + [s, t]) == Next(Next(Exec(steps), s), t)
  {
    assert Init(steps + [s, t]) == steps + [s];
    ExecSnoc(steps, s);
  }

  lemma DrainOne(call: Offer)
    requires call.answer.Accepted?
    ensures Drain([call]) == Progress([], {}, 1, 0, false, [call])
  {
    assert Init([call]) == [];
  }

  // ------------------------------------------ exactly which saves lose something

  predicate SettledBySave(proc: Proc, id: string) {
    proc.Draining? && id in Ids(Settled(Drain(proc.done).calls))
  }

  // Stored before this save, not stored after it, and not for having been settled.
  predicate SaveLoses(m: Machine, pid: nat, id: string)
    requires ReadyToSave(m, pid)
  {
    && id in Ids(m.store)
    && id !in Ids(Next(m, Save(pid)).store)
    && !SettledBySave(m.procs[pid], id)
  }

  predicate LoadsAreTracked(m: Machine) {
    forall pid | pid in m.procs && m.procs[pid].Draining? ::
      |m.procs[pid].done| <= |m.procs[pid].loaded| &&
      Actions(m.procs[pid].done) == m.procs[pid].loaded[..|m.procs[pid].done|]
  }

  lemma {:induction false} LoadsStayTracked(steps: seq<Step>)
    ensures LoadsAreTracked(Exec(steps))
  {
    if steps != [] {
      LoadsStayTracked(Init(steps));
      var m, step := Exec(Init(steps)), Last(steps);
      if step.Handle? && Enabled(m, step) {
        var proc := m.procs[step.pid];
        var offer := Offer(proc.loaded[|proc.done|], step.answer);
        assert Actions(proc.done + [offer]) == Actions(proc.done) + [offer.action];
      }
    }
  }

  // In every interleaving whatever, a save loses exactly the actions that were stored and
  // that its operation had not loaded (nor is itself adding). So it is harmless if and
  // only if everything stored at that moment had been loaded.
  lemma SaveLosesWhatItNeverLoaded(steps: seq<Step>, pid: nat, id: string)
    requires ReadyToSave(Exec(steps), pid)
    ensures var m, proc := Exec(steps), Exec(steps).procs[pid];
            SaveLoses(m, pid, id) <==>
            && id in Ids(m.store)
            && id !in Ids(proc.loaded)
            && (proc.Adding? ==> id != proc.action.id)
  {
    var m, proc := Exec(steps), Exec(steps).procs[pid];
    LoadsStayTracked(steps);
    match proc
    case Adding(loaded, action) =>
      HasIdSnoc(loaded, action, id);
    case Draining(loaded, done) =>
      assert Actions(done) == loaded;
      DrainSplitsIds(done, id);
  }
}
