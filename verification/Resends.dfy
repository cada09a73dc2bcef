// How often one action can be sent, and carried out by the server, over every
// interleaving of the queue's operations
// (washnpress-mobile/src/offline/queue.ts:44-50, 68-70, 79-108).
module Resends {
  import opened Prelude
  import opened QueueRules
  import opened DrainPass
  import opened QueueRuns
  import opened QueueCounts
  import opened QueueRepeats
  import opened Interleaving

  predicate Has(actions: seq<Action>, id: string) {
    WithId(actions, id) != []
  }

  // The runner reported success on this action in one of these calls.
  predicate Succeeds(calls: seq<Offer>, id: string) {
    exists c | c in calls :: c.action.id == id && c.answer.Accepted?
  }

  // This operation is a drain that has had that success.
  predicate Synced(proc: Proc, id: string) {
    proc.Draining? && Succeeds(Drain(proc.done).calls, id)
  }

  predicate SyncedInFlight(m: Machine, id: string) {
    exists pid | pid in m.procs :: Synced(m.procs[pid], id)
  }

  predicate SyncedByAnother(m: Machine, pid: nat, id: string) {
    exists q | q in m.procs && q != pid :: Synced(m.procs[q], id)
  }

  // ------------------------------------------------------------- what a step does

  // The step calls the runner on this action.
  predicate Sends(m: Machine, step: Step, id: string) {
    && step.Handle? && Enabled(m, step)
    && var proc := m.procs[step.pid];
       var action := proc.loaded[|proc.done|];
       action.id == id && !Waits(Drain(proc.done), action)
  }

  predicate SendsAndSyncs(m: Machine, step: Step, id: string) {
    Sends(m, step, id) && step.answer.Accepted?
  }

  // The reply is lost, but the server carried the action out.
  predicate SendsAndLosesReply(m: Machine, step: Step, id: string) {
    Sends(m, step, id) && step.answer.Failed? && step.answer.carriedOut
  }

  // A drain sends what another drain in flight has synced, or what is no longer stored.
  predicate SendsStale(m: Machine, step: Step, id: string) {
    SendsAndSyncs(m, step, id) && (SyncedByAnother(m, step.pid, id) || !Has(m.store, id))
  }

  // A drain that had synced the action ends unsaved, and leaves it stored.
  predicate CutsAfterSync(m: Machine, step: Step, id: string) {
    || (step.Die? && SyncedInFlight(m, id))
    || (step.SaveRefused? && Enabled(m, step) && Synced(m.procs[step.pid], id))
  }

  // A drain that synced the action saves.
  predicate ClosesSync(m: Machine, step: Step, id: string) {
    step.Save? && Enabled(m, step) && Synced(m.procs[step.pid], id)
  }

  predicate AddsItself(proc: Proc, id: string) {
    proc.Adding? && proc.action.id == id
  }

  // A save stores an action that was not stored, and that it is not itself adding.
  predicate PutsBack(m: Machine, step: Step, id: string) {
    && step.Save? && Enabled(m, step)
    && !Has(m.store, id) && Has(Saved(m.procs[step.pid]), id) && !AddsItself(m.procs[step.pid], id)
  }

  // ---------------------------------------------------------- counted over a run

  function One(b: bool): nat {
    if b then 1 else 0
  }

  function Syncs(steps: seq<Step>, id: string): nat {
    if steps == [] then 0 else Syncs(Init(steps), id) + One(SendsAndSyncs(Exec(Init(steps)), Last(steps), id))
  }

  function LostReplies(steps: seq<Step>, id: string): nat {
    if steps == [] then 0 else LostReplies(Init(steps), id) + One(SendsAndLosesReply(Exec(Init(steps)), Last(steps), id))
  }

  function StaleSyncs(steps: seq<Step>, id: string): nat {
    if steps == [] then 0 else StaleSyncs(Init(steps), id) + One(SendsStale(Exec(Init(steps)), Last(steps), id))
  }

  function Cuts(steps: seq<Step>, id: string): nat {
    if steps == [] then 0 else Cuts(Init(steps), id) + One(CutsAfterSync(Exec(Init(steps)), Last(steps), id))
  }

  function PutBacks(steps: seq<Step>, id: string): nat {
    if steps == [] then 0 else PutBacks(Init(steps), id) + One(PutsBack(Exec(Init(steps)), Last(steps), id))
  }

  // How often the server carries the action out, heard of or not.
  function CarriedOut(steps: seq<Step>, id: string): nat {
    if steps == [] then 0
    else
      CarriedOut(Init(steps), id) +
      One(Sends(Exec(Init(steps)), Last(steps), id) && CarriesOut(Last(steps).answer))
  }

  predicate WasClosed(steps: seq<Step>, id: string) {
    steps != [] && (WasClosed(Init(steps), id) || ClosesSync(Exec(Init(steps)), Last(steps), id))
  }

  // Put back, and not synced and saved since.
  predicate IsPutBack(steps: seq<Step>, id: string) {
    steps != [] &&
    var m := Exec(Init(steps));
    (PutsBack(m, Last(steps), id) || (IsPutBack(Init(steps), id) && !ClosesSync(m, Last(steps), id)))
  }

  // --------------------------------------------------------- new ids stay unique

  predicate EnqueueBegun(steps: seq<Step>, id: string) {
    steps != [] && (EnqueueBegun(Init(steps), id) || (Last(steps).LoadToEnqueue? && Last(steps).action.id == id))
  }

  // Every enqueue makes a new id.
  predicate NewIds(steps: seq<Step>) {
    steps == [] || (NewIds(Init(steps)) && (Last(steps).LoadToEnqueue? ==> !EnqueueBegun(Init(steps), Last(steps).action.id)))
  }

  predicate Pending(m: Machine, id: string) {
    exists pid | pid in m.procs :: AddsItself(m.procs[pid], id)
  }

  predicate Nowhere(m: Machine, id: string) {
    !Has(m.store, id) && forall pid | pid in m.procs :: !Has(m.procs[pid].loaded, id)
  }

  predicate Unused(m: Machine, id: string) {
    Nowhere(m, id) && !Pending(m, id)
  }

  predicate AtMostOnce(m: Machine, id: string) {
    && |WithId(m.store, id)| <= 1
    && (forall pid | pid in m.procs :: |WithId(m.procs[pid].loaded, id)| <= 1)
    && (forall p, q | p in m.procs && q in m.procs && AddsItself(m.procs[p], id) && AddsItself(m.procs[q], id) :: p == q)
    && (Pending(m, id) ==> Nowhere(m, id))
  }

  predicate Tracked(proc: Proc) {
    proc.Draining? ==> |proc.done| <= |proc.loaded| && Actions(proc.done) == proc.loaded[..|proc.done|]
  }

  predicate AllTracked(m: Machine) {
    forall pid | pid in m.procs :: Tracked(m.procs[pid])
  }

  lemma {:induction false} StaysTracked(steps: seq<Step>)
    ensures AllTracked(Exec(steps))
  {
    if steps != [] {
      StaysTracked(Init(steps));
      var m, step := Exec(Init(steps)), Last(steps);
      if step.Handle? && Enabled(m, step) {
        var proc := m.procs[step.pid];
        var offer := Offer(proc.loaded[|proc.done|], step.answer);
        assert Tracked(proc);
        assert Actions(proc.done + [offer]) == Actions(proc.done) + [offer.action];
      }
    }
  }

  // A drain about to save keeps or settles the action it loaded, and no other.
  lemma SavedByDrain(proc: Proc, id: string)
    requires proc.Draining? && Tracked(proc) && |proc.done| == |proc.loaded| && |WithId(proc.loaded, id)| <= 1
    ensures var p := Drain(proc.done);
            && Saved(proc) == p.remaining && |WithId(p.remaining, id)| <= 1
            && (Has(proc.loaded, id) <==> Has(p.remaining, id) || Has(Settled(p.calls), id))
            && !(Has(p.remaining, id) && Has(Settled(p.calls), id))
            && (Synced(proc, id) ==> Has(Settled(p.calls), id))
  {
    assert Actions(proc.done) == proc.loaded;
    DrainKeepsOrSettles(proc.loaded, proc.done, id);
    OnIdActions(proc.done, id);
    assert |Actions(OnId(proc.done, id))| == |OnId(proc.done, id)|;
    DrainTouchesOnce(proc.done, id);
    if Synced(proc, id) {
      SuccessIsOnId(Drain(proc.done).calls, id);
      SettledOnId(Drain(proc.done).calls, id);
    }
  }

  lemma {:induction false} SuccessIsOnId(calls: seq<Offer>, id: string)
    ensures Succeeds(calls, id) ==> OnId(calls, id) != []
    ensures Succeeds(calls, id) && |OnId(calls, id)| <= 1 ==> OnId(calls, id)[0].answer.Accepted?
  {
    if calls != [] {
      SuccessIsOnId(Init(calls), id);
      assert calls == Init(calls) + [Last(calls)];
    }
  }

  lemma SavedAtMostOnce(m: Machine, pid: nat, id: string)
    requires AllTracked(m) && AtMostOnce(m, id) && ReadyToSave(m, pid)
    ensures var proc := m.procs[pid];
            && |WithId(Saved(proc), id)| <= 1
            && (Has(Saved(proc), id) ==> AddsItself(proc, id) || Has(proc.loaded, id))
  {
    var proc := m.procs[pid];
    assert Tracked(proc);
    match proc
    case Adding(loaded, action) =>
      WithIdSnoc(loaded, action, id);
      if action.id == id { assert AddsItself(proc, id); }
    case Draining(_, _) => SavedByDrain(proc, id);
  }

  lemma {:induction false} IdsStayUnique(steps: seq<Step>, id: string)
    requires NewIds(steps)
    ensures AtMostOnce(Exec(steps), id)
    ensures !EnqueueBegun(steps, id) ==> Unused(Exec(steps), id)
  {
    if steps != [] {
      IdsStayUnique(Init(steps), id);
      StaysTracked(Init(steps));
      var m, step := Exec(Init(steps)), Last(steps);
      if Enabled(m, step) {
        StepKeepsUnique(m, step, id);
      }
    }
  }

  // The next state `next` is no worse than m, seen from this id.
  predicate KeepsUnique(m: Machine, next: Machine, id: string) {
    AtMostOnce(next, id) && (Unused(m, id) ==> Unused(next, id))
  }

  lemma StepKeepsUnique(m: Machine, step: Step, id: string)
    requires AllTracked(m) && AtMostOnce(m, id) && Enabled(m, step)
    requires step.LoadToEnqueue? && step.action.id == id ==> Unused(m, id)
    ensures AtMostOnce(Next(m, step), id)
    ensures Unused(m, id) && !(step.LoadToEnqueue? && step.action.id == id) ==> Unused(Next(m, step), id)
  {
    match step
    case SendDirect(_, _) =>
    case LoadToEnqueue(pid, action, readable) => BeginKeepsUnique(m, pid, Adding(Seen(m.store, readable), action), Next(m, step), id);
    case LoadToSync(pid, readable) => BeginKeepsUnique(m, pid, Draining(Seen(m.store, readable), []), Next(m, step), id);
    case Handle(_, _) => HandleKeepsUnique(m, step, id);
    case Save(pid) => SaveKeepsUnique(m, pid, id);
    case SaveRefused(pid) => EndKeepsUnique(m, pid, Next(m, step), id);
    case Die =>
    case ClearStore => ClearKeepsUnique(m, Next(m, step), id);
  }

  lemma BeginKeepsUnique(m: Machine, pid: nat, proc: Proc, next: Machine, id: string)
    requires AtMostOnce(m, id) && pid !in m.procs && (proc.loaded == m.store || proc.loaded == [])
    requires next.store == m.store && next.procs == m.procs[pid := proc]
    requires AddsItself(proc, id) ==> Unused(m, id)
    ensures AtMostOnce(next, id)
    ensures Unused(m, id) && !AddsItself(proc, id) ==> Unused(next, id)
  {
    forall q | q in next.procs && q != pid ensures q in m.procs && next.procs[q] == m.procs[q] {
    }
    if q :| q in next.procs && q != pid && AddsItself(next.procs[q], id) {
      assert AddsItself(m.procs[q], id);
    }
  }

  // The operations in flight next are among those in flight before.
  predicate ProcsFrom(m: Machine, next: Machine, id: string) {
    forall q | q in next.procs ::
      q in m.procs && next.procs[q].loaded == m.procs[q].loaded &&
      (AddsItself(next.procs[q], id) ==> AddsItself(m.procs[q], id))
  }

  lemma FewerProcsKeepUnique(m: Machine, next: Machine, id: string)
    requires AtMostOnce(m, id) && ProcsFrom(m, next, id) && |WithId(next.store, id)| <= 1
    requires Has(next.store, id) ==> !Pending(next, id) && !Unused(m, id)
    ensures KeepsUnique(m, next, id)
  {
    PendingBefore(m, next, id);
  }

  lemma PendingBefore(m: Machine, next: Machine, id: string)
    requires ProcsFrom(m, next, id)
    ensures Pending(next, id) ==> Pending(m, id)
  {
    if q :| q in next.procs && AddsItself(next.procs[q], id) {
      assert AddsItself(m.procs[q], id);
    }
  }

  lemma HandleKeepsUnique(m: Machine, step: Step, id: string)
    requires AtMostOnce(m, id) && step.Handle? && Enabled(m, step)
    ensures KeepsUnique(m, Next(m, step), id)
  {
    HandleSeenFromId(m, step, id);
    PendingBefore(m, Next(m, step), id);
    FewerProcsKeepUnique(m, Next(m, step), id);
  }

  lemma EndKeepsUnique(m: Machine, pid: nat, next: Machine, id: string)
    requires AtMostOnce(m, id) && pid in m.procs && next.procs == m.procs - {pid} && next.store == m.store
    ensures KeepsUnique(m, next, id)
  {
    PendingBefore(m, next, id);
    FewerProcsKeepUnique(m, next, id);
  }

  lemma ClearKeepsUnique(m: Machine, next: Machine, id: string)
    requires AtMostOnce(m, id) && next.procs == m.procs && next.store == []
    ensures KeepsUnique(m, next, id)
  {
    FewerProcsKeepUnique(m, next, id);
  }

  lemma SaveKeepsUnique(m: Machine, pid: nat, id: string)
    requires AllTracked(m) && AtMostOnce(m, id) && ReadyToSave(m, pid)
    ensures KeepsUnique(m, Next(m, Save(pid)), id)
  {
    var next := Next(m, Save(pid));
    SavedAtMostOnce(m, pid, id);
    assert ProcsFrom(m, next, id);
    if Has(next.store, id) {
      SaveLeavesNonePending(m, pid, next, id);
    }
    FewerProcsKeepUnique(m, next, id);
  }

  lemma SaveLeavesNonePending(m: Machine, pid: nat, next: Machine, id: string)
    requires AtMostOnce(m, id) && pid in m.procs && next.procs == m.procs - {pid}
    requires AddsItself(m.procs[pid], id) || Has(m.procs[pid].loaded, id)
    ensures !Pending(next, id) && !Unused(m, id)
  {
    if q :| q in next.procs && AddsItself(next.procs[q], id) {
      assert AddsItself(m.procs[q], id);
      assert Pending(m, id);
      assert false;
    }
    if AddsItself(m.procs[pid], id) {
      assert Pending(m, id);
    }
  }

  // ------------------------------------------------------------ the law for saves

  // In every interleaving, a save puts back exactly the actions it loaded and does not
  // settle that have left storage since.
  lemma SavePutsBackWhatLeft(steps: seq<Step>, pid: nat, id: string)
    requires NewIds(steps) && ReadyToSave(Exec(steps), pid)
    ensures var m, proc := Exec(steps), Exec(steps).procs[pid];
            PutsBack(m, Save(pid), id) <==>
            && Has(proc.loaded, id) && !Has(m.store, id)
            && (proc.Draining? ==> !Has(Settled(Drain(proc.done).calls), id))
  {
    var m, proc := Exec(steps), Exec(steps).procs[pid];
    IdsStayUnique(steps, id);
    StaysTracked(steps);
    assert Tracked(proc);
    match proc
    case Adding(loaded, action) =>
      WithIdSnoc(loaded, action, id);
      if action.id == id { assert AddsItself(proc, id); }
    case Draining(_, _) => SavedByDrain(proc, id);
  }

  // ------------------------------------------------------------ the law for sends

  predicate WasCut(steps: seq<Step>, id: string) {
    Cuts(steps, id) > 0
  }

  lemma LogGrows(log: seq<Event>, event: Event, id: string)
    ensures AcceptedIn(log + [event], id) <==>
            AcceptedIn(log, id) || (event.Called? && event.call.answer.Accepted? && event.call.action.id == id)
  {
    forall e ensures e in log + [event] <==> e in log || e == event {
    }
    if AcceptedIn(log, id) {
      var e :| e in log && e.Called? && e.call.answer.Accepted? && e.call.action.id == id;
      assert e in log + [event];
    }
    if event.Called? && event.call.answer.Accepted? && event.call.action.id == id {
      assert event in log + [event];
    }
  }

  lemma SuccessSnoc(calls: seq<Offer>, call: Offer, id: string)
    ensures Succeeds(calls + [call], id) <==> Succeeds(calls, id) || (call.action.id == id && call.answer.Accepted?)
  {
    forall c ensures c in calls + [call] <==> c in calls || c == call {
    }
    if Succeeds(calls, id) {
      var c :| c in calls && c.action.id == id && c.answer.Accepted?;
      assert c in calls + [call];
    }
    if call.action.id == id && call.answer.Accepted? {
      assert call in calls + [call];
    }
  }

  // What a step does to the drain that takes it, and to the others.
  lemma HandleSeenFromId(m: Machine, step: Step, id: string)
    requires step.Handle? && Enabled(m, step)
    ensures var next := Next(m, step);
            && next.procs.Keys == m.procs.Keys && next.store == m.store
            && (forall q | q in m.procs && q != step.pid :: next.procs[q] == m.procs[q])
            && next.procs[step.pid].loaded == m.procs[step.pid].loaded && next.procs[step.pid].Draining?
            && (Synced(next.procs[step.pid], id) <==> Synced(m.procs[step.pid], id) || SendsAndSyncs(m, step, id))
            && (AcceptedIn(next.log, id) <==> AcceptedIn(m.log, id) || SendsAndSyncs(m, step, id))
  {
    var proc := m.procs[step.pid];
    var offer := Offer(proc.loaded[|proc.done|], step.answer);
    DrainSnoc(proc.done, offer);
    if !Waits(Drain(proc.done), offer.action) {
      SuccessSnoc(Drain(proc.done).calls, offer, id);
      LogGrows(m.log, Called(offer), id);
    }
  }

  lemma HandleInFlight(m: Machine, step: Step, id: string)
    requires step.Handle? && Enabled(m, step)
    ensures SyncedInFlight(Next(m, step), id) <==> SyncedInFlight(m, id) || SendsAndSyncs(m, step, id)
    ensures Pending(Next(m, step), id) <==> Pending(m, id)
  {
    HandleSeenFromId(m, step, id);
    var next := Next(m, step);
    if q :| q in m.procs && Synced(m.procs[q], id) { assert Synced(next.procs[q], id); }
    if q :| q in m.procs && AddsItself(m.procs[q], id) { assert AddsItself(next.procs[q], id); }
    if SendsAndSyncs(m, step, id) { assert Synced(next.procs[step.pid], id); }
  }

  lemma EndInFlight(m: Machine, pid: nat, id: string)
    requires pid in m.procs
    ensures var rest := m.procs - {pid};
            (exists q | q in rest :: Synced(rest[q], id)) <==> SyncedByAnother(m, pid, id)
    ensures SyncedInFlight(m, id) <==> SyncedByAnother(m, pid, id) || Synced(m.procs[pid], id)
  {
    var rest := m.procs - {pid};
    if q :| q in m.procs && q != pid && Synced(m.procs[q], id) { assert q in rest && Synced(rest[q], id); }
    if q :| q in rest && Synced(rest[q], id) { assert Synced(m.procs[q], id); }
  }

  lemma BeginInFlight(m: Machine, pid: nat, proc: Proc, next: Machine, id: string)
    requires pid !in m.procs && (proc.Draining? ==> proc.done == []) && next.procs == m.procs[pid := proc]
    ensures SyncedInFlight(next, id) <==> SyncedInFlight(m, id)
  {
    if q :| q in m.procs && Synced(m.procs[q], id) { assert Synced(next.procs[q], id); }
    if q :| q in next.procs && Synced(next.procs[q], id) { assert Synced(m.procs[q], id); }
  }

  // Every success is accounted for: its drain is still in flight, was cut, or has saved.
  lemma {:induction false} EverySuccessIsSomewhere(steps: seq<Step>, id: string)
    ensures AcceptedIn(Exec(steps).log, id) <==>
            SyncedInFlight(Exec(steps), id) || WasCut(steps, id) || WasClosed(steps, id)
  {
    if steps != [] {
      EverySuccessIsSomewhere(Init(steps), id);
      var m, step := Exec(Init(steps)), Last(steps);
      if Enabled(m, step) {
        match step
        case SendDirect(_, _) =>
        case LoadToEnqueue(pid, action, readable) => BeginInFlight(m, pid, Adding(Seen(m.store, readable), action), Next(m, step), id);
        case LoadToSync(pid, readable) => BeginInFlight(m, pid, Draining(Seen(m.store, readable), []), Next(m, step), id);
        case Handle(_, _) =>
          HandleSeenFromId(m, step, id);
          HandleInFlight(m, step, id);
        case Save(pid) =>
          EndInFlight(m, pid, id);
          LogGrows(m.log, Wiped(m.store), id);
          LogGrows(AddIf(m.log, pid in m.blind, Wiped(m.store)), SaveEvent(m.procs[pid]), id);
        case SaveRefused(pid) =>
          EndInFlight(m, pid, id);
          if m.procs[pid].Draining? { LogGrows(m.log, Cut, id); }
        case Die => LogGrows(m.log, Cut, id);
        case ClearStore => LogGrows(m.log, Dropped(m.store), id);
      }
    }
  }

  // Once its drain has saved, an action is stored again only by being put back.
  lemma {:induction false} SavedIsGoneUntilPutBack(steps: seq<Step>, id: string)
    requires NewIds(steps) && WasClosed(steps, id)
    ensures !Pending(Exec(steps), id)
    ensures Has(Exec(steps).store, id) ==> IsPutBack(steps, id)
  {
    var m, step := Exec(Init(steps)), Last(steps);
    IdsStayUnique(Init(steps), id);
    StaysTracked(Init(steps));
    if ClosesSync(m, step, id) {
      var proc := m.procs[step.pid];
      assert Tracked(proc);
      SavedByDrain(proc, id);
      StepWhileNew(m, step, id);
    } else {
      SavedIsGoneUntilPutBack(Init(steps), id);
      ClosedWasBegun(Init(steps), id);
      if step.Handle? && Enabled(m, step) { HandleInFlight(m, step, id); }
    }
  }

  lemma {:induction false} ClosedWasBegun(steps: seq<Step>, id: string)
    requires NewIds(steps) && WasClosed(steps, id)
    ensures EnqueueBegun(steps, id)
  {
    var m, step := Exec(Init(steps)), Last(steps);
    if WasClosed(Init(steps), id) {
      ClosedWasBegun(Init(steps), id);
    } else {
      IdsStayUnique(Init(steps), id);
      StaysTracked(Init(steps));
      assert Tracked(m.procs[step.pid]);
      SavedByDrain(m.procs[step.pid], id);
    }
  }

  // In every interleaving, a drain sends an action the runner has already reported success
  // on exactly when another drain in flight had that success, or the drain that had it was
  // cut, or it has saved and the action has since been put back, or is not stored at all.
  lemma SendRepeatsIff(steps: seq<Step>, pid: nat, answer: Answer, id: string)
    requires NewIds(steps) && Sends(Exec(steps), Handle(pid, answer), id)
    ensures var m := Exec(steps);
            AcceptedIn(m.log, id) <==>
            || SyncedByAnother(m, pid, id)
            || WasCut(steps, id)
            || (WasClosed(steps, id) && (IsPutBack(steps, id) || !Has(m.store, id)))
  {
    var m := Exec(steps);
    EverySuccessIsSomewhere(steps, id);
    EndInFlight(m, pid, id);
    IdsStayUnique(steps, id);
    StaysTracked(steps);
    SenderHasNotSynced(m, pid, answer, id);
    if WasClosed(steps, id) {
      SavedIsGoneUntilPutBack(steps, id);
    }
  }

  lemma SenderHasNotSynced(m: Machine, pid: nat, answer: Answer, id: string)
    requires AllTracked(m) && AtMostOnce(m, id) && Sends(m, Handle(pid, answer), id)
    ensures !Synced(m.procs[pid], id) && Has(m.procs[pid].loaded, id)
  {
    var proc := m.procs[pid];
    var n := |proc.done|;
    assert Tracked(proc);
    assert proc.loaded[..n + 1] == proc.loaded[..n] + [proc.loaded[n]];
    WithIdSnoc(proc.loaded[..n], proc.loaded[n], id);
    WithIdOfPrefix(proc.loaded, n + 1, id);
    OnIdActions(proc.done, id);
    assert OnId(proc.done, id) == [] by { assert |Actions(OnId(proc.done, id))| == |OnId(proc.done, id)|; }
    DrainTouchesOnce(proc.done, id);
    SuccessIsOnId(Drain(proc.done).calls, id);
  }

  lemma {:induction false} WithIdOfPrefix(actions: seq<Action>, n: nat, id: string)
    requires n <= |actions|
    ensures |WithId(actions[..n], id)| <= |WithId(actions, id)|
  {
    if n < |actions| {
      assert actions[..n] == Init(actions)[..n];
      WithIdOfPrefix(Init(actions), n, id);
    } else {
      assert actions[..n] == actions;
    }
  }

  // ------------------------------------------------------------------- the bound

  // Stored, and no drain in flight has synced it: the next send of it is no repeat of
  // anything still under way.
  predicate Available(m: Machine, id: string) {
    Has(m.store, id) && !SyncedInFlight(m, id)
  }

  lemma {:induction false} SyncsAreBounded(steps: seq<Step>, id: string)
    requires NewIds(steps)
    ensures Syncs(steps, id) + One(Available(Exec(steps), id)) <=
            1 + Cuts(steps, id) + PutBacks(steps, id) + StaleSyncs(steps, id)
    ensures !EnqueueBegun(steps, id) || Pending(Exec(steps), id) ==>
              Syncs(steps, id) == 0 && !SyncedInFlight(Exec(steps), id)
  {
    if steps != [] {
      SyncsAreBounded(Init(steps), id);
      IdsStayUnique(Init(steps), id);
      StaysTracked(Init(steps));
      var m, step := Exec(Init(steps)), Last(steps);
      if Enabled(m, step) {
        StepIsBounded(m, step, id);
        StepWhileNew(m, step, id);
      }
    }
  }

  // One step: what becomes available was cut, put back, or is just being added.
  lemma StepIsBounded(m: Machine, step: Step, id: string)
    requires AllTracked(m) && AtMostOnce(m, id) && Enabled(m, step)
    ensures One(SendsAndSyncs(m, step, id)) + One(Available(Next(m, step), id)) <=
            One(Available(m, id)) + One(CutsAfterSync(m, step, id)) + One(PutsBack(m, step, id))
            + One(SendsStale(m, step, id)) + One(step.Save? && AddsItself(m.procs[step.pid], id))
  {
    match step
    case SendDirect(_, _) =>
    case LoadToEnqueue(pid, action, readable) => BeginInFlight(m, pid, Adding(Seen(m.store, readable), action), Next(m, step), id);
    case LoadToSync(pid, readable) => BeginInFlight(m, pid, Draining(Seen(m.store, readable), []), Next(m, step), id);
    case Handle(pid, answer) =>
      HandleSeenFromId(m, step, id);
      HandleInFlight(m, step, id);
      if SendsAndSyncs(m, step, id) {
        SenderHasNotSynced(m, pid, answer, id);
        EndInFlight(m, pid, id);
      }
    case Save(pid) => SaveIsBounded(m, pid, id);
    case SaveRefused(pid) => EndInFlight(m, pid, id);
    case Die =>
    case ClearStore =>
  }

  lemma SaveIsBounded(m: Machine, pid: nat, id: string)
    requires AllTracked(m) && AtMostOnce(m, id) && ReadyToSave(m, pid)
    ensures Available(Next(m, Save(pid)), id) ==>
              Available(m, id) || PutsBack(m, Save(pid), id) || AddsItself(m.procs[pid], id)
  {
    var proc := m.procs[pid];
    EndInFlight(m, pid, id);
    assert Tracked(proc);
    if Synced(proc, id) {
      SavedByDrain(proc, id);
    }
  }

  // Until it is stored for the first time, an action is neither sent nor synced.
  lemma StepWhileNew(m: Machine, step: Step, id: string)
    requires AllTracked(m) && AtMostOnce(m, id) && Enabled(m, step)
    ensures Pending(Next(m, step), id) ==> Pending(m, id) || (step.LoadToEnqueue? && step.action.id == id)
    ensures step.Save? && AddsItself(m.procs[step.pid], id) ==> Pending(m, id)
    ensures Nowhere(m, id) ==> !Sends(m, step, id)
    ensures SyncedInFlight(Next(m, step), id) ==> SyncedInFlight(m, id) || Sends(m, step, id)
  {
    if q :| q in Next(m, step).procs && AddsItself(Next(m, step).procs[q], id) {
      if step.Handle? { HandleInFlight(m, step, id); }
      if q in m.procs && !step.Handle? { assert AddsItself(m.procs[q], id); }
    }
    if step.Handle? {
      HandleInFlight(m, step, id);
      if Sends(m, step, id) { SenderHasNotSynced(m, step.pid, step.answer, id); }
    } else if q :| q in Next(m, step).procs && Synced(Next(m, step).procs[q], id) {
      assert q in m.procs && Synced(m.procs[q], id);
    }
  }

  lemma {:induction false} CarriedOutAdds(steps: seq<Step>, id: string)
    ensures CarriedOut(steps, id) == Syncs(steps, id) + LostReplies(steps, id)
  {
    if steps != [] {
      CarriedOutAdds(Init(steps), id);
    }
  }

  // In every interleaving, the server carries an action out at most once, and once more for
  // each lost reply, each drain cut after syncing it, each time it is put back, and each
  // stale send of it.
  lemma ServerCarriesOutAtMost(steps: seq<Step>, id: string)
    requires NewIds(steps)
    ensures CarriedOut(steps, id) <=
            1 + LostReplies(steps, id) + Cuts(steps, id) + PutBacks(steps, id) + StaleSyncs(steps, id)
  {
    CarriedOutAdds(steps, id);
    SyncsAreBounded(steps, id);
  }

  // ------------------------------------------------------------ the tap before it

  // Every enqueue follows a direct send of the same work that went unanswered
  // (washnpress-mobile/src/portals/OperationsPortal.tsx:490-511, 769-790).
  predicate Tapped(steps: seq<Step>, id: string) {
    steps != [] && (Tapped(Init(steps), id) || (Last(steps).SendDirect? && Last(steps).action.id == id))
  }

  predicate TappedUnanswered(steps: seq<Step>, id: string) {
    steps != [] &&
    (TappedUnanswered(Init(steps), id) ||
     (Last(steps).SendDirect? && Last(steps).action.id == id && Unanswered(Last(steps).answer)))
  }

  // Each tap is its own piece of work, sent once, and queued only when it goes unanswered.
  predicate TapsFirst(steps: seq<Step>) {
    steps == [] ||
    (TapsFirst(Init(steps)) &&
     match Last(steps)
     case SendDirect(action, _) => !Tapped(Init(steps), action.id)
     case LoadToEnqueue(_, action, _) => TappedUnanswered(Init(steps), action.id)
     case _ => true)
  }

  // How often the direct send is carried out, and how often without being heard of.
  function CarriedOutDirectly(steps: seq<Step>, id: string): nat {
    if steps == [] then 0
    else
      CarriedOutDirectly(Init(steps), id) +
      One(Last(steps).SendDirect? && Last(steps).action.id == id && CarriesOut(Last(steps).answer))
  }

  function DirectUnheard(steps: seq<Step>, id: string): nat {
    if steps == [] then 0
    else
      DirectUnheard(Init(steps), id) +
      One(Last(steps).SendDirect? && Last(steps).action.id == id &&
          Unanswered(Last(steps).answer) && Last(steps).answer.carriedOut)
  }

  lemma {:induction false} OneTap(steps: seq<Step>, id: string)
    requires TapsFirst(steps)
    ensures CarriedOutDirectly(steps, id) <= 1
    ensures !Tapped(steps, id) ==> CarriedOutDirectly(steps, id) == 0 && DirectUnheard(steps, id) == 0
    ensures TappedUnanswered(steps, id) ==> Tapped(steps, id) && CarriedOutDirectly(steps, id) == DirectUnheard(steps, id)
    ensures EnqueueBegun(steps, id) ==> TappedUnanswered(steps, id)
  {
    if steps != [] {
      OneTap(Init(steps), id);
    }
  }

  lemma {:induction false} NothingSentBeforeEnqueue(steps: seq<Step>, id: string)
    requires NewIds(steps) && !EnqueueBegun(steps, id)
    ensures CarriedOut(steps, id) == 0
  {
    if steps != [] {
      NothingSentBeforeEnqueue(Init(steps), id);
      IdsStayUnique(Init(steps), id);
      StaysTracked(Init(steps));
      var m, step := Exec(Init(steps)), Last(steps);
      if Enabled(m, step) { StepWhileNew(m, step, id); }
    }
  }

  // In every interleaving, the server carries a tapped piece of work out at most once, and
  // once more if the direct send was carried out unheard, and for each of the other four.
  lemma WorkIsDoneAtMost(steps: seq<Step>, id: string)
    requires NewIds(steps) && TapsFirst(steps)
    ensures CarriedOutDirectly(steps, id) + CarriedOut(steps, id) <=
            1 + DirectUnheard(steps, id) + LostReplies(steps, id)
            + Cuts(steps, id) + PutBacks(steps, id) + StaleSyncs(steps, id)
    ensures DirectUnheard(steps, id) <= 1
  {
    OneTap(steps, id);
    ServerCarriesOutAtMost(steps, id);
    if !EnqueueBegun(steps, id) {
      NothingSentBeforeEnqueue(steps, id);
    }
    UnheardIsCarriedOut(steps, id);
  }

  lemma {:induction false} UnheardIsCarriedOut(steps: seq<Step>, id: string)
    ensures DirectUnheard(steps, id) <= CarriedOutDirectly(steps, id)
  {
    if steps != [] {
      UnheardIsCarriedOut(Init(steps), id);
    }
  }

  // Without overlap nothing is put back and no send is stale: only replies lost, the direct
  // one included, and cuts make the server do anything twice.
  lemma ExclusiveRunsCarryOutAtMost(steps: seq<Step>, id: string)
    requires NewIds(steps) && TapsFirst(steps) && Exclusive(steps)
    ensures CarriedOutDirectly(steps, id) + CarriedOut(steps, id) <=
            1 + DirectUnheard(steps, id) + LostReplies(steps, id) + Cuts(steps, id)
  {
    WorkIsDoneAtMost(steps, id);
    ExclusiveNeverRepeats(steps, id);
  }

  lemma {:induction false} ExclusiveNeverRepeats(steps: seq<Step>, id: string)
    requires Exclusive(steps)
    ensures PutBacks(steps, id) == 0 && StaleSyncs(steps, id) == 0
  {
    if steps != [] {
      ExclusiveNeverRepeats(Init(steps), id);
      var m, step := Exec(Init(steps)), Last(steps);
      var ops := Explain(Init(steps), false);
      StaysTracked(Init(steps));
      if PutsBack(m, step, id) {
        SavedWasLoaded(m.procs[step.pid], id);
        assert false;
      }
      if SendsAndSyncs(m, step, id) {
        var proc := m.procs[step.pid];
        assert InFlight(m, ops, proc, step.pid !in m.blind, false);
        HasMember(m.store, |proc.done|, id);
        assert forall q | q in m.procs :: q == step.pid;
      }
    }
  }

  lemma SavedWasLoaded(proc: Proc, id: string)
    requires Tracked(proc) && (proc.Draining? ==> |proc.done| == |proc.loaded|)
    requires Has(Saved(proc), id) && !AddsItself(proc, id)
    ensures Has(proc.loaded, id)
  {
    match proc
    case Adding(loaded, action) => WithIdSnoc(loaded, action, id);
    case Draining(loaded, done) =>
      assert Actions(done) == loaded;
      HasIffId(loaded, id);
      HasIffId(Drain(done).remaining, id);
      DrainSplitsIds(done, id);
  }

  lemma {:induction false} HasIffId(actions: seq<Action>, id: string)
    ensures Has(actions, id) <==> id in Ids(actions)
  {
    if actions != [] {
      HasIffId(Init(actions), id);
      HasIdSnoc(Init(actions), Last(actions), id);
      assert actions == Init(actions) + [Last(actions)];
    }
  }

  lemma HasMember(actions: seq<Action>, i: nat, id: string)
    requires i < |actions| && actions[i].id == id
    ensures Has(actions, id)
  {
    HasIffId(actions, id);
    assert Ids(actions)[i] == id;
  }
}
