// The queue object and its per-person storage on the device
// (washnpress-mobile/src/offline/queue.ts:41-109, async-storage.ts:25-64, memory-storage.ts).
//
// The runner is asked once per position: `answers(i)` is what calling it on the i-th
// loaded action comes to. `readable` and `writable` say whether the device's storage
// serves this read and takes this write.
module OfflineQueue {
  import opened Prelude
  import opened QueueRules
  import opened DrainPass
  import QueueRuns

  const PREFIX := "wnp.offline.queue"
  const ANONYMOUS := "anonymous"

  // Whose queue it is: nobody, or an empty id, is the anonymous one.
  function PersonOf(actorId: Option<string>): string {
    if actorId.None? || actorId.value == "" then ANONYMOUS else actorId.value
  }

  function KeyFor(actorId: Option<string>): string {
    PREFIX + "." + PersonOf(actorId)
  }

  // Each person has a key of their own: two of them share one exactly when they are the
  // same, nobody and an empty id both being "anonymous".
  lemma KeysAreSeparate(a: Option<string>, b: Option<string>)
    ensures KeyFor(a) == KeyFor(b) <==> PersonOf(a) == PersonOf(b)
    ensures KeyFor(a) == if a.Some? && a.value != "" then "wnp.offline.queue." + a.value else "wnp.offline.queue.anonymous"
  {
    assert PREFIX + "." == "wnp.offline.queue.";
    assert "wnp.offline.queue." + "anonymous" == "wnp.offline.queue.anonymous";
    assert KeyFor(a)[|PREFIX| + 1..] == PersonOf(a);
    assert KeyFor(b)[|PREFIX| + 1..] == PersonOf(b);
  }

  // What the text kept under a key parses to. An entry without its id or kind as a string
  // is no action.
  datatype Entry = Whole(action: Action) | Malformed
  datatype Stored = NotAList | List(entries: seq<Entry>)

  function ActionsIn(entries: seq<Entry>): seq<Action> {
    if entries == [] then []
    else
      match Last(entries)
      case Whole(action) => ActionsIn(Init(entries)) + [action]
      case Malformed => ActionsIn(Init(entries))
  }

  function Listed(actions: seq<Action>): Stored {
    List(seq(|actions|, i requires 0 <= i < |actions| => Whole(actions[i])))
  }

  // What is saved is read back whole.
  lemma {:induction false} SavedIsReadBack(actions: seq<Action>)
    ensures ActionsIn(Listed(actions).entries) == actions
  {
    var entries := Listed(actions).entries;
    if actions != [] {
      assert Init(entries) == Listed(Init(actions)).entries;
      SavedIsReadBack(Init(actions));
    }
  }

  // Reading keeps exactly the entries that are actions, in their order.
  lemma {:induction false} ReadingKeepsTheActions(entries: seq<Entry>, rest: seq<Entry>)
    ensures ActionsIn(entries + rest) == ActionsIn(entries) + ActionsIn(rest)
    ensures forall action :: action in ActionsIn(entries) <==> Whole(action) in entries
    decreases |entries| + |rest|
  {
    if rest == [] {
      assert entries + rest == entries;
      if entries != [] {
        ReadingKeepsTheActions(Init(entries), []);
        assert entries == Init(entries) + [Last(entries)];
      }
    } else {
      assert Init(entries + rest) == entries + Init(rest);
      ReadingKeepsTheActions(entries, Init(rest));
    }
  }

  class Device {
    var entries: map<string, Stored>

    constructor ()
      ensures entries == map[]
    {
      entries := map[];
    }
  }

  class AsyncStorageQueue {
    const device: Device
    const key: string

    constructor (device: Device, actorId: Option<string>)
      ensures this.device == device && key == KeyFor(actorId)
    {
      this.device := device;
      key := KeyFor(actorId);
    }

    function Contents(): seq<Action>
      reads device
    {
      if key in device.entries && device.entries[key].List? then ActionsIn(device.entries[key].entries) else []
    }

    // A queue that cannot be read, or is no list, is an empty queue.
    method Load(readable: bool) returns (actions: seq<Action>)
      ensures actions == if readable then Contents() else []
    {
      actions := [];
      if readable && key in device.entries && device.entries[key].List? {
        actions := ActionsIn(device.entries[key].entries);
      }
    }

    // A refused write is swallowed.
    method Save(actions: seq<Action>, writable: bool)
      modifies device
      ensures device.entries == if writable then old(device.entries)[key := Listed(actions)] else old(device.entries)
      ensures Contents() == if writable then actions else old(Contents())
    {
      SavedIsReadBack(actions);
      if writable {
        device.entries := device.entries[key := Listed(actions)];
      }
    }
  }

  // The store for one session. It hands out copies and keeps copies, so nothing a caller
  // goes on to do to a list it loaded or saved reaches what is stored.
  class MemoryQueueStorage {
    var actions: array<Action>

    constructor ()
      ensures Contents() == [] && fresh(actions)
    {
      actions := new Action[0];
    }

    function Contents(): seq<Action>
      reads this, actions
    {
      actions[..]
    }

    method Load() returns (loaded: array<Action>)
      ensures fresh(loaded) && loaded[..] == Contents()
    {
      loaded := Copied(actions);
    }

    method Save(next: array<Action>)
      modifies this
      ensures fresh(actions) && Contents() == old(next[..])
    {
      actions := Copied(next);
    }
  }

  method Copied(from: array<Action>) returns (copy: array<Action>)
    ensures fresh(copy) && copy[..] == from[..]
  {
    copy := new Action[from.Length](i requires 0 <= i < from.Length reads from => from[i]);
  }

  datatype SyncResult = SyncResult(synced: nat, failed: nat, givenUp: nat)

  // What storage holds after a read-modify-write, given what the write would hold.
  function Written(stored: seq<Action>, next: seq<Action>, writable: bool): seq<Action> {
    if writable then next else stored
  }

  class Queue {
    const storage: AsyncStorageQueue

    constructor (storage: AsyncStorageQueue)
      ensures this.storage == storage
    {
      this.storage := storage;
    }

    twostate predicate OthersUntouched()
      reads storage.device
    {
      forall key | key != storage.key ::
        (key in storage.device.entries <==> key in old(storage.device.entries)) &&
        (key in storage.device.entries ==> storage.device.entries[key] == old(storage.device.entries[key]))
    }

    method Enqueue(kind: string, payload: map<string, Field>, id: string, now: string, readable: bool, writable: bool)
      returns (action: Action)
      modifies storage.device
      ensures action == Action(id, kind, payload, now, Some(0))
      ensures storage.Contents() ==
              Written(old(storage.Contents()), QueueRuns.Seen(old(storage.Contents()), readable) + [action], writable)
      ensures OthersUntouched()
    {
      var actions := storage.Load(readable);
      action := Action(id, kind, payload, now, Some(0));
      actions := actions + [action];
      storage.Save(actions, writable);
    }

    method Pending(readable: bool) returns (actions: seq<Action>)
      ensures actions == QueueRuns.Seen(storage.Contents(), readable)
    {
      actions := storage.Load(readable);
    }

    method PendingCount(readable: bool) returns (count: nat)
      ensures count == |QueueRuns.Seen(storage.Contents(), readable)|
    {
      var actions := storage.Load(readable);
      count := |actions|;
    }

    method Clear(writable: bool)
      modifies storage.device
      ensures storage.Contents() == Written(old(storage.Contents()), [], writable)
      ensures OthersUntouched()
    {
      storage.Save([], writable);
    }

    // The drain: what it leaves stored, reports and calls are those of the pass over
    // what it loaded, whose laws are in DrainPass, and the report adds up.
    method Sync(answers: Answers, readable: bool, writable: bool) returns (result: SyncResult, calls: seq<Offer>)
      modifies storage.device
      ensures var p := Drain(OffersFor(QueueRuns.Seen(old(storage.Contents()), readable), answers));
              && storage.Contents() == Written(old(storage.Contents()), p.remaining, writable)
              && result == SyncResult(p.synced, |p.remaining|, p.givenUp)
              && calls == p.calls
      ensures result.synced + result.failed + result.givenUp == |QueueRuns.Seen(old(storage.Contents()), readable)|
      ensures Subsequence(calls, OffersFor(QueueRuns.Seen(old(storage.Contents()), readable), answers))
      ensures OthersUntouched()
    {
      var actions := storage.Load(readable);
      var remaining: seq<Action> := [];
      var blocked: set<string> := {};
      var synced, givenUp := 0, 0;
      var stopped := false;
      calls := [];
      ghost var offers := OffersFor(actions, answers);
      for i := 0 to |actions|
        invariant storage.device.entries == old(storage.device.entries)
        invariant Drain(offers[..i]) == Progress(remaining, blocked, synced, givenUp, stopped, calls)
      {
        var action := actions[i];
        var stream := StreamOf(action);
        assert offers[..i + 1] == offers[..i] + [offers[i]];
        DrainSnoc(offers[..i], offers[i]);
        if stopped || stream in blocked {
          remaining := remaining + [action];
        } else {
          var answer := answers(i);
          calls := calls + [Offer(action, answer)];
          match answer
          case Accepted =>
            synced := synced + 1;
          case Failed(error, _) =>
            var verdict := AfterFailure(action, error);
            if verdict.keep.Some? {
              remaining := remaining + [verdict.keep.value];
            } else {
              givenUp := givenUp + 1;
            }
            blocked := blocked + {stream};
            if verdict.stopDraining {
              stopped := true;
            }
        }
      }
      assert offers[..|actions|] == offers;
      DrainConserves(offers);
      storage.Save(remaining, writable);
      result := SyncResult(synced, |remaining|, givenUp);
    }
  }

  // ----------------------------------------------- the queue object and the run model

  // A load that fails costs the queue only once a write follows it.
  function AfterLoad(st: QueueRuns.QueueState, readable: bool, writable: bool): QueueRuns.QueueState {
    if !readable && writable then QueueRuns.Apply(st, QueueRuns.Forget) else st
  }

  // The methods above do to storage exactly what the operations of QueueRuns do: a drain
  // whose save is refused is one that was cut, and an unreadable queue is forgotten first.
  lemma MethodsAreRunOps(st: QueueRuns.QueueState, action: Action, answers: Answers, readable: bool, writable: bool)
    ensures QueueRuns.Apply(AfterLoad(st, readable, writable), QueueRuns.Enqueue(action, writable)).store ==
            Written(st.store, QueueRuns.Seen(st.store, readable) + [action], writable)
    ensures QueueRuns.Apply(st, QueueRuns.Clear(writable)).store == Written(st.store, [], writable)
    ensures var seen := QueueRuns.Seen(st.store, readable);
            var p := Drain(OffersFor(seen, answers));
            var op := if writable then QueueRuns.Sync(answers) else QueueRuns.SyncCut(answers, |seen|);
            var before := AfterLoad(st, readable, writable);
            && QueueRuns.Apply(before, op).store == Written(st.store, p.remaining, writable)
            && QueueRuns.Apply(before, op).log ==
               before.log + QueueRuns.CallEvents(p.calls) + [if writable then QueueRuns.Closed(p.calls) else QueueRuns.Cut]
  {
    var seen := QueueRuns.Seen(st.store, readable);
    assert QueueRuns.Take(OffersFor(st.store, answers), |seen|) == OffersFor(seen, answers);
  }

  // Treating an unreadable queue as an empty one costs everything in it as soon as the
  // write goes through: a drain or an enqueue keeps what was stored (or settles it) if
  // and only if the read worked, the write failed, or there was nothing to lose.
  lemma UnreadableQueueIsWiped(stored: seq<Action>, action: Action, answers: Answers, readable: bool, writable: bool)
    requires action.id !in Ids(stored)
    ensures var p := Drain(OffersFor(QueueRuns.Seen(stored, readable), answers));
            var drained := Written(stored, p.remaining, writable);
            var added := Written(stored, QueueRuns.Seen(stored, readable) + [action], writable);
            && ((forall id | id in Ids(stored) :: id in Ids(drained) || id in Ids(Settled(p.calls)))
                <==> readable || !writable || stored == [])
            && ((forall id | id in Ids(stored) :: id in Ids(added)) <==> readable || !writable || stored == [])
  {
    var offers := OffersFor(QueueRuns.Seen(stored, readable), answers);
    if readable {
      assert Actions(offers) == stored;
      forall id ensures id in Ids(stored) <==>
                        id in Ids(Drain(offers).remaining) || id in Ids(Settled(Drain(offers).calls))
      {
        DrainSplitsIds(offers, id);
      }
      assert Ids(stored + [action]) == Ids(stored) + [action.id];
    } else if stored != [] {
      assert Ids(stored)[0] in Ids(stored);
      assert Ids([] + [action]) == [action.id];
    }
  }
}
