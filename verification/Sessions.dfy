// Who is signed in on the handset, and whose queued work runs under whose token
// (washnpress-mobile/App.tsx:143-318, src/offline/async-storage.ts:25-40).
module Sessions {
  import opened Prelude
  import opened RequestRules
  import opened QueueRules
  import opened DrainPass
  import opened Interleaving
  import OQ = OfflineQueue

  // A session as it is kept on the device. One written before user ids were kept has none.
  datatype Session = Session(token: string, userId: Option<string>)

  datatype App = App(
    token: Option<string>,
    userId: Option<string>,
    needsOnboarding: bool,
    saved: Option<Session>)

  datatype Probe = TokenAccepted(needsOnboarding: bool) | TokenRejected | NoAnswer

  function LoggedIn(app: App, token: string, userId: string, onboarding: bool, persisted: bool): App {
    App(Some(token), Some(userId), onboarding,
        if persisted then Some(Session(token, Some(userId))) else app.saved)
  }

  // Saving and clearing the stored session are refused silently (src/session.ts:44-59).
  function LocalSessionDropped(app: App, cleared: bool): App {
    App(None, None, false, if cleared then None else app.saved)
  }

  function Onboarded(app: App, nextToken: Option<string>, persisted: bool): App {
    match nextToken
    case Some(token) =>
      app.(token := nextToken, needsOnboarding := false,
           saved := if persisted then Some(Session(token, app.userId)) else app.saved)
    case None => app.(needsOnboarding := false)
  }

  // The stored session, put to the server at start. Only a rejection forgets it.
  function Restored(app: App, probe: Probe, cleared: bool): App {
    if app.saved.None? then app
    else
      var stored := app.saved.value;
      match probe
      case TokenAccepted(onboarding) => app.(token := Some(stored.token), userId := stored.userId, needsOnboarding := onboarding)
      case TokenRejected => app.(saved := if cleared then None else app.saved)
      case NoAnswer => app.(token := Some(stored.token), userId := stored.userId)
  }

  // Starting without a signal signs nobody out: only a rejection keeps the app from taking
  // the stored session up, and only one the device carries out forgets it.
  lemma OnlyARejectionForgets(app: App, probe: Probe, cleared: bool)
    requires app.saved.Some? && app.token.None?
    ensures var next := Restored(app, probe, cleared);
            && (next.saved == app.saved <==> !(probe.TokenRejected? && cleared))
            && (next.token == Some(app.saved.value.token) <==> !probe.TokenRejected?)
            && (!probe.TokenRejected? ==> next.userId == app.saved.value.userId)
            && (next.token.None? ==> next.userId == app.userId)
  {
  }

  // ------------------------------------------------------------ the app's own state

  class AppRoot {
    var token: Option<string>
    var userId: Option<string>
    var needsOnboarding: bool
    var saved: Option<Session>
    const device: OQ.Device

    constructor (device: OQ.Device, saved: Option<Session>)
      ensures this.device == device && State() == App(None, None, false, saved)
    {
      token, userId, needsOnboarding := None, None, false;
      this.saved := saved;
      this.device := device;
    }

    function State(): App
      reads this
    {
      App(token, userId, needsOnboarding, saved)
    }

    method Restore(probe: Probe, cleared: bool)
      modifies this
      ensures State() == Restored(old(State()), probe, cleared)
    {
      if saved.None? { return; }
      match probe
      case TokenAccepted(onboarding) =>
        token := Some(saved.value.token);
        userId := saved.value.userId;
        needsOnboarding := onboarding;
      case TokenRejected =>
        if cleared { saved := None; }
      case NoAnswer =>
        token := Some(saved.value.token);
        userId := saved.value.userId;
    }

    method OnLoggedIn(nextToken: string, onboarding: bool, nextUserId: string, persisted: bool)
      modifies this
      ensures State() == LoggedIn(old(State()), nextToken, nextUserId, onboarding, persisted)
      ensures token == Some(nextToken) && userId == Some(nextUserId) && needsOnboarding == onboarding
      ensures saved == if persisted then Some(Session(nextToken, Some(nextUserId))) else old(saved)
    {
      token := Some(nextToken);
      userId := Some(nextUserId);
      needsOnboarding := onboarding;
      if persisted {
        saved := Some(Session(nextToken, Some(nextUserId)));
      }
    }

    // Both an expiry and a sign-out end here. The queue is not touched.
    method DropLocalSession(cleared: bool)
      modifies this
      ensures State() == LocalSessionDropped(old(State()), cleared)
      ensures token.None? && userId.None? && (saved.Some? ==> !cleared && saved == old(saved))
    {
      if cleared { saved := None; }
      token := None;
      userId := None;
      needsOnboarding := false;
    }

    method OnOnboarded(nextToken: Option<string>, persisted: bool)
      modifies this
      ensures State() == Onboarded(old(State()), nextToken, persisted)
      ensures userId == old(userId) && (nextToken.Some? && persisted ==> saved == Some(Session(nextToken.value, userId)))
    {
      if nextToken.Some? {
        token := nextToken;
        if persisted { saved := Some(Session(nextToken.value, userId)); }
      }
      needsOnboarding := false;
    }

    // Signing out empties the queue of whoever is signed in, and nobody else's.
    method Logout(queueWritable: bool, cleared: bool)
      modifies this, device
      ensures State() == LocalSessionDropped(old(State()), cleared)
      ensures device.entries ==
              if queueWritable then old(device.entries)[OQ.KeyFor(old(userId)) := OQ.Listed([])] else old(device.entries)
    {
      var storage := new OQ.AsyncStorageQueue(device, userId);
      storage.Save([], queueWritable);
      DropLocalSession(cleared);
    }
  }

  // ------------------------------------------- everything that can happen, interleaved

  // A queue operation in flight. It keeps the session its queue object was built from,
  // whoever signs in or out meanwhile.
  datatype Job = Job(session: Session, proc: Proc)

  datatype Fact =
    | Enqueued(id: string, user: string)       // this user queued it
    | RanUnder(id: string, token: string)     // it was sent with this token

  // An action tapped and sent straight to the server, whose answer has not come. It too
  // keeps the session, and the queue object, it was tapped under.
  datatype Send = Send(session: Session, kind: string, payload: map<string, Field>)

  datatype World = World(
    app: App,
    device: map<string, seq<Action>>,
    jobs: map<nat, Job>,
    sends: map<nat, Send>,
    facts: seq<Fact>)

  datatype Move =
    | SignIn(token: string, onboarding: bool, persisted: bool)
    | Relaunch                                 // the app is killed and started again
    | AskServer(probe: Probe, cleared: bool)
    | Reissue(next: Option<string>, persisted: bool)
    | Expire(cleared: bool)
    | ClearQueue(writable: bool)               // the first half of signing out
    | DropSession(cleared: bool)               // and the second
    | Tap(sid: nat, kind: string, payload: map<string, Field>)
    | HearBack(sid: nat)                       // the server answered it, either way
    // It went unanswered, so it is queued. `readable` is whether the load is served.
    | BeginEnqueue(pid: nat, sid: nat, id: string, now: string, readable: bool)
    | BeginSync(pid: nat, readable: bool)
    | TakeNext(pid: nat, answer: Answer)
    | Finish(pid: nat, writable: bool)

  type Owner = string -> string  // the user a token belongs to, as the server knows it

  function Contents(device: map<string, seq<Action>>, key: string): seq<Action> {
    if key in device then device[key] else []
  }

  function Loaded(device: map<string, seq<Action>>, session: Session, readable: bool): seq<Action> {
    QueueRuns.Seen(Contents(device, OQ.KeyFor(session.userId)), readable)
  }

  function CurrentSession(w: World): Session
    requires w.app.token.Some?
  {
    Session(w.app.token.value, w.app.userId)
  }

  function CurrentKey(w: World): string {
    OQ.KeyFor(w.app.userId)
  }

  predicate Possible(w: World, move: Move, owner: Owner) {
    match move
    case SignIn(_, _, _) => w.app.token.None?
    case Relaunch => true
    case AskServer(_, _) => w.app.token.None?
    // Onboarding reissues the token to the same person.
    case Reissue(token, _) => w.app.token.Some? && (token.Some? ==> owner(token.value) == owner(w.app.token.value))
    case Expire(_) => w.app.token.Some?
    case ClearQueue(_) => w.app.token.Some?
    case DropSession(_) => true
    case Tap(sid, _, _) => w.app.token.Some? && sid !in w.sends
    case HearBack(sid) => sid in w.sends
    case BeginEnqueue(pid, sid, _, _, _) => sid in w.sends && pid !in w.jobs
    case BeginSync(pid, _) => w.app.token.Some? && pid !in w.jobs
    case TakeNext(pid, _) =>
      pid in w.jobs && w.jobs[pid].proc.Draining? && |w.jobs[pid].proc.done| < |w.jobs[pid].proc.loaded|
    case Finish(pid, _) =>
      pid in w.jobs &&
      (w.jobs[pid].proc.Draining? ==> |w.jobs[pid].proc.done| == |w.jobs[pid].proc.loaded|)
  }

  function After(w: World, move: Move, owner: Owner): World {
    if !Possible(w, move, owner) then w
    else
      match move
      case SignIn(token, onboarding, persisted) =>
        w.(app := LoggedIn(w.app, token, owner(token), onboarding, persisted))
      case Relaunch => w.(app := App(None, None, false, w.app.saved), jobs := map[], sends := map[])
      case AskServer(probe, cleared) => w.(app := Restored(w.app, probe, cleared))
      case Reissue(token, persisted) => w.(app := Onboarded(w.app, token, persisted))
      case Expire(cleared) => w.(app := LocalSessionDropped(w.app, cleared))
      case ClearQueue(writable) => if writable then w.(device := w.device[CurrentKey(w) := []]) else w
      case DropSession(cleared) => w.(app := LocalSessionDropped(w.app, cleared))
      case Tap(sid, kind, payload) => w.(sends := w.sends[sid := Send(CurrentSession(w), kind, payload)])
      case HearBack(sid) => w.(sends := w.sends - {sid})
      case BeginEnqueue(pid, sid, id, now, readable) =>
        var send := w.sends[sid];
        var proc := Adding(Loaded(w.device, send.session, readable), Action(id, send.kind, send.payload, now, Some(0)));
        w.(jobs := w.jobs[pid := Job(send.session, proc)], sends := w.sends - {sid})
      case BeginSync(pid, readable) =>
        var session := CurrentSession(w);
        w.(jobs := w.jobs[pid := Job(session, Draining(Loaded(w.device, session, readable), []))])
      case TakeNext(pid, answer) =>
        var job := w.jobs[pid];
        var offer := Offer(job.proc.loaded[|job.proc.done|], answer);
        w.(jobs := w.jobs[pid := job.(proc := job.proc.(done := job.proc.done + [offer]))],
           facts := AddIf(w.facts, !Waits(Drain(job.proc.done), offer.action),
                          RanUnder(offer.action.id, job.session.token)))
      case Finish(pid, writable) =>
        var job := w.jobs[pid];
        var ended := w.(jobs := w.jobs - {pid});
        if !writable then ended
        else ended.(
               device := w.device[OQ.KeyFor(job.session.userId) := Saved(job.proc)],
               facts := AddIf(w.facts, job.proc.Adding?,
                              if job.proc.Adding? then Enqueued(job.proc.action.id, owner(job.session.token))
                              else Enqueued("", "")))
  }

  // A handset with nothing queued, and perhaps a session left by an older version.
  function FirstLaunch(legacy: Option<string>): World {
    World(App(None, None, false, if legacy.Some? then Some(Session(legacy.value, None)) else None), map[], map[], map[], [])
  }

  function History(legacy: Option<string>, moves: seq<Move>, owner: Owner): World {
    if moves == [] then FirstLaunch(legacy)
    else After(History(legacy, Init(moves), owner), Last(moves), owner)
  }

  // ------------------------------------------------------------------- who did what

  predicate QueuedBy(facts: seq<Fact>, id: string, user: string) {
    Enqueued(id, user) in facts
  }

  // Ids no real account may have: they would share the anonymous queue.
  ghost predicate RealUsers(owner: Owner) {
    forall token :: owner(token) != "" && owner(token) != OQ.ANONYMOUS
  }

  // A session belongs to its token's user; one with no id is the legacy one.
  predicate Belongs(session: Session, legacy: Option<string>, owner: Owner) {
    || session.userId == Some(owner(session.token))
    || (session.userId == None && legacy.Some? && owner(session.token) == owner(legacy.value))
  }

  ghost predicate AllQueuedBy(facts: seq<Fact>, actions: seq<Action>, user: string) {
    forall id | id in Ids(actions) :: QueuedBy(facts, id, user)
  }

  ghost predicate Held(w: World, legacy: Option<string>, owner: Owner) {
    && AppHeld(w.app, legacy, owner) && QueuesHeld(w.facts, w.device, legacy, owner)
    && JobsHeld(w.facts, w.jobs, legacy, owner) && SendsHeld(w.sends, legacy, owner)
  }

  ghost predicate AppHeld(app: App, legacy: Option<string>, owner: Owner) {
    && (app.token.Some? ==> Belongs(Session(app.token.value, app.userId), legacy, owner))
    && (app.saved.Some? ==> Belongs(app.saved.value, legacy, owner))
  }

  ghost predicate QueuesHeld(facts: seq<Fact>, device: map<string, seq<Action>>, legacy: Option<string>, owner: Owner) {
    forall s: Session | Belongs(s, legacy, owner) ::
      AllQueuedBy(facts, Contents(device, OQ.KeyFor(s.userId)), owner(s.token))
  }

  ghost predicate JobsHeld(facts: seq<Fact>, jobs: map<nat, Job>, legacy: Option<string>, owner: Owner) {
    forall pid | pid in jobs :: JobHeld(facts, jobs[pid], legacy, owner)
  }

  ghost predicate SendsHeld(sends: map<nat, Send>, legacy: Option<string>, owner: Owner) {
    forall sid | sid in sends :: Belongs(sends[sid].session, legacy, owner)
  }

  ghost predicate JobHeld(facts: seq<Fact>, job: Job, legacy: Option<string>, owner: Owner) {
    && Belongs(job.session, legacy, owner)
    && AllQueuedBy(facts, job.proc.loaded, owner(job.session.token))
    && (job.proc.Draining? ==> AllQueuedBy(facts, Actions(job.proc.done), owner(job.session.token)))
  }

  predicate OwnWorkOnly(facts: seq<Fact>, owner: Owner) {
    forall k | 0 <= k < |facts| && facts[k].RanUnder? ::
      QueuedBy(facts[..k], facts[k].id, owner(facts[k].token))
  }

  lemma SameKeySameUser(s: Session, t: Session, legacy: Option<string>, owner: Owner)
    requires RealUsers(owner) && Belongs(s, legacy, owner) && Belongs(t, legacy, owner)
    requires OQ.KeyFor(s.userId) == OQ.KeyFor(t.userId)
    ensures owner(s.token) == owner(t.token)
  {
    OQ.KeysAreSeparate(s.userId, t.userId);
  }

  // Over every interleaving of sign-ins, relaunches, expiries, sign-outs and queue
  // operations of many people on one handset, whatever runs under a token was queued by
  // the person that token belongs to.
  lemma {:induction false} EveryoneRunsOnlyTheirOwnWork(legacy: Option<string>, moves: seq<Move>, owner: Owner)
    requires RealUsers(owner)
    ensures Held(History(legacy, moves, owner), legacy, owner)
    ensures OwnWorkOnly(History(legacy, moves, owner).facts, owner)
  {
    if moves != [] {
      EveryoneRunsOnlyTheirOwnWork(legacy, Init(moves), owner);
      MoveKeepsWorkApart(History(legacy, Init(moves), owner), Last(moves), legacy, owner);
    }
  }

  lemma MoveKeepsWorkApart(w: World, move: Move, legacy: Option<string>, owner: Owner)
    requires RealUsers(owner) && Held(w, legacy, owner) && OwnWorkOnly(w.facts, owner)
    ensures Held(After(w, move, owner), legacy, owner) && OwnWorkOnly(After(w, move, owner).facts, owner)
  {
    if Possible(w, move, owner) {
      match move
      case TakeNext(pid, answer) => TakeKeepsWorkApart(w, pid, answer, legacy, owner);
      case Finish(pid, writable) =>
        if writable { FinishKeepsWorkApart(w, pid, legacy, owner); }
      case BeginEnqueue(pid, sid, _, _, _) => BeginKeepsWorkApart(w, move, pid, w.sends[sid].session, legacy, owner);
      case BeginSync(pid, _) => BeginKeepsWorkApart(w, move, pid, CurrentSession(w), legacy, owner);
      case ClearQueue(_) => EmptyQueueIsHeld(w, CurrentKey(w), legacy, owner);
      case Tap(_, _, _) => assert SendsHeld(After(w, move, owner).sends, legacy, owner);
      case _ => AccountIsHeld(w, move, legacy, owner);
    }
  }

  lemma EmptyQueueIsHeld(w: World, key: string, legacy: Option<string>, owner: Owner)
    requires Held(w, legacy, owner)
    ensures QueuesHeld(w.facts, w.device[key := []], legacy, owner)
  {
  }

  lemma AccountIsHeld(w: World, move: Move, legacy: Option<string>, owner: Owner)
    requires Held(w, legacy, owner) && Possible(w, move, owner)
    ensures AppHeld(After(w, move, owner).app, legacy, owner)
  {
  }

  lemma BeginKeepsWorkApart(w: World, move: Move, pid: nat, session: Session, legacy: Option<string>, owner: Owner)
    requires Held(w, legacy, owner) && Possible(w, move, owner) && Belongs(session, legacy, owner)
    requires || (move.BeginSync? && move.pid == pid && session == CurrentSession(w))
             || (move.BeginEnqueue? && move.pid == pid && session == w.sends[move.sid].session)
    ensures Held(After(w, move, owner), legacy, owner) && After(w, move, owner).facts == w.facts
  {
    var next := After(w, move, owner);
    assert AllQueuedBy(w.facts, Contents(w.device, OQ.KeyFor(session.userId)), owner(session.token));
    assert JobHeld(w.facts, next.jobs[pid], legacy, owner);
    assert forall q | q in next.jobs && q != pid :: next.jobs[q] == w.jobs[q];
  }

  // What was queued stays known to have been.
  lemma MoreFactsHold(facts: seq<Fact>, more: seq<Fact>, w: World, legacy: Option<string>, owner: Owner)
    requires forall f | f in facts :: f in more
    requires QueuesHeld(facts, w.device, legacy, owner) && JobsHeld(facts, w.jobs, legacy, owner)
    ensures QueuesHeld(more, w.device, legacy, owner) && JobsHeld(more, w.jobs, legacy, owner)
  {
    forall s: Session | Belongs(s, legacy, owner)
      ensures AllQueuedBy(more, Contents(w.device, OQ.KeyFor(s.userId)), owner(s.token))
    {
      assert AllQueuedBy(facts, Contents(w.device, OQ.KeyFor(s.userId)), owner(s.token));
    }
    forall pid | pid in w.jobs ensures JobHeld(more, w.jobs[pid], legacy, owner) {
      assert JobHeld(facts, w.jobs[pid], legacy, owner);
    }
  }

  lemma FactsGrow(facts: seq<Fact>, fact: Fact, owner: Owner)
    requires OwnWorkOnly(facts, owner)
    requires fact.RanUnder? ==> QueuedBy(facts, fact.id, owner(fact.token))
    ensures OwnWorkOnly(facts + [fact], owner)
    ensures forall f | f in facts :: f in facts + [fact]
  {
    var longer := facts + [fact];
    forall k | 0 <= k < |longer| && longer[k].RanUnder?
      ensures QueuedBy(longer[..k], longer[k].id, owner(longer[k].token))
    {
      assert longer[..k] == if k < |facts| then facts[..k] else facts;
    }
  }

  lemma TakeKeepsWorkApart(w: World, pid: nat, answer: Answer, legacy: Option<string>, owner: Owner)
    requires Held(w, legacy, owner) && OwnWorkOnly(w.facts, owner) && Possible(w, TakeNext(pid, answer), owner)
    ensures var w' := After(w, TakeNext(pid, answer), owner); Held(w', legacy, owner) && OwnWorkOnly(w'.facts, owner)
  {
    var job, w' := w.jobs[pid], After(w, TakeNext(pid, answer), owner);
    var offer := Offer(job.proc.loaded[|job.proc.done|], answer);
    assert JobHeld(w.facts, job, legacy, owner);
    assert Ids(job.proc.loaded)[|job.proc.done|] == offer.action.id;
    FactsGrow(w.facts, RanUnder(offer.action.id, job.session.token), owner);
    MoreFactsHold(w.facts, w'.facts, w, legacy, owner);
    TakenIsHeld(w'.facts, job, offer, legacy, owner);
    assert forall q | q in w'.jobs && q != pid :: w'.jobs[q] == w.jobs[q];
  }

  lemma TakenIsHeld(facts: seq<Fact>, job: Job, offer: Offer, legacy: Option<string>, owner: Owner)
    requires JobHeld(facts, job, legacy, owner) && job.proc.Draining?
    requires offer.action.id in Ids(job.proc.loaded)
    ensures JobHeld(facts, job.(proc := job.proc.(done := job.proc.done + [offer])), legacy, owner)
  {
    assert Actions(job.proc.done + [offer]) == Actions(job.proc.done) + [offer.action];
    assert Ids(Actions(job.proc.done + [offer])) == Ids(Actions(job.proc.done)) + [offer.action.id];
  }

  lemma FinishKeepsWorkApart(w: World, pid: nat, legacy: Option<string>, owner: Owner)
    requires RealUsers(owner) && Held(w, legacy, owner) && OwnWorkOnly(w.facts, owner)
    requires Possible(w, Finish(pid, true), owner)
    ensures var w' := After(w, Finish(pid, true), owner); Held(w', legacy, owner) && OwnWorkOnly(w'.facts, owner)
  {
    var job, w' := w.jobs[pid], After(w, Finish(pid, true), owner);
    assert JobHeld(w.facts, job, legacy, owner);
    if job.proc.Adding? {
      FactsGrow(w.facts, Enqueued(job.proc.action.id, owner(job.session.token)), owner);
    }
    MoreFactsHold(w.facts, w'.facts, w, legacy, owner);
    SavedIsQueued(w.facts, w'.facts, job, legacy, owner);
    SavedQueueIsHeld(w'.facts, w.device, job.session, Saved(job.proc), legacy, owner);
  }

  lemma SavedIsQueued(facts: seq<Fact>, more: seq<Fact>, job: Job, legacy: Option<string>, owner: Owner)
    requires JobHeld(facts, job, legacy, owner) && forall f | f in facts :: f in more
    requires job.proc.Adding? ==> QueuedBy(more, job.proc.action.id, owner(job.session.token))
    ensures AllQueuedBy(more, Saved(job.proc), owner(job.session.token))
  {
    match job.proc
    case Adding(loaded, action) => assert Ids(loaded + [action]) == Ids(loaded) + [action.id];
    case Draining(_, done) =>
      forall id | id in Ids(Drain(done).remaining) ensures QueuedBy(more, id, owner(job.session.token)) {
        DrainSplitsIds(done, id);
        assert QueuedBy(facts, id, owner(job.session.token));
      }
  }

  lemma SavedQueueIsHeld(
    facts: seq<Fact>, device: map<string, seq<Action>>, session: Session, saved: seq<Action>,
    legacy: Option<string>, owner: Owner)
    requires RealUsers(owner) && QueuesHeld(facts, device, legacy, owner) && Belongs(session, legacy, owner)
    requires AllQueuedBy(facts, saved, owner(session.token))
    ensures QueuesHeld(facts, device[OQ.KeyFor(session.userId) := saved], legacy, owner)
  {
    forall s: Session | Belongs(s, legacy, owner)
      ensures AllQueuedBy(facts, Contents(device[OQ.KeyFor(session.userId) := saved], OQ.KeyFor(s.userId)), owner(s.token))
    {
      if OQ.KeyFor(s.userId) == OQ.KeyFor(session.userId) {
        SameKeySameUser(s, session, legacy, owner);
      }
    }
  }

  // ------------------------------------------------------------ who is to be onboarded

  // The server says that whoever comes in is still to be onboarded.
  predicate AsksToOnboard(w: World, move: Move, owner: Owner) {
    Possible(w, move, owner) &&
    match move
    case SignIn(_, onboarding, _) => onboarding
    case AskServer(probe, _) => w.app.saved.Some? && probe == TokenAccepted(true)
    case _ => false
  }

  // Onboarding is over, or the session is gone.
  predicate SettlesOnboarding(w: World, move: Move, owner: Owner) {
    move.Relaunch? || move.DropSession? || (Possible(w, move, owner) && (move.Reissue? || move.Expire?))
  }

  predicate ToBeOnboarded(legacy: Option<string>, moves: seq<Move>, owner: Owner) {
    moves != [] &&
    var w := History(legacy, Init(moves), owner);
    || AsksToOnboard(w, Last(moves), owner)
    || (ToBeOnboarded(legacy, Init(moves), owner) && !SettlesOnboarding(w, Last(moves), owner))
  }

  // Over every history: onboarding is asked for exactly when the server asked for it and
  // nothing has settled it since, and only of somebody signed in.
  lemma {:induction false} OnboardingIsWhatTheServerAskedFor(legacy: Option<string>, moves: seq<Move>, owner: Owner)
    ensures var app := History(legacy, moves, owner).app;
            && (app.needsOnboarding <==> ToBeOnboarded(legacy, moves, owner))
            && (app.needsOnboarding ==> app.token.Some?)
  {
    if moves != [] {
      OnboardingIsWhatTheServerAskedFor(legacy, Init(moves), owner);
      OnboardingAfterOneMove(History(legacy, Init(moves), owner), Last(moves), owner);
    }
  }

  lemma OnboardingAfterOneMove(w: World, move: Move, owner: Owner)
    requires w.app.needsOnboarding ==> w.app.token.Some?
    ensures var app := After(w, move, owner).app;
            && (app.needsOnboarding <==>
                AsksToOnboard(w, move, owner) || (w.app.needsOnboarding && !SettlesOnboarding(w, move, owner)))
            && (app.needsOnboarding ==> app.token.Some?)
  {
  }

  // ------------------------------------------------------ under whose name work goes

  // Killing the app signs nobody out of the device and loses everything in flight.
  lemma RelaunchLosesWhatIsInFlight(w: World, owner: Owner)
    ensures var again := After(w, Relaunch, owner);
            && again.app == App(None, None, false, w.app.saved) && again.jobs == map[] && again.sends == map[]
            && again.device == w.device && again.facts == w.facts
  {
  }

  // A tap that goes unanswered is queued for whoever tapped, behind what they have stored
  // and with no tries used, whoever has signed in meanwhile.
  lemma TapIsQueuedForWhoTapped(
    w: World, tap: Move, cleared: bool, next: Move, enqueue: Move, owner: Owner)
    requires w.app.token.Some? && tap.Tap? && tap.sid !in w.sends && next.SignIn?
    requires enqueue.BeginEnqueue? && enqueue.sid == tap.sid && enqueue.readable && enqueue.pid !in w.jobs
    ensures var other := After(After(After(w, tap, owner), DropSession(cleared), owner), next, owner);
            var queued := After(After(other, enqueue, owner), Finish(enqueue.pid, true), owner);
            var mine := OQ.KeyFor(w.app.userId);
            var action := Action(enqueue.id, tap.kind, tap.payload, enqueue.now, Some(0));
            && other.app.token == Some(next.token) && other.app.userId == Some(owner(next.token))
            && queued.device == w.device[mine := Contents(w.device, mine) + [action]]
            && queued.facts == w.facts + [Enqueued(action.id, owner(w.app.token.value))]
            && tap.sid !in queued.sends
  {
    var other := After(After(After(w, tap, owner), DropSession(cleared), owner), next, owner);
    assert other.sends[tap.sid] == Send(CurrentSession(w), tap.kind, tap.payload);
    assert other.jobs == w.jobs && other.device == w.device && other.facts == w.facts;
    EnqueueThenFinish(other, enqueue, owner);
  }

  lemma EnqueueThenFinish(w: World, enqueue: Move, owner: Owner)
    requires enqueue.BeginEnqueue? && enqueue.sid in w.sends && enqueue.readable && enqueue.pid !in w.jobs
    ensures var queued := After(After(w, enqueue, owner), Finish(enqueue.pid, true), owner);
            var send := w.sends[enqueue.sid];
            var theirs := OQ.KeyFor(send.session.userId);
            && queued.device ==
               w.device[theirs := Contents(w.device, theirs) + [Action(enqueue.id, send.kind, send.payload, enqueue.now, Some(0))]]
            && queued.facts == w.facts + [Enqueued(enqueue.id, owner(send.session.token))]
            && queued.sends == w.sends - {enqueue.sid}
  {
  }

  // A tap that was answered is never queued.
  lemma AnsweredTapIsNotQueued(w: World, sid: nat, enqueue: Move, owner: Owner)
    requires sid in w.sends && enqueue.BeginEnqueue? && enqueue.sid == sid
    ensures var heard := After(w, HearBack(sid), owner);
            heard == w.(sends := w.sends - {sid}) && After(heard, enqueue, owner) == heard
  {
  }

  // With nobody signed in nothing is tapped, drained, cleared, reissued or expired.
  lemma NobodySignedInDoesNothing(w: World, move: Move, owner: Owner)
    requires w.app.token.None?
    requires move.Tap? || move.BeginSync? || move.ClearQueue? || move.Reissue? || move.Expire?
    ensures After(w, move, owner) == w
  {
  }

  // An expiry ends the session and leaves every queue, and all in flight, as it was; a token
  // reissued at the end of onboarding replaces the live one.
  lemma ExpiryLeavesTheQueues(w: World, cleared: bool, reissued: string, persisted: bool, owner: Owner)
    requires w.app.token.Some?
    ensures After(w, Expire(cleared), owner) ==
            w.(app := App(None, None, false, if cleared then None else w.app.saved))
    ensures owner(reissued) == owner(w.app.token.value) ==>
            var next := After(w, Reissue(Some(reissued), persisted), owner);
            && next.app.token == Some(reissued) && next.app.userId == w.app.userId && !next.app.needsOnboarding
            && (persisted ==> next.app.saved == Some(Session(reissued, w.app.userId)))
            && next == w.(app := next.app)
  {
  }

  // A session left by an older version is taken up at the first start, without an id.
  lemma OlderSessionIsTakenUp(token: string, onboarding: bool, owner: Owner)
    ensures var w := History(Some(token), [AskServer(TokenAccepted(onboarding), false)], owner);
            w.app == App(Some(token), None, onboarding, Some(Session(token, None)))
  {
    assert Init([AskServer(TokenAccepted(onboarding), false)]) == [];
  }

  // A drain is of whoever starts it, and goes on under their token: each step sends what
  // the pass calls, if it calls anything.
  lemma DrainRunsUnderWhoStartedIt(w: World, pid: nat, readable: bool, owner: Owner)
    requires w.app.token.Some? && pid !in w.jobs
    ensures var stored := Contents(w.device, OQ.KeyFor(w.app.userId));
            After(w, BeginSync(pid, readable), owner) ==
            w.(jobs := w.jobs[pid := Job(Session(w.app.token.value, w.app.userId),
                                         Draining(if readable then stored else [], []))])
  {
  }

  lemma StepSendsWhatThePassCalls(w: World, pid: nat, answer: Answer, owner: Owner)
    requires pid in w.jobs && w.jobs[pid].proc.Draining? && |w.jobs[pid].proc.done| < |w.jobs[pid].proc.loaded|
    ensures var next := After(w, TakeNext(pid, answer), owner);
            var before, now := Drain(w.jobs[pid].proc.done).calls, Drain(next.jobs[pid].proc.done).calls;
            && (now == before ==> next.facts == w.facts)
            && (now != before ==>
                  && |now| == |before| + 1 && now[..|before|] == before
                  && next.facts == w.facts + [RanUnder(Last(now).action.id, w.jobs[pid].session.token)])
            && next.device == w.device && next.app == w.app
  {
    var proc := w.jobs[pid].proc;
    DrainSnoc(proc.done, Offer(proc.loaded[|proc.done|], answer));
  }

  // ------------------------------------------------------- whose queue can change

  // The person a move acts for, when it writes a queue at all.
  function WritesAs(w: World, move: Move, owner: Owner): Option<Option<string>> {
    if !Possible(w, move, owner) then None
    else
      match move
      case ClearQueue(writable) => if writable then Some(w.app.userId) else None
      case Finish(pid, writable) => if writable then Some(w.jobs[pid].session.userId) else None
      case _ => None
  }

  // A move leaves every queue but its own person's exactly as it was. In particular an
  // expiry, a relaunch or a sign-in changes no queue at all.
  lemma OtherQueuesAreUntouched(w: World, move: Move, owner: Owner, user: string)
    requires user != "" && user != OQ.ANONYMOUS
    requires WritesAs(w, move, owner) != Some(Some(user))
    ensures Contents(After(w, move, owner).device, OQ.KeyFor(Some(user))) == Contents(w.device, OQ.KeyFor(Some(user)))
  {
    var writer := WritesAs(w, move, owner);
    if writer.Some? {
      OQ.KeysAreSeparate(writer.value, Some(user));
    }
  }

  // Signing out, start to finish: that person's queue is empty if the write goes through,
  // and as it was if not; nobody is signed in; every other key on the device is as it was.
  lemma SignOutEmptiesOnlyTheirs(w: World, writable: bool, cleared: bool, owner: Owner)
    requires w.app.token.Some?
    ensures var w' := SignedOut(w, writable, cleared, owner);
            var mine := OQ.KeyFor(w.app.userId);
            && Contents(w'.device, mine) == (if writable then [] else Contents(w.device, mine))
            && (forall key | key != mine :: Contents(w'.device, key) == Contents(w.device, key))
            && w'.app.token.None? && w'.app.saved == (if cleared then None else w.app.saved)
            && w'.jobs == w.jobs && w'.sends == w.sends
  {
  }

  function SignedOut(w: World, writable: bool, cleared: bool, owner: Owner): World {
    After(After(w, ClearQueue(writable), owner), DropSession(cleared), owner)
  }

  // Started again after a sign-out, the app signs somebody in exactly when the device did
  // not let go of the saved session and the server does not reject it; and then it is
  // whoever that session belongs to.
  lemma RelaunchBringsBackWhoWasSaved(w: World, writable: bool, cleared: bool, probe: Probe, again: bool, owner: Owner)
    requires w.app.token.Some?
    ensures var back := After(After(SignedOut(w, writable, cleared, owner), Relaunch, owner), AskServer(probe, again), owner);
            && (back.app.token.Some? <==> !cleared && w.app.saved.Some? && !probe.TokenRejected?)
            && (back.app.token.Some? ==> back.app.token.value == w.app.saved.value.token &&
                                         back.app.userId == w.app.saved.value.userId)
  {
  }

  // --------------------------------------------- whether a cleared queue stays empty

  // What is still in flight goes on after a sign-out: jobs, and direct sends, which are
  // heard of or queued.
  predicate JobMove(move: Move) {
    move.TakeNext? || move.Finish? || move.HearBack? || move.BeginEnqueue?
  }

  predicate JobMoves(moves: seq<Move>) {
    forall i | 0 <= i < |moves| :: JobMove(moves[i])
  }

  function GoOn(w: World, moves: seq<Move>, owner: Owner): World
    decreases |moves|
  {
    if moves == [] then w else GoOn(After(w, moves[0], owner), moves[1..], owner)
  }

  function JobKey(job: Job): string {
    OQ.KeyFor(job.session.userId)
  }

  // A drain that has been through all it loaded and keeps none of it.
  predicate OwesNothing(proc: Proc) {
    proc.Draining? && |proc.done| == |proc.loaded| && Drain(proc.done).remaining == []
  }

  function SendKey(send: Send): string {
    OQ.KeyFor(send.session.userId)
  }

  // Every operation under this key owes nothing, and nothing tapped under it is unanswered.
  predicate NothingOwed(w: World, key: string) {
    && (forall pid | pid in w.jobs && JobKey(w.jobs[pid]) == key :: OwesNothing(w.jobs[pid].proc))
    && (forall sid | sid in w.sends :: SendKey(w.sends[sid]) != key)
  }

  predicate EmptyAfter(w: World, moves: seq<Move>, key: string, owner: Owner) {
    Contents(GoOn(w, moves, owner).device, key) == []
  }

  ghost predicate StaysEmpty(w: World, key: string, owner: Owner) {
    forall moves | JobMoves(moves) :: EmptyAfter(w, moves, key, owner)
  }

  predicate LoadsTracked(w: World) {
    forall pid | pid in w.jobs && w.jobs[pid].proc.Draining? :: |w.jobs[pid].proc.done| <= |w.jobs[pid].proc.loaded|
  }

  lemma {:induction false} LoadsAreTracked(legacy: Option<string>, moves: seq<Move>, owner: Owner)
    ensures LoadsTracked(History(legacy, moves, owner))
  {
    if moves != [] {
      LoadsAreTracked(legacy, Init(moves), owner);
    }
  }

  lemma MoveOwesNothing(w: World, move: Move, key: string, owner: Owner)
    requires NothingOwed(w, key) && Contents(w.device, key) == [] && JobMove(move)
    ensures var next := After(w, move, owner); NothingOwed(next, key) && Contents(next.device, key) == []
  {
    var next := After(w, move, owner);
    if Possible(w, move, owner) {
      match move
      case TakeNext(pid, _) => assert JobKey(next.jobs[pid]) == JobKey(w.jobs[pid]);
      case BeginEnqueue(pid, sid, _, _, _) => assert JobKey(next.jobs[pid]) == SendKey(w.sends[sid]);
      case _ =>
    }
  }

  lemma {:induction false} NothingOwedNothingWritten(w: World, moves: seq<Move>, key: string, owner: Owner)
    requires NothingOwed(w, key) && Contents(w.device, key) == [] && JobMoves(moves)
    ensures EmptyAfter(w, moves, key, owner)
    decreases |moves|
  {
    if moves != [] {
      MoveOwesNothing(w, moves[0], key, owner);
      NothingOwedNothingWritten(After(w, moves[0], owner), moves[1..], key, owner);
    }
  }

  const NO_SIGNAL := Failed(Failure(Some(NETWORK_ERROR_CODE)), false)

  // Whatever a job still owes can come back: every call left goes unanswered, and it saves.
  lemma {:induction false} OwedWorkComesBack(w: World, pid: nat, owner: Owner) returns (moves: seq<Move>)
    requires pid in w.jobs && LoadsTracked(w) && !OwesNothing(w.jobs[pid].proc)
    ensures JobMoves(moves) && !EmptyAfter(w, moves, JobKey(w.jobs[pid]), owner)
    decreases if w.jobs[pid].proc.Draining? then |w.jobs[pid].proc.loaded| - |w.jobs[pid].proc.done| else 0
  {
    var job := w.jobs[pid];
    if job.proc.Draining? && |job.proc.done| < |job.proc.loaded| {
      var next := After(w, TakeNext(pid, NO_SIGNAL), owner);
      OneMoreOwed(w, pid, owner);
      var rest := OwedWorkComesBack(next, pid, owner);
      moves := [TakeNext(pid, NO_SIGNAL)] + rest;
      assert moves[1..] == rest;
    } else {
      moves := [Finish(pid, true)];
      assert GoOn(w, moves, owner) == After(w, moves[0], owner);
    }
  }

  lemma OneMoreOwed(w: World, pid: nat, owner: Owner)
    requires Possible(w, TakeNext(pid, NO_SIGNAL), owner) && LoadsTracked(w)
    ensures var next := After(w, TakeNext(pid, NO_SIGNAL), owner);
            && pid in next.jobs && LoadsTracked(next) && JobKey(next.jobs[pid]) == JobKey(w.jobs[pid])
            && next.jobs[pid].proc.Draining? && next.jobs[pid].proc.loaded == w.jobs[pid].proc.loaded
            && |next.jobs[pid].proc.done| == |w.jobs[pid].proc.done| + 1
            && !OwesNothing(next.jobs[pid].proc)
  {
    var proc := w.jobs[pid].proc;
    DrainSnoc(proc.done, Offer(proc.loaded[|proc.done|], NO_SIGNAL));
  }

  lemma {:induction false} UnusedPid(pids: set<nat>) returns (bound: nat)
    ensures forall pid | pid in pids :: pid < bound
    decreases |pids|
  {
    bound := 0;
    if pid :| pid in pids {
      var rest := UnusedPid(pids - {pid});
      bound := if pid < rest then rest else pid + 1;
      assert forall q | q in pids :: q == pid || q in pids - {pid};
    }
  }

  // So can an action whose direct send goes unanswered.
  lemma TappedActionIsQueued(w: World, sid: nat, owner: Owner) returns (moves: seq<Move>)
    requires sid in w.sends
    ensures JobMoves(moves) && !EmptyAfter(w, moves, SendKey(w.sends[sid]), owner)
  {
    var pid := UnusedPid(w.jobs.Keys);
    var begin, end := BeginEnqueue(pid, sid, "", "", true), Finish(pid, true);
    moves := [begin, end];
    assert moves[1..] == [end] && [end][1..] == [];
    var later := After(After(w, begin, owner), end, owner);
    assert GoOn(After(w, begin, owner), [end], owner) == later;
    assert GoOn(w, moves, owner) == later;
  }

  // A queue cleared at sign-out stays empty, however what is in flight under it turns out,
  // if and only if that is nothing but drains that are through and keep nothing.
  lemma SignOutHoldsIffNothingOwed(legacy: Option<string>, moves: seq<Move>, cleared: bool, owner: Owner)
    requires History(legacy, moves, owner).app.token.Some?
    ensures var w := History(legacy, moves, owner);
            var mine := OQ.KeyFor(w.app.userId);
            StaysEmpty(SignedOut(w, true, cleared, owner), mine, owner) <==> NothingOwed(w, mine)
  {
    var w := History(legacy, moves, owner);
    var out, key := SignedOut(w, true, cleared, owner), CurrentKey(w);
    LoadsAreTracked(legacy, moves, owner);
    SignOutEmptiesOnlyTheirs(w, true, cleared, owner);
    if NothingOwed(w, key) {
      forall later | JobMoves(later) ensures EmptyAfter(out, later, key, owner) {
        NothingOwedNothingWritten(out, later, key, owner);
      }
    } else if sid :| sid in w.sends && SendKey(w.sends[sid]) == key {
      var later := TappedActionIsQueued(out, sid, owner);
      assert !EmptyAfter(out, later, key, owner);
    } else {
      var pid :| pid in w.jobs && JobKey(w.jobs[pid]) == key && !OwesNothing(w.jobs[pid].proc);
      var later := OwedWorkComesBack(out, pid, owner);
      assert !EmptyAfter(out, later, key, owner);
    }
  }

  // Among what comes back: a drain that was waiting on the server when its operator signed
  // out writes back whatever the server refused.
  lemma SignOutCanBeUndone(w: World, cleared: bool, pid: nat, action: Action, answer: Answer, owner: Owner)
    requires w.app.token.Some? && pid in w.jobs
    requires w.jobs[pid] == Job(Session(w.app.token.value, w.app.userId), Draining([action], []))
    requires Refused(answer) && TriesSoFar(action) + 1 < MAX_ACTION_ATTEMPTS
    ensures var out := SignedOut(w, true, cleared, owner);
            var later := After(After(out, TakeNext(pid, answer), owner), Finish(pid, true), owner);
            && Contents(out.device, OQ.KeyFor(w.app.userId)) == []
            && Contents(later.device, OQ.KeyFor(w.app.userId)) == [action.(attempts := Some(TriesSoFar(action) + 1))]
  {
    var out, offer := SignedOut(w, true, cleared, owner), Offer(action, answer);
    assert out.jobs == w.jobs;
    TakeThenFinish(out, pid, action, answer, owner);
    DrainOneRefused(offer);
  }

  lemma TakeThenFinish(w: World, pid: nat, action: Action, answer: Answer, owner: Owner)
    requires pid in w.jobs && w.jobs[pid].proc == Draining([action], [])
    ensures After(After(w, TakeNext(pid, answer), owner), Finish(pid, true), owner).device ==
            w.device[OQ.KeyFor(w.jobs[pid].session.userId) := Drain([Offer(action, answer)]).remaining]
  {
    TakeOnly(w, pid, action, answer, owner);
    FinishOne(After(w, TakeNext(pid, answer), owner), pid, Offer(action, answer), owner);
  }

  lemma TakeOnly(w: World, pid: nat, action: Action, answer: Answer, owner: Owner)
    requires pid in w.jobs && w.jobs[pid].proc == Draining([action], [])
    ensures var called := After(w, TakeNext(pid, answer), owner);
            && called.device == w.device && pid in called.jobs
            && called.jobs[pid] == Job(w.jobs[pid].session, Draining([action], [Offer(action, answer)]))
  {
    assert [] + [Offer(action, answer)] == [Offer(action, answer)];
  }

  lemma FinishOne(w: World, pid: nat, offer: Offer, owner: Owner)
    requires pid in w.jobs && w.jobs[pid].proc == Draining([offer.action], [offer])
    ensures After(w, Finish(pid, true), owner).device ==
            w.device[OQ.KeyFor(w.jobs[pid].session.userId) := Drain([offer]).remaining]
  {
  }

  lemma DrainOneRefused(offer: Offer)
    requires Refused(offer.answer) && TriesSoFar(offer.action) + 1 < MAX_ACTION_ATTEMPTS
    ensures Drain([offer]).remaining == [offer.action.(attempts := Some(TriesSoFar(offer.action) + 1))]
  {
    assert Init([offer]) == [];
  }

  // Without real user ids the separation fails: an account whose id is the literal
  // "anonymous" opens the queue a legacy session left behind, and only such an id does.
  lemma LegacyQueueIsOpenedOnlyByAnonymous(user: string)
    ensures OQ.KeyFor(Some(user)) == OQ.KeyFor(None) <==> user == "" || user == OQ.ANONYMOUS
  {
    OQ.KeysAreSeparate(Some(user), None);
  }
}
