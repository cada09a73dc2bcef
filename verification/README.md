# Wash N Press: a model of the clients' protocols, proved in Dafny

Wash N Press is a laundry service for housing societies. Its mobile app lets an operator work
with no signal: actions are queued on the handset and sent when there is one. This project models
that delivery protocol from screen to wire, and the other parts of the mobile and web clients
whose correctness rests on interleavings, arithmetic or text, and proves what they promise.
`dafny verify dfyconfig.toml` checks everything.

## How it is laid out

**The offline queue**, in three layers.

- *One pass, and whole operations.* `QueueRules` (lines of actions, what a failure costs),
  `DrainPass` (the drain loop as a fold, with its laws), `DrainBound` (how many drains a queue can
  take), `QueueRuns` (any sequence of enqueues, drains and clears, with the app dying, a save
  refused at any point, or an unreadable queue written over), `QueueCounts` (retry budget),
  `QueueRepeats` (what can be sent twice, and which runs lose work).
  `OfflineQueue` has the objects themselves, with the loop, the stores and their refused reads and
  writes; each method is tied to the functions the laws are about.
- *Awaits taken apart.* `Interleaving` is a machine in which load, every runner call and save are
  separate steps, a load may not be served, and any number of operations are in flight on the one
  queue object. `Overlap` says what overlapping costs. `Resends` says exactly when an action is sent
  again, and bounds how often the server carries a tapped piece of work out: its direct send, which
  comes before every enqueue, and lost replies included. `TapOrder` says when direct sends pass
  queued work of their order.
- *Many people, one handset.* `Sessions` is sign-in, relaunch, expiry and sign-out over per-person
  storage, with queue operations and direct sends in flight across all of them.

The runner is an oracle: each call is accepted, refused, or never answered. `RequestLayer` and
`RequestRules` say which answer a request comes to, so what counts as "never answered" is proved
rather than supposed, and `TriesOnTheWire` reads the retry budget off the network. Every failure
also records whether the server had carried the request out after all, which no client can see.
`SessionExpiry` is one rule for when a rejected token ends a session, and
the two clients' implementations of it.

**Dates.** `CivilDate` proves civil dates and day numbers of section 21.4.1 of ECMA-262 inverse of
each other; `DateOfBirth` and `CalendarGrid` rest on it.

**The rest.** `FlatNumbers` (the mobile and web readings of a flat number), `Loader` (late
responses), `Booking` (the wizard that books a pickup and a service in two requests),
`Measurements` (printing, typing and reading a quantity), `Dropdown` (where a list opens).

Code that changes state is a class whose methods are proved against functions on values; the
properties are lemmas about those functions, over every run.

## Where the code and what is said of it differ

- `washnpress-mobile/src/offline/async-storage.ts:59-62` says that after a refused write "the queue
  carries on in memory". It does not: nothing is kept in memory, and an action whose enqueue could
  not be saved is gone (`OfflineQueue.Queue.Enqueue` with `writable` false).
- The same file reads a queue that cannot be read as an empty one. The next write then replaces
  what was there (`OfflineQueue.UnreadableQueueIsWiped` says exactly when).
- `washnpress-mobile/src/offline/queue.ts:3-5` promises that queued work is never lost. While
  operations do not overlap, exactly what an unreadable load wipes is lost
  (`Overlap.ExclusiveRunsLoseExactlyWhatTheyWipe`). The timed drain, "Sync now" and `enqueue` share
  one queue object and nothing keeps them apart; `Overlap` gives the runs that lose an action or
  send one twice.
- Queued steps of an order keep their order, but a tap goes straight to the server whatever its
  order still has stored (`washnpress-mobile/src/portals/OperationsPortal.tsx:769-790`), so a later
  step can be done first (`TapOrder.TapOrderKeptIffNoTapPasses` says exactly when).
- `washnpress-mobile/App.tsx:302-306` clears the queue at sign-out; a drain still waiting on the
  server writes back what was refused (`Sessions.SignOutCanBeUndone`), and an action whose direct
  send goes unanswered afterwards is queued then. The queue stays empty exactly when no operation in
  flight under it owes anything and no direct send is out (`Sessions.SignOutHoldsIffNothingOwed`).
- The runner has no branch for a kind it does not know, so such an action is taken off the queue as
  done without being sent (`RequestLayer.SyncedIffServerSaidYesOrUnknown`).
- `washnpress-web/lib/unit.ts:1-4` says mobile and web read a flat number alike. They do for every
  address written as tower and door (`FlatNumbers.BothRulesReadTheDoor`), and in general exactly
  under the condition of `FlatNumbers.RulesAgreeIff`, or the simpler one of
  `FlatNumbers.PlainTowersAgreeIff` for towers not named with punctuation: not for "Flat-7" or a bare "Flat", nor where
  "Flat" stands behind the tower, nor for a tower like "Block-C" whose short form only the web has.
- `washnpress-mobile/src/portals/ResidentPortal.tsx:535-545` keeps the old day's chips listed until the
  new day's arrive, and shows whichever reply lands last; a chip taken then books another day than the
  one printed (`Booking.ScreenTellsTheTruthIff` says exactly when the closing screen is true).
- `washnpress-mobile/src/portals/ResidentPortal.tsx:586-588` means to prevent a second pickup. A
  pickup whose reply is lost is shown as an ordinary failure and can be booked again, and so can
  one whose order code comes back empty while the service fails. Those two cases are all there is
  (`Booking.EveryExtraIsLostOrLeftBehind`). A service whose reply is lost is shown as not booked.
- `washnpress-mobile/src/session.ts:53-59` swallows a refused removal, so a signed-out person can be
  signed in again at the next start (`Sessions.RelaunchBringsBackWhoWasSaved` says exactly when).
- `washnpress-mobile/src/api/units.ts:68-69` means an empty weight not to book a zero-weight bag; a
  typed weight below half a hundredth does (`Measurements.ReadsAsZeroIffTooSmall`).
- The picker compares an unpadded year as text, which is right by all bounds exactly for years of
  four figures, and for longer ones that begin 9999 (`CalendarGrid.BlockedRightlyIffYearReadsRight`).

## Model

| member | source | states |
|---|---|---|
| QueueRules.SameLineIffSameOrder | washnpress-mobile/src/offline/queue-rules.ts:25-37 | two actions wait for one another exactly when they name the same order, or are the same action; an order id and an action id never collide |
| QueueRules.LinesByPayload | washnpress-mobile/src/offline/queue-rules.ts:25-37 | read off the payload: with text, not empty, under "orderId", two actions share a line exactly when that text is the same; an action with nothing there, no text or empty text shares its line only with an action of its own id |
| QueueRules.NoCountReadsAsNone | washnpress-mobile/src/offline/queue-rules.ts:48-53 | an action stored before tries were counted is kept, with one used, when it is refused |
| DrainPass.DrainConserves | washnpress-mobile/src/offline/queue.ts:79-108 | a drain's synced, kept and given-up counts add up to what it loaded, count exactly the accepted and fifth-refused calls, and no loaded position is called twice or out of order |
| DrainPass.DrainKeepsLineOrder | washnpress-mobile/src/offline/queue.ts:85-104 | what a line loaded is what it settled, in order, followed by what it keeps; only a blocked line or a stopped drain keeps anything |
| DrainPass.DrainIsLineByLine | washnpress-mobile/src/offline/queue.ts:72-104 | while every call is answered, draining the whole queue does to each line what the head-of-line rule, defined on its own, does to that line alone |
| DrainPass.LinesAreIndependent | washnpress-mobile/src/offline/queue.ts:74-78 | draining everything and keeping one line is draining that line alone: what remains, the calls made, and whether it is blocked |
| DrainPass.CallsAreAtHead | washnpress-mobile/src/offline/queue.ts:90-104 | whenever the runner is called, everything loaded ahead of that action in its line has just been accepted |
| DrainPass.CalledIffNotHeldUp | washnpress-mobile/src/offline/queue.ts:85-104 | an action is called exactly when no call before it went unanswered, or failed on an action it has to wait for, by what their payloads hold under "orderId" |
| DrainPass.StoppedIffUnanswered | washnpress-mobile/src/offline/queue.ts:92-102 | a drain stops exactly when one of its calls went unanswered |
| DrainPass.StopsAtFirstUnanswered | washnpress-mobile/src/offline/queue.ts:92-104 | at the first unanswered call, everything before it is drained as usual and it and all behind it stay unchanged, tries included |
| DrainPass.DrainSplitsIds | washnpress-mobile/src/offline/queue.ts:90-104 | after any drain, stopped or not, whatever was loaded is kept or settled, and nothing else is |
| DrainBound.LineEmptiesWithinBudget | washnpress-mobile/src/offline/queue.ts:90-104 | while calls are answered, a line is empty after as many drains as its actions together have tries left, whatever the other lines do |
| DrainBound.QueueEmptiesWithinLargestBudget | washnpress-mobile/src/offline/queue.ts:72-108 | the whole queue is empty after the largest line budget |
| DrainBound.RefusedLineTakesWholeBudget | washnpress-mobile/src/offline/queue-rules.ts:20-23 | the bound is exact: a server that refuses everything empties a line after precisely its budget and no sooner |
| DrainBound.ActionLeavesWithinBudget | washnpress-mobile/src/offline/queue.ts:44-108 | whatever is enqueued between answered drains, an action leaves within the budget of its line up to and including itself |
| QueueRuns.EveryActionIsAccountedFor | washnpress-mobile/src/offline/queue.ts:41-108 | over every run, interrupted drains, refused saves and unreadable queues included, the ids ever queued in a line are those that left it, in order, followed by those still stored |
| QueueRuns.NothingOvertakes | washnpress-mobile/src/offline/queue.ts:72-104 | in every run, an action is sent only after everything queued ahead of it in its order has succeeded or left the queue |
| QueueCounts.DrainTouchesOnce | washnpress-mobile/src/offline/queue.ts:90-104 | a drain leaves an action alone, or calls it once and keeps exactly what that call leaves |
| QueueCounts.AttemptsAreRefusals | washnpress-mobile/src/offline/queue-rules.ts:48-53 | over every run, an action's stored tries are its refusals in finished drains and below five, give-up happens exactly at the fifth refusal, and unanswered calls never count |
| QueueRepeats.OnlyCutDrainsRepeat | washnpress-mobile/src/offline/queue.ts:79-108 | an action is never sent after it has left the queue, and after the runner reported success on it only if a drain was cut short in between |
| QueueRepeats.OnlyAWipeLosesWork | washnpress-mobile/src/offline/async-storage.ts:42-63 | over every run, a queued action is neither stored nor synced, given up or cleared if and only if it stood in an unreadable queue that was written over |
| QueueRepeats.FirstSuccessesFollowTheLine | washnpress-mobile/src/offline/queue.ts:74-104 | whenever an action is sent, each one ahead of it in its line has succeeded already or is never sent again, interrupted drains included |
| Interleaving.ExclusiveRunsAreAtomic | washnpress-mobile/src/offline/queue.ts:44-50 | a split-step run whose load-to-save windows never overlap, loads not served included, is a run of whole operations, with the same storage and the same calls in order |
| Interleaving.ExclusiveRunsAreAtomicThroughout | washnpress-mobile/src/offline/queue.ts:79-108 | and at every moment in between it is such a run cut short where it stands |
| Interleaving.KillingAndClearingNeverWait | washnpress-mobile/src/offline/queue.ts:68-70 | whatever is in flight, the app can be killed and keeps what is stored alone, and the store can be cleared with what is in flight still to save over it |
| Overlap.LossMeansOverlap | washnpress-mobile/src/offline/queue.ts:44-50 | an action queued and now neither stored, synced, given up, cleared nor wiped means two windows overlapped |
| Overlap.ExclusiveRunsLoseExactlyWhatTheyWipe | washnpress-mobile/src/offline/async-storage.ts:42-63 | without overlap, a queued action is neither stored nor synced, given up or cleared if and only if an operation whose load failed wrote it over |
| Overlap.LossMeansOverlapOrWipe | washnpress-mobile/src/offline/queue.ts:3-5 | in any run, work gone and not done was wiped that way, or two windows overlapped |
| Overlap.RepeatMeansOverlap | washnpress-mobile/src/offline/queue.ts:79-108 | an action sent again after the runner reported success on it, with no drain cut short in between, means two windows overlapped |
| Overlap.ExclusiveRunsSendInOrder | washnpress-mobile/src/offline/queue.ts:72-108 | without overlap, split-step runs send in line order |
| Overlap.SaveLosesWhatItNeverLoaded | washnpress-mobile/src/offline/queue.ts:106-107 | in any interleaving whatever, a save loses exactly the stored actions its operation had not loaded and is not adding |
| Overlap.EnqueueDuringDrainIsLost | washnpress-mobile/src/portals/OperationsPortal.tsx:783 | an action queued while a drain waits on the server is wiped by that drain's save |
| Overlap.OverlappingDrainsSendTwice | washnpress-mobile/App.tsx:242-243 | two drains in flight send the same action twice, both accepted |
| Resends.SavePutsBackWhatLeft | washnpress-mobile/src/offline/queue.ts:106-107 | in any interleaving, a save puts back exactly the actions it loaded and does not settle that have left storage since |
| Resends.EverySuccessIsSomewhere | washnpress-mobile/src/offline/queue.ts:93-106 | the runner has reported success on an action exactly when a drain in flight had it, or one that was cut, or one that has saved |
| Resends.SavedIsGoneUntilPutBack | washnpress-mobile/src/offline/queue.ts:106-107 | once the drain that synced it has saved, an action is stored again only by being put back |
| Resends.SendRepeatsIff | washnpress-mobile/src/offline/queue.ts:90-94 | in any interleaving, a send repeats a success exactly when another drain in flight had it, the drain that had it was cut, or it has saved and the action was put back or is no longer stored |
| Resends.ServerCarriesOutAtMost | washnpress-mobile/src/offline/queue.ts:79-108 | in any interleaving, the queue makes the server carry an action out at most once, and once more per lost reply, cut after success, put-back and stale send |
| Resends.WorkIsDoneAtMost | washnpress-mobile/src/portals/OperationsPortal.tsx:770-790 | with the direct send before it, a tapped piece of work is carried out at most once, and once more if that send was carried out unheard and for each of those four |
| Resends.ExclusiveRunsCarryOutAtMost | washnpress-mobile/src/offline/queue.ts:79-108 | without overlap only lost replies, the direct one included, and cuts make it do so again |
| TapOrder.EarlierTapsAreDoneIff | washnpress-mobile/src/portals/OperationsPortal.tsx:490-511 | everything tapped before in an order has left the queue or been done exactly when nothing of it is stored that the server has not done |
| TapOrder.DoneByTapOrCall | washnpress-mobile/src/portals/OperationsPortal.tsx:769-790 | an action is done from the first tap or queue call of it that is accepted, or carried out with its reply lost, and not before |
| TapOrder.TapOrderKeptIffNoTapPasses | washnpress-mobile/src/portals/OperationsPortal.tsx:769-790 | over every run of taps, drains and clears, each order's steps are done in the order tapped if and only if no tap is carried out directly while its order has such work stored |
| TapOrder.WaitingKeepsTapOrder | washnpress-mobile/src/portals/OperationsPortal.tsx:769-790 | so the order is kept when nobody taps on while the order has stored work |
| TapOrder.LaterTapGoesFirst | washnpress-mobile/src/portals/OperationsPortal.tsx:781-785 | a tap that is lost and a later one that gets through are done out of order |
| TapOrder.TapIsQueuedIffUnanswered | washnpress-mobile/src/portals/OperationsPortal.tsx:769-790 | a tap is queued exactly when it fails with one of the two codes for silence and the write goes through; a refused or accepted tap leaves the queue as it was |
| OfflineQueue.KeysAreSeparate | washnpress-mobile/src/offline/async-storage.ts:25-40 | two people share a storage key exactly when they are the same person, nobody and an empty id counting as anonymous; the keys are "wnp.offline.queue." and the id, or "anonymous" |
| OfflineQueue.ReadingKeepsTheActions | washnpress-mobile/src/offline/async-storage.ts:46-50 | reading keeps exactly the entries that are actions, in order, and drops the rest |
| OfflineQueue.SavedIsReadBack | washnpress-mobile/src/offline/async-storage.ts:42-63 | a saved list is read back whole |
| OfflineQueue.AsyncStorageQueue.Load | washnpress-mobile/src/offline/async-storage.ts:42-54 | the actions of the person's own list, or none when it cannot be read or is no list |
| OfflineQueue.AsyncStorageQueue.Save | washnpress-mobile/src/offline/async-storage.ts:56-63 | replaces the person's list and no other, or changes nothing when the write is refused |
| OfflineQueue.MemoryQueueStorage.Load | washnpress-mobile/src/offline/memory-storage.ts:6-8 | a fresh copy: what a caller does to it does not reach the store |
| OfflineQueue.MemoryQueueStorage.Save | washnpress-mobile/src/offline/memory-storage.ts:9 | the store keeps a copy of its own with the same contents |
| OfflineQueue.Queue.Enqueue | washnpress-mobile/src/offline/queue.ts:44-50 | what was seen and the new action, with no tries used, are stored; other keys are untouched |
| OfflineQueue.Queue.Pending | washnpress-mobile/src/offline/queue.ts:52-54 | what can be read of the person's list |
| OfflineQueue.Queue.PendingCount | washnpress-mobile/src/offline/queue.ts:56-58 | and its length |
| OfflineQueue.Queue.Clear | washnpress-mobile/src/offline/queue.ts:68-70 | this key is emptied when the write goes through, and no other changes |
| OfflineQueue.Queue.Sync | washnpress-mobile/src/offline/queue.ts:79-108 | the loop stores, reports and calls exactly what the pass of `DrainPass` over the loaded list does, and its report adds up to the length loaded |
| OfflineQueue.MethodsAreRunOps | washnpress-mobile/src/offline/queue.ts:44-108 | the methods are the operations of the run model: a drain whose save is refused is a cut one, and an unreadable queue is forgotten once a write follows |
| OfflineQueue.UnreadableQueueIsWiped | washnpress-mobile/src/offline/async-storage.ts:42-63 | an enqueue or a drain keeps or settles all that was stored if and only if the read worked, the write failed, or nothing was stored |
| Sessions.AppRoot.Restore | washnpress-mobile/App.tsx:166-191 | a stored session is taken up unless the server rejects it, and forgotten only then, if the device lets it go |
| Sessions.OnlyARejectionForgets | washnpress-mobile/App.tsx:169-185 | starting up declines the stored session exactly when the server rejects it, and forgets it exactly when the device also carries that out |
| Sessions.OnboardingIsWhatTheServerAskedFor | washnpress-mobile/App.tsx:166-191 | over every history onboarding is asked for exactly when the server asked for it, at sign-in or at start, and no onboarding, expiry, sign-out or restart has settled it since; and only of somebody signed in |
| Sessions.TapIsQueuedForWhoTapped | washnpress-mobile/App.tsx:195-243 | a tap that goes unanswered is queued, with no tries used, behind what the person who tapped has stored, though another has signed in meanwhile |
| Sessions.AnsweredTapIsNotQueued | washnpress-mobile/src/portals/OperationsPortal.tsx:769-790 | a tap whose answer was heard can no longer be queued |
| Sessions.NobodySignedInDoesNothing | washnpress-mobile/App.tsx:228-243 | with nobody signed in nothing is tapped, drained, cleared, reissued or expired |
| Sessions.ExpiryLeavesTheQueues | washnpress-mobile/App.tsx:254-318 | an expiry ends the session and leaves every queue and all in flight; a reissued token replaces the live one and settles onboarding |
| Sessions.OlderSessionIsTakenUp | washnpress-mobile/App.tsx:166-177 | a session saved before ids were kept is taken up at start, without an id |
| Sessions.DrainRunsUnderWhoStartedIt | washnpress-mobile/App.tsx:195-243 | a drain loads the queue of the person signed in and keeps their token |
| Sessions.StepSendsWhatThePassCalls | washnpress-mobile/App.tsx:195-243 | each of its steps sends, under that token, the one call the pass makes, or nothing when the pass makes none |
| Sessions.RelaunchLosesWhatIsInFlight | washnpress-mobile/App.tsx:163-191 | killing the app loses what is in flight and keeps what is stored, the saved session included |
| Sessions.AppRoot.OnLoggedIn | washnpress-mobile/App.tsx:245-252 | the new person's token and id are live, and saved when the device takes them |
| Sessions.AppRoot.DropLocalSession | washnpress-mobile/App.tsx:261-279 | nobody is signed in; the saved session goes unless the device refuses; the queues are untouched |
| Sessions.AppRoot.OnOnboarded | washnpress-mobile/App.tsx:312-318 | a reissued token replaces the live one for the same person, and the saved one unless the device refuses |
| Sessions.AppRoot.Logout | washnpress-mobile/App.tsx:294-308 | only the signed-in person's queue is emptied, and only if the write goes through; nobody stays signed in, and the saved session goes unless the device refuses |
| Sessions.EveryoneRunsOnlyTheirOwnWork | washnpress-mobile/App.tsx:195-308 | over every interleaving of sign-ins, relaunches, expiries, sign-outs and queue operations, whatever is sent under a token was queued by that token's owner |
| Sessions.OtherQueuesAreUntouched | washnpress-mobile/App.tsx:221-227 | no move changes the queue of anyone but the person it acts for; expiry, relaunch and sign-in change none |
| Sessions.SignOutEmptiesOnlyTheirs | washnpress-mobile/App.tsx:294-308 | an uninterrupted sign-out leaves that queue empty if the write goes through, nobody signed in, and every other key as it was |
| Sessions.RelaunchBringsBackWhoWasSaved | washnpress-mobile/src/session.ts:53-59 | after a sign-out a restart signs somebody in exactly when the device kept the saved session and the server does not reject it, and it is that session's user |
| Sessions.SignOutHoldsIffNothingOwed | washnpress-mobile/App.tsx:302-307 | however what is in flight goes on, the cleared queue stays empty if and only if every operation under it is a drain that is through and keeps nothing, and no direct send tapped under it is unanswered |
| Sessions.SignOutCanBeUndone | washnpress-mobile/App.tsx:302-307 | a drain in flight at sign-out puts a refused action back into the cleared queue |
| Sessions.LegacyQueueIsOpenedOnlyByAnonymous | washnpress-mobile/src/offline/async-storage.ts:27-40 | a user opens the queue of a session without an id exactly when their id is empty or the literal "anonymous" |
| SessionExpiry.SpecNextIsSafe | washnpress-mobile/src/api/client.ts:41-48 | the rule: a rejection ends at most the live session, only if it was sent with that session's token, and no session ends twice |
| SessionExpiry.MobileClient.SetSessionExpiredHandler | washnpress-mobile/src/api/client.ts:50-56 | a handler is registered with its token and rearms the latch; detaching leaves the latch set |
| SessionExpiry.MobileClient.NotifyIfAuthenticatedSessionExpired | washnpress-mobile/src/api/client.ts:58-68 | the handler is called, and latches, exactly when status 401 answers a token that is not empty and is the live handler's own, on any path but the two of signing in by code |
| SessionExpiry.MobileStepRefines | washnpress-mobile/src/api/client.ts:50-68 | a step of the mobile client is a step of the rule, and the handler is called exactly when the rule ends a session |
| SessionExpiry.MobileRefinesTheRule | washnpress-mobile/App.tsx:272-279 | over every interleaving of sign-ins, sign-outs and late replies the mobile client follows the rule and calls its handler once per session ended |
| SessionExpiry.WebClient.SetSessionExpiredHandler | washnpress-web/lib/api-client.ts:42-44 | only the handler changes |
| SessionExpiry.WebClient.SetToken | washnpress-web/lib/api-client.ts:21-26 | a token is stored, or the stored one removed, unless storage refuses; a token starts a session either way |
| SessionExpiry.WebClient.EndSession | washnpress-web/lib/api-client.ts:49-54 | the session ends and the handler is told once; the token goes unless storage refuses |
| SessionExpiry.WebClient.OnReply | washnpress-web/lib/api-client.ts:81-93 | a reply ends the session exactly when status 401 answers the stored token, not empty, on any path but sign-out's, and it has not ended already |
| SessionExpiry.WebStepRefines | washnpress-web/lib/api-client.ts:21-93 | a step of the web client is a step of the rule, ending a session exactly when the rule does |
| SessionExpiry.WebRefinesTheRule | washnpress-web/lib/api-client.ts:11-54 | the web client follows the same rule from whatever token it finds, even when storage refuses to give a token up or to take one |
| SessionExpiry.EndedTokenRevives | washnpress-web/lib/api-client.ts:21-26 | an ended session's token that storage kept can be rejected again after exactly a sign-in with that token or one whose own token storage refused |
| SessionExpiry.WebLatchIsForRefusingStorage | washnpress-web/lib/api-client.ts:11-26 | while storage obeys, an ended session has no token left to be rejected with |
| RequestLayer.Request | washnpress-mobile/src/api/client.ts:163-213 | a write is sent once and a read at most three times, sending stops at the first response and gives up only out of sends, one, two and three sends wait 0, 300 and 900 ms, and it comes to a value exactly on a status of 200 to 299 with an empty or JSON body; otherwise what is raised, with its status and code |
| RequestLayer.ClassedUnanswered | washnpress-mobile/src/api/request-rules.ts:34-43 | a failure is classed unanswered exactly when no send got a response or the server's own refusal carries a reserved code |
| RequestLayer.OnlySilenceIsFree | washnpress-mobile/App.tsx:196-220 | if servers leave the reserved codes alone, silence stops the drain and costs no try, and every other failure costs one and stops nothing |
| RequestLayer.SyncedIffServerSaidYesOrUnknown | washnpress-mobile/App.tsx:199-220 | an action is taken off as done exactly when the server said yes, or its kind is unknown to the runner |
| RequestLayer.SentSucceedsOnTwoHundreds | washnpress-mobile/src/api/client.ts:187-213 | a known action with its order that gets a response is done exactly when the status is 200 to 299 and the body empty or JSON; every other response refuses it, but for the two reserved codes |
| RequestLayer.UnsentIsRefused | washnpress-mobile/App.tsx:197-202 | without a session, or for a pickup that names no order, nothing is sent and the action counts as refused |
| RequestLayer.KnownKindsAre | washnpress-mobile/App.tsx:199-220 | the fourteen kinds of action the runner sends |
| RequestLayer.ReservedCodeReadsAsLostSignal | washnpress-mobile/src/api/client.ts:208-211 | without that promise a refusal can pass for lost signal |
| TriesOnTheWire.TriesAreHeardFailures | washnpress-mobile/src/offline/queue-rules.ts:48-53 | over every run, the tries a stored action has used are its failures that something other than silence caused, below five, and the fifth is when it is given up on |
| CivilDate.YearsAddUp | washnpress-mobile/src/components/calendar.tsx:48-50 | the day number of a year's first day advances by the Gregorian length of the year |
| CivilDate.YearFromDayIsTheOnlyOne | washnpress-mobile/src/contact-rules.ts:73-74 | a day lies in exactly one year, the one found |
| CivilDate.DateOfDayNumber | washnpress-mobile/src/contact-rules.ts:73-74 | civil date to day number and back is the identity |
| CivilDate.DayNumberOfDate | washnpress-mobile/src/contact-rules.ts:73-74 | day number to civil date and back is the identity |
| CivilDate.DayNumbersAreOrdered | washnpress-mobile/src/contact-rules.ts:75 | day numbers are in date order |
| CivilDate.IsoOrderIsDateOrder | washnpress-mobile/src/contact-rules.ts:75 | four-digit-year dates written YYYY-MM-DD are in string order, and equal, exactly as their dates are |
| DateOfBirth.AcceptsExactlyRealDates | washnpress-mobile/src/contact-rules.ts:65-76 | whatever three fields are given and whatever the engine makes of impossible dates, the answer is a date exactly when they are the digits of a day that exists from 1900-01-01 to today, month and day with or without their leading zero, and it is that day |
| DateOfBirth.PaddingIsInFront | washnpress-mobile/src/contact-rules.ts:72 | padding makes the two figures of a number out of exactly those two figures, or the one figure of a number below ten |
| DateOfBirth.SomeEngineReadsRealDates | washnpress-mobile/src/contact-rules.ts:73 | an engine such as that result supposes exists |
| DateOfBirth.RoundTripSpells | washnpress-mobile/src/contact-rules.ts:72-74 | text that survives the round trip is its date's own text, field by field; a signed or rolled-over date never comes back the same |
| DateOfBirth.RealDateRoundTrips | washnpress-mobile/src/contact-rules.ts:73-74 | a real date's time prints as that date |
| CalendarGrid.DaysInMonthIsMonthLength | washnpress-mobile/src/components/calendar.tsx:48-50 | the day before the first of the next month is the Gregorian length of this one |
| CalendarGrid.NextMonthFollowsOn | washnpress-mobile/src/components/calendar.tsx:52-55 | the next month's leading blanks are this one's plus its length, modulo seven |
| CalendarGrid.Grid | washnpress-mobile/src/components/calendar.tsx:114-118 | the loop builds the blanks followed by the days 1 to the month's last, in order |
| CalendarGrid.CivilWeekdayIsTheWeek | washnpress-mobile/src/components/calendar.tsx:52-55 | the weekday reckoned from year, month and day alone is the week: 1 January 1970 is a Thursday, and the day after a date that exists is one weekday on, over month and year ends |
| CalendarGrid.ColumnIsCivilWeekday | washnpress-mobile/src/components/calendar.tsx:52-55 | the Monday-first column of a day number is that weekday, for every date that exists |
| CalendarGrid.DaysSitUnderTheirWeekday | washnpress-mobile/src/components/calendar.tsx:48-55 | the grid's days are exactly those that exist in the month, each in the Monday-first column of the weekday its year, month and day have |
| CalendarGrid.FirstCenturyShowsTheTwentieth | washnpress-mobile/src/components/calendar.tsx:48-55 | the years 0 to 99 show the months of 1900 to 1999 |
| CalendarGrid.BlockedIsOutOfRange | washnpress-mobile/src/components/calendar.tsx:128-133 | for years 1000 to 9999 a day is blocked exactly when its date is before the first or after the last allowed |
| CalendarGrid.BlockedRightlyIffYearReadsRight | washnpress-mobile/src/components/calendar.tsx:57-59 | a day of any year is blocked in date order by all four-digit bounds exactly when its year has four figures, or more and begins 9999 |
| CalendarGrid.LongYearIsBlocked | washnpress-mobile/src/components/calendar.tsx:128-133 | how a longer year is blocked: by its first four figures |
| CalendarGrid.NoBoundBlocksNothing | washnpress-mobile/src/components/calendar.tsx:128-133 | without bounds, or with empty ones, nothing is blocked |
| CalendarGrid.CalendarModal.Step | washnpress-mobile/src/components/calendar.tsx:120-125 | the month buttons' new year and month |
| CalendarGrid.StepMovesByDelta | washnpress-mobile/src/components/calendar.tsx:120-125 | a step stays within the year's months, and moves by its own size exactly when it reaches at most one month past either end |
| CalendarGrid.WalkMovesByTotal | washnpress-mobile/src/components/calendar.tsx:120-125 | any sequence of button presses moves 12·year+month by exactly their total |
| FlatNumbers.PrefixRulesAgree | washnpress-web/lib/unit.ts:32-39 | the mobile and web prefix rules are one rule, on every text |
| FlatNumbers.PrefixComesOffIff | washnpress-mobile/src/unit-display.ts:29-36 | a tower comes off a text exactly when it stands at its head in any case with white space, slashes or dashes behind it and something behind those; and exactly that is left |
| FlatNumbers.ShortForms | washnpress-mobile/src/unit-display.ts:14-17 | a tower written as "tower", "block", "wing" or "phase" in any case, white space and a name has that name as its short form by both rules, with fewer letters; a tower led by none of those words is its own short form |
| FlatNumbers.FlatWordComesOff | washnpress-mobile/src/unit-display.ts:18-25 | both rules take "Flat", "Flat no" or "Flat no." in any case and the white space behind it off, and leave the rest as it was |
| FlatNumbers.BothRulesReadTheDoor | washnpress-mobile/src/unit-display.ts:38-53 | bare, under the full tower name or under its short form, in any case, with any separators, behind "Flat", "Flat no" or nothing, and with spaces around the address or the tower, both rules read back the door, for towers like "North Wing" too |
| FlatNumbers.WithoutTowerTheTextIsRead | washnpress-mobile/src/unit-display.ts:42-53 | without a tower both rules take the flat word and the spaces around off, and nothing else |
| FlatNumbers.DocumentedAddresses | washnpress-web/lib/unit.ts:9-18 | the documented addresses, each read by both rules as the number promised |
| FlatNumbers.OnlyMobileReadsFlatBehindTower | washnpress-web/lib/unit.ts:41-50 | for every tower that does not itself lead with "flat" or with what is dropped behind it, "Flat" written behind it is taken off by the mobile rule and kept by the web rule |
| FlatNumbers.FlatWordHalvesAgree | washnpress-mobile/src/unit-display.ts:18-25 | on any trimmed text the two flat-word rules agree exactly where something follows "flat no" that is no colon, point or dash |
| FlatNumbers.TowerHalvesAgree | washnpress-web/lib/unit.ts:47-49 | from one value the tower steps agree exactly when the web takes off no short form of its own and no flat word shows behind the tower |
| FlatNumbers.RulesAgreeIff | washnpress-web/lib/unit.ts:41-50 | for every address and every tower, the exact condition on the text under which mobile and web read the same flat number |
| FlatNumbers.PlainTowersAgreeIff | washnpress-web/lib/unit.ts:41-50 | for towers not named with punctuation first or behind their building word: exactly when the address has no odd gap behind "flat" and no flat word behind the tower |
| Loader.UseLoader.Reload | washnpress-mobile/src/hooks.ts:26-29 | a load takes the next generation, sets busy and clears the error |
| Loader.UseLoader.Settle | washnpress-mobile/src/hooks.ts:30-38 | a load's end is heeded only while it is the newest and the screen is up |
| Loader.UseLoader.Unmount | washnpress-mobile/src/hooks.ts:24 | nothing but the mounted mark changes |
| Loader.NewestLoadWins | washnpress-mobile/src/hooks.ts:14-38 | in whatever order loads settle, results are shown in the order their loads began, and a mounted screen is busy exactly while the newest is out and then shows what it came to |
| Loader.EventsTellTheScreen | washnpress-mobile/src/hooks.ts:26-38 | the data shown is what the last load that succeeded while still the newest brought |
| Loader.ArrivalOrderIsInvisibleIff | washnpress-mobile/src/hooks.ts:14-17 | two mounted screens whose loads came to the same look the same exactly when the newest succeeded, or their last timely success brought the same |
| Loader.ArrivalOrderShowsBehindAnError | washnpress-mobile/src/hooks.ts:33-34 | when the newest failed, they need not: which older result stands behind the error depends on when it arrived |
| Booking.BookingWizard.Confirm | washnpress-mobile/src/portals/ResidentPortal.tsx:560-594 | the two requests in order, what each reply leads to, and what the server has booked, replies lost on the way included |
| Booking.ConfirmEndsInErrorOrRecord | washnpress-mobile/src/portals/ResidentPortal.tsx:560-594 | a confirm ends in an error or a record and which: the error when the pickup failed, or the service failed with no order code to show, in the server's words but for a slot that filled up; the record otherwise, with what succeeded and the failed service's name and reason |
| Booking.BookingWizard.Continue | washnpress-mobile/src/portals/ResidentPortal.tsx:596 | one step on, or a confirm on the review |
| Booking.BookingWizard.ToggleLaundry | washnpress-mobile/src/portals/ResidentPortal.tsx:535-539 | asking for laundry again starts without a slot and asks for the day's |
| Booking.BookingWizard.PressService | washnpress-mobile/src/portals/ResidentPortal.tsx:541-545 | another service starts without a slot; pressing the chosen one lets go of it |
| Booking.BookingWizard.ChangeLaundryDate | washnpress-mobile/src/portals/ResidentPortal.tsx:535-539 | another day drops the slot and asks for that day's, the old ones still listed |
| Booking.BookingWizard.ChangeServiceDate | washnpress-mobile/src/portals/ResidentPortal.tsx:541-545 | another day drops the slot and asks for that day's, the old ones still listed |
| Booking.BookingWizard.ReceiveLaundry | washnpress-mobile/src/portals/ResidentPortal.tsx:538 | whichever load it is of, the reply replaces the list and leaves the chosen slot |
| Booking.BookingWizard.ReceiveVisits | washnpress-mobile/src/portals/ResidentPortal.tsx:544 | the same for the services' slots |
| Booking.StepsBehindAreDone | washnpress-mobile/src/portals/ResidentPortal.tsx:528-558 | in every run of the wizard each step before the current one is satisfied, whatever is toggled, re-dated or unpicked |
| Booking.BothCanBeBooked | washnpress-mobile/src/portals/ResidentPortal.tsx:528-596 | for every service, day and slots there is a run that books the pickup and the service on the days shown, laundry toggled off and on and the service's day changed on the way |
| Booking.BackUndoesContinue | washnpress-mobile/src/portals/ResidentPortal.tsx:596-740 | going on from any step but the last, and back, leaves everything as it was |
| Booking.ChipIsChosenOrLetGo | washnpress-mobile/src/portals/ResidentPortal.tsx:675-711 | a slot pressed is the one chosen, unless it was already, and then none is |
| Booking.ConfirmHasEverySlot | washnpress-mobile/src/portals/ResidentPortal.tsx:556-596 | a confirm is made only with something chosen and a slot for every chosen part |
| Booking.SlotsWerePickedForWhatIsShown | washnpress-mobile/src/portals/ResidentPortal.tsx:535-545 | in every run the chip of a slot still chosen was pressed while the wizard showed the day, and the service, it shows now |
| Booking.ChipsAreOfTheirList | washnpress-mobile/src/portals/ResidentPortal.tsx:675-711 | a chip's slot is of the day, and the service, its list was loaded for |
| Booking.ScreenTellsTheTruthIff | washnpress-mobile/src/portals/ResidentPortal.tsx:599-630 | over every run, the closing screen tells exactly what was booked, day and service included, if and only if nothing was left behind or unheard and each chip was pressed on a list loaded for what was then shown |
| Booking.StaleChipBooksAnotherDay | washnpress-mobile/src/portals/ResidentPortal.tsx:535-539 | a chip of the old day, taken before the new list arrives, books the old day while the screen prints the new one |
| Booking.PressKeepsAccount | washnpress-mobile/src/portals/ResidentPortal.tsx:560-594 | what a press books is what the record claims, except exactly when a carried-out reply is lost, or the pickup's code comes back empty and the service fails |
| Booking.RecordIsWhatWasBooked | washnpress-mobile/src/portals/ResidentPortal.tsx:503-506 | in every run the server has booked exactly the parts and slots the record names if and only if none of those happened |
| Booking.AtMostOneOfEachButForExtras | washnpress-mobile/src/portals/ResidentPortal.tsx:586-592 | however often Confirm is pressed, the pickups booked are one if the record names one, and those extras; the same for the service |
| Booking.EveryExtraIsLostOrLeftBehind | washnpress-mobile/src/portals/ResidentPortal.tsx:566-592 | over every run, pickups and services booked exceed the record by exactly the number of lost carried-out replies and of pickups left behind |
| Booking.ConfirmAgainBooksTwice | washnpress-mobile/src/portals/ResidentPortal.tsx:571-585 | after any confirm that books a pickup and leaves the wizard open, confirming again books another |
| Booking.LostReplyBooksTwice | washnpress-mobile/src/portals/ResidentPortal.tsx:571-575 | a run with one lost reply, every order with a code, books two pickups |
| Booking.UnheardFromTheWire | washnpress-mobile/src/api/client.ts:163-213 | with a server that says what it did, a booking goes unheard exactly when it was carried out and no order came back that could be read |
| Booking.FilledUpIsTheServersWord | washnpress-mobile/src/portals/ResidentPortal.tsx:562-585 | a failed booking is told as a slot that filled up exactly when the server's answer carries one of its two codes, and counts as refused exactly on an answer in JSON with a status outside 200 to 299 |
| Booking.PartlyBookedIsSaid | washnpress-mobile/src/portals/ResidentPortal.tsx:584-605 | the closing screen says "Partly booked" and names the service exactly when the pickup went through, the service request failed and its error had words; that service is booked after all exactly when the lost reply was carried out |
| Measurements.NormaliseIsIdempotent | washnpress-mobile/src/api/units.ts:37-40 | rounding twice is rounding once, for every unit and number |
| Measurements.NormaliseStaysClose | washnpress-mobile/src/api/units.ts:19-40 | kilograms, hours and square feet go to the nearest hundredth, moving by at most 0.005; everything else loses less than one and is whole |
| Measurements.SaidAsAPersonWould | washnpress-mobile/src/api/units.ts:7-17 | "4.50 kg", "4 kg", "1 piece" and "6 pieces", and every counted unit and hours by one name for one and with an s for more |
| Measurements.NoFigureReadsAsNothing | washnpress-mobile/src/api/units.ts:68-74 | text without a figure in it reads as nothing given |
| Measurements.PrintedReadsBack | washnpress-mobile/src/api/units.ts:42-74 | a printed quantity reads back as it was rounded when anything was left of it, and as nothing otherwise |
| Measurements.ReadsAsZeroIffTooSmall | washnpress-mobile/src/api/units.ts:68-74 | text reads as zero exactly when its number is positive and below 0.005, or below one for a counted unit |
| Measurements.SanitizedIsAMeasurement | washnpress-mobile/src/api/units.ts:76-89 | the box holds the digits typed, in order, and at most one point, where the first one was |
| Measurements.SanitizedKeepsExactlyMeasurements | washnpress-mobile/src/api/units.ts:76-89 | text is left alone exactly when it is digits with at most one point |
| Measurements.SanitizedTwiceIsOnce | washnpress-mobile/src/api/units.ts:80-89 | cleaning twice is cleaning once |
| Measurements.SanitizedReadsTheSame | washnpress-mobile/src/api/units.ts:70-89 | cleaning does not change what is read unless there was a second point and the rest makes a quantity |
| Dropdown.NeverOverlapsItsField | washnpress-mobile/src/components/layout.ts:92-131 | the list stands clear of its field by a gap of 4, above or below |
| Dropdown.ShowsEveryRowWhereThereIsRoom | washnpress-mobile/src/components/layout.ts:115-130 | with room for them on one side all rows show, 44 high and with a margin of 8 unless told otherwise, and it opens upwards exactly when they do not fit below and there is more room above |
| Dropdown.IsAsWideAsItNeeds | washnpress-mobile/src/components/layout.ts:108-111 | it is as wide as its field or its least width, 180 unless told otherwise, and less only where the window has no room, down to 120 |
| Dropdown.FitsVerticallyIffRoomForARow | washnpress-mobile/src/components/layout.ts:115-131 | it stays inside the margin on its side exactly when that side has room for one row |
| Dropdown.FitsSidewaysIffWideEnough | washnpress-mobile/src/components/layout.ts:108-113 | it never starts left of the margin, and ends inside the right one exactly when the window is wide enough, which 120 and two margins guarantee |
| Dropdown.LinesUpWithItsField | washnpress-mobile/src/components/layout.ts:108-113 | it starts at its field's edge wherever that keeps it inside both margins, and is as wide as the field unless the window is too narrow |
| Dropdown.OpensWhereMoreShows | washnpress-mobile/src/components/layout.ts:115-122 | it opens upwards exactly when more of the list shows there, and is as tall as the better side allows |

## Left out

- Resends.WorkIsDoneAtMost: counts what the server is asked and does; whether it drops a repeat it recognises is its own business and its code is not part of this model.
- Sessions.AppRoot.Restore: a saved session that cannot be read, which counts as none, is not modelled; nor is one whose token is empty.
- Sessions.EveryoneRunsOnlyTheirOwnWork: supposes user ids that are not empty and not "anonymous"; `Sessions.LegacyQueueIsOpenedOnlyByAnonymous` says what such ids would open.
- SessionExpiry.WebRefinesTheRule: storage events from other tabs are not modelled; it is about one client.
- RequestLayer.Request: time-outs and dropped connections are what the network oracle says; that a body may never arrive after its headers, with no time-out on reading it, is not modelled.
- DateOfBirth.AcceptsExactlyRealDates: the engine's parser is a parameter, held only to what ECMA-262 fixes for dates that exist.
- CalendarGrid.DaysSitUnderTheirWeekday: for years from 100; `Date.UTC` takes the years 0 to 99 for 1900 to 1999.
- FlatNumbers.BothRulesReadTheDoor: text is ASCII, so case and white space outside it are not modelled; doors are digits, and towers do not lead with the word "flat" or with what is dropped behind it, nor with the word "no" when "Flat" is written before them ("Flat No 5-101" can be read either way).
- Loader.NewestLoadWins: a screen that sets the data itself through `setData` is not modelled.
- Booking.UnheardFromTheWire: a readable answer is taken to tell what the server did.
- Booking.ScreenTellsTheTruthIff: each press is one step, so two presses handled before the screen redraws are not modelled, nor a change of token while the wizard is open; a list that arrives after the end, and the times printed beside a slot, are not modelled; listed slots are the ones that can be pressed.
- TapOrder.TapOrderKeptIffNoTapPasses: a tap and its answer are one step, so two taps on one order in flight at once, which a screen's busy mark prevents within that screen, are not modelled.
- Measurements.PrintedReadsBack: numbers are exact decimals; binary rounding, and the exponent JavaScript prints from 10^21 on, are not modelled.
- Dropdown.FitsVerticallyIffRoomForARow: positions are exact reals.
- OfflineQueue.AsyncStorageQueue.Load: parsing JSON itself is not modelled; an entry with an id and a kind is taken to have a payload.
- Payload fields of queued actions other than the order id, the endpoints they go to, and the wording of messages.
- `fieldWidth`, `towerLabel`, `formatUnit` and `usePolling`, which would add only easy members.
- Rendering, styling, push registration, payments, pickers, and the other screens.
- The backend's ledger, slot capacity and order state machine, whose source is not part of this model.
