// One API request: sending, sending again, and what a failure is classed as
// (washnpress-mobile/src/api/client.ts:76-95, 163-213).
module RequestLayer {
  import opened Prelude
  import opened RequestRules
  import opened QueueRules

  // What one send comes to: nothing came back (timed out, or never left), or a response.
  // Either way the server may or may not have carried the request out.
  datatype Wire = Silence(timedOut: bool, carriedOut: bool) | Response(status: int, body: Body, carriedOut: bool)

  // The body of a response; `Lost` is a connection dropped while reading it.
  datatype Body = Lost | Empty | NotJson | Json(error: Option<string>)

  datatype Outcome = Value | Raised(status: Option<int>, failure: Failure)

  predicate IsOk(status: int) {
    200 <= status <= 299
  }

  function SilenceFailure(wire: Wire): Failure
    requires wire.Silence?
  {
    Failure(Some(if wire.timedOut then TIMEOUT_ERROR_CODE else NETWORK_ERROR_CODE))
  }

  // What the caller gets once there is a response.
  function Read(response: Wire): Outcome
    requires response.Response?
  {
    match response.body
    case Lost => Raised(None, Failure(None))
    case Empty => if IsOk(response.status) then Value else Raised(Some(response.status), Failure(None))
    case NotJson => Raised(Some(response.status), Failure(Some("invalid_response")))
    case Json(error) => if IsOk(response.status) then Value else Raised(Some(response.status), Failure(error))
  }

  // `wire(k)` is what the k-th send would come to.
  type Network = int -> Wire

  datatype Sent = Sent(sends: nat, waitedMs: nat, outcome: Outcome)

  function MaxSends(isRead: bool): nat {
    if isRead then MAX_ATTEMPTS else 1
  }

  // What a request comes to, by what the last send came to: a value for a status of 200 to
  // 299 with a body that is empty or JSON, and otherwise what is raised.
  predicate ComesTo(reply: Wire, outcome: Outcome) {
    match reply
    case Silence(timedOut, _) =>
      outcome == Raised(Some(0), Failure(Some(if timedOut then "network_timeout" else "network_unreachable")))
    case Response(status, body, _) =>
      match body
      case Lost => outcome == Raised(None, Failure(None))
      case NotJson => outcome == Raised(Some(status), Failure(Some("invalid_response")))
      case Empty => outcome == if 200 <= status < 300 then Value else Raised(Some(status), Failure(None))
      case Json(error) => outcome == if 200 <= status < 300 then Value else Raised(Some(status), Failure(error))
  }

  method Request(isRead: bool, network: Network) returns (sent: Sent)
    ensures 1 <= sent.sends <= (if isRead then 3 else 1)
    ensures forall k | 1 <= k < sent.sends :: network(k).Silence?
    ensures network(sent.sends).Silence? ==> sent.sends == if isRead then 3 else 1
    ensures sent.waitedMs == if sent.sends == 1 then 0 else if sent.sends == 2 then 300 else 900
    ensures ComesTo(network(sent.sends), sent.outcome)
    ensures sent == Asked(isRead, network, 1)
  {
    var attempt: nat := 1;
    var waited := 0;
    while true
      invariant 1 <= attempt <= MaxSends(isRead)
      invariant forall k | 1 <= k < attempt :: network(k).Silence?
      invariant waited == 300 * (Pow2(attempt - 1) - 1)
      invariant Asked(isRead, network, 1) ==
                (var rest := Asked(isRead, network, attempt); rest.(waitedMs := rest.waitedMs + waited))
      decreases MaxSends(isRead) - attempt
    {
      var reply := network(attempt);
      if reply.Response? {
        return Sent(attempt, waited, Read(reply));
      }
      var error := SilenceFailure(reply);
      if !ShouldRetry(isRead, attempt, error) {
        return Sent(attempt, waited, Raised(Some(0), error));
      }
      waited := waited + RetryDelayMs(attempt);
      attempt := attempt + 1;
    }
  }

  // The same request from its `attempt`-th send on, as a function.
  function Asked(isRead: bool, network: Network, attempt: nat): (sent: Sent)
    requires 1 <= attempt <= MaxSends(isRead)
    ensures attempt <= sent.sends <= MaxSends(isRead)
    decreases MaxSends(isRead) - attempt
  {
    var reply := network(attempt);
    if reply.Response? then Sent(attempt, 0, Read(reply))
    else if !ShouldRetry(isRead, attempt, SilenceFailure(reply)) then
      Sent(attempt, 0, Raised(Some(0), SilenceFailure(reply)))
    else
      var rest := Asked(isRead, network, attempt + 1);
      rest.(waitedMs := rest.waitedMs + RetryDelayMs(attempt))
  }

  // The server itself answering with one of the client's two reserved codes.
  predicate ServerUsesReservedCode(reply: Wire) {
    reply.Response? && !IsOk(reply.status) && reply.body.Json? && IsConnectivityFailure(Failure(reply.body.error))
  }

  predicate NothingCameBack(network: Network, sends: nat) {
    forall k | 1 <= k <= sends :: network(k).Silence?
  }

  // A failure is classed "never answered" exactly when nothing came back from any send,
  // or the server's own refusal carries a reserved code.
  lemma {:induction false} ClassedUnanswered(isRead: bool, network: Network, attempt: nat)
    requires 1 <= attempt <= MaxSends(isRead)
    requires forall k | 1 <= k < attempt :: network(k).Silence?
    ensures var sent := Asked(isRead, network, attempt);
            sent.outcome.Raised? ==>
              (IsConnectivityFailure(sent.outcome.failure) <==>
               NothingCameBack(network, sent.sends) || ServerUsesReservedCode(network(sent.sends)))
    ensures forall k | 1 <= k < Asked(isRead, network, attempt).sends :: network(k).Silence?
    decreases MaxSends(isRead) - attempt
  {
    var reply := network(attempt);
    if reply.Silence? && ShouldRetry(isRead, attempt, SilenceFailure(reply)) {
      ClassedUnanswered(isRead, network, attempt + 1);
    }
  }

  // ----------------------------------------------------------- the queue's runner

  // The kinds of queued action the runner knows how to send, every one of them a write.
  const KNOWN_KINDS := {
    "markPickedUp", "failPickup", "startWash", "completeWash", "startIroning", "completeIroning", "advanceStage",
    "qcPass", "qcFail", "reprocessWash", "reprocessIron", "outForDelivery", "claim", "deliver"
  }

  predicate SignedIn(token: Option<string>) {
    token.Some? && token.value != ""
  }

  // A pickup is rebuilt from its payload, and cannot be without an order.
  predicate Rebuildable(action: Action) {
    action.kind == "markPickedUp" ==>
      "orderId" in action.payload &&
      match action.payload["orderId"]
      case Text(text) => text != ""
      case NotText(json) => json !in {"null", "false", "0"}
  }

  predicate IsSent(token: Option<string>, action: Action) {
    SignedIn(token) && action.kind in KNOWN_KINDS && Rebuildable(action)
  }

  function RunnerAnswer(token: Option<string>, action: Action, network: Network): Answer {
    if !SignedIn(token) || !Rebuildable(action) then Failed(Failure(None), false)
    else if action.kind !in KNOWN_KINDS then Accepted
    else
      match Asked(false, network, 1).outcome
      case Value => Accepted
      case Raised(_, failure) => Failed(failure, network(1).carriedOut)
  }

  predicate ServerSaidYes(reply: Wire) {
    reply.Response? && Read(reply).Value?
  }

  // With servers that leave the reserved codes alone, silence stops the drain and costs
  // the action nothing, and every other failure costs it one try: the server's refusals,
  // an answer lost or unreadable on its way back even when it was a success, and the two
  // kinds of action that are not sent at all for want of a token or an order. A failed
  // action was carried out exactly if it was sent and its one send was.
  lemma OnlySilenceIsFree(token: Option<string>, action: Action, network: Network)
    requires !ServerUsesReservedCode(network(1))
    ensures var answer := RunnerAnswer(token, action, network);
            && (Unanswered(answer) <==> IsSent(token, action) && network(1).Silence?)
            && (answer.Failed? ==> (answer.carriedOut <==> IsSent(token, action) && network(1).carriedOut))
            && (answer.Failed? ==>
                  var verdict := AfterFailure(action, answer.error);
                  if IsSent(token, action) && network(1).Silence? then verdict == Verdict(Some(action), true)
                  else !verdict.stopDraining &&
                       (verdict.keep.Some? ==> TriesSoFar(verdict.keep.value) == TriesSoFar(action) + 1))
  {
    ClassedUnanswered(false, network, 1);
    assert Asked(false, network, 1).sends == 1;
    assert NothingCameBack(network, 1) <==> network(1).Silence?;
  }

  // An action leaves the queue as done exactly when the server said yes to it, or when
  // the runner does not know its kind, and then without being sent.
  lemma SyncedIffServerSaidYesOrUnknown(token: Option<string>, action: Action, network: Network)
    requires SignedIn(token)
    ensures RunnerAnswer(token, action, network).Accepted? <==>
            if action.kind in KNOWN_KINDS then Rebuildable(action) && ServerSaidYes(network(1)) else true
  {
  }

  // The runner knows these kinds and no other.
  lemma KnownKindsAre(kind: string)
    ensures kind in KNOWN_KINDS <==>
            || kind == "markPickedUp" || kind == "failPickup" || kind == "claim" || kind == "deliver"
            || kind == "startWash" || kind == "completeWash" || kind == "startIroning" || kind == "completeIroning"
            || kind == "advanceStage" || kind == "qcPass" || kind == "qcFail"
            || kind == "reprocessWash" || kind == "reprocessIron" || kind == "outForDelivery"
  {
  }

  // What becomes of an action that is sent, by the status and body of the one response: it
  // succeeds on 200 to 299 with a body that is empty or JSON, and every other response
  // refuses it, but one that refuses with one of the two reserved codes.
  lemma SentSucceedsOnTwoHundreds(token: Option<string>, action: Action, network: Network)
    requires token.Some? && token.value != "" && action.kind in KNOWN_KINDS
    requires action.kind == "markPickedUp" ==>
               "orderId" in action.payload &&
               action.payload["orderId"] !in {Text(""), NotText("null"), NotText("false"), NotText("0")}
    requires network(1).Response?
    ensures var answer, status, body := RunnerAnswer(token, action, network), network(1).status, network(1).body;
            && (answer.Accepted? <==> 200 <= status < 300 && (body.Empty? || body.Json?))
            && (answer.Failed? ==>
                  (Refused(answer) <==> !(body == Json(Some("network_unreachable")) || body == Json(Some("network_timeout")))))
  {
  }

  // Without a session, or for a pickup that names no order, nothing is sent and the action
  // is refused.
  lemma UnsentIsRefused(token: Option<string>, action: Action, network: Network)
    requires || token == None || token == Some("")
             || (action.kind == "markPickedUp" &&
                 ("orderId" in action.payload ==>
                    action.payload["orderId"] in {Text(""), NotText("null"), NotText("false"), NotText("0")}))
    ensures Refused(RunnerAnswer(token, action, network))
  {
  }

  // Without that promise the classing fails: this refusal reads as lost signal.
  lemma ReservedCodeReadsAsLostSignal(token: Option<string>, action: Action, network: Network)
    requires IsSent(token, action) && network(1).Response?
    requires network(1).status == 503 && network(1).body == Json(Some(TIMEOUT_ERROR_CODE))
    ensures Unanswered(RunnerAnswer(token, action, network))
  {
  }
}
