// Which queued actions wait for one another, and what a failure costs
// (washnpress-mobile/src/offline/queue-rules.ts).
module QueueRules {
  import opened Prelude
  import opened RequestRules

  // A payload value: a string, or any other JSON value kept as its text.
  datatype Field = Text(text: string) | NotText(json: string)

  datatype Action = Action(
    id: string,
    kind: string,
    payload: map<string, Field>,
    createdAt: string,
    attempts: Option<nat>)

  // What one call of the runner comes to. A failure may hide that the server did carry the
  // action out: its reply was lost. The app cannot see `carriedOut`, and no rule reads it.
  datatype Answer = Accepted | Failed(error: Failure, carriedOut: bool)

  predicate Unanswered(answer: Answer) {
    answer.Failed? && IsConnectivityFailure(answer.error)
  }

  predicate Refused(answer: Answer) {
    answer.Failed? && !IsConnectivityFailure(answer.error)
  }

  // The server carried the action out, whether or not the app has heard.
  predicate CarriesOut(answer: Answer) {
    answer.Accepted? || answer.carriedOut
  }

  const MAX_ACTION_ATTEMPTS: nat := 5

  // The order an action belongs to, when its payload names one.
  function OrderOf(action: Action): Option<string> {
    if "orderId" in action.payload && action.payload["orderId"].Text? && action.payload["orderId"].text != ""
    then Some(action.payload["orderId"].text)
    else None
  }

  function StreamOf(action: Action): string {
    match OrderOf(action)
    case Some(orderId) => "order:" + orderId
    case None => "action:" + action.id
  }

  // Two actions share a line exactly when they name the same order, or name none and
  // are the same action: an order called like an action id cannot collide with it.
  lemma SameLineIffSameOrder(a: Action, b: Action)
    ensures StreamOf(a) == StreamOf(b) <==>
            OrderOf(a) == OrderOf(b) && (OrderOf(a).None? ==> a.id == b.id)
  {
    var s, t := StreamOf(a), StreamOf(b);
    assert s[0] == (if OrderOf(a).Some? then 'o' else 'a');
    assert t[0] == (if OrderOf(b).Some? then 'o' else 'a');
    assert if OrderOf(a).Some? then s[6..] == OrderOf(a).value else s[7..] == a.id;
    assert if OrderOf(b).Some? then t[6..] == OrderOf(b).value else t[7..] == b.id;
  }

  // The payload holds this text, not empty, under "orderId".
  predicate NamesOrder(action: Action, order: string) {
    order != "" && "orderId" in action.payload && action.payload["orderId"] == Text(order)
  }

  // It holds nothing there, or something that is no text, or the empty text.
  predicate NamesNoOrder(action: Action) {
    "orderId" !in action.payload || action.payload["orderId"].NotText? || action.payload["orderId"] == Text("")
  }

  // Two actions have to keep their order.
  predicate MustWait(a: Action, b: Action) {
    if NamesNoOrder(a) || NamesNoOrder(b) then NamesNoOrder(a) && NamesNoOrder(b) && a.id == b.id
    else a.payload["orderId"] == b.payload["orderId"]
  }

  // Read off the payload: steps of one order share a line and steps of two do not, and an
  // action that names no order shares its line only with itself.
  lemma LinesByPayload(a: Action, b: Action)
    ensures forall o, o' | NamesOrder(a, o) && NamesOrder(b, o') :: StreamOf(a) == StreamOf(b) <==> o == o'
    ensures NamesNoOrder(a) ==> (StreamOf(a) == StreamOf(b) <==> NamesNoOrder(b) && a.id == b.id)
    ensures StreamOf(a) == StreamOf(b) <==> MustWait(a, b)
  {
    SameLineIffSameOrder(a, b);
  }

  datatype Verdict = Verdict(keep: Option<Action>, stopDraining: bool)

  function TriesSoFar(action: Action): nat {
    action.attempts.GetOr(0)
  }

  // An action from before the count existed has all its tries: it is kept with one used.
  lemma NoCountReadsAsNone(action: Action, error: Failure)
    requires action.attempts == None && !IsConnectivityFailure(error)
    ensures AfterFailure(action, error) == Verdict(Some(action.(attempts := Some(1))), false)
  {
  }

  function AfterFailure(action: Action, error: Failure): Verdict {
    if IsConnectivityFailure(error) then Verdict(Some(action), true)
    else
      var attempts := TriesSoFar(action) + 1;
      if attempts >= MAX_ACTION_ATTEMPTS then Verdict(None, false)
      else Verdict(Some(action.(attempts := Some(attempts))), false)
  }
}
