// The resident's booking wizard: a laundry pickup, a service, or both, in two requests
// (washnpress-mobile/src/portals/ResidentPortal.tsx:490-745).
module Booking {
  import opened Prelude
  import opened RequestLayer

  datatype Offering = Offering(id: string, name: string)

  // The error a failed request is caught as.
  datatype Refusal = Refusal(code: string, message: string)

  // What each of the two requests comes to. A reply that is lost leaves the wizard with an
  // error and says nothing of whether the server made the booking.
  datatype PickupReply = Ordered(orderCode: string) | NoPickup(refusal: Refusal) | PickupLost(refusal: Refusal, carriedOut: bool)
  datatype VisitReply = Agreed | NoVisit(refusal: Refusal) | VisitLost(refusal: Refusal, carriedOut: bool)

  // What the wizard says went through, and what did not.
  datatype Record = Record(
    laundry: Option<string>,
    service: Option<string>,
    failedService: Option<string>,
    serviceError: Option<string>)

  // The slots on screen that can be pressed, which are those not full, and what they were
  // loaded for.
  datatype Listing<D> = Listing(of: D, slots: seq<string>)

  // The slots listed and the loads still out, numbered as they start: laundry for a day,
  // services for a service and a day. A reply is shown whichever load it is of.
  datatype Lists = Lists(
    laundry: Listing<string>,
    laundryLoads: map<nat, string>,
    visits: Listing<(string, string)>,
    visitLoads: map<nat, (string, string)>,
    nextLoad: nat)

  // One load more is out, for this; what is listed stays listed.
  predicate LaundryAskedFor(before: Lists, now: Lists, day: string) {
    && now.laundryLoads == before.laundryLoads[before.nextLoad := day] && now.nextLoad == before.nextLoad + 1
    && now.laundry == before.laundry && now.visits == before.visits && now.visitLoads == before.visitLoads
  }

  predicate VisitsAskedFor(before: Lists, now: Lists, wanted: (string, string)) {
    && now.visitLoads == before.visitLoads[before.nextLoad := wanted] && now.nextLoad == before.nextLoad + 1
    && now.laundry == before.laundry && now.visits == before.visits && now.laundryLoads == before.laundryLoads
  }

  function LoadLaundry(lists: Lists, day: string): Lists {
    lists.(laundryLoads := lists.laundryLoads[lists.nextLoad := day], nextLoad := lists.nextLoad + 1)
  }

  function LoadVisits(lists: Lists, service: string, day: string): Lists {
    lists.(visitLoads := lists.visitLoads[lists.nextLoad := (service, day)], nextLoad := lists.nextLoad + 1)
  }

  datatype Step = Choose | LaundrySlot | ServiceSlot | Review

  datatype Wizard = Wizard(
    wantLaundry: bool,
    service: Option<Offering>,
    lDate: string,
    lSlot: Option<string>,
    sDate: string,
    sSlot: Option<string>,
    lists: Lists,
    step: nat,
    error: Option<string>,
    done: Option<Record>)

  // Laundry is wanted at first, so its slots are asked for at once.
  function OpenedLists(today: string): Lists {
    LoadLaundry(Lists(Listing(today, []), map[], Listing(("", today), []), map[], 0), today)
  }

  function Opened(today: string): Wizard {
    Wizard(true, None, today, None, today, None, OpenedLists(today), 0, None, None)
  }

  // A string that is there and not empty.
  predicate Truthy(s: Option<string>) {
    s.Some? && s.value != ""
  }

  function Flow(wantLaundry: bool, service: bool): (steps: seq<Step>)
    ensures |steps| >= 2 && steps[0] == Choose && Last(steps) == Review
  {
    if wantLaundry then (if service then [Choose, LaundrySlot, ServiceSlot, Review] else [Choose, LaundrySlot, Review])
    else if service then [Choose, ServiceSlot, Review] else [Choose, Review]
  }

  function FlowOf(w: Wizard): (steps: seq<Step>) {
    Flow(w.wantLaundry, w.service.Some?)
  }

  function Min(a: int, b: int): int {
    if a <= b then a else b
  }

  function StepKey(w: Wizard): Step {
    FlowOf(w)[Min(w.step, |FlowOf(w)| - 1)]
  }

  // What a step asks for before it lets the resident past.
  predicate Satisfied(w: Wizard, step: Step) {
    match step
    case Choose => w.wantLaundry || w.service.Some?
    case LaundrySlot => Truthy(w.lSlot)
    case ServiceSlot => Truthy(w.sSlot)
    case Review => true
  }

  // -------------------------------------------------------------------- the controls

  function LaundryToggled(w: Wizard): Wizard {
    if w.wantLaundry then w.(wantLaundry := false)
    else w.(wantLaundry := true, lSlot := None, lists := LoadLaundry(w.lists, w.lDate))
  }

  function ServicePressed(w: Wizard, offering: Offering): Wizard {
    if w.service.Some? && w.service.value.id == offering.id then w.(service := None)
    else w.(service := Some(offering), sSlot := None, lists := LoadVisits(w.lists, offering.id, w.sDate))
  }

  // Choosing another day drops the slot chosen on the old one and asks for the new day's.
  // The old day's slots stay listed until those arrive.
  function LaundryDated(w: Wizard, date: string): Wizard {
    if w.wantLaundry && date != w.lDate then w.(lDate := date, lSlot := None, lists := LoadLaundry(w.lists, date))
    else w.(lDate := date)
  }

  function ServiceDated(w: Wizard, date: string): Wizard {
    if w.service.Some? && date != w.sDate then
      w.(sDate := date, sSlot := None, lists := LoadVisits(w.lists, w.service.value.id, date))
    else w.(sDate := date)
  }

  // A list of slots arrives, empty if it could not be had. The chosen slot stays chosen.
  function LaundryArrived(w: Wizard, load: nat, slots: seq<string>): Wizard
    requires load in w.lists.laundryLoads
  {
    w.(lists := w.lists.(laundry := Listing(w.lists.laundryLoads[load], slots),
                         laundryLoads := w.lists.laundryLoads - {load}))
  }

  function VisitsArrived(w: Wizard, load: nat, slots: seq<string>): Wizard
    requires load in w.lists.visitLoads
  {
    w.(lists := w.lists.(visits := Listing(w.lists.visitLoads[load], slots),
                         visitLoads := w.lists.visitLoads - {load}))
  }

  // Pressing the chosen slot again lets go of it.
  function Toggled(slot: Option<string>, pressed: string): Option<string> {
    if slot == Some(pressed) then None else Some(pressed)
  }

  function Reason(refusal: Refusal, filled: string): string {
    if refusal.code == "slot_unavailable" || refusal.code == "slot_full" then filled else refusal.message
  }

  const PICKUP_FILLED := "A slot just filled up — go back and choose another."
  const VISIT_FILLED := "That slot just filled up."

  // What the server has booked: acknowledged, or with the reply lost on its way.
  datatype Booked =
    | Pickup(slot: string, orderCode: string)
    | Visit(slot: string, service: string)
    | UnheardPickup(slot: string)
    | UnheardVisit(slot: string)

  datatype Outcome = Outcome(next: Wizard, booked: seq<Booked>)

  predicate AsksPickup(w: Wizard) {
    w.wantLaundry && Truthy(w.lSlot)
  }

  predicate AsksVisit(w: Wizard) {
    w.service.Some? && Truthy(w.sSlot)
  }

  // Laundry first, then the service. The replies are used when the requests are made.
  function Confirmed(w: Wizard, pickup: PickupReply, visit: VisitReply): Outcome {
    if AsksPickup(w) && !pickup.Ordered? then
      Outcome(w.(error := Some(Reason(pickup.refusal, PICKUP_FILLED))),
              AddIf([], pickup.PickupLost? && pickup.carriedOut, UnheardPickup(w.lSlot.value)))
    else
      var laundry := if AsksPickup(w) then Some(pickup.orderCode) else None;
      var first := if AsksPickup(w) then [Pickup(w.lSlot.value, pickup.orderCode)] else [];
      if !AsksVisit(w) then
        Outcome(w.(error := None, done := Some(Record(laundry, None, None, None))), first)
      else if visit.Agreed? then
        Outcome(w.(error := None, done := Some(Record(laundry, Some(w.service.value.name), None, None))),
                first + [Visit(w.sSlot.value, w.service.value.name)])
      else
        var reason := Reason(visit.refusal, VISIT_FILLED);
        var booked := AddIf(first, visit.VisitLost? && visit.carriedOut, UnheardVisit(w.sSlot.value));
        if !Truthy(laundry) then Outcome(w.(error := Some(reason)), booked)
        else
          var failed := if reason != "" then Some(w.service.value.name) else None;
          Outcome(w.(error := None, done := Some(Record(laundry, None, failed, Some(reason)))), booked)
  }

  // What the resident reads of a failed request: its own message, or that the slot is gone.
  predicate Says(text: string, refusal: Refusal, filled: string) {
    if refusal.code == "slot_unavailable" || refusal.code == "slot_full" then text == filled else text == refusal.message
  }

  // A confirm ends in an error, with the wizard as it was, or in a record, and which: an
  // error when the pickup failed, or when the service failed with no pickup to show for it;
  // a record of what succeeded otherwise, naming the service that did not and saying why.
  lemma ConfirmEndsInErrorOrRecord(w: Wizard, pickup: PickupReply, visit: VisitReply)
    requires w.done.None?
    ensures var next := Confirmed(w, pickup, visit).next;
            var noPickup := AsksPickup(w) && !pickup.Ordered?;
            var noVisit := AsksVisit(w) && !noPickup && !visit.Agreed?;
            var code := if AsksPickup(w) && pickup.Ordered? then pickup.orderCode else "";
            && next.(error := None, done := None) == w.(error := None)
            && (next.error.Some? <==> next.done.None?)
            && (next.error.Some? <==> noPickup || (noVisit && code == ""))
            && (noPickup ==> Says(next.error.value, pickup.refusal, "A slot just filled up — go back and choose another."))
            && (noVisit && code == "" ==> Says(next.error.value, visit.refusal, "That slot just filled up."))
            && (next.done.Some? ==>
                  var record := next.done.value;
                  && record.laundry == (if AsksPickup(w) then Some(pickup.orderCode) else None)
                  && record.service == (if AsksVisit(w) && !noVisit then Some(w.service.value.name) else None)
                  && (record.serviceError.Some? <==> noVisit)
                  && (noVisit ==> Says(record.serviceError.value, visit.refusal, "That slot just filled up."))
                  && record.failedService ==
                     if noVisit && record.serviceError.value != "" then Some(w.service.value.name) else None)
  {
  }

  // A slot pressed is the one chosen, unless it was chosen already, and then none is.
  lemma ChipIsChosenOrLetGo(slot: Option<string>, pressed: string)
    ensures Toggled(slot, pressed) == None <==> slot == Some(pressed)
    ensures Toggled(slot, pressed).Some? ==> Toggled(slot, pressed).value == pressed
  {
  }

  function Continued(w: Wizard, pickup: PickupReply, visit: VisitReply): Outcome {
    if StepKey(w) == Review then Confirmed(w, pickup, visit)
    else Outcome(w.(step := Min(|FlowOf(w)| - 1, w.step + 1)), [])
  }

  class BookingWizard {
    var wantLaundry: bool
    var service: Option<Offering>
    var lDate: string
    var lSlot: Option<string>
    var sDate: string
    var sSlot: Option<string>
    var lists: Lists
    var step: nat
    var error: Option<string>
    var done: Option<Record>

    constructor (today: string)
      ensures State() == Opened(today)
    {
      wantLaundry, service := true, None;
      lDate, lSlot, sDate, sSlot := today, None, today, None;
      lists := OpenedLists(today);
      step, error, done := 0, None, None;
    }

    function State(): Wizard
      reads this
    {
      Wizard(wantLaundry, service, lDate, lSlot, sDate, sSlot, lists, step, error, done)
    }

    method ToggleLaundry()
      modifies this
      ensures State() == LaundryToggled(old(State()))
      ensures wantLaundry != old(wantLaundry) && (wantLaundry ==> lSlot == None && LaundryAskedFor(old(lists), lists, lDate))
    {
      wantLaundry := !wantLaundry;
      if wantLaundry {
        lSlot := None;
        lists := LoadLaundry(lists, lDate);
      }
    }

    method PressService(offering: Offering)
      modifies this
      ensures State() == ServicePressed(old(State()), offering)
      ensures service.Some? ==>
                service.value == offering && sSlot == None && VisitsAskedFor(old(lists), lists, (offering.id, sDate))
      ensures service.None? <==> old(service).Some? && old(service).value.id == offering.id
    {
      if service.Some? && service.value.id == offering.id {
        service := None;
      } else {
        service := Some(offering);
        sSlot := None;
        lists := LoadVisits(lists, offering.id, sDate);
      }
    }

    method ChangeLaundryDate(date: string)
      modifies this
      ensures State() == LaundryDated(old(State()), date)
      ensures lDate == date
      ensures wantLaundry && lDate != old(lDate) ==> lSlot == None && LaundryAskedFor(old(lists), lists, date)
    {
      if date != lDate && wantLaundry {
        lSlot := None;
        lists := LoadLaundry(lists, date);
      }
      lDate := date;
    }

    method ChangeServiceDate(date: string)
      modifies this
      ensures State() == ServiceDated(old(State()), date)
      ensures sDate == date
      ensures service.Some? && sDate != old(sDate) ==>
                sSlot == None && VisitsAskedFor(old(lists), lists, (service.value.id, date))
    {
      if date != sDate && service.Some? {
        sSlot := None;
        lists := LoadVisits(lists, service.value.id, date);
      }
      sDate := date;
    }

    method ReceiveLaundry(load: nat, slots: seq<string>)
      requires load in lists.laundryLoads
      modifies this
      ensures State() == LaundryArrived(old(State()), load, slots)
      ensures lists.laundry == Listing(old(lists).laundryLoads[load], slots) && lSlot == old(lSlot)
    {
      lists := lists.(laundry := Listing(lists.laundryLoads[load], slots), laundryLoads := lists.laundryLoads - {load});
    }

    method ReceiveVisits(load: nat, slots: seq<string>)
      requires load in lists.visitLoads
      modifies this
      ensures State() == VisitsArrived(old(State()), load, slots)
      ensures lists.visits == Listing(old(lists).visitLoads[load], slots) && sSlot == old(sSlot)
    {
      lists := lists.(visits := Listing(lists.visitLoads[load], slots), visitLoads := lists.visitLoads - {load});
    }

    method Confirm(pickup: PickupReply, visit: VisitReply) returns (booked: seq<Booked>)
      modifies this
      ensures Outcome(State(), booked) == Confirmed(old(State()), pickup, visit)
    {
      error := None;
      booked := [];
      var laundry: Option<string> := None;
      if wantLaundry && Truthy(lSlot) {
        match pickup
        case Ordered(orderCode) =>
          booked := [Pickup(lSlot.value, orderCode)];
          laundry := Some(orderCode);
        case NoPickup(refusal) =>
          error := Some(Reason(refusal, PICKUP_FILLED));
          return;
        case PickupLost(refusal, carriedOut) =>
          error := Some(Reason(refusal, PICKUP_FILLED));
          booked := AddIf([], carriedOut, UnheardPickup(lSlot.value));
          return;
      }
      var svc: Option<string> := None;
      var serviceError: Option<string> := None;
      if service.Some? && Truthy(sSlot) {
        if visit.Agreed? {
          booked := booked + [Visit(sSlot.value, service.value.name)];
          svc := Some(service.value.name);
        } else {
          booked := AddIf(booked, visit.VisitLost? && visit.carriedOut, UnheardVisit(sSlot.value));
          var reason := Reason(visit.refusal, VISIT_FILLED);
          if !Truthy(laundry) {
            error := Some(reason);
            return;
          }
          serviceError := Some(reason);
        }
      }
      var failed := if Truthy(serviceError) && service.Some? then Some(service.value.name) else None;
      done := Some(Record(laundry, svc, failed, serviceError));
    }

    method Continue(pickup: PickupReply, visit: VisitReply) returns (booked: seq<Booked>)
      modifies this
      ensures Outcome(State(), booked) == Continued(old(State()), pickup, visit)
    {
      var flow := FlowOf(State());
      if StepKey(State()) == Review {
        booked := Confirm(pickup, visit);
      } else {
        booked := [];
        step := Min(|flow| - 1, step + 1);
      }
    }
  }

  // -------------------------------------------------------------------- whole runs

  datatype Press =
    | ToggleLaundry
    | PressService(offering: Offering)
    | LaundryDate(date: string)
    | LaundryChip(slot: string)
    | ServiceDate(date: string)
    | ServiceChip(slot: string)
    | LaundryListed(load: nat, slots: seq<string>)  // a list of slots arrives
    | VisitsListed(load: nat, slots: seq<string>)
    | Back
    | Continue(pickup: PickupReply, visit: VisitReply)

  // Which controls are on screen and enabled, and which lists can arrive. A finished wizard
  // has no controls, and tells nothing of a list that arrives then.
  predicate Enabled(w: Wizard, press: Press) {
    w.done.None? &&
    match press
    case ToggleLaundry => StepKey(w) == Choose
    case PressService(_) => StepKey(w) == Choose
    case LaundryDate(_) => StepKey(w) == LaundrySlot
    case LaundryChip(slot) => StepKey(w) == LaundrySlot && slot in w.lists.laundry.slots
    case ServiceDate(_) => StepKey(w) == ServiceSlot
    case ServiceChip(slot) => StepKey(w) == ServiceSlot && slot in w.lists.visits.slots
    case LaundryListed(load, _) => load in w.lists.laundryLoads
    case VisitsListed(load, _) => load in w.lists.visitLoads
    case Back => w.step > 0
    case Continue(_, _) => Satisfied(w, StepKey(w))
  }

  function Pressed(w: Wizard, press: Press): Outcome
    requires Enabled(w, press)
  {
    match press
    case ToggleLaundry => Outcome(LaundryToggled(w), [])
    case PressService(offering) => Outcome(ServicePressed(w, offering), [])
    case LaundryDate(date) => Outcome(LaundryDated(w, date), [])
    case LaundryChip(slot) => Outcome(w.(lSlot := Toggled(w.lSlot, slot)), [])
    case ServiceDate(date) => Outcome(ServiceDated(w, date), [])
    case ServiceChip(slot) => Outcome(w.(sSlot := Toggled(w.sSlot, slot)), [])
    case LaundryListed(load, slots) => Outcome(LaundryArrived(w, load, slots), [])
    case VisitsListed(load, slots) => Outcome(VisitsArrived(w, load, slots), [])
    case Back => Outcome(w.(step := if w.step > 0 then w.step - 1 else 0), [])
    case Continue(pickup, visit) => Continued(w, pickup, visit)
  }

  // The wizard, and everything the server has booked through it.
  datatype Visiting = Visiting(wizard: Wizard, booked: seq<Booked>)

  function After(v: Visiting, press: Press): Visiting {
    if !Enabled(v.wizard, press) then v
    else
      var outcome := Pressed(v.wizard, press);
      Visiting(outcome.next, v.booked + outcome.booked)
  }

  function Run(today: string, presses: seq<Press>): Visiting {
    if presses == [] then Visiting(Opened(today), []) else After(Run(today, Init(presses)), Last(presses))
  }

  // ---------------------------------------------------------- every step is answered

  ghost predicate EveryStepBehindIsDone(w: Wizard) {
    w.step < |FlowOf(w)| && forall i | 0 <= i < w.step :: Satisfied(w, FlowOf(w)[i])
  }

  lemma PressKeepsStepsDone(w: Wizard, press: Press)
    requires EveryStepBehindIsDone(w) && Enabled(w, press)
    ensures EveryStepBehindIsDone(Pressed(w, press).next)
  {
    assert FlowOf(w)[w.step] == StepKey(w);
  }

  // In every run of the wizard, each step before the current one is satisfied.
  lemma {:induction false} StepsBehindAreDone(today: string, presses: seq<Press>)
    ensures EveryStepBehindIsDone(Run(today, presses).wizard)
  {
    if presses != [] {
      StepsBehindAreDone(today, Init(presses));
      var w := Run(today, Init(presses)).wizard;
      if Enabled(w, Last(presses)) {
        PressKeepsStepsDone(w, Last(presses));
      }
    }
  }

  // Going on from any step but the last and back again leaves everything as it was.
  lemma BackUndoesContinue(v: Visiting, pickup: PickupReply, visit: VisitReply)
    requires v.wizard.done.None? && StepKey(v.wizard) != Review && Satisfied(v.wizard, StepKey(v.wizard))
    ensures var on := After(v, Continue(pickup, visit));
            on.wizard == v.wizard.(step := v.wizard.step + 1) && After(on, Back) == v
  {
    assert v.wizard.step + 1 < |FlowOf(v.wizard)|;
    assert v.booked + [] == v.booked;
  }

  // So a confirm is only ever made with something chosen, and with a slot for every
  // part that was chosen.
  lemma ConfirmHasEverySlot(today: string, presses: seq<Press>)
    requires StepKey(Run(today, presses).wizard) == Review
    ensures var w := Run(today, presses).wizard;
            && (w.wantLaundry || w.service.Some?)
            && (w.wantLaundry ==> Truthy(w.lSlot)) && (w.service.Some? ==> Truthy(w.sSlot))
  {
    StepsBehindAreDone(today, presses);
    var w := Run(today, presses).wizard;
    assert Satisfied(w, FlowOf(w)[0]);
    assert w.step == |FlowOf(w)| - 1;
    assert Satisfied(w, FlowOf(w)[w.step - 1]);
    assert w.wantLaundry ==> FlowOf(w)[1] == LaundrySlot && Satisfied(w, FlowOf(w)[1]);
  }

  // --------------------------------------------- which list a slot was taken from

  // A chip pressed: its slot, what the wizard was showing, and what the list was loaded for.
  datatype Pick<D> = Pick(slot: string, shown: D, listed: D)

  function LaundryPick(today: string, presses: seq<Press>): Option<Pick<string>> {
    if presses == [] then None
    else
      var w, press := Run(today, Init(presses)).wizard, Last(presses);
      if Enabled(w, press) && press.LaundryChip? then Some(Pick(press.slot, w.lDate, w.lists.laundry.of))
      else LaundryPick(today, Init(presses))
  }

  function ServicePick(today: string, presses: seq<Press>): Option<Pick<(string, string)>> {
    if presses == [] then None
    else
      var w, press := Run(today, Init(presses)).wizard, Last(presses);
      if Enabled(w, press) && press.ServiceChip? && w.service.Some?
      then Some(Pick(press.slot, (w.service.value.id, w.sDate), w.lists.visits.of))
      else ServicePick(today, Init(presses))
  }

  predicate PickedForWhatIsShown(
    w: Wizard, laundryPick: Option<Pick<string>>, servicePick: Option<Pick<(string, string)>>)
  {
    && (w.wantLaundry && w.lSlot.Some? ==>
          laundryPick.Some? && laundryPick.value.slot == w.lSlot.value && laundryPick.value.shown == w.lDate)
    && (w.service.Some? && w.sSlot.Some? ==>
          servicePick.Some? && servicePick.value.slot == w.sSlot.value &&
          servicePick.value.shown == (w.service.value.id, w.sDate))
  }

  // In every run, the chip of a slot still chosen was pressed while the wizard showed the
  // day, and the service, that it shows now: changing either lets go of the slot.
  lemma {:induction false} SlotsWerePickedForWhatIsShown(today: string, presses: seq<Press>)
    ensures PickedForWhatIsShown(Run(today, presses).wizard, LaundryPick(today, presses), ServicePick(today, presses))
  {
    if presses != [] {
      SlotsWerePickedForWhatIsShown(today, Init(presses));
      StepsBehindAreDone(today, Init(presses));
      var w, press := Run(today, Init(presses)).wizard, Last(presses);
      if Enabled(w, press) {
        PressKeepsPicks(w, press, LaundryPick(today, Init(presses)), ServicePick(today, Init(presses)));
      }
    }
  }

  lemma PressKeepsPicks(
    w: Wizard, press: Press, laundryPick: Option<Pick<string>>, servicePick: Option<Pick<(string, string)>>)
    requires EveryStepBehindIsDone(w) && Enabled(w, press) && PickedForWhatIsShown(w, laundryPick, servicePick)
    ensures PickedForWhatIsShown(
              Pressed(w, press).next,
              if press.LaundryChip? then Some(Pick(press.slot, w.lDate, w.lists.laundry.of)) else laundryPick,
              if press.ServiceChip? && w.service.Some?
              then Some(Pick(press.slot, (w.service.value.id, w.sDate), w.lists.visits.of)) else servicePick)
  {
    assert FlowOf(w)[w.step] == StepKey(w);
  }

  // ------------------------------------------------------------ the record is right

  // What a finished wizard says was booked.
  function Claimed(w: Wizard): seq<Booked> {
    match w.done
    case None => []
    case Some(record) =>
      var pickup := if record.laundry.Some? && w.lSlot.Some? then [Pickup(w.lSlot.value, record.laundry.value)] else [];
      if record.service.Some? && w.sSlot.Some? then pickup + [Visit(w.sSlot.value, record.service.value)] else pickup
  }

  predicate Confirms(w: Wizard, press: Press) {
    Enabled(w, press) && press.Continue? && StepKey(w) == Review
  }

  // A confirm whose pickup comes back with an empty order code and whose service fails:
  // the guard `if (!laundry)` takes the pickup for missing and leaves the wizard open.
  predicate LeavesPickupBehind(w: Wizard, press: Press) {
    Confirms(w, press) && AsksPickup(w) && AsksVisit(w) && press.pickup == Ordered("") && !press.visit.Agreed?
  }

  // A confirm whose pickup the server books, with the reply lost.
  predicate PickupGoesUnheard(w: Wizard, press: Press) {
    Confirms(w, press) && AsksPickup(w) && press.pickup.PickupLost? && press.pickup.carriedOut
  }

  // The same for the service, when that request is made at all.
  predicate VisitGoesUnheard(w: Wizard, press: Press) {
    && Confirms(w, press) && (AsksPickup(w) ==> press.pickup.Ordered?)
    && AsksVisit(w) && press.visit.VisitLost? && press.visit.carriedOut
  }

  // Confirming from the review keeps the wizard's account true — nothing claimed that
  // was not booked, nothing booked that is not claimed — but for those three; then, and
  // only then, does it fail.
  lemma PressKeepsAccount(w: Wizard, press: Press)
    requires Enabled(w, press)
    ensures Claimed(Pressed(w, press).next) == Pressed(w, press).booked <==>
            !LeavesPickupBehind(w, press) && !PickupGoesUnheard(w, press) && !VisitGoesUnheard(w, press)
  {
    ExtrasOfOnePress(w, press);
  }

  function CountPickups(booked: seq<Booked>): nat {
    if booked == [] then 0
    else CountPickups(Init(booked)) + if Last(booked).Pickup? || Last(booked).UnheardPickup? then 1 else 0
  }

  function CountVisits(booked: seq<Booked>): nat {
    if booked == [] then 0
    else CountVisits(Init(booked)) + if Last(booked).Visit? || Last(booked).UnheardVisit? then 1 else 0
  }

  lemma CountSnoc(booked: seq<Booked>, last: Booked)
    ensures CountPickups(booked + [last]) == CountPickups(booked) + if last.Pickup? || last.UnheardPickup? then 1 else 0
    ensures CountVisits(booked + [last]) == CountVisits(booked) + if last.Visit? || last.UnheardVisit? then 1 else 0
  {
    assert Init(booked + [last]) == booked;
  }

  lemma CountOne(last: Booked)
    ensures CountPickups([last]) == if last.Pickup? || last.UnheardPickup? then 1 else 0
    ensures CountVisits([last]) == if last.Visit? || last.UnheardVisit? then 1 else 0
  {
    CountSnoc([], last);
    assert [] + [last] == [last];
  }

  lemma {:induction false} CountsAdd(xs: seq<Booked>, ys: seq<Booked>)
    ensures CountPickups(xs + ys) == CountPickups(xs) + CountPickups(ys)
    ensures CountVisits(xs + ys) == CountVisits(xs) + CountVisits(ys)
  {
    if ys == [] {
      assert xs + ys == xs;
    } else {
      assert Init(xs + ys) == xs + Init(ys);
      CountsAdd(xs, Init(ys));
    }
  }

  function ExtraPickups(w: Wizard, press: Press): nat {
    if LeavesPickupBehind(w, press) || PickupGoesUnheard(w, press) then 1 else 0
  }

  function ExtraVisits(w: Wizard, press: Press): nat {
    if VisitGoesUnheard(w, press) then 1 else 0
  }

  // One press books what it claims and those extras, and with none of them just what it claims.
  lemma ExtrasOfOnePress(w: Wizard, press: Press)
    requires Enabled(w, press)
    ensures var outcome := Pressed(w, press);
            && CountPickups(outcome.booked) == CountPickups(Claimed(outcome.next)) + ExtraPickups(w, press)
            && CountVisits(outcome.booked) == CountVisits(Claimed(outcome.next)) + ExtraVisits(w, press)
            && (ExtraPickups(w, press) == 0 && ExtraVisits(w, press) == 0 ==> outcome.booked == Claimed(outcome.next))
  {
    if Confirms(w, press) {
      var outcome := Confirmed(w, press.pickup, press.visit);
      assert outcome.next.lSlot == w.lSlot && outcome.next.sSlot == w.sSlot;
      if AsksPickup(w) && !press.pickup.Ordered? {
        CountOne(UnheardPickup(w.lSlot.value));
        assert [] + [UnheardPickup(w.lSlot.value)] == [UnheardPickup(w.lSlot.value)];
      } else {
        ExtrasOfVisit(w, press.pickup, press.visit);
      }
    }
  }

  function FirstBooked(w: Wizard, pickup: PickupReply): (first: seq<Booked>)
    requires AsksPickup(w) ==> pickup.Ordered?
    ensures CountPickups(first) == (if AsksPickup(w) then 1 else 0) && CountVisits(first) == 0
  {
    if AsksPickup(w) then
      CountOne(Pickup(w.lSlot.value, pickup.orderCode));
      [Pickup(w.lSlot.value, pickup.orderCode)]
    else []
  }

  lemma ExtrasOfVisit(w: Wizard, pickup: PickupReply, visit: VisitReply)
    requires w.done.None? && (AsksPickup(w) ==> pickup.Ordered?)
    ensures var outcome := Confirmed(w, pickup, visit);
            var unheard := AsksVisit(w) && visit.VisitLost? && visit.carriedOut;
            var stray := AsksPickup(w) && AsksVisit(w) && pickup == Ordered("") && !visit.Agreed?;
            && CountPickups(outcome.booked) == CountPickups(Claimed(outcome.next)) + (if stray then 1 else 0)
            && CountVisits(outcome.booked) == CountVisits(Claimed(outcome.next)) + (if unheard then 1 else 0)
            && (!unheard && !stray ==> outcome.booked == Claimed(outcome.next))
  {
    var outcome := Confirmed(w, pickup, visit);
    assert outcome.next.lSlot == w.lSlot && outcome.next.sSlot == w.sSlot;
    var first := FirstBooked(w, pickup);
    if !AsksVisit(w) || visit.Agreed? {
      assert outcome.booked == Claimed(outcome.next);
    } else {
      CountSnoc(first, UnheardVisit(w.sSlot.value));
      assert outcome.booked == AddIf(first, visit.VisitLost? && visit.carriedOut, UnheardVisit(w.sSlot.value));
      assert Claimed(outcome.next) == if AsksPickup(w) && pickup.orderCode != "" then first else [];
    }
  }

  // How often in a run each of those happened.
  function PickupExtras(today: string, presses: seq<Press>): nat {
    if presses == [] then 0
    else PickupExtras(today, Init(presses)) + ExtraPickups(Run(today, Init(presses)).wizard, Last(presses))
  }

  function VisitExtras(today: string, presses: seq<Press>): nat {
    if presses == [] then 0
    else VisitExtras(today, Init(presses)) + ExtraVisits(Run(today, Init(presses)).wizard, Last(presses))
  }

  // Over every run: the server has booked what the wizard's record claims, and one pickup
  // more for each pickup left behind or gone unheard, and one service more for each service
  // gone unheard. An open wizard claims nothing.
  lemma {:induction false} EveryExtraIsLostOrLeftBehind(today: string, presses: seq<Press>)
    ensures var v := Run(today, presses);
            && CountPickups(v.booked) == CountPickups(Claimed(v.wizard)) + PickupExtras(today, presses)
            && CountVisits(v.booked) == CountVisits(Claimed(v.wizard)) + VisitExtras(today, presses)
            && (PickupExtras(today, presses) == 0 && VisitExtras(today, presses) == 0 ==> v.booked == Claimed(v.wizard))
  {
    if presses != [] {
      EveryExtraIsLostOrLeftBehind(today, Init(presses));
      var v, press := Run(today, Init(presses)), Last(presses);
      if Enabled(v.wizard, press) {
        CountsAdd(v.booked, Pressed(v.wizard, press).booked);
        ExtrasOfOnePress(v.wizard, press);
      }
    }
  }

  // So the record is exactly what was booked, each part with its slot, if and only if
  // nothing was left behind or went unheard in the whole run.
  lemma RecordIsWhatWasBooked(today: string, presses: seq<Press>)
    ensures Run(today, presses).booked == Claimed(Run(today, presses).wizard) <==>
            PickupExtras(today, presses) == 0 && VisitExtras(today, presses) == 0
  {
    EveryExtraIsLostOrLeftBehind(today, presses);
  }

  // However often Confirm is pressed: the pickups booked are one if the record names one,
  // and the extras; the same for the service.
  lemma AtMostOneOfEachButForExtras(today: string, presses: seq<Press>)
    ensures var v := Run(today, presses);
            var named := v.wizard.done;
            && CountPickups(v.booked) ==
               (if named.Some? && named.value.laundry.Some? then 1 else 0) + PickupExtras(today, presses)
            && CountVisits(v.booked) ==
               (if named.Some? && named.value.service.Some? then 1 else 0) + VisitExtras(today, presses)
  {
    EveryExtraIsLostOrLeftBehind(today, presses);
    RecordHasItsSlots(today, presses);
    ClaimsCounted(Run(today, presses).wizard);
  }

  lemma ClaimsCounted(w: Wizard)
    requires HasItsSlots(w)
    ensures CountPickups(Claimed(w)) == (if w.done.Some? && w.done.value.laundry.Some? then 1 else 0)
    ensures CountVisits(Claimed(w)) == (if w.done.Some? && w.done.value.service.Some? then 1 else 0)
  {
    var claims := Claimed(w);
    if |claims| == 2 {
      CountSnoc([claims[0]], claims[1]);
      assert claims == [claims[0]] + [claims[1]];
    }
    if claims != [] {
      CountOne(claims[0]);
    }
  }

  // A record claims a part only when its slot is known.
  predicate HasItsSlots(w: Wizard) {
    w.done.Some? ==> (w.done.value.laundry.Some? ==> AsksPickup(w)) && (w.done.value.service.Some? ==> AsksVisit(w))
  }

  lemma {:induction false} RecordHasItsSlots(today: string, presses: seq<Press>)
    ensures HasItsSlots(Run(today, presses).wizard)
  {
    if presses != [] {
      RecordHasItsSlots(today, Init(presses));
      var w := Run(today, Init(presses)).wizard;
      if Enabled(w, Last(presses)) {
        PressKeepsSlots(w, Last(presses));
      }
    }
  }

  lemma PressKeepsSlots(w: Wizard, press: Press)
    requires HasItsSlots(w) && Enabled(w, press)
    ensures HasItsSlots(Pressed(w, press).next)
  {
    if press.Continue? && StepKey(w) == Review {
      ConfirmHasItsSlots(w, press.pickup, press.visit);
    }
  }

  lemma ConfirmHasItsSlots(w: Wizard, pickup: PickupReply, visit: VisitReply)
    requires w.done.None?
    ensures HasItsSlots(Confirmed(w, pickup, visit).next)
  {
  }

  // Whenever a confirm leaves the wizard open with a pickup booked — its code empty, or its
  // reply lost — the review is still there, and pressing Confirm again books another.
  lemma ConfirmAgainBooksTwice(today: string, presses: seq<Press>, again: Press)
    requires presses != []
    requires ExtraPickups(Run(today, Init(presses)).wizard, Last(presses)) == 1
    requires again.Continue? && again.pickup.Ordered?
    ensures CountPickups(Run(today, presses + [again]).booked) >= 2
  {
    var before, press := Run(today, Init(presses)), Last(presses);
    var v := Run(today, presses);
    StepsBehindAreDone(today, Init(presses));
    assert FlowOf(before.wizard)[before.wizard.step] == Review;
    assert v.wizard == before.wizard.(error := v.wizard.error);
    EveryExtraIsLostOrLeftBehind(today, presses);
    assert Init(presses + [again]) == presses;
    CountsAdd(v.booked, Pressed(v.wizard, again).booked);
    ConfirmBooksPickup(v.wizard, again);
  }

  lemma ConfirmBooksPickup(w: Wizard, press: Press)
    requires Confirms(w, press) && AsksPickup(w) && press.pickup.Ordered?
    ensures CountPickups(Pressed(w, press).booked) >= 1
  {
    var first := Pickup(w.lSlot.value, press.pickup.orderCode);
    CountOne(first);
    if AsksVisit(w) {
      CountSnoc([first], UnheardVisit(w.sSlot.value));
      CountSnoc([first], Visit(w.sSlot.value, w.service.value.name));
    }
  }

  // And such a run there is: one reply lost, every order with a code.
  lemma LostReplyBooksTwice(today: string, slot: string, refusal: Refusal, code: string)
    requires slot != ""
    ensures var next := Continue(Ordered(code), Agreed);
            var presses := ToReview(slot, next) + [Continue(PickupLost(refusal, true), Agreed)] + [next];
            CountPickups(Run(today, presses).booked) >= 2
  {
    var next, lost := Continue(Ordered(code), Agreed), Continue(PickupLost(refusal, true), Agreed);
    var toReview := ToReview(slot, next);
    LaundryAloneReachesReview(today, slot, next);
    assert Init(toReview + [lost]) == toReview;
    assert PickupGoesUnheard(Run(today, toReview).wizard, lost);
    ConfirmAgainBooksTwice(today, toReview + [lost], next);
  }

  // Laundry only: on to its step, the day's slots arrive, one is taken, and on to the review.
  function ToReview(slot: string, next: Press): seq<Press> {
    [next] + [LaundryListed(0, [slot])] + [LaundryChip(slot)] + [next]
  }

  lemma LaundryAloneReachesReview(today: string, slot: string, next: Press)
    requires slot != "" && next.Continue?
    ensures var v := Run(today, ToReview(slot, next));
            && v.booked == [] && v.wizard.done.None? && StepKey(v.wizard) == Review
            && AsksPickup(v.wizard) && !AsksVisit(v.wizard) && v.wizard.lSlot == Some(slot)
  {
    FirstListArrives(today, slot, next);
    RunSnoc(today, [next] + [LaundryListed(0, [slot])], LaundryChip(slot));
    RunSnoc(today, [next] + [LaundryListed(0, [slot])] + [LaundryChip(slot)], next);
    var listed := FirstListed(today, slot);
    assert After(Visiting(listed, []), LaundryChip(slot)) == Visiting(listed.(lSlot := Some(slot)), []);
  }

  // The laundry step, with the first day's slots on it.
  function FirstListed(today: string, slot: string): Wizard {
    LaundryArrived(Opened(today).(step := 1), 0, [slot])
  }

  lemma FirstListArrives(today: string, slot: string, next: Press)
    requires next.Continue?
    ensures Run(today, [next]) == Visiting(Opened(today).(step := 1), [])
    ensures Run(today, [next] + [LaundryListed(0, [slot])]) == Visiting(FirstListed(today, slot), [])
  {
    RunSnoc(today, [], next);
    assert [] + [next] == [next];
    RunSnoc(today, [next], LaundryListed(0, [slot]));
  }

  lemma RunSnoc(today: string, presses: seq<Press>, press: Press)
    ensures Run(today, presses + [press]) == After(Run(today, presses), press)
  {
    assert Init(presses + [press]) == presses;
  }

  // Laundry let go of and asked for again, the service pressed, each day's slots arriving
  // and one taken.
  function ForBoth(offering: Offering, slot: string, day: string, visit: string, next: Press): seq<Press> {
    [ToggleLaundry] + [ToggleLaundry] + [PressService(offering)] + [next]
      + [LaundryListed(1, [slot])] + [LaundryChip(slot)] + [next]
      + [ServiceDate(day)] + [VisitsListed(3, [visit])] + [ServiceChip(visit)] + [next] + [next]
  }

  // Both parts can be booked, whatever the service, its day and the slots.
  lemma BothCanBeBooked(today: string, offering: Offering, slot: string, day: string, visit: string, code: string)
    requires slot != "" && visit != "" && day != today
    ensures var v := Run(today, ForBoth(offering, slot, day, visit, Continue(Ordered(code), Agreed)));
            && v.booked == [Pickup(slot, code), Visit(visit, offering.name)]
            && v.wizard.done == Some(Record(Some(code), Some(offering.name), None, None))
            && v.wizard.lDate == today && v.wizard.sDate == day && v.wizard.service == Some(offering)
  {
    var next := Continue(Ordered(code), Agreed);
    LaundryIsChosen(today, offering, slot, next);
    var toService := ForLaundry(offering, slot, next);
    var w := Run(today, toService).wizard;
    RunSnoc(today, toService, ServiceDate(day));
    RunSnoc(today, toService + [ServiceDate(day)], VisitsListed(3, [visit]));
    RunSnoc(today, toService + [ServiceDate(day)] + [VisitsListed(3, [visit])], ServiceChip(visit));
    var toReview := toService + [ServiceDate(day)] + [VisitsListed(3, [visit])] + [ServiceChip(visit)];
    RunSnoc(today, toReview, next);
    RunSnoc(today, toReview + [next], next);
  }

  function ForLaundry(offering: Offering, slot: string, next: Press): seq<Press> {
    [ToggleLaundry] + [ToggleLaundry] + [PressService(offering)] + [next]
      + [LaundryListed(1, [slot])] + [LaundryChip(slot)] + [next]
  }

  lemma LaundryIsChosen(today: string, offering: Offering, slot: string, next: Press)
    requires slot != "" && next.Continue?
    ensures var v := Run(today, ForLaundry(offering, slot, next)); var w := v.wizard;
            && v.booked == [] && w.done.None? && w.step == 2 && w.wantLaundry && w.service == Some(offering)
            && w.lSlot == Some(slot) && w.sSlot == None && w.lDate == today && w.sDate == today
            && w.lists.nextLoad == 3
  {
    var on := [ToggleLaundry] + [ToggleLaundry] + [PressService(offering)] + [next];
    BothAreChosen(today, offering, next);
    RunSnoc(today, on, LaundryListed(1, [slot]));
    RunSnoc(today, on + [LaundryListed(1, [slot])], LaundryChip(slot));
    RunSnoc(today, on + [LaundryListed(1, [slot])] + [LaundryChip(slot)], next);
  }

  lemma BothAreChosen(today: string, offering: Offering, next: Press)
    requires next.Continue?
    ensures var v := Run(today, [ToggleLaundry] + [ToggleLaundry] + [PressService(offering)] + [next]);
            v == Visiting(Opened(today).(service := Some(offering), lists := v.wizard.lists, step := 1), []) &&
            v.wizard.lists.nextLoad == 3 && 1 in v.wizard.lists.laundryLoads
  {
    RunSnoc(today, [], ToggleLaundry);
    assert [] + [ToggleLaundry] == [ToggleLaundry];
    RunSnoc(today, [ToggleLaundry], ToggleLaundry);
    RunSnoc(today, [ToggleLaundry] + [ToggleLaundry], PressService(offering));
    RunSnoc(today, [ToggleLaundry] + [ToggleLaundry] + [PressService(offering)], next);
  }

  // ------------------------------------------------ what the closing screen tells

  // What each slot is, as the server knows it: a pickup's day, a visit's service and day.
  datatype Server = Server(dayOf: string -> string, visitOf: string -> (string, string))

  // A booking, and what is said of it: for which service, if any, and on which day.
  datatype Told = Told(booked: Booked, of: (string, string))

  // The closing screen prints the day, and the service, the wizard shows.
  function Tells(w: Wizard): seq<Told> {
    match w.done
    case None => []
    case Some(record) =>
      var pickup := if record.laundry.Some? && w.lSlot.Some?
                    then [Told(Pickup(w.lSlot.value, record.laundry.value), ("", w.lDate))] else [];
      if record.service.Some? && w.sSlot.Some? && w.service.Some?
      then pickup + [Told(Visit(w.sSlot.value, record.service.value), (w.service.value.id, w.sDate))] else pickup
  }

  function TrueOf(server: Server, booked: Booked): (string, string) {
    if booked.Visit? || booked.UnheardVisit? then server.visitOf(booked.slot) else ("", server.dayOf(booked.slot))
  }

  function Truth(server: Server, booked: seq<Booked>): seq<Told> {
    seq(|booked|, i requires 0 <= i < |booked| => Told(booked[i], TrueOf(server, booked[i])))
  }

  // Every list that arrives is of slots of the day, and the service, it was asked for.
  predicate HonestLists(server: Server, today: string, presses: seq<Press>) {
    presses == [] ||
    (HonestLists(server, today, Init(presses)) &&
     var w := Run(today, Init(presses)).wizard;
     match Last(presses)
     case LaundryListed(load, slots) =>
       load in w.lists.laundryLoads ==> forall slot | slot in slots :: server.dayOf(slot) == w.lists.laundryLoads[load]
     case VisitsListed(load, slots) =>
       load in w.lists.visitLoads ==> forall slot | slot in slots :: server.visitOf(slot) == w.lists.visitLoads[load]
     case _ => true)
  }

  predicate ListsAreTrue(server: Server, lists: Lists) {
    && (forall slot | slot in lists.laundry.slots :: server.dayOf(slot) == lists.laundry.of)
    && (forall slot | slot in lists.visits.slots :: server.visitOf(slot) == lists.visits.of)
  }

  predicate PicksAreTrue(server: Server, laundryPick: Option<Pick<string>>, servicePick: Option<Pick<(string, string)>>) {
    && (laundryPick.Some? ==> server.dayOf(laundryPick.value.slot) == laundryPick.value.listed)
    && (servicePick.Some? ==> server.visitOf(servicePick.value.slot) == servicePick.value.listed)
  }

  lemma {:induction false} ChipsAreOfTheirList(server: Server, today: string, presses: seq<Press>)
    requires HonestLists(server, today, presses)
    ensures ListsAreTrue(server, Run(today, presses).wizard.lists)
    ensures PicksAreTrue(server, LaundryPick(today, presses), ServicePick(today, presses))
  {
    if presses != [] {
      ChipsAreOfTheirList(server, today, Init(presses));
      var w, press := Run(today, Init(presses)).wizard, Last(presses);
      if Enabled(w, press) {
        PressKeepsListsTrue(server, w, press);
      }
    }
  }

  lemma PressKeepsListsTrue(server: Server, w: Wizard, press: Press)
    requires Enabled(w, press) && ListsAreTrue(server, w.lists)
    requires press.LaundryListed? ==> forall slot | slot in press.slots :: server.dayOf(slot) == w.lists.laundryLoads[press.load]
    requires press.VisitsListed? ==> forall slot | slot in press.slots :: server.visitOf(slot) == w.lists.visitLoads[press.load]
    ensures ListsAreTrue(server, Pressed(w, press).next.lists)
  {
  }

  // Each part the record names was picked from a list of the day, and the service, shown.
  predicate PickedFromTheirOwnList(
    w: Wizard, laundryPick: Option<Pick<string>>, servicePick: Option<Pick<(string, string)>>)
  {
    w.done.Some? ==>
      && (w.done.value.laundry.Some? ==> laundryPick.Some? && laundryPick.value.listed == laundryPick.value.shown)
      && (w.done.value.service.Some? ==> servicePick.Some? && servicePick.value.listed == servicePick.value.shown)
  }

  // Over every run: what the closing screen tells, day and service included, is exactly what
  // the server has booked, if and only if nothing was left behind or went unheard, and each
  // chip was pressed on a list loaded for the day, and the service, then shown.
  lemma ScreenTellsTheTruthIff(server: Server, today: string, presses: seq<Press>)
    requires HonestLists(server, today, presses)
    ensures var v := Run(today, presses);
            Truth(server, v.booked) == Tells(v.wizard) <==>
            && PickupExtras(today, presses) == 0 && VisitExtras(today, presses) == 0
            && PickedFromTheirOwnList(v.wizard, LaundryPick(today, presses), ServicePick(today, presses))
  {
    var v := Run(today, presses);
    RecordIsWhatWasBooked(today, presses);
    RecordHasItsSlots(today, presses);
    SlotsWerePickedForWhatIsShown(today, presses);
    ChipsAreOfTheirList(server, today, presses);
    TellsTheClaims(v.wizard);
    if Truth(server, v.booked) == Tells(v.wizard) {
      assert v.booked == Claimed(v.wizard) by {
        forall i | 0 <= i < |v.booked| ensures v.booked[i] == Claimed(v.wizard)[i] {
          assert Truth(server, v.booked)[i].booked == v.booked[i];
        }
      }
    }
    if v.booked == Claimed(v.wizard) {
      TruthOfClaimsIff(server, v.wizard);
    }
  }

  lemma TellsTheClaims(w: Wizard)
    requires HasItsSlots(w)
    ensures |Tells(w)| == |Claimed(w)| && forall i | 0 <= i < |Tells(w)| :: Tells(w)[i].booked == Claimed(w)[i]
  {
  }

  lemma TruthOfClaimsIff(server: Server, w: Wizard)
    requires HasItsSlots(w)
    ensures Truth(server, Claimed(w)) == Tells(w) <==>
            (w.done.Some? ==>
               && (w.done.value.laundry.Some? ==> server.dayOf(w.lSlot.value) == w.lDate)
               && (w.done.value.service.Some? ==> server.visitOf(w.sSlot.value) == (w.service.value.id, w.sDate)))
  {
    var truth, tells := Truth(server, Claimed(w)), Tells(w);
    TellsTheClaims(w);
    assert truth == tells <==> forall i | 0 <= i < |tells| :: truth[i] == tells[i];
    if w.done.Some? && w.done.value.laundry.Some? {
      assert tells[0].of == ("", w.lDate) && truth[0].of == ("", server.dayOf(w.lSlot.value));
    }
    if w.done.Some? && w.done.value.service.Some? {
      var last := |tells| - 1;
      assert tells[last].of == (w.service.value.id, w.sDate) && truth[last].of == server.visitOf(w.sSlot.value);
    }
  }

  // Such a run: the day is changed, and a chip of the old day taken before the new list comes.
  lemma StaleChipBooksAnotherDay(server: Server, today: string, other: string, slot: string, code: string)
    requires server.dayOf(slot) == today && other != today && slot != "" && code != ""
    ensures var next := Continue(Ordered(code), Agreed);
            var presses := StaleChip(other, slot, next) + [next] + [next];
            && HonestLists(server, today, presses)
            && Run(today, presses).booked == [Pickup(slot, code)]
            && Tells(Run(today, presses).wizard) == [Told(Pickup(slot, code), ("", other))]
            && Truth(server, [Pickup(slot, code)]) == [Told(Pickup(slot, code), ("", today))]
  {
    var next := Continue(Ordered(code), Agreed);
    var taken := StaleChip(other, slot, next);
    StaleChipIsTaken(server, today, other, slot, next);
    RunSnoc(today, taken, next);
    RunSnoc(today, taken + [next], next);
    assert Init(taken + [next]) == taken && Init(taken + [next] + [next]) == taken + [next];
  }

  function StaleChip(other: string, slot: string, next: Press): seq<Press> {
    [next] + [LaundryListed(0, [slot])] + [LaundryDate(other)] + [LaundryChip(slot)]
  }

  lemma StaleChipIsTaken(server: Server, today: string, other: string, slot: string, next: Press)
    requires server.dayOf(slot) == today && other != today && slot != "" && next.Continue?
    ensures HonestLists(server, today, StaleChip(other, slot, next))
    ensures var v := Run(today, StaleChip(other, slot, next));
            && v.booked == [] && v.wizard.done.None? && v.wizard.step == 1 && v.wizard.wantLaundry && v.wizard.service.None?
            && v.wizard.lSlot == Some(slot) && v.wizard.lDate == other
  {
    var listed := [next] + [LaundryListed(0, [slot])];
    var dated, w := listed + [LaundryDate(other)], FirstListed(today, slot);
    FirstListArrives(today, slot, next);
    RunSnoc(today, listed, LaundryDate(other));
    RunSnoc(today, dated, LaundryChip(slot));
    assert After(Visiting(w, []), LaundryDate(other)) == Visiting(LaundryDated(w, other), []);
    StaleChipIsHonest(server, today, other, slot, next);
  }

  lemma StaleChipIsHonest(server: Server, today: string, other: string, slot: string, next: Press)
    requires server.dayOf(slot) == today && next.Continue?
    ensures HonestLists(server, today, StaleChip(other, slot, next))
  {
    var listed := [next] + [LaundryListed(0, [slot])];
    FirstListArrives(today, slot, next);
    assert Init([next]) == [] && HonestLists(server, today, [next]);
    assert Init(listed) == [next] && HonestLists(server, today, listed);
    assert Init(listed + [LaundryDate(other)]) == listed;
    assert Init(listed + [LaundryDate(other)] + [LaundryChip(slot)]) == listed + [LaundryDate(other)];
  }

  // ---------------------------------------------------- replies, from the wire up

  // What the error says is the client's affair; only its code matters here.
  function ErrorOf(wire: Wire, message: string): Refusal {
    var code := match wire
      case Silence(_, _) => SilenceFailure(wire).code
      case Response(_, body, _) => if body.NotJson? then Some("invalid_response") else if body.Json? then body.error else None;
    Refusal(code.GetOr(""), message)
  }

  // The pickup request, sent once. `orderCode` is that of the order in the answer, if it
  // has one; reading it from an answer without one throws like any failure.
  function PickupReplyOf(wire: Wire, orderCode: Option<string>, message: string): PickupReply {
    if wire.Response? && wire.body.Json? && !IsOk(wire.status) then NoPickup(ErrorOf(wire, message))
    else if wire.Response? && Read(wire).Value? && orderCode.Some? then Ordered(orderCode.value)
    else PickupLost(ErrorOf(wire, message), wire.carriedOut)
  }

  function VisitReplyOf(wire: Wire, message: string): VisitReply {
    if wire.Response? && wire.body.Json? && !IsOk(wire.status) then NoVisit(ErrorOf(wire, message))
    else if wire.Response? && Read(wire).Value? then Agreed
    else VisitLost(ErrorOf(wire, message), wire.carriedOut)
  }

  // The server's own word, when it can be read, tells what the server did.
  predicate ReadableAnswersAreTrue(wire: Wire) {
    wire.Response? && (wire.body.Json? || wire.body.Empty?) ==> (wire.carriedOut <==> 200 <= wire.status < 300)
  }

  // The resident reads that a slot filled up exactly when the server's answer says so, by
  // one of two codes; and a booking is refused exactly when an answer in JSON has a status
  // outside 200 to 299.
  lemma FilledUpIsTheServersWord(wire: Wire, orderCode: Option<string>, message: string)
    ensures var refusal := ErrorOf(wire, message);
            && refusal.message == message
            && (refusal.code in {"slot_unavailable", "slot_full"} <==>
                wire.Response? && wire.body in {Json(Some("slot_unavailable")), Json(Some("slot_full"))})
    ensures var pickup, visit := PickupReplyOf(wire, orderCode, message), VisitReplyOf(wire, message);
            && (pickup.NoPickup? <==> visit.NoVisit?)
            && (pickup.NoPickup? <==> wire.Response? && wire.body.Json? && !(200 <= wire.status < 300))
            && (!pickup.Ordered? ==> pickup.refusal == ErrorOf(wire, message))
            && (!visit.Agreed? ==> visit.refusal == ErrorOf(wire, message))
  {
  }

  // With a server that says what it did, a booking goes unheard exactly when the request
  // was carried out and no order came back that could be read: silence, a connection lost
  // while reading, an answer that is not JSON, or one with no order in it.
  lemma UnheardFromTheWire(wire: Wire, orderCode: Option<string>, message: string)
    requires ReadableAnswersAreTrue(wire)
    ensures var reply := PickupReplyOf(wire, orderCode, message);
            && (reply.PickupLost? && reply.carriedOut <==>
                wire.carriedOut && (wire.Silence? || wire.body.Lost? || wire.body.NotJson? || orderCode.None?))
            && (reply.Ordered? ==> wire.carriedOut) && (reply.NoPickup? ==> !wire.carriedOut)
    ensures var reply := VisitReplyOf(wire, message);
            && (reply.VisitLost? && reply.carriedOut <==>
                wire.carriedOut && (wire.Silence? || wire.body.Lost? || wire.body.NotJson?))
            && (reply.Agreed? ==> wire.carriedOut) && (reply.NoVisit? ==> !wire.carriedOut)
  {
  }

  // ------------------------------------------------------------- what it looks like

  // The cards of the closing screen, as the resident sees them.
  predicate SaysPartlyBooked(record: Record) {
    Truthy(record.serviceError)
  }

  // The closing screen says "Partly booked" and names the service exactly when the laundry
  // went through, the service request failed and its error had words. The service it calls
  // not booked is booked after all exactly when that reply was lost and carried out.
  lemma PartlyBookedIsSaid(w: Wizard, pickup: PickupReply, visit: VisitReply)
    requires w.done.None? && Confirmed(w, pickup, visit).next.done.Some?
    ensures var outcome := Confirmed(w, pickup, visit);
            var record := outcome.next.done.value;
            var failed := AsksVisit(w) && !visit.Agreed?;
            && (SaysPartlyBooked(record) <==> failed && Reason(visit.refusal, VISIT_FILLED) != "")
            && (SaysPartlyBooked(record) <==> record.failedService.Some?)
            && (failed ==> Truthy(record.laundry) && record.service == None)
            && (CountVisits(outcome.booked) == 1 <==> AsksVisit(w) && (visit.Agreed? || (visit.VisitLost? && visit.carriedOut)))
  {
    ExtrasOfVisit(w, pickup, visit);
    ConfirmHasItsSlots(w, pickup, visit);
    ClaimsCounted(Confirmed(w, pickup, visit).next);
  }
}
