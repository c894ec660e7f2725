/**
 * The booking wizard for one therapist: pick a date and a time slot, continue
 * to payment, pay, and see the confirmation.
 *
 * Only what the page renders can be clicked, so each event is ignored on the
 * steps where its control is not on screen. The two-second payment delay is
 * an explicit `PaymentDone` event; each click on "Pay" schedules one.
 * Calendar days are a day number and a weekday (0 = Sunday); the present
 * moment is a day plus milliseconds since its midnight.
 */
module TherapistBooking {
  import opened Wrappers

  datatype WizardStep = DateTime | Payment | Confirmation

  datatype Day = Day(number: int, weekday: nat)
  datatype Instant = Instant(day: Day, msOfDay: nat)

  const Slots: seq<string> := ["09:00", "10:00", "11:00", "14:00", "15:00", "16:00", "17:00"]

  // ---------------------------------------------------------------------------
  // Calendar
  // ---------------------------------------------------------------------------

  /** `date < new Date()` for a calendar day, which the calendar hands over
      at its midnight: earlier days are before now, and so is today once
      its midnight has passed. */
  predicate BeforeNow(d: Day, now: Instant) {
    d.number < now.day.number || (d.number == now.day.number && now.msOfDay > 0)
  }

  /** The calendar's `disabled` predicate. */
  predicate Disabled(d: Day, now: Instant) {
    BeforeNow(d, now) || d.weekday == 0 || d.weekday == 6
  }

  /** Exactly the weekdays from now on can be picked. */
  lemma EnabledDays(d: Day, now: Instant)
    requires d.weekday < 7
    ensures !Disabled(d, now) <==>
      && 1 <= d.weekday <= 5
      && (d.number > now.day.number || (d.number == now.day.number && now.msOfDay == 0))
  {
  }

  // ---------------------------------------------------------------------------
  // Wizard state
  // ---------------------------------------------------------------------------

  /** `selectedDate` (absent when cleared), `selectedTime` (`""` when none),
      the step, and how many payment timers are still running. */
  datatype Booking = Booking(date: Option<Day>, time: string, step: WizardStep, pendingPayments: nat)

  /** The page as it opens: today preselected, no time, first step. */
  function Initial(now: Instant): (b: Booking)
    ensures b.step == DateTime && b.time == "" && b.pendingPayments == 0
    ensures b.date == Some(now.day)
  {
    Booking(Some(now.day), "", DateTime, 0)
  }

  /** The continue button's `disabled` expression. */
  predicate ContinueDisabled(b: Booking) {
    b.date.None? || b.time == ""
  }

  datatype Event =
    | SelectDate(choice: Option<Day>, now: Instant)
    | SelectTime(slot: nat)
    | Continue
    | Pay
    | PaymentDone
    | Back

  /** Where the page goes after an event: it stays, or navigates back to the directory. */
  datatype Outcome = Stay(b: Booking) | LeavePage

  /** One event. A calendar click on a disabled day does nothing, and the
      calendar can also clear the selection. Slot buttons exist only once a
      date is selected. Continue moves on only with a date and a time.
      Every payment timer, when it fires, shows the confirmation, whatever
      the step is by then. Back returns to the first step, or leaves the
      page from it. */
  function Step(b: Booking, e: Event): (o: Outcome)
    ensures o.LeavePage? <==> e == Back && b.step == DateTime
    ensures e == Continue && b.step == DateTime ==>
      o == Stay(if ContinueDisabled(b) then b else b.(step := Payment))
    ensures e == Back && b.step != DateTime ==> o == Stay(b.(step := DateTime))
    ensures e == Pay && b.step == Payment ==> o == Stay(b.(pendingPayments := b.pendingPayments + 1))
    ensures e == Continue && b.step != DateTime ==> o == Stay(b)
    ensures e == Pay && b.step != Payment ==> o == Stay(b)
    ensures o.Stay? && o.b.step == Payment ==> b.step == Payment || (b.step == DateTime && e == Continue)
    ensures e == PaymentDone && b.pendingPayments > 0 ==>
      o == Stay(b.(step := Confirmation, pendingPayments := b.pendingPayments - 1))
    ensures e == PaymentDone && b.pendingPayments == 0 ==> o == Stay(b)
    ensures e.SelectDate? && b.step == DateTime && e.choice.Some? && Disabled(e.choice.value, e.now) ==>
      o == Stay(b)
    ensures e.SelectDate? && b.step == DateTime && (e.choice.None? || !Disabled(e.choice.value, e.now)) ==>
      o == Stay(b.(date := e.choice))
    ensures e.SelectTime? && b.step == DateTime && b.date.Some? && e.slot < |Slots| ==>
      o == Stay(b.(time := Slots[e.slot]))
    ensures e.SelectTime? && (b.date.None? || e.slot >= |Slots|) ==> o == Stay(b)
    ensures (e.SelectDate? || e.SelectTime?) && b.step != DateTime ==> o == Stay(b)
  {
    match e
    case SelectDate(choice, now) =>
      if b.step != DateTime then Stay(b)
      else if choice.Some? && Disabled(choice.value, now) then Stay(b)
      else Stay(b.(date := choice))
    case SelectTime(slot) =>
      if b.step != DateTime || b.date.None? || slot >= |Slots| then Stay(b)
      else Stay(b.(time := Slots[slot]))
    case Continue =>
      if b.step != DateTime || ContinueDisabled(b) then Stay(b)
      else Stay(b.(step := Payment))
    case Pay =>
      if b.step != Payment then Stay(b)
      else Stay(b.(pendingPayments := b.pendingPayments + 1))
    case PaymentDone =>
      if b.pendingPayments == 0 then Stay(b)
      else Stay(b.(step := Confirmation, pendingPayments := b.pendingPayments - 1))
    case Back =>
      if b.step == DateTime then LeavePage else Stay(b.(step := DateTime))
  }

  /** The continue button is disabled exactly when the click would be refused. */
  lemma ContinueDisabledIffRefused(b: Booking)
    requires b.step == DateTime
    ensures ContinueDisabled(b) <==> Step(b, Continue) == Stay(b)
  {
  }

  // ---------------------------------------------------------------------------
  // Invariants
  // ---------------------------------------------------------------------------

  /** The selected time is empty or one of the offered slots, and the payment
      step is only ever shown with a date and a time chosen. */
  predicate Consistent(b: Booking) {
    && (b.time == "" || b.time in Slots)
    && (b.step == Payment ==> b.date.Some? && b.time != "")
  }

  lemma StepKeepsConsistent(b: Booking, e: Event)
    requires Consistent(b)
    ensures Step(b, e).Stay? ==> Consistent(Step(b, e).b)
  {
  }

  /** Runs a sequence of events while the page stays open. */
  function Run(b: Booking, es: seq<Event>): Outcome
    decreases |es|
  {
    if |es| == 0 then Stay(b)
    else match Step(b, es[0])
      case LeavePage => LeavePage
      case Stay(b') => Run(b', es[1..])
  }

  lemma {:induction false} RunKeepsConsistent(b: Booking, es: seq<Event>)
    requires Consistent(b)
    ensures Run(b, es).Stay? ==> Consistent(Run(b, es).b)
    decreases |es|
  {
    if |es| > 0 {
      StepKeepsConsistent(b, es[0]);
      match Step(b, es[0])
      case LeavePage =>
      case Stay(b') => RunKeepsConsistent(b', es[1..]);
    }
  }

  /** The page opens consistent, and every run from there stays so. */
  lemma OpenedPageStaysConsistent(now: Instant, es: seq<Event>)
    ensures Consistent(Initial(now))
    ensures Run(Initial(now), es).Stay? ==> Consistent(Run(Initial(now), es).b)
  {
    RunKeepsConsistent(Initial(now), es);
  }

  /** The preselected date is today, which the calendar itself would refuse
      after midnight or at a weekend; nothing re-checks it before payment. */
  lemma PreselectedDayReachesPayment(now: Instant)
    requires now.msOfDay > 0 || now.day.weekday == 6
    ensures Disabled(now.day, now)
    ensures Run(Initial(now), [SelectTime(0), Continue]) ==
      Stay(Booking(Some(now.day), "09:00", Payment, 0))
  {
    var b1 := Booking(Some(now.day), "09:00", DateTime, 0);
    assert Step(Initial(now), SelectTime(0)) == Stay(b1);
    assert Step(b1, Continue) == Stay(b1.(step := Payment));
  }

  // ---------------------------------------------------------------------------
  // Stale payment timer
  // ---------------------------------------------------------------------------

  /** As written, a payment timer still fires after the user went back and
      cleared the date, and shows a confirmation without a date. */
  lemma StaleTimerConfirmsWithoutDate(d: Day, now: Instant)
    requires !Disabled(d, now)
    ensures var b := Booking(Some(d), "", DateTime, 0);
      Run(b, [SelectTime(0), Continue, Pay, Back, SelectDate(None, now), PaymentDone]) ==
        Stay(Booking(None, "09:00", Confirmation, 0))
  {
    var b0 := Booking(Some(d), "", DateTime, 0);
    var b1 := b0.(time := "09:00");
    assert Step(b0, SelectTime(0)) == Stay(b1);
    var b2 := b1.(step := Payment);
    assert Step(b1, Continue) == Stay(b2);
    var b3 := b2.(pendingPayments := 1);
    assert Step(b2, Pay) == Stay(b3);
    var b4 := b3.(step := DateTime);
    assert Step(b3, Back) == Stay(b4);
    var b5 := b4.(date := None);
    assert Step(b4, SelectDate(None, now)) == Stay(b5);
    assert Step(b5, PaymentDone) == Stay(Booking(None, "09:00", Confirmation, 0));
    var es := [SelectTime(0), Continue, Pay, Back, SelectDate(None, now), PaymentDone];
    assert Run(b5, es[5..]) == Stay(Booking(None, "09:00", Confirmation, 0));
    assert Run(b4, es[4..]) == Run(b5, es[5..]);
    assert Run(b3, es[3..]) == Run(b4, es[4..]);
    assert Run(b2, es[2..]) == Run(b3, es[3..]);
    assert Run(b1, es[1..]) == Run(b2, es[2..]);
    assert Run(b0, es) == Run(b1, es[1..]);
  }

  /** The intended behaviour: a payment timer confirms only while the payment
      step is still shown (going back cancels it). */
  function StepGuarded(b: Booking, e: Event): (o: Outcome)
    ensures e != PaymentDone ==> o == Step(b, e)
    ensures e == PaymentDone && b.step != Payment ==> o == Stay(b.(pendingPayments := if b.pendingPayments > 0 then b.pendingPayments - 1 else 0))
  {
    if e == PaymentDone && b.step != Payment then
      Stay(b.(pendingPayments := if b.pendingPayments > 0 then b.pendingPayments - 1 else 0))
    else Step(b, e)
  }

  /** With the guard, payment and confirmation are only ever shown with a
      date and a time chosen. */
  predicate Booked(b: Booking) {
    && (b.time == "" || b.time in Slots)
    && (b.step != DateTime ==> b.date.Some? && b.time != "")
  }

  lemma StepGuardedKeepsBooked(b: Booking, e: Event)
    requires Booked(b)
    ensures StepGuarded(b, e).Stay? ==> Booked(StepGuarded(b, e).b)
  {
  }

  function RunGuarded(b: Booking, es: seq<Event>): Outcome
    decreases |es|
  {
    if |es| == 0 then Stay(b)
    else match StepGuarded(b, es[0])
      case LeavePage => LeavePage
      case Stay(b') => RunGuarded(b', es[1..])
  }

  lemma {:induction false} RunGuardedConfirmsBooked(now: Instant, es: seq<Event>)
    ensures var o := RunGuarded(Initial(now), es);
      o.Stay? && o.b.step == Confirmation ==> o.b.date.Some? && o.b.time in Slots
  {
    RunGuardedKeepsBooked(Initial(now), es);
  }

  lemma {:induction false} RunGuardedKeepsBooked(b: Booking, es: seq<Event>)
    requires Booked(b)
    ensures RunGuarded(b, es).Stay? ==> Booked(RunGuarded(b, es).b)
    decreases |es|
  {
    if |es| > 0 {
      StepGuardedKeepsBooked(b, es[0]);
      match StepGuarded(b, es[0])
      case LeavePage =>
      case Stay(b') => RunGuardedKeepsBooked(b', es[1..]);
    }
  }
}
