/** The customer booking wizard (project/src/components/BookingModal.tsx):
    four steps (barber, service, date and time, contact data) over a partial
    booking, the per-slot availability shown at step 3, and the final
    submission into the barber store. */
module BookingModal {
  import opened Seqs
  import opened Types
  import MockData
  import BarberContext

  /** A field of the partial booking that JavaScript reads as truthy: present
      and not the empty string. */
  predicate Filled(o: Option<string>) { o.Some? && o.value != "" }

  /** The partial booking the wizard fills in; a field is `None` until set. */
  datatype Draft = Draft(
    barberId: Option<string>,
    serviceId: Option<string>,
    date: Option<string>,
    time: Option<string>,
    customerName: Option<string>,
    customerPhone: Option<string>,
    customerEmail: Option<string>)

  const EmptyDraft: Draft := Draft(None, None, None, None, None, None, None)

  function IdOf(selected: Option<Barber>): Option<string>
  {
    if selected.Some? then Some(selected.value.id) else None
  }

  /** The barber whose bookings block slots: the draft's barber when it is
      truthy, otherwise the barber the modal was opened for. */
  function SlotBarber(d: Draft, selected: Option<string>): (r: Option<string>)
    ensures Filled(d.barberId) ==> r == d.barberId
    ensures !Filled(d.barberId) ==> r == selected
    ensures Filled(r) || r == selected
  {
    if Filled(d.barberId) then d.barberId else selected
  }

  /** Some booking, whatever its status, has this barber, date and time. */
  predicate Taken(bookings: seq<Booking>, barber: Option<string>, date: Option<string>, time: string)
    ensures Taken(bookings, barber, date, time) ==> barber.Some? && date.Some?
    ensures bookings == [] ==> !Taken(bookings, barber, date, time)
  {
    exists b :: b in bookings && barber == Some(b.barberId) && date == Some(b.date) && b.time == time
  }

  function SlotRule(bookings: seq<Booking>, barber: Option<string>, date: Option<string>): TimeSlot -> TimeSlot
  {
    (t: TimeSlot) => TimeSlot(t.time, Filled(date) && t.available && !Taken(bookings, barber, date, t.time))
  }

  /** The template with each slot marked available exactly when a date is
      chosen, the template offers it, and no booking takes it. */
  function Availability(template: seq<TimeSlot>, bookings: seq<Booking>, barber: Option<string>, date: Option<string>): (r: seq<TimeSlot>)
    ensures |r| == |template|
    ensures forall i :: 0 <= i < |template| ==> r[i].time == template[i].time
    ensures forall i :: 0 <= i < |template| ==>
      (r[i].available <==> Filled(date) && template[i].available && !Taken(bookings, barber, date, template[i].time))
  {
    MapAt(template, SlotRule(bookings, barber, date));
    Map(template, SlotRule(bookings, barber, date))
  }

  /** Without a date nothing can be picked. */
  lemma NoDateNoSlot(template: seq<TimeSlot>, bookings: seq<Booking>, barber: Option<string>, date: Option<string>, i: int)
    requires !Filled(date) && 0 <= i < |template|
    ensures !Availability(template, bookings, barber, date)[i].available
  {
  }

  /** On a day without bookings every slot of the day template is offered. */
  lemma EmptyDayAllAvailable(barber: Option<string>, date: Option<string>)
    requires Filled(date)
    ensures forall i :: 0 <= i < |MockData.TimeSlots| ==>
      Availability(MockData.TimeSlots, [], barber, date)[i].available
  {
    MockData.TemplateShape();
  }

  /** Any booking, whatever its status, blocks its own barber, date and time. */
  lemma BookingBlocksItsSlot(template: seq<TimeSlot>, bookings: seq<Booking>, b: Booking, i: int)
    requires b in bookings && 0 <= i < |template| && template[i].time == b.time
    ensures !Availability(template, bookings, Some(b.barberId), Some(b.date))[i].available
  {
    assert Taken(bookings, Some(b.barberId), Some(b.date), b.time);
  }

  lemma TakenIgnoresStatus(bookings: seq<Booking>, id: string, status: BookingStatus,
                           barber: Option<string>, date: Option<string>, time: string)
    ensures Taken(BarberContext.SetStatus(bookings, id, status), barber, date, time)
        <==> Taken(bookings, barber, date, time)
  {
    var after := BarberContext.SetStatus(bookings, id, status);
    if Taken(bookings, barber, date, time) {
      var b :| b in bookings && barber == Some(b.barberId) && date == Some(b.date) && b.time == time;
      var k :| 0 <= k < |bookings| && bookings[k] == b;
      assert after[k] in after;
    }
    if Taken(after, barber, date, time) {
      var b :| b in after && barber == Some(b.barberId) && date == Some(b.date) && b.time == time;
      var k :| 0 <= k < |after| && after[k] == b;
      assert bookings[k] in bookings;
    }
  }

  /** Changing a booking's status, cancelling included, never frees or takes
      a slot: the availability ignores status. */
  lemma CancelledStillBlocks(template: seq<TimeSlot>, bookings: seq<Booking>, id: string, status: BookingStatus,
                             barber: Option<string>, date: Option<string>)
    ensures Availability(template, BarberContext.SetStatus(bookings, id, status), barber, date)
         == Availability(template, bookings, barber, date)
  {
    var a := Availability(template, BarberContext.SetStatus(bookings, id, status), barber, date);
    var b := Availability(template, bookings, barber, date);
    forall i | 0 <= i < |template| ensures a[i] == b[i] {
      TakenIgnoresStatus(bookings, id, status, barber, date, template[i].time);
    }
  }

  /** A booking for another barber or another day leaves every slot as it was. */
  lemma OtherBookingIrrelevant(template: seq<TimeSlot>, bookings: seq<Booking>, b: Booking,
                               barber: Option<string>, date: Option<string>)
    requires barber != Some(b.barberId) || date != Some(b.date)
    ensures Availability(template, bookings + [b], barber, date) == Availability(template, bookings, barber, date)
  {
    var x := Availability(template, bookings + [b], barber, date);
    var y := Availability(template, bookings, barber, date);
    forall i | 0 <= i < |template| ensures x[i] == y[i] {
      var t := template[i].time;
      if Taken(bookings + [b], barber, date, t) {
        var c :| c in bookings + [b] && barber == Some(c.barberId) && date == Some(c.date) && c.time == t;
        assert c in bookings;
      }
      if Taken(bookings, barber, date, t) {
        var c :| c in bookings && barber == Some(c.barberId) && date == Some(c.date) && c.time == t;
        assert c in bookings + [b];
      }
    }
  }

  /** The wizard's state: current step, partial booking, submission flag. */
  datatype Wizard = Wizard(step: int, draft: Draft, isLoading: bool)

  /** The state the modal starts in: step 1 with the selected barber, if any,
      written into the draft. */
  function Opened(selected: Option<Barber>): Wizard
  {
    Wizard(1, if selected.Some? then EmptyDraft.(barberId := Some(selected.value.id)) else EmptyDraft, false)
  }

  /** The state after a successful submission. The effect that copies the
      selected barber into the draft does not run again here. */
  const Reset: Wizard := Wizard(1, EmptyDraft, false)

  /** The effect that runs when the selected barber changes. */
  function Selected(w: Wizard, selected: Option<Barber>): Wizard
  {
    if selected.Some? then w.(draft := w.draft.(barberId := Some(selected.value.id))) else w
  }

  /** The disabled condition of the Next button. */
  predicate NextDisabled(w: Wizard)
  {
    (w.step == 1 && !Filled(w.draft.barberId))
    || (w.step == 2 && !Filled(w.draft.serviceId))
    || (w.step == 3 && (!Filled(w.draft.date) || !Filled(w.draft.time)))
  }

  /** Next: shown below step 4, ignored while disabled, clamped at 4. */
  function Next(w: Wizard): (r: Wizard)
    ensures r.draft == w.draft && r.isLoading == w.isLoading
    ensures r.step != w.step <==> w.step < 4 && !NextDisabled(w)
    ensures r.step != w.step ==> r.step == w.step + 1
  {
    if w.step < 4 && !NextDisabled(w) then w.(step := if w.step + 1 < 4 then w.step + 1 else 4) else w
  }

  /** Previous: shown above step 1, clamped at 1. */
  function Previous(w: Wizard): (r: Wizard)
    ensures r.draft == w.draft && r.isLoading == w.isLoading
    ensures w.step > 1 ==> r.step == w.step - 1
    ensures w.step <= 1 ==> r == w
  {
    if w.step > 1 then w.(step := if w.step - 1 > 1 then w.step - 1 else 1) else w
  }

  /** A barber button of step 1. */
  function PickBarber(w: Wizard, id: string): Wizard
  {
    if w.step == 1 then w.(draft := w.draft.(barberId := Some(id))) else w
  }

  /** A service button of step 2. */
  function PickService(w: Wizard, id: string): Wizard
  {
    if w.step == 2 then w.(draft := w.draft.(serviceId := Some(id))) else w
  }

  /** The date input of step 3. */
  function EnterDate(w: Wizard, date: string): Wizard
  {
    if w.step == 3 then w.(draft := w.draft.(date := Some(date))) else w
  }

  /** A time button of step 3: a click on an unavailable slot does nothing. */
  function PickTime(w: Wizard, slot: TimeSlot): (r: Wizard)
    ensures r.step == w.step && r.isLoading == w.isLoading
    ensures r.draft == w.draft.(time := r.draft.time)
    ensures w.step == 3 && slot.available ==> r.draft.time == Some(slot.time)
    ensures r.draft.time != w.draft.time ==> w.step == 3 && slot.available
  {
    if w.step == 3 && slot.available then w.(draft := w.draft.(time := Some(slot.time))) else w
  }

  function EnterName(w: Wizard, v: string): Wizard
  {
    if w.step == 4 then w.(draft := w.draft.(customerName := Some(v))) else w
  }

  function EnterPhone(w: Wizard, v: string): Wizard
  {
    if w.step == 4 then w.(draft := w.draft.(customerPhone := Some(v))) else w
  }

  function EnterEmail(w: Wizard, v: string): Wizard
  {
    if w.step == 4 then w.(draft := w.draft.(customerEmail := Some(v))) else w
  }

  /** The Confirm button is shown at step 4 and enabled once name, phone and
      email are truthy and no submission is running. */
  predicate ConfirmEnabled(w: Wizard)
  {
    w.step == 4 && Filled(w.draft.customerName) && Filled(w.draft.customerPhone)
    && Filled(w.draft.customerEmail) && !w.isLoading
  }

  /** What the steps guarantee about the draft. */
  predicate WizardInv(w: Wizard)
  {
    1 <= w.step <= 4
    && (w.step >= 2 ==> w.draft.barberId.Some?)
    && (w.step >= 3 ==> Filled(w.draft.serviceId))
    && (w.step == 4 ==> Filled(w.draft.date) && Filled(w.draft.time))
  }

  /** The booking the wizard submits copies the seven draft fields and
      carries no status, price or walk-in flag. */
  function Submitted(w: Wizard, id: string): (b: Booking)
    requires WizardInv(w) && ConfirmEnabled(w)
    ensures b.id == id
    ensures Some(b.barberId) == w.draft.barberId && Some(b.serviceId) == w.draft.serviceId
    ensures Some(b.date) == w.draft.date && Some(b.time) == w.draft.time
    ensures Some(b.customerName) == w.draft.customerName && Some(b.customerPhone) == w.draft.customerPhone
    ensures Some(b.customerEmail) == w.draft.customerEmail
    ensures b.status.None? && b.price.None? && b.isWalkIn.None?
  {
    Booking(id, w.draft.barberId.value, w.draft.serviceId.value, w.draft.date.value, w.draft.time.value,
            w.draft.customerName.value, w.draft.customerPhone.value, w.draft.customerEmail.value,
            None, None, None)
  }

  /** Next advances exactly when the current step's fields are filled. */
  lemma NextGuards(w: Wizard)
    requires 1 <= w.step <= 4
    ensures w.step == 1 ==> (Next(w).step == 2 <==> Filled(w.draft.barberId))
    ensures w.step == 2 ==> (Next(w).step == 3 <==> Filled(w.draft.serviceId))
    ensures w.step == 3 ==> (Next(w).step == 4 <==> Filled(w.draft.date) && Filled(w.draft.time))
    ensures w.step == 4 ==> Next(w) == w
    ensures Next(w).draft == w.draft
  {
  }

  /** Previous goes back one step and never below step 1, keeping the draft. */
  lemma PreviousGoesBack(w: Wizard)
    requires 1 <= w.step <= 4
    ensures Previous(w).step == if w.step == 1 then 1 else w.step - 1
    ensures Previous(w).draft == w.draft
  {
  }

  /** Every handler keeps the step in 1..4 and the draft as complete as the
      step requires. */
  lemma TransitionsKeepInvariant(w: Wizard, selected: Option<Barber>, id: string, slot: TimeSlot, v: string)
    requires WizardInv(w)
    ensures WizardInv(Next(w)) && WizardInv(Previous(w))
    ensures WizardInv(PickBarber(w, id)) && WizardInv(PickService(w, id)) && WizardInv(EnterDate(w, v))
    ensures WizardInv(PickTime(w, slot)) && WizardInv(Selected(w, selected))
    ensures WizardInv(EnterName(w, v)) && WizardInv(EnterPhone(w, v)) && WizardInv(EnterEmail(w, v))
    ensures WizardInv(Reset) && WizardInv(Opened(selected))
  {
  }

  /** At step 3, clicking the `i`-th offered slot stores its time exactly
      when it is shown available, and then that time was free for the slot
      barber on the chosen date; a slot shown taken leaves the wizard as it
      was. */
  lemma PickedTimeWasFree(w: Wizard, bookings: seq<Booking>, selected: Option<string>, i: int)
    requires 0 <= i < |MockData.TimeSlots| && w.step == 3
    ensures var slot := Availability(MockData.TimeSlots, bookings, SlotBarber(w.draft, selected), w.draft.date)[i];
      var t := MockData.TimeSlots[i].time;
      (slot.available ==>
        PickTime(w, slot).draft.time == Some(t)
        && Filled(w.draft.date)
        && !Taken(bookings, SlotBarber(w.draft, selected), w.draft.date, t))
      && (!slot.available ==> PickTime(w, slot) == w)
  {
  }

  /** Confirming while the stored time is still free for the draft's barber
      and date keeps the one-live-booking-per-barber-date-time rule that the
      step-3 slot picker is meant to enforce. */
  lemma FreshSlotKeepsNoDoubleBooking(bookings: seq<Booking>, w: Wizard, id: string)
    requires WizardInv(w) && ConfirmEnabled(w)
    requires BarberContext.NoDoubleBooking(bookings)
    requires !Taken(bookings, w.draft.barberId, w.draft.date, w.draft.time.value)
    ensures BarberContext.NoDoubleBooking(bookings + [Submitted(w, id)])
  {
    var nb := Submitted(w, id);
    var s := bookings + [nb];
    forall i, j | 0 <= i < j < |s| && s[i].status != Some(Cancelled) && s[j].status != Some(Cancelled)
      ensures !(s[i].barberId == s[j].barberId && s[i].date == s[j].date && s[i].time == s[j].time)
    {
      if j == |bookings| {
        assert s[i] in bookings;
        assert s[j] == nb;
      } else {
        assert s[i] == bookings[i] && s[j] == bookings[j];
      }
    }
  }

  const StaleOther: Booking :=
    Booking("x", "b1", "1", "2025-06-03", "09:00", "Luis", "301", "luis@x.co", Some(Pending), None, None)

  /** Step 3 with barber "b1", service "1" and a free day chosen. */
  const StaleStart: Wizard := Wizard(3, Draft(Some("b1"), Some("1"), Some("2025-06-02"), None, None, None, None), false)

  /** The first slot as step 3 shows it for the free day. */
  function StaleSlot(): TimeSlot
  {
    Availability(MockData.TimeSlots, [StaleOther], Some("b1"), StaleStart.draft.date)[0]
  }

  /** After the pick: switch to the day `StaleOther` holds, go on, and fill
      in the contact data. */
  function StaleContinue(w: Wizard): Wizard
  {
    EnterEmail(EnterPhone(EnterName(Next(EnterDate(w, "2025-06-03")), "Ana"), "300"), "ana@x.co")
  }

  function StaleRun(): Wizard
  {
    StaleContinue(PickTime(StaleStart, StaleSlot()))
  }

  lemma StaleSlotOffered()
    ensures StaleSlot() == TimeSlot("09:00", true)
  {
    assert MockData.TimeSlots[0] == TimeSlot("09:00", true);
    assert StaleOther.date[9] != "2025-06-02"[9];
    assert !Taken([StaleOther], Some("b1"), Some("2025-06-02"), "09:00") by {
      forall b | b in [StaleOther] ensures b.date != "2025-06-02" {
        assert b == StaleOther;
      }
    }
  }

  const StaleFinal: Wizard :=
    Wizard(4, Draft(Some("b1"), Some("1"), Some("2025-06-03"), Some("09:00"), Some("Ana"), Some("300"), Some("ana@x.co")), false)

  lemma StaleContinueState()
    ensures StaleContinue(StaleStart.(draft := StaleStart.draft.(time := Some("09:00")))) == StaleFinal
  {
    var d := Draft(Some("b1"), Some("1"), Some("2025-06-03"), Some("09:00"), None, None, None);
    var w2 := EnterDate(StaleStart.(draft := StaleStart.draft.(time := Some("09:00"))), "2025-06-03");
    assert w2 == Wizard(3, d, false);
    assert Next(w2) == Wizard(4, d, false);
  }

  lemma StaleRunState()
    ensures StaleRun() == StaleFinal
  {
    StaleSlotOffered();
    assert PickTime(StaleStart, StaleSlot()) == StaleStart.(draft := StaleStart.draft.(time := Some("09:00")));
    StaleContinueState();
  }

  /** The time picked for one date survives a change of date: a customer who
      picks 09:00 on a free day and then switches to a day where 09:00 is
      taken can still confirm, although step 3 now shows 09:00 as taken, and
      the store then holds two live bookings for the same barber, date and
      time. */
  lemma StaleFinalConfirmable()
    ensures WizardInv(StaleFinal) && ConfirmEnabled(StaleFinal)
  {
  }

  lemma StaleFinalShownTaken()
    ensures !Availability(MockData.TimeSlots, [StaleOther], Some("b1"), StaleFinal.draft.date)[0].available
  {
    assert MockData.TimeSlots[0].time == "09:00";
    BookingBlocksItsSlot(MockData.TimeSlots, [StaleOther], StaleOther, 0);
  }

  lemma StaleFinalClashes()
    ensures BarberContext.NoDoubleBooking([StaleOther])
    ensures WizardInv(StaleFinal) && ConfirmEnabled(StaleFinal)
      && !BarberContext.NoDoubleBooking([StaleOther] + [Submitted(StaleFinal, "n")])
  {
    StaleFinalConfirmable();
    var s := [StaleOther] + [Submitted(StaleFinal, "n")];
    assert s[1] == Booking("n", "b1", "1", "2025-06-03", "09:00", "Ana", "300", "ana@x.co", None, None, None);
    assert s[0].barberId == s[1].barberId && s[0].date == s[1].date && s[0].time == s[1].time;
  }

  lemma StaleTimeCanDoubleBook()
    ensures WizardInv(StaleRun()) && ConfirmEnabled(StaleRun())
    ensures !Availability(MockData.TimeSlots, [StaleOther], Some("b1"), StaleRun().draft.date)[0].available
    ensures BarberContext.NoDoubleBooking([StaleOther])
    ensures !BarberContext.NoDoubleBooking([StaleOther] + [Submitted(StaleRun(), "n")])
  {
    StaleRunState();
    StaleFinalShownTaken();
    StaleFinalClashes();
  }

  /** The open modal: the wizard state plus the barber it was opened for. */
  class Modal {
    var step: int
    var draft: Draft
    var isLoading: bool
    var selectedBarber: Option<Barber>

    function State(): Wizard
      reads this
    {
      Wizard(step, draft, isLoading)
    }

    predicate Valid()
      reads this
    {
      WizardInv(State()) && !isLoading
    }

    /** The slots step 3 shows, computed from the store's current bookings. */
    function Offered(bookings: seq<Booking>): (r: seq<TimeSlot>)
      reads this
      ensures |r| == |MockData.TimeSlots|
    {
      Availability(MockData.TimeSlots, bookings, SlotBarber(draft, IdOf(selectedBarber)), draft.date)
    }

    method Set(w: Wizard)
      modifies this
      ensures State() == w && selectedBarber == old(selectedBarber)
    {
      step, draft, isLoading := w.step, w.draft, w.isLoading;
    }

    constructor (selected: Option<Barber>)
      ensures State() == Opened(selected) && selectedBarber == selected
      ensures Valid()
    {
      var w := Opened(selected);
      step, draft, isLoading := w.step, w.draft, w.isLoading;
      selectedBarber := selected;
    }

    method SelectedBarberChanged(selected: Option<Barber>)
      requires Valid()
      modifies this
      ensures Valid()
      ensures State() == Selected(old(State()), selected) && selectedBarber == selected
    {
      TransitionsKeepInvariant(State(), selected, "", TimeSlot("", false), "");
      Set(Selected(State(), selected));
      selectedBarber := selected;
    }

    method PressNext()
      requires Valid()
      modifies this
      ensures Valid()
      ensures State() == Next(old(State())) && selectedBarber == old(selectedBarber)
    {
      TransitionsKeepInvariant(State(), None, "", TimeSlot("", false), "");
      Set(Next(State()));
    }

    method PressPrevious()
      requires Valid()
      modifies this
      ensures Valid()
      ensures State() == Previous(old(State())) && selectedBarber == old(selectedBarber)
    {
      TransitionsKeepInvariant(State(), None, "", TimeSlot("", false), "");
      Set(Previous(State()));
    }

    /** The button of the `i`-th barber of the store. */
    method ChooseBarber(store: BarberContext.BarberStore, i: int)
      requires Valid() && 0 <= i < |store.barbers|
      modifies this
      ensures Valid()
      ensures State() == PickBarber(old(State()), store.barbers[i].id) && selectedBarber == old(selectedBarber)
    {
      TransitionsKeepInvariant(State(), None, store.barbers[i].id, TimeSlot("", false), "");
      Set(PickBarber(State(), store.barbers[i].id));
    }

    /** The button of the `i`-th seed service. */
    method ChooseService(i: int)
      requires Valid() && 0 <= i < |MockData.SeedServices|
      modifies this
      ensures Valid()
      ensures State() == PickService(old(State()), MockData.SeedServices[i].id)
      ensures selectedBarber == old(selectedBarber)
    {
      TransitionsKeepInvariant(State(), None, MockData.SeedServices[i].id, TimeSlot("", false), "");
      Set(PickService(State(), MockData.SeedServices[i].id));
    }

    method ChangeDate(date: string)
      requires Valid()
      modifies this
      ensures Valid()
      ensures State() == EnterDate(old(State()), date) && selectedBarber == old(selectedBarber)
    {
      TransitionsKeepInvariant(State(), None, "", TimeSlot("", false), date);
      Set(EnterDate(State(), date));
    }

    /** The button of the `i`-th slot of step 3. */
    method ChooseTime(store: BarberContext.BarberStore, i: int)
      requires Valid() && 0 <= i < |MockData.TimeSlots|
      modifies this
      ensures Valid()
      ensures State() == PickTime(old(State()), old(Offered(store.bookings))[i])
      ensures selectedBarber == old(selectedBarber)
    {
      var slot := Offered(store.bookings)[i];
      TransitionsKeepInvariant(State(), None, "", slot, "");
      Set(PickTime(State(), slot));
    }

    method ChangeName(v: string)
      requires Valid()
      modifies this
      ensures Valid()
      ensures State() == EnterName(old(State()), v) && selectedBarber == old(selectedBarber)
    {
      TransitionsKeepInvariant(State(), None, "", TimeSlot("", false), v);
      Set(EnterName(State(), v));
    }

    method ChangePhone(v: string)
      requires Valid()
      modifies this
      ensures Valid()
      ensures State() == EnterPhone(old(State()), v) && selectedBarber == old(selectedBarber)
    {
      TransitionsKeepInvariant(State(), None, "", TimeSlot("", false), v);
      Set(EnterPhone(State(), v));
    }

    method ChangeEmail(v: string)
      requires Valid()
      modifies this
      ensures Valid()
      ensures State() == EnterEmail(old(State()), v) && selectedBarber == old(selectedBarber)
    {
      TransitionsKeepInvariant(State(), None, "", TimeSlot("", false), v);
      Set(EnterEmail(State(), v));
    }

    /** Confirm: when enabled, submits the draft under `id` (the clock value
        the source uses) and resets the wizard; otherwise nothing happens. */
    method Confirm(store: BarberContext.BarberStore, id: string)
      requires Valid() && store.Valid()
      modifies this, store
      ensures Valid() && store.Valid()
      ensures selectedBarber == old(selectedBarber)
      ensures ConfirmEnabled(old(State())) ==>
        State() == Reset
        && store.bookings == old(store.bookings) + [Submitted(old(State()), id)]
        && store.barbers == old(store.barbers)
        && store.notifications == old(store.notifications) + [BarberContext.BookingAddedMessage(Submitted(old(State()), id))]
        && store.pendingExpiries == old(store.pendingExpiries) + 1
      ensures !ConfirmEnabled(old(State())) ==>
        State() == old(State()) && unchanged(store)
    {
      if ConfirmEnabled(State()) {
        var b := Submitted(State(), id);
        store.AddBooking(b);
        Set(Reset);
      }
    }
  }
}
