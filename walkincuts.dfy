/** The walk-in panel (project/src/components/admin/WalkInCuts.tsx): a form
    that records a customer who arrived without an appointment as a booking
    that is already completed. */
module WalkInCuts {
  import opened Seqs
  import opened Types
  import MockData
  import BarberContext
  import ManageBookings
  import Reports

  /** The form's seven text fields. */
  datatype WalkInForm = WalkInForm(
    barberId: string,
    serviceId: string,
    customerName: string,
    customerPhone: string,
    customerEmail: string,
    date: string,
    time: string)

  /** The `name` attribute of each input. */
  datatype FormField =
    BarberField | ServiceField | NameField | PhoneField | EmailField | DateField | TimeField

  /** The form as it starts and as every reset leaves it: empty, except for
      the date and time the clock gives (`today`, `now`). */
  function Blank(today: string, now: string): WalkInForm
  {
    WalkInForm("", "", "", "", "", today, now)
  }

  function Field(f: WalkInForm, k: FormField): string
  {
    match k
    case BarberField => f.barberId
    case ServiceField => f.serviceId
    case NameField => f.customerName
    case PhoneField => f.customerPhone
    case EmailField => f.customerEmail
    case DateField => f.date
    case TimeField => f.time
  }

  /** The change handler: the named field takes the input's value. */
  function SetField(f: WalkInForm, k: FormField, v: string): (r: WalkInForm)
    ensures Field(r, k) == v
    ensures forall other :: other != k ==> Field(r, other) == Field(f, other)
  {
    match k
    case BarberField => f.(barberId := v)
    case ServiceField => f.(serviceId := v)
    case NameField => f.(customerName := v)
    case PhoneField => f.(customerPhone := v)
    case EmailField => f.(customerEmail := v)
    case DateField => f.(date := v)
    case TimeField => f.(time := v)
  }

  /** Every input marked `required` is non-empty; the email is not required. */
  predicate RequiredFilled(f: WalkInForm)
    ensures RequiredFilled(f) <==> forall k :: k != EmailField ==> Field(f, k) != ""
  {
    assert Field(f, BarberField) == f.barberId && Field(f, ServiceField) == f.serviceId;
    assert Field(f, NameField) == f.customerName && Field(f, PhoneField) == f.customerPhone;
    assert Field(f, DateField) == f.date && Field(f, TimeField) == f.time;
    f.barberId != "" && f.serviceId != "" && f.date != "" && f.time != ""
    && f.customerName != "" && f.customerPhone != ""
  }

  /** The browser submits the form only when the required fields are filled
      and the optional email, when given, passes the `type="email"` syntax
      check, which `emailOk` stands for. */
  predicate Submittable(f: WalkInForm, emailOk: string -> bool)
    ensures Submittable(f, emailOk) ==> RequiredFilled(f)
    ensures f.customerEmail == "" ==> (Submittable(f, emailOk) <==> RequiredFilled(f))
    ensures f.customerEmail != "" && !emailOk(f.customerEmail) ==> !Submittable(f, emailOk)
  {
    RequiredFilled(f) && (f.customerEmail == "" || emailOk(f.customerEmail))
  }

  /** The booking a submission records: exactly what was typed, completed,
      flagged as walk-in, with no price. */
  function WalkInBooking(id: string, f: WalkInForm): (r: Booking)
    ensures FormOf(r) == f && r.id == id
    ensures r.status == Some(Completed) && r.price.None? && r.isWalkIn == Some(true)
  {
    Booking(id, f.barberId, f.serviceId, f.date, f.time, f.customerName, f.customerPhone, f.customerEmail,
            Some(Completed), None, Some(true))
  }

  /** The form fields read back from a booking. */
  function FormOf(b: Booking): WalkInForm
  {
    WalkInForm(b.barberId, b.serviceId, b.customerName, b.customerPhone, b.customerEmail, b.date, b.time)
  }

  /** A walk-in is announced as one, not as a new reservation. */
  lemma WalkInAnnounced(id: string, f: WalkInForm)
    ensures BarberContext.BookingAddedMessage(WalkInBooking(id, f))
         == "Corte sin reserva registrado para " + f.customerName
  {
  }

  /** Two walk-ins recorded under the same id are the same exactly when
      their forms are. */
  lemma WalkInInjective(id: string, f: WalkInForm, g: WalkInForm)
    ensures WalkInBooking(id, f) == WalkInBooking(id, g) <==> f == g
  {
    if WalkInBooking(id, f) == WalkInBooking(id, g) {
      assert FormOf(WalkInBooking(id, f)) == FormOf(WalkInBooking(id, g));
    }
  }

  /** A recorded walk-in is listed as "Completada" and counts in every
      report whose window and barber filter it meets. */
  lemma WalkInIsReported(bookings: seq<Booking>, id: string, f: WalkInForm,
                         filter: Reports.BarberFilter, inRange: string -> bool)
    requires inRange(f.date) && (filter.AllBarbers? || filter.id == f.barberId)
    ensures ManageBookings.StatusText(WalkInBooking(id, f).status) == "Completada"
    ensures WalkInBooking(id, f) in Reports.ReportBookings(bookings + [WalkInBooking(id, f)], filter, inRange)
  {
    assert WalkInBooking(id, f) in bookings + [WalkInBooking(id, f)];
  }

  const OffGridForm: WalkInForm := WalkInForm("b1", "1", "Ana", "300", "", "2025-06-02", "09:15")

  /** No availability check applies to walk-ins: a complete form can carry a
      time that is no label of the slot template, and an empty email. */
  lemma WalkInTimeNeedNotBeASlot(emailOk: string -> bool)
    ensures Submittable(OffGridForm, emailOk) && WalkInBooking("w", OffGridForm).time == "09:15"
    ensures forall i :: 0 <= i < |MockData.TimeSlots| ==> MockData.TimeSlots[i].time != "09:15"
  {
    MockData.TemplateHalfHourSteps();
    forall i | 0 <= i < |MockData.TimeSlots| ensures MockData.TimeSlots[i].time != "09:15" {
      MockData.SpacedOffset(MockData.TimeSlots, 30, 0, i);
      assert MockData.Minutes("09:15") == 555;
    }
  }

  /** The services the service select offers: the active ones, in order. */
  function ActiveChoices(services: seq<Service>): (r: seq<Service>)
    ensures IsSubsequence(r, services)
    ensures forall s :: s in r <==> s in services && s.status == Active
    ensures forall s :: multiset(r)[s] == (if s.status == Active then multiset(services)[s] else 0)
  {
    FilterSpec(services, MockData.IsActive);
    Filter(services, MockData.IsActive)
  }

  /** With the seed list the select offers the first five services, not the
      one under maintenance. */
  lemma {:induction false} SeedChoices()
    ensures ActiveChoices(MockData.SeedServices) == MockData.SeedServices[..5]
  {
    var s := MockData.SeedServices;
    MockData.SeedServicesShape();
    assert forall i :: 0 <= i < 5 ==> MockData.IsActive(s[..5][i]);
    FilterAll(s[..5], MockData.IsActive);
    assert !MockData.IsActive(s[5..][0]);
    FilterNone(s[5..], MockData.IsActive);
    FilterAppend(s[..5], s[5..], MockData.IsActive);
    assert s[..5] + s[5..] == s;
  }

  class WalkInPanel {
    var showForm: bool
    var form: WalkInForm

    constructor (today: string, now: string)
      ensures !showForm && form == Blank(today, now)
    {
      showForm := false;
      form := Blank(today, now);
    }

    /** "Nuevo Corte": shows the form, keeping whatever it holds. */
    method Open()
      modifies this
      ensures showForm && form == old(form)
    {
      showForm := true;
    }

    method Input(k: FormField, v: string)
      modifies this
      ensures form == SetField(old(form), k, v) && showForm == old(showForm)
    {
      form := SetField(form, k, v);
    }

    /** Hides the form and resets it with the clock's current values. */
    method Cancel(today: string, now: string)
      modifies this
      ensures !showForm && form == Blank(today, now)
    {
      showForm := false;
      form := Blank(today, now);
    }

    /** Submitting a visible form that the browser accepts records the
        walk-in under `id` and resets the panel; otherwise nothing happens. */
    method Submit(store: BarberContext.BarberStore, id: string, today: string, now: string,
                  emailOk: string -> bool)
      requires store.Valid()
      modifies this, store
      ensures store.Valid()
      ensures old(showForm) && Submittable(old(form), emailOk) ==>
        store.bookings == old(store.bookings) + [WalkInBooking(id, old(form))]
        && store.barbers == old(store.barbers)
        && store.notifications == old(store.notifications)
             + [BarberContext.BookingAddedMessage(WalkInBooking(id, old(form)))]
        && store.pendingExpiries == old(store.pendingExpiries) + 1
        && !showForm && form == Blank(today, now)
      ensures !(old(showForm) && Submittable(old(form), emailOk)) ==>
        unchanged(store) && showForm == old(showForm) && form == old(form)
    {
      if showForm && Submittable(form, emailOk) {
        store.AddBooking(WalkInBooking(id, form));
        Cancel(today, now);
      }
    }
  }
}
