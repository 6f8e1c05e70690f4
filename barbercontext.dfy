/** The barber store (project/src/context/BarberContext.tsx): the barbers,
    the bookings and the notification queue, with the operations the screens
    call on them. Every collection is replaced wholesale by an append, a
    replace-by-id `map` or a remove-by-id `filter`. */
module BarberContext {
  import opened Seqs
  import opened Types

  function HasBarberId(id: string): Barber -> bool { (b: Barber) => b.id == id }
  function OtherBarberId(id: string): Barber -> bool { (b: Barber) => b.id != id }
  function HasBookingId(id: string): Booking -> bool { (b: Booking) => b.id == id }
  function OtherBookingId(id: string): Booking -> bool { (b: Booking) => b.id != id }
  function Always<T>(x: T): T -> T { _ => x }
  function WithStatus(status: BookingStatus): Booking -> Booking { (b: Booking) => b.(status := Some(status)) }

  /** Every barber with the given barber's id is replaced by it. */
  function ReplaceBarber(s: seq<Barber>, barber: Barber): (r: seq<Barber>)
    ensures |r| == |s|
    ensures forall i :: 0 <= i < |s| ==> r[i] == if s[i].id == barber.id then barber else s[i]
  {
    MapIfAt(s, HasBarberId(barber.id), Always(barber));
    MapIf(s, HasBarberId(barber.id), Always(barber))
  }

  /** The barbers whose id differs from `id`. */
  function RemoveBarber(s: seq<Barber>, id: string): (r: seq<Barber>)
    ensures IsSubsequence(r, s)
    ensures forall b :: b in r <==> b in s && b.id != id
    ensures forall b :: multiset(r)[b] == if b.id != id then multiset(s)[b] else 0
  {
    FilterSpec(s, OtherBarberId(id));
    Filter(s, OtherBarberId(id))
  }

  /** Every booking with that id gets the new status. */
  function SetStatus(s: seq<Booking>, id: string, status: BookingStatus): (r: seq<Booking>)
    ensures |r| == |s|
    ensures forall i :: 0 <= i < |s| ==>
      r[i] == if s[i].id == id then s[i].(status := Some(status)) else s[i]
  {
    MapIfAt(s, HasBookingId(id), WithStatus(status));
    MapIf(s, HasBookingId(id), WithStatus(status))
  }

  /** The bookings whose id differs from `id`. */
  function RemoveBooking(s: seq<Booking>, id: string): (r: seq<Booking>)
    ensures IsSubsequence(r, s)
    ensures forall b :: b in r <==> b in s && b.id != id
    ensures forall b :: multiset(r)[b] == if b.id != id then multiset(s)[b] else 0
  {
    FilterSpec(s, OtherBookingId(id));
    Filter(s, OtherBookingId(id))
  }

  function BarberAddedMessage(name: string): string { "Nuevo barbero agregado: " + name }
  function BarberUpdatedMessage(name: string): string { "Barbero actualizado: " + name }
  function BarberDeletedMessage(name: string): string { "Barbero eliminado: " + name }

  /** The text posted for a new booking depends only on its walk-in flag. */
  function BookingAddedMessage(b: Booking): string
  {
    if b.isWalkIn == Some(true) then "Corte sin reserva registrado para " + b.customerName
    else "Nueva reserva para " + b.customerName
  }

  function StatusMessage(customer: string, status: BookingStatus): string
  {
    "Reserva de " + customer + " marcada como " + StatusName(status)
  }

  function BookingDeletedMessage(customer: string): string { "Reserva eliminada para " + customer }

  /** Setting the same status twice is setting it once. */
  lemma SetStatusIdempotent(s: seq<Booking>, id: string, status: BookingStatus)
    ensures SetStatus(SetStatus(s, id, status), id, status) == SetStatus(s, id, status)
  {
    MapIfTwice(s, HasBookingId(id), WithStatus(status));
  }

  /** A status change never moves a booking: barber, date, time, customer,
      service and the price snapshot of every booking stay as they were. */
  lemma SetStatusKeepsEverythingButStatus(s: seq<Booking>, id: string, status: BookingStatus, i: int)
    requires 0 <= i < |s|
    ensures SetStatus(s, id, status)[i].(status := s[i].status) == s[i]
    ensures SetStatus(s, id, status)[i].status == if s[i].id == id then Some(status) else s[i].status
  {
  }

  /** The one-booking-per-barber-date-time rule that the slot picker of the
      booking modal (BookingModal.tsx:46-59) is meant to enforce and the
      store itself does not check: no two bookings that are not cancelled
      share barber, date and time. */
  ghost predicate NoDoubleBooking(s: seq<Booking>)
  {
    forall i, j :: 0 <= i < j < |s| && s[i].status != Some(Cancelled) && s[j].status != Some(Cancelled)
      ==> !(s[i].barberId == s[j].barberId && s[i].date == s[j].date && s[i].time == s[j].time)
  }

  function SampleBooking(id: string, status: BookingStatus): Booking
  {
    Booking(id, "b1", "1", "2025-06-02", "09:00", "Ana", "300", "ana@x.co", Some(status), None, Some(false))
  }

  /** Appending, as `addBooking` does, can break `NoDoubleBooking`. */
  lemma AppendCanDoubleBook()
    ensures NoDoubleBooking([SampleBooking("1", Pending)])
    ensures !NoDoubleBooking([SampleBooking("1", Pending)] + [SampleBooking("2", Pending)])
  {
    var s := [SampleBooking("1", Pending)] + [SampleBooking("2", Pending)];
    assert s[0].barberId == s[1].barberId && s[0].date == s[1].date && s[0].time == s[1].time;
  }

  /** Re-activating a cancelled booking whose slot was taken in the meantime is
      accepted by `updateBookingStatus` and breaks `NoDoubleBooking`. */
  lemma ReactivationCanDoubleBook()
    ensures NoDoubleBooking([SampleBooking("1", Cancelled), SampleBooking("2", Pending)])
    ensures !NoDoubleBooking(SetStatus([SampleBooking("1", Cancelled), SampleBooking("2", Pending)], "1", Pending))
  {
    var s := SetStatus([SampleBooking("1", Cancelled), SampleBooking("2", Pending)], "1", Pending);
    assert s[0] == SampleBooking("1", Pending);
    assert s[1] == SampleBooking("2", Pending);
  }

  class BarberStore {
    var barbers: seq<Barber>
    var bookings: seq<Booking>
    var notifications: seq<string>
    /** Expiry timers started by `Post` that have not fired yet. */
    var pendingExpiries: nat

    /** Every queued message still has a timer that will remove a message. */
    ghost predicate Valid()
      reads this
    {
      |notifications| <= pendingExpiries
    }

    /** Initial load: a missing or unparsable saved list yields an empty one. */
    constructor (savedBarbers: Saved<seq<Barber>>, savedBookings: Saved<seq<Booking>>)
      ensures Valid()
      ensures barbers == LoadOr(savedBarbers, []) && bookings == LoadOr(savedBookings, [])
      ensures notifications == [] && pendingExpiries == 0
    {
      barbers := LoadOr(savedBarbers, []);
      bookings := LoadOr(savedBookings, []);
      notifications := [];
      pendingExpiries := 0;
    }

    /** `addNotification`: the message joins the tail of the queue and one
        more expiry timer is started. */
    method Post(message: string)
      requires Valid()
      modifies this
      ensures Valid()
      ensures notifications == old(notifications) + [message]
      ensures pendingExpiries == old(pendingExpiries) + 1
      ensures barbers == old(barbers) && bookings == old(bookings)
    {
      notifications := notifications + [message];
      pendingExpiries := pendingExpiries + 1;
    }

    /** One expiry timer fires: the oldest message leaves the queue; an empty
        queue stays empty. */
    method Expire()
      requires Valid() && pendingExpiries > 0
      modifies this
      ensures Valid()
      ensures old(notifications) != [] ==> notifications == old(notifications)[1..]
      ensures old(notifications) == [] ==> notifications == []
      ensures pendingExpiries == old(pendingExpiries) - 1
      ensures barbers == old(barbers) && bookings == old(bookings)
    {
      if notifications != [] {
        notifications := notifications[1..];
      }
      pendingExpiries := pendingExpiries - 1;
    }

    /** `clearNotifications` empties the queue; the timers already started keep
        running. */
    method ClearNotifications()
      requires Valid()
      modifies this
      ensures Valid()
      ensures notifications == [] && pendingExpiries == old(pendingExpiries)
      ensures barbers == old(barbers) && bookings == old(bookings)
    {
      notifications := [];
    }

    /** Appends the barber at the end, with no duplicate-id check. */
    method AddBarber(barber: Barber)
      requires Valid()
      modifies this
      ensures Valid()
      ensures barbers == old(barbers) + [barber]
      ensures bookings == old(bookings)
      ensures notifications == old(notifications) + [BarberAddedMessage(barber.name)]
      ensures pendingExpiries == old(pendingExpiries) + 1
    {
      barbers := barbers + [barber];
      Post(BarberAddedMessage(barber.name));
    }

    /** Replaces every barber with the same id; posts a message even when no
        barber has that id. */
    method UpdateBarber(barber: Barber)
      requires Valid()
      modifies this
      ensures Valid()
      ensures barbers == ReplaceBarber(old(barbers), barber)
      ensures bookings == old(bookings)
      ensures notifications == old(notifications) + [BarberUpdatedMessage(barber.name)]
      ensures pendingExpiries == old(pendingExpiries) + 1
    {
      barbers := ReplaceBarber(barbers, barber);
      Post(BarberUpdatedMessage(barber.name));
    }

    /** Removes the barbers with that id and keeps the bookings that name
        them; posts the first such barber's name only if there was one. */
    method DeleteBarber(id: string)
      requires Valid()
      modifies this
      ensures Valid()
      ensures barbers == RemoveBarber(old(barbers), id)
      ensures bookings == old(bookings)
      ensures match Find(old(barbers), HasBarberId(id))
        case Some(b) =>
          notifications == old(notifications) + [BarberDeletedMessage(b.name)]
          && pendingExpiries == old(pendingExpiries) + 1
        case None =>
          notifications == old(notifications) && pendingExpiries == old(pendingExpiries)
    {
      var found := Find(barbers, HasBarberId(id));
      barbers := RemoveBarber(barbers, id);
      if found.Some? {
        Post(BarberDeletedMessage(found.value.name));
      }
    }

    /** Appends the booking unconditionally: no slot-conflict check. */
    method AddBooking(booking: Booking)
      requires Valid()
      modifies this
      ensures Valid()
      ensures bookings == old(bookings) + [booking]
      ensures barbers == old(barbers)
      ensures notifications == old(notifications) + [BookingAddedMessage(booking)]
      ensures pendingExpiries == old(pendingExpiries) + 1
    {
      bookings := bookings + [booking];
      Post(BookingAddedMessage(booking));
    }

    /** Sets the status of the bookings with that id and nothing else; posts a
        message only if such a booking exists. */
    method UpdateBookingStatus(id: string, status: BookingStatus)
      requires Valid()
      modifies this
      ensures Valid()
      ensures bookings == SetStatus(old(bookings), id, status)
      ensures barbers == old(barbers)
      ensures match Find(old(bookings), HasBookingId(id))
        case Some(b) =>
          notifications == old(notifications) + [StatusMessage(b.customerName, status)]
          && pendingExpiries == old(pendingExpiries) + 1
        case None =>
          notifications == old(notifications) && pendingExpiries == old(pendingExpiries)
    {
      var found := Find(bookings, HasBookingId(id));
      bookings := SetStatus(bookings, id, status);
      if found.Some? {
        Post(StatusMessage(found.value.customerName, status));
      }
    }

    /** Removes the bookings with that id, keeping the others in order; posts
        a message if and only if one existed. */
    method DeleteBooking(id: string)
      requires Valid()
      modifies this
      ensures Valid()
      ensures bookings == RemoveBooking(old(bookings), id)
      ensures barbers == old(barbers)
      ensures match Find(old(bookings), HasBookingId(id))
        case Some(b) =>
          notifications == old(notifications) + [BookingDeletedMessage(b.customerName)]
          && pendingExpiries == old(pendingExpiries) + 1
        case None =>
          notifications == old(notifications) && pendingExpiries == old(pendingExpiries)
    {
      var found := Find(bookings, HasBookingId(id));
      bookings := RemoveBooking(bookings, id);
      if found.Some? {
        Post(BookingDeletedMessage(found.value.customerName));
      }
    }
  }

  /** Two messages posted in a row: the first timer to fire removes the
      older one. */
  method ExpiryIsFifo(a: string, b: string) returns (shown: seq<string>)
    ensures shown == [b]
  {
    var store := new BarberStore(Missing, Missing);
    store.Post(a);
    store.Post(b);
    store.Expire();
    shown := store.notifications;
  }

  /** `clearNotifications` does not cancel the running timers: the timer of a
      message cleared away removes the next message posted, early. */
  method ClearKeepsTimers(a: string, b: string) returns (shown: seq<string>)
    ensures shown == []
  {
    var store := new BarberStore(Missing, Missing);
    store.Post(a);
    store.ClearNotifications();
    store.Post(b);
    store.Expire();
    shown := store.notifications;
  }

  /** Deleting a barber leaves the bookings that name them retrievable. */
  method DeleteBarberKeepsBookings(barber: Barber, booking: Booking) returns (kept: seq<Booking>)
    requires booking.barberId == barber.id
    ensures kept == [booking]
  {
    var store := new BarberStore(Parsed([barber]), Parsed([booking]));
    store.DeleteBarber(barber.id);
    kept := store.bookings;
  }
}
