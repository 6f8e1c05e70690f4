/** The records and status enumerations shared by the stores and screens
    (project/src/types/index.ts), and the load-from-storage fallback they all
    use. */
module Types {
  import opened Seqs

  /** A barber. `rating` is documented as lying between 1 and 5; nothing
      enforces it. `password` is optional. */
  datatype Barber = Barber(
    id: string,
    name: string,
    email: string,
    password: Option<string>,
    specialty: string,
    experience: string,
    image: string,
    rating: real,
    phone: string)

  datatype ServiceStatus = Active | Inactive | Maintenance

  /** A service; price and duration (minutes) are whole numbers. */
  datatype Service = Service(
    id: string,
    name: string,
    description: string,
    price: int,
    duration: int,
    image: string,
    status: ServiceStatus)

  /** One entry of the slot template; `time` is documented as "HH:MM". */
  datatype TimeSlot = TimeSlot(time: string, available: bool)

  datatype BookingStatus = Pending | Completed | Cancelled

  /** A booking. `status` is declared mandatory in the record type, but the
      booking wizard builds records without it, so here it is optional, as
      are the price snapshot and the walk-in flag. */
  datatype Booking = Booking(
    id: string,
    barberId: string,
    serviceId: string,
    date: string,
    time: string,
    customerName: string,
    customerPhone: string,
    customerEmail: string,
    status: Option<BookingStatus>,
    price: Option<int>,
    isWalkIn: Option<bool>)

  /** The status as the string literal the record stores. */
  function StatusName(s: BookingStatus): (r: string)
    ensures r in {"pending", "completed", "cancelled"}
  {
    match s
    case Pending => "pending"
    case Completed => "completed"
    case Cancelled => "cancelled"
  }

  lemma StatusNameInjective(a: BookingStatus, b: BookingStatus)
    ensures StatusName(a) == StatusName(b) <==> a == b
  {
  }

  predicate IsDigit(c: char) { '0' <= c <= '9' }

  /** The documented "HH:MM" shape of a slot time. */
  predicate IsHHMM(t: string)
  {
    |t| == 5 && IsDigit(t[0]) && IsDigit(t[1]) && t[2] == ':' && IsDigit(t[3]) && IsDigit(t[4])
  }

  predicate RatingInRange(b: Barber) { 1.0 <= b.rating <= 5.0 }

  /** What the browser's storage gave back for a key: nothing (or the empty
      string, which is just as falsy), text that failed to parse, or a parsed
      value. */
  datatype Saved<T> = Missing | Unparsable | Parsed(value: T)

  /** The saved value when there is one and it parses; the fallback when the
      key is absent or the parse throws. */
  function LoadOr<T>(saved: Saved<T>, fallback: T): (r: T)
    ensures saved.Parsed? ==> r == saved.value
    ensures !saved.Parsed? ==> r == fallback
  {
    match saved
    case Parsed(v) => v
    case _ => fallback
  }
}
