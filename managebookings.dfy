/** The admin booking list (project/src/components/admin/ManageBookings.tsx):
    search and status filtering, the status counters and the status labels;
    the row buttons delegate to the barber store. */
module ManageBookings {
  import opened Seqs
  import opened Types
  import opened Text
  import BarberContext

  /** The status select: "all" or one status. */
  datatype StatusFilter = AllStatuses | OnlyStatus(status: BookingStatus)

  /** Name and email match the term ignoring case; the phone must contain the
      term exactly as typed. */
  predicate MatchesSearch(b: Booking, term: string)
    ensures term == "" ==> MatchesSearch(b, term)
    ensures MatchesSearch(b, term) ==>
      |term| <= |b.customerName| || |term| <= |b.customerPhone| || |term| <= |b.customerEmail|
  {
    ContainsEmpty(Lower(b.customerName));
    ContainsLength(Lower(b.customerName), Lower(term));
    ContainsLength(b.customerPhone, term);
    ContainsLength(Lower(b.customerEmail), Lower(term));
    Contains(Lower(b.customerName), Lower(term))
    || Contains(b.customerPhone, term)
    || Contains(Lower(b.customerEmail), Lower(term))
  }

  /** "all" keeps everything; a status keeps the bookings that carry exactly
      that status, so a booking without status is kept by no status. */
  predicate MatchesStatus(b: Booking, f: StatusFilter)
  {
    f.AllStatuses? || b.status == Some(f.status)
  }

  function ListRule(term: string, f: StatusFilter): Booking -> bool
  {
    (b: Booking) => MatchesSearch(b, term) && MatchesStatus(b, f)
  }

  /** The bookings the list shows. */
  function FilteredBookings(s: seq<Booking>, term: string, f: StatusFilter): (r: seq<Booking>)
    ensures IsSubsequence(r, s)
    ensures forall b :: b in r <==> b in s && MatchesSearch(b, term) && MatchesStatus(b, f)
    ensures forall b :: multiset(r)[b] == (if MatchesSearch(b, term) && MatchesStatus(b, f) then multiset(s)[b] else 0)
  {
    FilterSpec(s, ListRule(term, f));
    Filter(s, ListRule(term, f))
  }

  /** The initial screen, empty search and "all", lists every booking in
      store order. */
  lemma {:induction false} EmptySearchShowsAll(s: seq<Booking>)
    ensures FilteredBookings(s, "", AllStatuses) == s
  {
    FilterAll(s, ListRule("", AllStatuses));
  }

  /** Narrowing by status after searching is the same as filtering once on
      both conditions. */
  lemma StatusFilterNarrows(s: seq<Booking>, term: string, st: BookingStatus)
    ensures Filter(FilteredBookings(s, term, AllStatuses), ListRule(term, OnlyStatus(st)))
         == FilteredBookings(s, term, OnlyStatus(st))
  {
    FilterFilter(s, ListRule(term, AllStatuses), ListRule(term, OnlyStatus(st)));
  }

  /** Changing the term only in the case of ASCII letters keeps a match made
      through the name or the email. */
  lemma NameAndEmailIgnoreCase(b: Booking, t1: string, t2: string)
    requires SameIgnoringCase(t1, t2)
    requires MatchesSearch(b, t1) && !Contains(b.customerPhone, t1)
    ensures MatchesSearch(b, t2)
  {
  }

  const PhoneSample: Booking :=
    Booking("p", "b1", "1", "2025-06-02", "09:00", "Ana", "EXT12", "a@x.co", Some(Pending), None, None)

  /** The phone comparison does not fold case: "EXT" finds the booking and
      "ext" does not. */
  lemma PhoneSearchIsCaseSensitive()
    ensures MatchesSearch(PhoneSample, "EXT")
    ensures !MatchesSearch(PhoneSample, "ext")
    ensures SameIgnoringCase("EXT", "ext")
  {
    assert OccursAt(PhoneSample.customerPhone, "EXT", 0);
    var ext := Lower("ext");
    assert ext == "ext";
    assert Lower("EXT") == ext;
    assert Lower("Ana") == "ana";
    assert Lower("a@x.co") == "a@x.co";
    FirstCharAbsent("ana", ext);
    FirstCharAbsent("EXT12", "ext");
    FirstCharAbsent("a@x.co", ext);
  }

  function HasStatus(st: BookingStatus): Booking -> bool { (b: Booking) => b.status == Some(st) }
  function WithoutStatus(): Booking -> bool { (b: Booking) => b.status.None? }

  /** The three counters above the list. */
  function CompletedCount(s: seq<Booking>): (n: nat)
    ensures n <= |s|
    ensures n == 0 <==> forall i :: 0 <= i < |s| ==> s[i].status != Some(Completed)
  {
    CountZero(s, HasStatus(Completed));
    Count(s, HasStatus(Completed))
  }

  function PendingCount(s: seq<Booking>): (n: nat)
    ensures n <= |s|
    ensures n == 0 <==> forall i :: 0 <= i < |s| ==> s[i].status != Some(Pending)
  {
    CountZero(s, HasStatus(Pending));
    Count(s, HasStatus(Pending))
  }

  function CancelledCount(s: seq<Booking>): (n: nat)
    ensures n <= |s|
    ensures n == 0 <==> forall i :: 0 <= i < |s| ==> s[i].status != Some(Cancelled)
  {
    CountZero(s, HasStatus(Cancelled));
    Count(s, HasStatus(Cancelled))
  }

  /** Every booking is counted in exactly one of the three counters or has
      no status. */
  lemma {:induction false} StatusCountsPartition(s: seq<Booking>)
    ensures CompletedCount(s) + PendingCount(s) + CancelledCount(s) + Count(s, WithoutStatus()) == |s|
  {
    if s != [] {
      StatusCountsPartition(s[1..]);
      CountUnfold(s, HasStatus(Completed));
      CountUnfold(s, HasStatus(Pending));
      CountUnfold(s, HasStatus(Cancelled));
      CountUnfold(s, WithoutStatus());
      assert CompletedCount(s) == (if s[0].status == Some(Completed) then 1 else 0) + CompletedCount(s[1..]);
      assert PendingCount(s) == (if s[0].status == Some(Pending) then 1 else 0) + PendingCount(s[1..]);
      assert CancelledCount(s) == (if s[0].status == Some(Cancelled) then 1 else 0) + CancelledCount(s[1..]);
      assert Count(s, WithoutStatus()) == (if s[0].status.None? then 1 else 0) + Count(s[1..], WithoutStatus());
      assert s[0].status.None? || s[0].status.value.Pending? || s[0].status.value.Completed?
        || s[0].status.value.Cancelled?;
    }
  }

  /** The counters add up to the total exactly when every booking has a
      status; each is at most the total. */
  lemma CountersSumToTotal(s: seq<Booking>)
    ensures CompletedCount(s) <= |s| && PendingCount(s) <= |s| && CancelledCount(s) <= |s|
    ensures CompletedCount(s) + PendingCount(s) + CancelledCount(s) == |s|
        <==> forall i :: 0 <= i < |s| ==> s[i].status.Some?
  {
    StatusCountsPartition(s);
    FilterNone(s, WithoutStatus());
  }

  /** The label of a booking status; a missing status reads as pending. */
  function StatusText(st: Option<BookingStatus>): (r: string)
    ensures r in {"Completada", "Cancelada", "Pendiente"}
  {
    match st
    case Some(Completed) => "Completada"
    case Some(Cancelled) => "Cancelada"
    case _ => "Pendiente"
  }

  /** Only completed bookings read "Completada", only cancelled ones
      "Cancelada"; pending and status-less bookings share "Pendiente". */
  lemma StatusTextCases(st: Option<BookingStatus>)
    ensures StatusText(st) == "Completada" <==> st == Some(Completed)
    ensures StatusText(st) == "Cancelada" <==> st == Some(Cancelled)
    ensures StatusText(st) == "Pendiente" <==> st == Some(Pending) || st.None?
  {
  }

  /** A booking made in the customer modal has no status: it is labelled
      "Pendiente" but the "pending" filter does not show it, nor does the
      pending counter count it. */
  lemma StatuslessBookingLooksPendingButIsNot(s: seq<Booking>, b: Booking, term: string)
    requires b.status.None?
    ensures StatusText(b.status) == "Pendiente"
    ensures b !in FilteredBookings(s, term, OnlyStatus(Pending))
    ensures PendingCount(s + [b]) == PendingCount(s)
  {
    CountAppend(s, [b], HasStatus(Pending));
    assert Filter([b], HasStatus(Pending)) == [];
  }

  /** The delete button removes the booking only when the browser's
      confirmation dialog is accepted (`confirmed`). */
  method DeleteWithConfirmation(store: BarberContext.BarberStore, id: string, confirmed: bool)
    requires store.Valid()
    modifies store
    ensures store.Valid()
    ensures confirmed ==> store.bookings == BarberContext.RemoveBooking(old(store.bookings), id)
    ensures confirmed ==> store.barbers == old(store.barbers)
    ensures confirmed ==> match Find(old(store.bookings), BarberContext.HasBookingId(id))
      case Some(b) =>
        store.notifications == old(store.notifications) + [BarberContext.BookingDeletedMessage(b.customerName)]
        && store.pendingExpiries == old(store.pendingExpiries) + 1
      case None =>
        store.notifications == old(store.notifications) && store.pendingExpiries == old(store.pendingExpiries)
    ensures !confirmed ==> unchanged(store)
  {
    if confirmed {
      store.DeleteBooking(id);
    }
  }
}
