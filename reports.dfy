/** The reports screen (project/src/components/admin/Reports.tsx): the
    completed bookings in the chosen window, their revenue, the per-barber
    ranking, the per-weekday tally and the per-service revenue. */
module Reports {
  import opened Seqs
  import opened Types

  /** The barber select: "all" or one barber id. */
  datatype BarberFilter = AllBarbers | OnlyBarber(id: string)

  /** The date window ("last N days" against the clock) is the predicate
      `inRange` on a booking's date. */
  predicate Reported(b: Booking, f: BarberFilter, inRange: string -> bool)
  {
    inRange(b.date) && (f.AllBarbers? || b.barberId == f.id) && b.status == Some(Completed)
  }

  function ReportRule(f: BarberFilter, inRange: string -> bool): Booking -> bool
  {
    (b: Booking) => Reported(b, f, inRange)
  }

  function ReportBookings(bookings: seq<Booking>, f: BarberFilter, inRange: string -> bool): (r: seq<Booking>)
    ensures IsSubsequence(r, bookings)
    ensures forall b :: b in r <==> (b in bookings && inRange(b.date)
      && (f.AllBarbers? || b.barberId == f.id) && b.status == Some(Completed))
    ensures forall b :: multiset(r)[b] == (if Reported(b, f, inRange) then multiset(bookings)[b] else 0)
  {
    FilterSpec(bookings, ReportRule(f, inRange));
    Filter(bookings, ReportRule(f, inRange))
  }

  /** Bookings from the customer modal carry no status and so never reach a
      report until an admin marks them completed. */
  lemma StatuslessNeverReported(bookings: seq<Booking>, f: BarberFilter, inRange: string -> bool, b: Booking)
    requires b.status.None?
    ensures b !in ReportBookings(bookings, f, inRange)
  {
  }

  function HasServiceId(id: string): Service -> bool { (s: Service) => s.id == id }

  /** The price the lookup table built with `Object.fromEntries` gives: the
      last service with that id wins, and a missing service counts 0. */
  function PriceOf(services: seq<Service>, serviceId: string): (r: int)
    ensures (forall j :: 0 <= j < |services| ==> services[j].id != serviceId) ==> r == 0
    ensures (exists j :: 0 <= j < |services| && services[j].id == serviceId) ==>
      exists j :: 0 <= j < |services| && services[j].id == serviceId && r == services[j].price
        && forall k :: j < k < |services| ==> services[k].id != serviceId
  {
    match FindLast(services, HasServiceId(serviceId))
    case Some(s) =>
      var j :| 0 <= j < |services| && services[j] == s && forall k :: j < k < |services| ==> !HasServiceId(serviceId)(services[k]);
      assert services[j].id == serviceId && s.price == services[j].price;
      s.price
    case None => 0
  }

  /** With several services under one id, the lookup gives the price of the
      last one. */
  lemma PriceOfLast(services: seq<Service>, id: string, i: nat)
    requires i < |services| && services[i].id == id
    requires forall j :: i < j < |services| ==> services[j].id != id
    ensures PriceOf(services, id) == services[i].price
  {
    FindLastIsLast(services, HasServiceId(id), i);
  }

  /** When only one service has the id, the lookup gives its price. */
  lemma PriceOfUnique(services: seq<Service>, i: nat)
    requires i < |services|
    requires forall j :: 0 <= j < |services| && j != i ==> services[j].id != services[i].id
    ensures PriceOf(services, services[i].id) == services[i].price
  {
    FindLastIsLast(services, HasServiceId(services[i].id), i);
  }

  /** The sum, over the bookings, of the looked-up price of each one's service. */
  function Revenue(bookings: seq<Booking>, services: seq<Service>): (r: int)
    ensures (forall j :: 0 <= j < |services| ==> services[j].price >= 0) ==> r >= 0
  {
    if bookings == [] then 0
    else Revenue(bookings[..|bookings| - 1], services) + PriceOf(services, bookings[|bookings| - 1].serviceId)
  }

  lemma {:induction false} RevenueAppend(a: seq<Booking>, b: seq<Booking>, services: seq<Service>)
    ensures Revenue(a + b, services) == Revenue(a, services) + Revenue(b, services)
    decreases |b|
  {
    if b == [] {
      assert a + b == a;
    } else {
      var b' := b[..|b| - 1];
      assert (a + b)[..|a + b| - 1] == a + b';
      RevenueAppend(a, b', services);
    }
  }

  function ByBarber(id: string): Booking -> bool { (b: Booking) => b.barberId == id }
  function NotByBarber(id: string): Booking -> bool { (b: Booking) => b.barberId != id }

  /** A barber with the number and revenue of their filtered bookings. */
  datatype BarberStat = BarberStat(barber: Barber, bookings: nat, revenue: int)

  function StatOf(filtered: seq<Booking>, services: seq<Service>): (r: Barber -> BarberStat)
    ensures forall b :: r(b).barber == b && r(b).bookings <= |filtered|
    ensures forall b :: r(b).bookings == 0 <==> forall k :: 0 <= k < |filtered| ==> filtered[k].barberId != b.id
  {
    assert forall b: Barber :: (Count(filtered, ByBarber(b.id)) == 0
        <==> forall k :: 0 <= k < |filtered| ==> filtered[k].barberId != b.id) by {
      forall b: Barber
        ensures Count(filtered, ByBarber(b.id)) == 0
            <==> forall k :: 0 <= k < |filtered| ==> filtered[k].barberId != b.id
      {
        CountZero(filtered, ByBarber(b.id));
      }
    }
    (barber: Barber) => BarberStat(barber, Count(filtered, ByBarber(barber.id)),
                                   Revenue(Filter(filtered, ByBarber(barber.id)), services))
  }

  predicate NonIncreasing(s: seq<BarberStat>)
  {
    forall i, j :: 0 <= i < j < |s| ==> s[i].bookings >= s[j].bookings
  }

  /** In a non-increasing list no entry has more bookings than the first. */
  lemma HeadBounds(s: seq<BarberStat>)
    requires NonIncreasing(s) && s != []
    ensures forall y :: y in s ==> y.bookings <= s[0].bookings
    ensures forall y :: y in s[1..] ==> y.bookings <= s[0].bookings
  {
    forall y | y in s ensures y.bookings <= s[0].bookings {
      var k :| 0 <= k < |s| && s[k] == y;
    }
    forall y | y in s[1..] ensures y in s {
      var k :| 0 <= k < |s[1..]| && s[1..][k] == y;
      assert s[k + 1] == y;
    }
  }

  /** A bound on every entry of `u` and on `x` bounds every entry of a list
      holding exactly those. */
  lemma BoundedByMultiset(t: seq<BarberStat>, u: seq<BarberStat>, x: BarberStat, bound: int)
    requires multiset(t) == multiset(u) + multiset{x}
    requires forall y :: y in u ==> y.bookings <= bound
    requires x.bookings <= bound
    ensures forall y :: y in t ==> y.bookings <= bound
  {
    forall y | y in t ensures y.bookings <= bound {
      assert y in multiset(t);
      if y != x {
        assert y in multiset(u);
      }
    }
  }

  /** An entry with at least as many bookings as every entry of a
      non-increasing list can go in front of it. */
  lemma ConsNonIncreasing(h: BarberStat, t: seq<BarberStat>)
    requires NonIncreasing(t)
    requires forall y :: y in t ==> y.bookings <= h.bookings
    ensures NonIncreasing([h] + t)
  {
    forall i, j | 0 <= i < j < |[h] + t|
      ensures ([h] + t)[i].bookings >= ([h] + t)[j].bookings
    {
      assert ([h] + t)[j] == t[j - 1];
      if i == 0 {
        assert t[j - 1] in t;
      } else {
        assert ([h] + t)[i] == t[i - 1];
      }
    }
  }

  /** Insert `x` before the first entry with no more bookings than it. */
  function Insert(x: BarberStat, s: seq<BarberStat>): (r: seq<BarberStat>)
    requires NonIncreasing(s)
    ensures NonIncreasing(r)
    ensures multiset(r) == multiset(s) + multiset{x}
  {
    if s == [] then [x]
    else if x.bookings >= s[0].bookings then
      HeadBounds(s);
      ConsNonIncreasing(x, s);
      [x] + s
    else
      var t := Insert(x, s[1..]);
      HeadBounds(s);
      BoundedByMultiset(t, s[1..], x, s[0].bookings);
      ConsNonIncreasing(s[0], t);
      assert s == [s[0]] + s[1..];
      [s[0]] + t
  }

  /** The ranking order: busiest barber first. */
  function SortByBookings(s: seq<BarberStat>): (r: seq<BarberStat>)
    ensures NonIncreasing(r)
    ensures multiset(r) == multiset(s)
    ensures |r| == |s|
  {
    if s == [] then []
    else
      assert s == [s[0]] + s[1..];
      Insert(s[0], SortByBookings(s[1..]))
  }

  /** The ranking: one entry per barber, each counting that barber's filtered
      bookings, busiest first. */
  function BarberStats(barbers: seq<Barber>, filtered: seq<Booking>, services: seq<Service>): (r: seq<BarberStat>)
    ensures |r| == |barbers|
    ensures NonIncreasing(r)
    ensures multiset(r) == multiset(Map(barbers, StatOf(filtered, services)))
  {
    SortByBookings(Map(barbers, StatOf(filtered, services)))
  }

  /** Every barber has its own entry, and every entry is some barber's. */
  lemma StatsCoverBarbers(barbers: seq<Barber>, filtered: seq<Booking>, services: seq<Service>)
    ensures forall i :: 0 <= i < |barbers| ==>
      BarberStat(barbers[i], Count(filtered, ByBarber(barbers[i].id)),
                 Revenue(Filter(filtered, ByBarber(barbers[i].id)), services))
      in BarberStats(barbers, filtered, services)
    ensures forall x :: x in BarberStats(barbers, filtered, services) ==>
      x.barber in barbers && x.bookings == Count(filtered, ByBarber(x.barber.id))
  {
    var m := Map(barbers, StatOf(filtered, services));
    var r := BarberStats(barbers, filtered, services);
    MapAt(barbers, StatOf(filtered, services));
    forall i | 0 <= i < |barbers|
      ensures StatOf(filtered, services)(barbers[i]) in r
    {
      assert m[i] in multiset(m);
    }
    forall x | x in r
      ensures x.barber in barbers && x.bookings == Count(filtered, ByBarber(x.barber.id))
    {
      assert x in multiset(r);
      assert x in m;
      var k :| 0 <= k < |m| && m[k] == x;
    }
  }

  function SumBookings(s: seq<BarberStat>): int
  {
    if s == [] then 0 else s[0].bookings + SumBookings(s[1..])
  }

  lemma {:induction false} SumInsert(x: BarberStat, s: seq<BarberStat>)
    requires NonIncreasing(s)
    ensures SumBookings(Insert(x, s)) == x.bookings + SumBookings(s)
  {
    if s != [] && x.bookings < s[0].bookings {
      SumInsert(x, s[1..]);
    }
  }

  lemma {:induction false} SumSorted(s: seq<BarberStat>)
    ensures SumBookings(SortByBookings(s)) == SumBookings(s)
  {
    if s != [] {
      SumSorted(s[1..]);
      SumInsert(s[0], SortByBookings(s[1..]));
    }
  }

  /** The filtered bookings whose barber is not in the list, e.g. a deleted one. */
  function Unlisted(barbers: seq<Barber>): Booking -> bool
  {
    (b: Booking) => forall x :: x in barbers ==> x.id != b.barberId
  }

  predicate DistinctIds(barbers: seq<Barber>)
  {
    forall i, j :: 0 <= i < j < |barbers| ==> barbers[i].id != barbers[j].id
  }

  function SumCounts(barbers: seq<Barber>, filtered: seq<Booking>): int
  {
    if barbers == [] then 0 else Count(filtered, ByBarber(barbers[0].id)) + SumCounts(barbers[1..], filtered)
  }

  lemma {:induction false} SumCountsOfMap(barbers: seq<Barber>, filtered: seq<Booking>, services: seq<Service>)
    ensures SumBookings(Map(barbers, StatOf(filtered, services))) == SumCounts(barbers, filtered)
  {
    if barbers != [] {
      SumCountsOfMap(barbers[1..], filtered, services);
    }
  }

  /** Dropping the bookings of a barber absent from the list changes no
      listed barber's count. */
  lemma {:induction false} SumCountsRestrict(barbers: seq<Barber>, filtered: seq<Booking>, id: string)
    requires forall x :: x in barbers ==> x.id != id
    ensures SumCounts(barbers, Filter(filtered, NotByBarber(id))) == SumCounts(barbers, filtered)
  {
    if barbers != [] {
      assert barbers[0] in barbers;
      FilterFilter(filtered, NotByBarber(id), ByBarber(barbers[0].id));
      assert forall x :: x in barbers[1..] ==> x in barbers;
      SumCountsRestrict(barbers[1..], filtered, id);
    }
  }

  lemma DistinctTail(barbers: seq<Barber>)
    requires DistinctIds(barbers) && barbers != []
    ensures DistinctIds(barbers[1..])
    ensures forall x :: x in barbers[1..] ==> x.id != barbers[0].id
  {
    var rest := barbers[1..];
    forall x | x in rest ensures x.id != barbers[0].id {
      var k :| 0 <= k < |rest| && rest[k] == x;
      assert barbers[k + 1] == x;
    }
    forall i, j | 0 <= i < j < |rest| ensures rest[i].id != rest[j].id {
      assert rest[i] == barbers[i + 1] && rest[j] == barbers[j + 1];
    }
  }

  /** Once the first barber's bookings are gone, being unlisted by the tail
      is being unlisted by the whole list. */
  lemma UnlistedAfterRemoval(barbers: seq<Barber>, filtered: seq<Booking>)
    requires barbers != []
    ensures Count(Filter(filtered, NotByBarber(barbers[0].id)), Unlisted(barbers[1..]))
         == Count(filtered, Unlisted(barbers))
  {
    var id := barbers[0].id;
    var rest := barbers[1..];
    var f' := Filter(filtered, NotByBarber(id));
    FilterSpec(filtered, NotByBarber(id));
    assert forall x :: x in barbers ==> x == barbers[0] || x in rest by {
      assert barbers == [barbers[0]] + rest;
    }
    forall i | 0 <= i < |f'| ensures Unlisted(rest)(f'[i]) == Unlisted(barbers)(f'[i]) {
      assert f'[i] in f';
    }
    FilterCongruent(f', Unlisted(rest), Unlisted(barbers));
    assert forall b :: Unlisted(barbers)(b) ==> NotByBarber(id)(b) by {
      assert barbers[0] in barbers;
    }
    FilterFilter(filtered, NotByBarber(id), Unlisted(barbers));
  }

  /** With distinct barber ids, the attributed bookings and the unlisted
      ones together are all the filtered bookings. */
  lemma {:induction false} AttributedPlusUnlisted(barbers: seq<Barber>, filtered: seq<Booking>)
    requires DistinctIds(barbers)
    ensures SumCounts(barbers, filtered) + Count(filtered, Unlisted(barbers)) == |filtered|
  {
    if barbers == [] {
      FilterAll(filtered, Unlisted(barbers));
    } else {
      var id := barbers[0].id;
      var rest := barbers[1..];
      var f' := Filter(filtered, NotByBarber(id));
      DistinctTail(barbers);
      AttributedPlusUnlisted(rest, f');
      SumCountsRestrict(rest, filtered, id);
      CountComplement(filtered, ByBarber(id), NotByBarber(id));
      UnlistedAfterRemoval(barbers, filtered);
    }
  }

  /** With distinct barber ids the ranking's counts add up to at most the
      total, and to exactly the total when no filtered booking belongs to a
      barber missing from the list. */
  lemma StatsCountsBound(barbers: seq<Barber>, filtered: seq<Booking>, services: seq<Service>)
    requires DistinctIds(barbers)
    ensures SumBookings(BarberStats(barbers, filtered, services)) <= |filtered|
    ensures SumBookings(BarberStats(barbers, filtered, services)) == |filtered|
        <==> forall i :: 0 <= i < |filtered| ==> !Unlisted(barbers)(filtered[i])
  {
    SumSorted(Map(barbers, StatOf(filtered, services)));
    SumCountsOfMap(barbers, filtered, services);
    AttributedPlusUnlisted(barbers, filtered);
    FilterNone(filtered, Unlisted(barbers));
  }

  const DuplicateA: Barber := Barber("b1", "Ana", "ana@x.co", None, "Fade", "3", "", 5.0, "300")
  const DuplicateB: Barber := Barber("b1", "Eva", "eva@x.co", None, "Barba", "2", "", 4.0, "301")
  const DuplicateBooking: Booking :=
    Booking("r", "b1", "1", "2025-06-02", "09:00", "Luis", "302", "luis@x.co", Some(Completed), None, None)

  /** Nothing stops two barbers from sharing an id; then the ranking counts
      one booking once for each of them and exceeds the total. */
  lemma DuplicateIdOvercounts()
    ensures !DistinctIds([DuplicateA, DuplicateB])
    ensures SumBookings(BarberStats([DuplicateA, DuplicateB], [DuplicateBooking], [])) == 2
    ensures |[DuplicateBooking]| == 1
  {
    var bs := [DuplicateA, DuplicateB];
    var fl := [DuplicateBooking];
    SumSorted(Map(bs, StatOf(fl, [])));
    SumCountsOfMap(bs, fl, []);
    assert Filter(fl[1..], ByBarber("b1")) == [];
    assert Count(fl, ByBarber("b1")) == 1;
    assert bs[1..][1..] == [];
    assert SumCounts(bs[1..][1..], fl) == 0;
  }

  function OnDay(weekday: string -> int, d: int): Booking -> bool
  {
    (b: Booking) => weekday(b.date) == d
  }

  /** The weekday tally: `weekday` is what `getDay()` gives in local time for
      the date parsed as midnight UTC (so west of UTC the day before the
      date's own), 0 for Sunday to 6 for Saturday; a value outside 0..6 (an
      unreadable date) lands in no day. */
  method WeekdayCounts(filtered: seq<Booking>, weekday: string -> int) returns (counts: seq<nat>)
    ensures |counts| == 7
    ensures forall d :: 0 <= d < 7 ==> counts[d] == Count(filtered, OnDay(weekday, d))
  {
    counts := [0, 0, 0, 0, 0, 0, 0];
    var i := 0;
    while i < |filtered|
      invariant 0 <= i <= |filtered| && |counts| == 7
      invariant forall d :: 0 <= d < 7 ==> counts[d] == Count(filtered[..i], OnDay(weekday, d))
    {
      var day := weekday(filtered[i].date);
      if 0 <= day < 7 {
        counts := counts[day := counts[day] + 1];
      }
      assert filtered[..i + 1] == filtered[..i] + [filtered[i]];
      forall d | 0 <= d < 7
        ensures Count(filtered[..i + 1], OnDay(weekday, d))
             == Count(filtered[..i], OnDay(weekday, d)) + (if day == d then 1 else 0)
      {
        CountAppend(filtered[..i], [filtered[i]], OnDay(weekday, d));
      }
      i := i + 1;
    }
    assert filtered[..|filtered|] == filtered;
  }

  function DaySum(s: seq<Booking>, weekday: string -> int): int
  {
    Count(s, OnDay(weekday, 0)) + Count(s, OnDay(weekday, 1)) + Count(s, OnDay(weekday, 2))
    + Count(s, OnDay(weekday, 3)) + Count(s, OnDay(weekday, 4)) + Count(s, OnDay(weekday, 5))
    + Count(s, OnDay(weekday, 6))
  }

  /** When every date has a weekday in 0..6 the seven counts add up to the
      number of filtered bookings. */
  lemma {:induction false} WeekdaysSumToTotal(s: seq<Booking>, weekday: string -> int)
    requires forall i :: 0 <= i < |s| ==> 0 <= weekday(s[i].date) < 7
    ensures DaySum(s, weekday) == |s|
  {
    if s != [] {
      WeekdaysSumToTotal(s[1..], weekday);
      CountUnfold(s, OnDay(weekday, 0));
      CountUnfold(s, OnDay(weekday, 1));
      CountUnfold(s, OnDay(weekday, 2));
      CountUnfold(s, OnDay(weekday, 3));
      CountUnfold(s, OnDay(weekday, 4));
      CountUnfold(s, OnDay(weekday, 5));
      CountUnfold(s, OnDay(weekday, 6));
      assert 0 <= weekday(s[0].date) < 7;
    }
  }

  function WithServiceId(id: string): Booking -> bool { (b: Booking) => b.serviceId == id }

  /** The service's price added once for each of its bookings. */
  function ServiceRevenue(filtered: seq<Booking>, service: Service): (r: int)
    ensures r == Count(filtered, WithServiceId(service.id)) * service.price
  {
    RepeatPriceIsProduct(Filter(filtered, WithServiceId(service.id)), service.price);
    RepeatPrice(Filter(filtered, WithServiceId(service.id)), service.price)
  }

  function RepeatPrice(bookings: seq<Booking>, price: int): int
  {
    if bookings == [] then 0 else RepeatPrice(bookings[..|bookings| - 1], price) + price
  }

  lemma {:induction false} RepeatPriceIsProduct(bookings: seq<Booking>, price: int)
    ensures RepeatPrice(bookings, price) == |bookings| * price
    decreases |bookings|
  {
    if bookings != [] {
      RepeatPriceIsProduct(bookings[..|bookings| - 1], price);
    }
  }

  /** With unique service ids the per-service figure agrees with the revenue
      the lookup table gives for the same bookings. */
  lemma {:induction false} ServiceRevenueAgreesWithLookup(filtered: seq<Booking>, services: seq<Service>, i: nat)
    requires i < |services|
    requires forall j :: 0 <= j < |services| && j != i ==> services[j].id != services[i].id
    ensures ServiceRevenue(filtered, services[i])
         == Revenue(Filter(filtered, WithServiceId(services[i].id)), services)
  {
    var bs := Filter(filtered, WithServiceId(services[i].id));
    PriceOfUnique(services, i);
    RevenueOfOneService(bs, services, services[i].id);
  }

  lemma {:induction false} RevenueOfOneService(bs: seq<Booking>, services: seq<Service>, id: string)
    requires forall b :: b in bs ==> b.serviceId == id
    ensures Revenue(bs, services) == RepeatPrice(bs, PriceOf(services, id))
    decreases |bs|
  {
    if bs != [] {
      var front := bs[..|bs| - 1];
      assert forall b :: b in front ==> b in bs;
      assert bs[|bs| - 1] in bs;
      RevenueOfOneService(front, services, id);
    }
  }
}
