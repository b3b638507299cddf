// The in-memory demo store of the first prototype (backend/src/data/store.js):
// fixed trips and cabs, and module-level booking, payment and allocation
// lists. Random ids and QR codes and the creation timestamps are parameters.
module Store {
  import opened Wrappers
  import opened Sequences

  datatype Trip = Trip(id: string, hall: string, departureTime: string, returnTime: string, closeTime: string, fare: int, capacityPerCab: int)

  datatype Cab = Cab(id: string, registration: string, seats: int, hall: string, driver: string, passkey: string)

  datatype Booking = Booking(id: string, userId: string, hall: string, tripId: string, paymentMethod: string,
                             status: string, qr: string, amount: int, createdAt: string)

  datatype Payment = Payment(id: string, bookingId: string, amount: int, currency: string, status: string,
                             provider: string, createdAt: string)

  datatype Allocation = Allocation(cabId: string, tripId: string, hall: string, driver: string,
                                   registration: string, passkey: string, seats: int)

  /** One entry of the demand summary: the bookings of a trip from its hall. */
  datatype DemandEntry = DemandEntry(hall: string, tripId: string, students: nat)

  const SeedTrips: seq<Trip> := [
    Trip("trip-lbs-2024-08-09", "LBS Hall", "2024-08-09T11:45:00.000Z", "2024-08-09T13:30:00.000Z", "2024-08-09T14:00:00.000Z", 120, 7),
    Trip("trip-mmm-2024-08-09", "MMM Hall", "2024-08-09T12:00:00.000Z", "2024-08-09T13:30:00.000Z", "2024-08-09T14:00:00.000Z", 110, 7),
    Trip("trip-vs-2024-08-09", "VS Hall", "2024-08-09T12:15:00.000Z", "2024-08-09T13:30:00.000Z", "2024-08-09T14:00:00.000Z", 100, 7)
  ]

  const SeedCabs: seq<Cab> := [
    Cab("cab-lbs-1", "KA-01-1111", 7, "LBS Hall", "Ahmed", "1843"),
    Cab("cab-lbs-2", "KA-01-2222", 7, "LBS Hall", "Iqbal", "4920"),
    Cab("cab-mmm-1", "KA-02-3333", 7, "MMM Hall", "Sameer", "9031"),
    Cab("cab-vs-1", "KA-03-4444", 7, "VS Hall", "Rahul", "6502")
  ]

  /** JavaScript truthiness of an optional string. */
  predicate Truthy(v: Option<string>) {
    v.Some? && v.value != ""
  }

  /** `findTrip`: the first trip with the id. */
  function FindTrip(trips: seq<Trip>, tripId: string): (r: Option<Trip>)
    ensures r.Some? ==> r.value in trips && r.value.id == tripId
    ensures r.None? <==> forall k :: 0 <= k < |trips| ==> trips[k].id != tripId
  {
    if trips == [] then None
    else if trips[0].id == tripId then Some(trips[0])
    else FindTrip(trips[1..], tripId)
  }

  /** The first occurrence of each element, in order of first occurrence:
      `Array.from(new Set(xs))`. */
  function Distinct(xs: seq<string>): (r: seq<string>)
    ensures forall x :: x in r <==> x in xs
    ensures forall i, j :: 0 <= i < j < |r| ==> r[i] != r[j]
  {
    if xs == [] then []
    else
      var prev := Distinct(xs[..|xs| - 1]);
      var last := xs[|xs| - 1];
      assert xs == xs[..|xs| - 1] + [last];
      if last in prev then prev else prev + [last]
  }

  /** `getHalls`: each trip's hall exactly once. */
  function GetHalls(trips: seq<Trip>): (r: seq<string>)
    ensures forall h :: h in r <==> exists k :: 0 <= k < |trips| && trips[k].hall == h
    ensures forall i, j :: 0 <= i < j < |r| ==> r[i] != r[j]
  {
    var halls := seq(|trips|, k requires 0 <= k < |trips| => trips[k].hall);
    forall h | exists k :: 0 <= k < |trips| && trips[k].hall == h
      ensures h in halls
    {
      var k :| 0 <= k < |trips| && trips[k].hall == h;
      assert halls[k] == h;
    }
    Distinct(halls)
  }

  /** `hydrateTripsFromEnv`: with neither time supplied the trips are returned
      as they are; otherwise every trip takes each supplied time and keeps
      everything else. */
  function HydrateTripsFromEnv(trips: seq<Trip>, returnTime: Option<string>, closeTime: Option<string>): (r: seq<Trip>)
    ensures !Truthy(returnTime) && !Truthy(closeTime) ==> r == trips
    ensures |r| == |trips|
    ensures forall k :: 0 <= k < |r| ==>
      && r[k].(returnTime := trips[k].returnTime, closeTime := trips[k].closeTime) == trips[k]
      && r[k].returnTime == (if Truthy(returnTime) then returnTime.value else trips[k].returnTime)
      && r[k].closeTime == (if Truthy(closeTime) then closeTime.value else trips[k].closeTime)
  {
    if !Truthy(returnTime) && !Truthy(closeTime) then trips
    else
      seq(|trips|, k requires 0 <= k < |trips| =>
        trips[k].(returnTime := if Truthy(returnTime) then returnTime.value else trips[k].returnTime,
                  closeTime := if Truthy(closeTime) then closeTime.value else trips[k].closeTime))
  }

  function OfUser(userId: string): Booking -> bool {
    (b: Booking) => b.userId == userId
  }

  /** `getBookingsForUser`: that user's bookings, in the order they were made. */
  function BookingsForUser(bookings: seq<Booking>, userId: string): (r: seq<Booking>)
    ensures forall b :: b in r <==> b in bookings && b.userId == userId
  {
    forall b
      ensures b in Filter(bookings, OfUser(userId)) <==> b in bookings && b.userId == userId
    {
      FilterMember(bookings, OfUser(userId), b);
    }
    Filter(bookings, OfUser(userId))
  }

  /** A new booking shows up at the end of its user's list and nowhere else. */
  lemma BookingsForUserAppend(bookings: seq<Booking>, b: Booking, userId: string)
    ensures BookingsForUser(bookings + [b], userId)
      == BookingsForUser(bookings, userId) + (if b.userId == userId then [b] else [])
  {
    FilterAppend(bookings, [b], OfUser(userId));
    assert Filter([b], OfUser(userId)) == Filter([], OfUser(userId)) + (if b.userId == userId then [b] else []);
  }

  /** The index of the first booking with the id: `getBooking`. */
  function FindBooking(bookings: seq<Booking>, bookingId: string): (r: Option<nat>)
    ensures r.Some? ==> r.value < |bookings| && bookings[r.value].id == bookingId
    ensures r.Some? ==> forall k :: 0 <= k < r.value ==> bookings[k].id != bookingId
    ensures r.None? <==> forall k :: 0 <= k < |bookings| ==> bookings[k].id != bookingId
  {
    if bookings == [] then None
    else if bookings[0].id == bookingId then Some(0)
    else
      var rest := FindBooking(bookings[1..], bookingId);
      if rest.Some? then Some(rest.value + 1) else None
  }

  /** The bookings after `recordPayment`: the booking the payment references,
      if there is one, is marked paid. */
  function MarkPaid(bookings: seq<Booking>, bookingId: string): (r: seq<Booking>)
    ensures |r| == |bookings|
    ensures FindBooking(bookings, bookingId).None? ==> r == bookings
    ensures FindBooking(bookings, bookingId).Some? ==>
      var k := FindBooking(bookings, bookingId).value;
      && r[k] == bookings[k].(status := "paid")
      && forall j :: 0 <= j < |r| && j != k ==> r[j] == bookings[j]
  {
    var k := FindBooking(bookings, bookingId);
    if k.Some? then bookings[k.value := bookings[k.value].(status := "paid")] else bookings
  }

  // ---------------------------------------------------------------------
  // summarizeDemand
  // ---------------------------------------------------------------------

  /** The summary's map key. */
  function DemandKey(hall: string, tripId: string): string {
    hall + "-" + tripId
  }

  function EntryKey(e: DemandEntry): string {
    DemandKey(e.hall, e.tripId)
  }

  /** The index of the entry with the key, if any. */
  function EntryIndex(entries: seq<DemandEntry>, key: string): (r: Option<nat>)
    ensures r.Some? ==> r.value < |entries| && EntryKey(entries[r.value]) == key
    ensures r.None? <==> forall k :: 0 <= k < |entries| ==> EntryKey(entries[k]) != key
  {
    if entries == [] then None
    else if EntryKey(entries[0]) == key then Some(0)
    else
      var rest := EntryIndex(entries[1..], key);
      if rest.Some? then Some(rest.value + 1) else None
  }

  /** Counting one booking of `trip`: its entry's count goes up, or a new
      entry with count 1 is added at the end. */
  function CountBooking(entries: seq<DemandEntry>, trip: Trip): seq<DemandEntry> {
    var i := EntryIndex(entries, DemandKey(trip.hall, trip.id));
    if i.Some? then entries[i.value := entries[i.value].(students := entries[i.value].students + 1)]
    else entries + [DemandEntry(trip.hall, trip.id, 1)]
  }

  predicate KnownTrips(trips: seq<Trip>, bookings: seq<Booking>) {
    forall k :: 0 <= k < |bookings| ==> FindTrip(trips, bookings[k].tripId).Some?
  }

  /** The trip of each booking, as `findTrip` finds it. */
  function BookingTrips(trips: seq<Trip>, bookings: seq<Booking>): (r: seq<Trip>)
    requires KnownTrips(trips, bookings)
    ensures |r| == |bookings|
    ensures forall k :: 0 <= k < |r| ==> r[k] == FindTrip(trips, bookings[k].tripId).value
  {
    seq(|bookings|, k requires 0 <= k < |bookings| => FindTrip(trips, bookings[k].tripId).value)
  }

  /** The demand summary of bookings of the trips `ts`, in order of first
      occurrence: `summarizeDemand`. */
  function Summary(ts: seq<Trip>): seq<DemandEntry> {
    if ts == [] then [] else CountBooking(Summary(ts[..|ts| - 1]), ts[|ts| - 1])
  }

  /** The body of the `summarizeDemand` loop: the entry under the booking's
      key goes up by one, or is created with one student. */
  method Count(summary: seq<DemandEntry>, trip: Trip) returns (r: seq<DemandEntry>)
    ensures r == CountBooking(summary, trip)
  {
    var key := DemandKey(trip.hall, trip.id);
    var current := EntryIndex(summary, key);
    if current.Some? {
      r := summary[current.value := summary[current.value].(students := summary[current.value].students + 1)];
    } else {
      r := summary + [DemandEntry(trip.hall, trip.id, 1)];
    }
  }

  /** One more booking is counted into the summary of the ones before it. */
  lemma SummarySnoc(ts: seq<Trip>, i: nat)
    requires i < |ts|
    ensures Summary(ts[..i + 1]) == CountBooking(Summary(ts[..i]), ts[i])
  {
    assert ts[..i + 1][..i] == ts[..i];
  }

  function TotalStudents(entries: seq<DemandEntry>): nat {
    if entries == [] then 0 else TotalStudents(entries[..|entries| - 1]) + entries[|entries| - 1].students
  }

  lemma {:induction false} TotalStudentsUpdate(entries: seq<DemandEntry>, i: nat, e: DemandEntry)
    requires i < |entries|
    ensures TotalStudents(entries[i := e]) == TotalStudents(entries) - entries[i].students + e.students
    decreases |entries|
  {
    var n := |entries| - 1;
    var updated := entries[i := e];
    assert updated[..n] == if i < n then entries[..n][i := e] else entries[..n];
    if i < n {
      TotalStudentsUpdate(entries[..n], i, e);
    }
  }

  /** Counting a booking keeps the existing entries in place, never lowers a
      count, and leaves an entry for the booking's trip. */
  lemma CountBookingShape(entries: seq<DemandEntry>, trip: Trip)
    ensures var r := CountBooking(entries, trip);
      var key := DemandKey(trip.hall, trip.id);
      && |entries| <= |r| <= |entries| + 1
      && (forall i :: 0 <= i < |entries| ==>
            r[i].hall == entries[i].hall && r[i].tripId == entries[i].tripId && r[i].students >= entries[i].students)
      && (|r| == |entries| + 1 ==> r[|entries|] == DemandEntry(trip.hall, trip.id, 1) && EntryIndex(entries, key).None?)
      && EntryIndex(r, key).Some?
  {
    var r := CountBooking(entries, trip);
    var key := DemandKey(trip.hall, trip.id);
    var i := EntryIndex(entries, key);
    if i.Some? {
      assert EntryKey(r[i.value]) == key;
    } else {
      assert EntryKey(r[|entries|]) == key;
    }
  }

  /** Counting a booking adds exactly one to the total. */
  lemma CountBookingTotal(entries: seq<DemandEntry>, trip: Trip)
    ensures TotalStudents(CountBooking(entries, trip)) == TotalStudents(entries) + 1
  {
    var i := EntryIndex(entries, DemandKey(trip.hall, trip.id));
    if i.Some? {
      TotalStudentsUpdate(entries, i.value, entries[i.value].(students := entries[i.value].students + 1));
    } else {
      assert (entries + [DemandEntry(trip.hall, trip.id, 1)])[..|entries|] == entries;
    }
  }

  /** The summary's counts add up to the number of bookings. */
  lemma {:induction false} SummaryTotal(ts: seq<Trip>)
    ensures TotalStudents(Summary(ts)) == |ts|
  {
    if ts != [] {
      SummaryTotal(ts[..|ts| - 1]);
      CountBookingTotal(Summary(ts[..|ts| - 1]), ts[|ts| - 1]);
    }
  }

  predicate KeysDistinct(entries: seq<DemandEntry>) {
    forall i, j :: 0 <= i < j < |entries| ==> EntryKey(entries[i]) != EntryKey(entries[j])
  }

  predicate AllCounted(entries: seq<DemandEntry>) {
    forall i :: 0 <= i < |entries| ==> entries[i].students >= 1
  }

  lemma CountBookingKeeps(entries: seq<DemandEntry>, trip: Trip)
    requires KeysDistinct(entries) && AllCounted(entries)
    ensures KeysDistinct(CountBooking(entries, trip)) && AllCounted(CountBooking(entries, trip))
  {
    var r := CountBooking(entries, trip);
    var key := DemandKey(trip.hall, trip.id);
    var i := EntryIndex(entries, key);
    if i.Some? {
      assert forall k :: 0 <= k < |r| ==> EntryKey(r[k]) == EntryKey(entries[k]);
    } else {
      assert forall k :: 0 <= k < |entries| ==> r[k] == entries[k];
      assert EntryKey(r[|entries|]) == key;
    }
  }

  /** The summary has one entry per key, and every entry counts at least one
      booking. */
  lemma {:induction false} SummaryKeysDistinct(ts: seq<Trip>)
    ensures KeysDistinct(Summary(ts)) && AllCounted(Summary(ts))
  {
    if ts != [] {
      SummaryKeysDistinct(ts[..|ts| - 1]);
      CountBookingKeeps(Summary(ts[..|ts| - 1]), ts[|ts| - 1]);
    }
  }

  /** Every booking's trip has an entry in the summary. */
  lemma {:induction false} SummaryCoversBookings(ts: seq<Trip>)
    ensures forall k :: 0 <= k < |ts| ==> EntryIndex(Summary(ts), DemandKey(ts[k].hall, ts[k].id)).Some?
  {
    if ts != [] {
      var n := |ts| - 1;
      var prev := Summary(ts[..n]);
      SummaryCoversBookings(ts[..n]);
      CountBookingShape(prev, ts[n]);
      var s := Summary(ts);
      forall k | 0 <= k < n
        ensures EntryIndex(s, DemandKey(ts[k].hall, ts[k].id)).Some?
      {
        assert ts[..n][k] == ts[k];
        var i := EntryIndex(prev, DemandKey(ts[k].hall, ts[k].id)).value;
        assert EntryKey(s[i]) == EntryKey(prev[i]);
      }
    }
  }

  /** Every entry is the hall and id of one of the trips counted: whatever
      holds of each counted trip's pair holds of each entry's. */
  lemma {:induction false} SummaryEntriesFromTrips(ts: seq<Trip>, ok: (string, string) -> bool)
    requires forall k :: 0 <= k < |ts| ==> ok(ts[k].hall, ts[k].id)
    ensures forall i :: 0 <= i < |Summary(ts)| ==> ok(Summary(ts)[i].hall, Summary(ts)[i].tripId)
  {
    if ts != [] {
      var n := |ts| - 1;
      assert forall k :: 0 <= k < n ==> ts[..n][k] == ts[k];
      SummaryEntriesFromTrips(ts[..n], ok);
      var prev, s := Summary(ts[..n]), Summary(ts);
      assert s == CountBooking(prev, ts[n]);
      CountBookingShape(prev, ts[n]);
      assert ok(ts[n].hall, ts[n].id);
      forall i | 0 <= i < |s|
        ensures ok(s[i].hall, s[i].tripId)
      {
        if i < |prev| {
          assert ok(prev[i].hall, prev[i].tripId);
          assert s[i].hall == prev[i].hall && s[i].tripId == prev[i].tripId;
        } else {
          assert s[i] == DemandEntry(ts[n].hall, ts[n].id, 1);
        }
      }
    }
  }

  /** Every entry of a store's summary names a known trip, and that trip's
      hall. */
  lemma SummaryEntriesKnown(trips: seq<Trip>, bookings: seq<Booking>)
    requires KnownTrips(trips, bookings)
    ensures var s := Summary(BookingTrips(trips, bookings));
      forall i :: 0 <= i < |s| ==> FindTrip(trips, s[i].tripId).Some? && FindTrip(trips, s[i].tripId).value.hall == s[i].hall
  {
    var ts := BookingTrips(trips, bookings);
    SummaryEntriesFromTrips(ts, (hall, id) => FindTrip(trips, id).Some? && FindTrip(trips, id).value.hall == hall);
  }

  // ---------------------------------------------------------------------
  // runAllocation
  // ---------------------------------------------------------------------

  /** `Math.ceil(students / capacity) || 1` for a positive capacity. */
  function NeededCabs(students: nat, capacity: int): (r: nat)
    requires capacity > 0
    ensures r >= 1
    ensures students > 0 ==> (r - 1) * capacity < students <= r * capacity
    ensures students == 0 ==> r == 1
  {
    var c := (students + capacity - 1) / capacity;
    if c == 0 then 1 else c
  }

  function OfHall(hall: string): Cab -> bool {
    (c: Cab) => c.hall == hall
  }

  /** The allocation row of one selected cab. */
  function AllocationOf(trip: Trip, cab: Cab): Allocation {
    Allocation(cab.id, trip.id, trip.hall, cab.driver, cab.registration, cab.passkey, cab.seats)
  }

  /** The cabs chosen for one demand entry: `hallCabs.slice(0, neededCabs)`. */
  function Selected(trip: Trip, cabs: seq<Cab>, e: DemandEntry): seq<Cab>
    requires trip.capacityPerCab > 0
  {
    var hallCabs := Filter(cabs, OfHall(e.hall));
    var n := NeededCabs(e.students, trip.capacityPerCab);
    if n <= |hallCabs| then hallCabs[..n] else hallCabs
  }

  /** The selected cabs are the first ones of the entry's hall, in list
      order: as many as needed, or every one the hall has when it has fewer. */
  lemma SelectedSpec(trip: Trip, cabs: seq<Cab>, e: DemandEntry)
    requires trip.capacityPerCab > 0
    ensures var n := NeededCabs(e.students, trip.capacityPerCab);
      |Selected(trip, cabs, e)| == (if n <= |Filter(cabs, OfHall(e.hall))| then n else |Filter(cabs, OfHall(e.hall))|)
    ensures Selected(trip, cabs, e) <= Filter(cabs, OfHall(e.hall))
    ensures forall c :: c in Selected(trip, cabs, e) ==> c in cabs && c.hall == e.hall
  {
    var hallCabs := Filter(cabs, OfHall(e.hall));
    var sel := Selected(trip, cabs, e);
    forall c | c in sel
      ensures c in cabs && c.hall == e.hall
    {
      assert c in hallCabs;
      FilterMember(cabs, OfHall(e.hall), c);
    }
  }

  /** One allocation row per cab, in order. */
  function Rows(trip: Trip, selected: seq<Cab>): seq<Allocation> {
    if selected == [] then []
    else Rows(trip, selected[..|selected| - 1]) + [AllocationOf(trip, selected[|selected| - 1])]
  }

  lemma {:induction false} RowsSpec(trip: Trip, selected: seq<Cab>)
    ensures |Rows(trip, selected)| == |selected|
    ensures forall k :: 0 <= k < |selected| ==> Rows(trip, selected)[k] == AllocationOf(trip, selected[k])
  {
    if selected != [] {
      var n := |selected| - 1;
      RowsSpec(trip, selected[..n]);
      assert Rows(trip, selected) == Rows(trip, selected[..n]) + [AllocationOf(trip, selected[n])];
    }
  }

  /** The rows for one demand entry. */
  function EntryAllocations(trip: Trip, cabs: seq<Cab>, e: DemandEntry): seq<Allocation>
    requires trip.capacityPerCab > 0
  {
    Rows(trip, Selected(trip, cabs, e))
  }

  predicate Positive(trips: seq<Trip>) {
    forall k :: 0 <= k < |trips| ==> trips[k].capacityPerCab > 0
  }

  predicate EntriesKnown(trips: seq<Trip>, entries: seq<DemandEntry>) {
    forall i :: 0 <= i < |entries| ==> FindTrip(trips, entries[i].tripId).Some?
  }

  /** The rows for every entry, entry after entry. */
  function AllAllocations(trips: seq<Trip>, cabs: seq<Cab>, entries: seq<DemandEntry>): seq<Allocation>
    requires Positive(trips) && EntriesKnown(trips, entries)
  {
    if entries == [] then []
    else
      var n := |entries| - 1;
      var trip := FindTrip(trips, entries[n].tripId).value;
      AllAllocations(trips, cabs, entries[..n]) + EntryAllocations(trip, cabs, entries[n])
  }

  /** One more entry adds its own rows at the end. */
  lemma AllAllocationsSnoc(trips: seq<Trip>, cabs: seq<Cab>, entries: seq<DemandEntry>, i: nat)
    requires Positive(trips) && EntriesKnown(trips, entries) && i < |entries|
    ensures EntriesKnown(trips, entries[..i]) && EntriesKnown(trips, entries[..i + 1])
    ensures FindTrip(trips, entries[i].tripId).Some?
    ensures AllAllocations(trips, cabs, entries[..i + 1])
      == AllAllocations(trips, cabs, entries[..i]) + EntryAllocations(FindTrip(trips, entries[i].tripId).value, cabs, entries[i])
  {
    assert entries[..i + 1][..i] == entries[..i];
    assert entries[..i + 1][i] == entries[i];
  }

  /** Each entry names a known trip of its own hall, as the entries of a
      demand summary do. */
  predicate HallsMatch(trips: seq<Trip>, entries: seq<DemandEntry>) {
    forall i :: 0 <= i < |entries| ==>
      FindTrip(trips, entries[i].tripId).Some? && FindTrip(trips, entries[i].tripId).value.hall == entries[i].hall
  }

  /** The row copies a cab of the row's own hall: its driver,
      registration, passkey and seats are that cab's. */
  predicate CopiesHallCab(cabs: seq<Cab>, a: Allocation) {
    exists c :: c in cabs && a == Allocation(c.id, a.tripId, c.hall, c.driver, c.registration, c.passkey, c.seats)
  }

  lemma EntryRowsCopyHallCabs(trip: Trip, cabs: seq<Cab>, e: DemandEntry)
    requires trip.capacityPerCab > 0 && trip.hall == e.hall
    ensures forall a :: a in EntryAllocations(trip, cabs, e) ==> CopiesHallCab(cabs, a)
  {
    var sel := Selected(trip, cabs, e);
    var rows := EntryAllocations(trip, cabs, e);
    SelectedSpec(trip, cabs, e);
    RowsSpec(trip, sel);
    forall a | a in rows
      ensures CopiesHallCab(cabs, a)
    {
      var k :| 0 <= k < |rows| && rows[k] == a;
      assert sel[k] in sel;
    }
  }

  /** Every row of `runAllocation` copies a cab of its own hall. */
  lemma {:induction false} AllocationsUseHallCabs(trips: seq<Trip>, cabs: seq<Cab>, entries: seq<DemandEntry>)
    requires Positive(trips) && HallsMatch(trips, entries)
    ensures EntriesKnown(trips, entries)
    ensures forall a :: a in AllAllocations(trips, cabs, entries) ==> CopiesHallCab(cabs, a)
  {
    if entries != [] {
      var n := |entries| - 1;
      assert HallsMatch(trips, entries[..n]);
      AllocationsUseHallCabs(trips, cabs, entries[..n]);
      var trip := FindTrip(trips, entries[n].tripId).value;
      EntryRowsCopyHallCabs(trip, cabs, entries[n]);
    }
  }

  /** `selected.forEach(cab => newAllocations.push(...))` */
  method AppendRows(rows: seq<Allocation>, trip: Trip, selected: seq<Cab>) returns (r: seq<Allocation>)
    ensures r == rows + Rows(trip, selected)
  {
    r := rows;
    for j := 0 to |selected|
      invariant r == rows + Rows(trip, selected[..j])
    {
      assert selected[..j + 1][..j] == selected[..j];
      AppendAssoc(rows, Rows(trip, selected[..j]), [AllocationOf(trip, selected[j])]);
      r := r + [AllocationOf(trip, selected[j])];
    }
    assert selected[..|selected|] == selected;
  }

  /** The store's tables; the trips and cabs are fixed. */
  class Store {
    const trips: seq<Trip>
    const cabs: seq<Cab>
    var bookings: seq<Booking>
    var payments: seq<Payment>
    var allocations: seq<Allocation>

    /** Every booking is of a known trip, and every trip seats someone. */
    ghost predicate Valid()
      reads this
    {
      KnownTrips(trips, bookings) && Positive(trips)
    }

    constructor()
      ensures Valid()
      ensures trips == SeedTrips && cabs == SeedCabs && bookings == [] && payments == [] && allocations == []
    {
      trips := SeedTrips;
      cabs := SeedCabs;
      bookings := [];
      payments := [];
      allocations := [];
    }

    /** `createBooking`: an unknown trip or a hall other than the trip's is
        refused; otherwise one confirmed booking at the trip's fare is added
        at the end. */
    method CreateBooking(userId: string, hall: string, tripId: string, paymentMethod: string,
                         id: string, qr: string, createdAt: string) returns (r: Result<Booking, string>)
      requires Valid()
      modifies this
      ensures Valid() && payments == old(payments) && allocations == old(allocations)
      ensures FindTrip(trips, tripId).None? ==> r == Failure("Unknown trip") && bookings == old(bookings)
      ensures FindTrip(trips, tripId).Some? && FindTrip(trips, tripId).value.hall != hall ==>
        r == Failure("Hall does not match trip") && bookings == old(bookings)
      ensures FindTrip(trips, tripId).Some? && FindTrip(trips, tripId).value.hall == hall ==>
        && r == Success(Booking(id, userId, hall, tripId, paymentMethod, "confirmed", qr, FindTrip(trips, tripId).value.fare, createdAt))
        && bookings == old(bookings) + [r.value]
    {
      var trip := FindTrip(trips, tripId);
      if trip.None? {
        return Failure("Unknown trip");
      }
      if trip.value.hall != hall {
        return Failure("Hall does not match trip");
      }
      var booking := Booking(id, userId, hall, tripId, paymentMethod, "confirmed", qr, trip.value.fare, createdAt);
      bookings := bookings + [booking];
      return Success(booking);
    }

    /** `getBookingsForUser` */
    function GetBookingsForUser(userId: string): (r: seq<Booking>)
      reads this
      ensures forall b :: b in r <==> b in bookings && b.userId == userId
    {
      BookingsForUser(bookings, userId)
    }

    /** `recordPayment`: one succeeded payment is added at the end, and the
        booking it references, if any, is marked paid. */
    method RecordPayment(bookingId: string, amount: int, currency: string, id: string, createdAt: string) returns (p: Payment)
      requires Valid()
      modifies this
      ensures Valid() && allocations == old(allocations)
      ensures p == Payment(id, bookingId, amount, currency, "succeeded", "razorpay-mock", createdAt)
      ensures payments == old(payments) + [p]
      ensures bookings == MarkPaid(old(bookings), bookingId)
    {
      var k := FindBooking(bookings, bookingId);
      p := Payment(id, bookingId, amount, currency, "succeeded", "razorpay-mock", createdAt);
      payments := payments + [p];
      if k.Some? {
        bookings := bookings[k.value := bookings[k.value].(status := "paid")];
      }
    }

    /** `summarizeDemand` */
    method SummarizeDemand() returns (summary: seq<DemandEntry>)
      requires Valid()
      ensures summary == Summary(BookingTrips(trips, bookings))
    {
      ghost var ts := BookingTrips(trips, bookings);
      summary := [];
      for i := 0 to |bookings|
        invariant summary == Summary(ts[..i])
      {
        var trip := FindTrip(trips, bookings[i].tripId).value;
        summary := Count(summary, trip);
        SummarySnoc(ts, i);
      }
      assert ts[..|bookings|] == ts;
    }

    /** `runAllocation`: the rows of every demand entry replace the previous
        allocations wholesale. */
    method RunAllocation() returns (result: seq<Allocation>)
      requires Valid()
      modifies this
      ensures Valid() && bookings == old(bookings) && payments == old(payments)
      ensures SummaryEntriesKnownNow() && allocations == AllAllocations(trips, cabs, Summary(BookingTrips(trips, bookings)))
      ensures result == allocations
    {
      var newAllocations := ComputeAllocations();
      allocations := newAllocations;
      return allocations;
    }

    /** The loop of `runAllocation`: walk the demand summary and collect the
        rows of every entry. */
    method ComputeAllocations() returns (newAllocations: seq<Allocation>)
      requires Valid()
      ensures SummaryEntriesKnownNow()
      ensures newAllocations == AllAllocations(trips, cabs, Summary(BookingTrips(trips, bookings)))
    {
      var demand := SummarizeDemand();
      SummaryEntriesKnown(trips, bookings);
      newAllocations := [];
      assert demand[..0] == [];
      for i := 0 to |demand|
        invariant EntriesKnown(trips, demand[..i])
        invariant newAllocations == AllAllocations(trips, cabs, demand[..i])
      {
        AllAllocationsSnoc(trips, cabs, demand, i);
        var item := demand[i];
        var trip := FindTrip(trips, item.tripId).value;
        newAllocations := AppendRows(newAllocations, trip, Selected(trip, cabs, item));
      }
      assert demand[..|demand|] == demand;
    }

    /** Every entry of the current summary names a known trip. */
    ghost predicate SummaryEntriesKnownNow()
      reads this
      requires Valid()
    {
      EntriesKnown(trips, Summary(BookingTrips(trips, bookings)))
    }

    /** `resetStore` */
    method ResetStore()
      requires Valid()
      modifies this
      ensures Valid() && bookings == [] && payments == [] && allocations == []
    {
      bookings := [];
      payments := [];
      allocations := [];
    }
  }
}
