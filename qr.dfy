// QR boarding (backend/src/controllers/qr.controller.ts): the decision
// sequence of `validateQR`, which logs at most one journey per trip, student
// and journey type, and the seat numbering of `getCabDetails`.
module Qr {
  import opened Wrappers
  import opened Text
  import opened Sequences
  import SeatMap

  datatype JourneyType = Pickup | Dropoff

  /** `now < returnTime ? 'pickup' : 'dropoff'` */
  function JourneyTypeAt(now: int, returnTime: int): (t: JourneyType)
    ensures t == Pickup <==> now < returnTime
  {
    if now < returnTime then Pickup else Dropoff
  }

  /** A row of `cab_allocations`, in creation order. */
  datatype AllocationRow = AllocationRow(id: string, tripId: string, userId: string, cabId: string)

  /** A row of `cabs`; `capacity`, `driverName` and `driverPhone` are the
      columns `cab_capacity`, `cab_owner_name` and `cab_owner_phone`. */
  datatype CabRow = CabRow(
    id: string, tripId: string, cabNumber: string, cabType: string, capacity: int,
    driverName: string, driverPhone: string, pickupRegion: string, passkey: string)

  /** A row of `trip_users`: the student's hall and payment for one trip. */
  datatype TripUser = TripUser(hall: string, paymentId: string)

  /** A row of `journeys`; `time` is the database clock at the insert. */
  datatype Journey = Journey(tripId: string, userId: string, cabId: string, journeyType: JourneyType, time: int)

  /** The tables the controller reads, as values: trips keep only their
      return time, users only their name, payments only their status. */
  datatype Db = Db(
    allocations: seq<AllocationRow>,
    cabs: seq<CabRow>,
    returnTimes: map<string, int>,
    studentNames: map<string, string>,
    tripUsers: map<(string, string), TripUser>,
    paymentStatus: map<string, string>,
    journeys: seq<Journey>)

  /** The row of the allocation join: the allocation with its cab, trip,
      student, `trip_users` row and payment. */
  datatype AllocationView = AllocationView(
    allocation: AllocationRow, cab: CabRow, returnTime: int, studentName: string, hall: string, paymentStatus: string)

  /** The answer of `validateQR`; `Boarded` carries the inserted journey. */
  datatype ScanResult =
    | MissingFields
    | InvalidFormat
    | InvalidPasskeyFormat
    | NotFound
    | PaymentPending
    | AlreadyBoarded(journeyType: JourneyType, previousScanTime: int, cabNumber: string)
    | InvalidPasskey
    | WrongCab(assignedCab: string, assignedPickup: string, yourCab: string)
    | Boarded(journeyType: JourneyType, studentName: string, studentHall: string, cabNumber: string, journey: Journey)

  function StatusCode(r: ScanResult): (code: nat)
    ensures code == 200 <==> r.Boarded?
  {
    match r
    case MissingFields => 400
    case InvalidFormat => 400
    case InvalidPasskeyFormat => 400
    case NotFound => 404
    case PaymentPending => 400
    case AlreadyBoarded(_, _, _) => 409
    case InvalidPasskey => 401
    case WrongCab(_, _, _) => 400
    case Boarded(_, _, _, _, _) => 200
  }

  /** A request-body field that JavaScript reads as true. */
  predicate Truthy(s: Option<string>) {
    s.Some? && s.value != ""
  }

  /** `/^\d{4}$/` */
  predicate IsPasskeyText(s: string) {
    |s| == 4 && AllDigits(s)
  }

  function AllocationWithId(id: string): AllocationRow -> bool {
    (a: AllocationRow) => a.id == id
  }

  function CabWithId(id: string): CabRow -> bool {
    (c: CabRow) => c.id == id
  }

  /** `SELECT * FROM cabs WHERE trip_id = $1 AND passkey = $2` */
  function CabWithPasskey(tripId: string, passkey: string): CabRow -> bool {
    (c: CabRow) => c.tripId == tripId && c.passkey == passkey
  }

  /** `SELECT * FROM journeys WHERE trip_id = $1 AND user_id = $2 AND journey_type = $3` */
  function JourneyOf(tripId: string, userId: string, t: JourneyType): Journey -> bool {
    (j: Journey) => j.tripId == tripId && j.userId == userId && j.journeyType == t
  }

  /** The inner join of the allocation query: no row unless the allocation,
      its cab, trip, student, `trip_users` row and payment all exist. */
  function JoinAllocation(db: Db, allocationId: string): (r: Option<AllocationView>)
    ensures r.Some? ==>
      && r.value.allocation in db.allocations && r.value.allocation.id == allocationId
      && r.value.cab in db.cabs && r.value.cab.id == r.value.allocation.cabId
    ensures (forall k :: 0 <= k < |db.allocations| ==> db.allocations[k].id != allocationId) ==> r.None?
  {
    match Find(db.allocations, AllocationWithId(allocationId))
    case None => None
    case Some(a) =>
      var cab := Find(db.cabs, CabWithId(a.cabId));
      var key := (a.tripId, a.userId);
      if cab.Some? && a.tripId in db.returnTimes && a.userId in db.studentNames
         && key in db.tripUsers && db.tripUsers[key].paymentId in db.paymentStatus
      then
        var tu := db.tripUsers[key];
        Some(AllocationView(a, cab.value, db.returnTimes[a.tripId], db.studentNames[a.userId], tu.hall, db.paymentStatus[tu.paymentId]))
      else None
  }

  /** The checks `validateQR` makes on the request body before it touches
      any table. */
  function Precheck(allocationId: Option<string>, passkey: Option<string>): (r: Option<ScanResult>)
    ensures r.None? <==> Truthy(allocationId) && Truthy(passkey) && IsUuid(allocationId.value) && IsPasskeyText(passkey.value)
  {
    if !Truthy(allocationId) || !Truthy(passkey) then Some(MissingFields)
    else if !IsUuid(allocationId.value) then Some(InvalidFormat)
    else if !IsPasskeyText(passkey.value) then Some(InvalidPasskeyFormat)
    else None
  }

  /** The whole decision of `validateQR` at time `now`. */
  function Scan(db: Db, allocationId: Option<string>, passkey: Option<string>, now: int): (r: ScanResult)
    ensures Precheck(allocationId, passkey).Some? ==> r == Precheck(allocationId, passkey).value
  {
    if Precheck(allocationId, passkey).Some? then Precheck(allocationId, passkey).value
    else match JoinAllocation(db, allocationId.value)
      case None => NotFound
      case Some(v) =>
        if v.paymentStatus != "confirmed" then PaymentPending
        else
          var a := v.allocation;
          var t := JourneyTypeAt(now, v.returnTime);
          match Find(db.journeys, JourneyOf(a.tripId, a.userId, t))
          case Some(previous) => AlreadyBoarded(t, previous.time, v.cab.cabNumber)
          case None =>
            match Find(db.cabs, CabWithPasskey(a.tripId, passkey.value))
            case None => InvalidPasskey
            case Some(scanned) =>
              if t == Pickup && scanned.id != a.cabId then WrongCab(v.cab.cabNumber, v.cab.pickupRegion, scanned.cabNumber)
              else Boarded(t, v.studentName, v.hall, scanned.cabNumber, Journey(a.tripId, a.userId, scanned.id, t, now))
  }

  /** The tables after a scan: a successful scan adds its journey, any other
      answer rolls back. */
  function AfterScan(db: Db, r: ScanResult): Db {
    if r.Boarded? then db.(journeys := db.journeys + [r.journey]) else db
  }

  /** A malformed request is answered the same way whatever the tables hold. */
  lemma PrechecksIgnoreTables(db1: Db, db2: Db, allocationId: Option<string>, passkey: Option<string>, now1: int, now2: int)
    requires !(Truthy(allocationId) && Truthy(passkey) && IsUuid(allocationId.value) && IsPasskeyText(passkey.value))
    ensures Scan(db1, allocationId, passkey, now1) == Scan(db2, allocationId, passkey, now2)
    ensures !Scan(db1, allocationId, passkey, now1).Boarded?
  {
  }

  /** What a successful scan guarantees: the allocation exists and is paid,
      no journey of this type was logged for the student on this trip, the
      passkey belongs to a cab of the trip, that cab is the allocated one on a
      pickup, and the logged journey records the scanning cab. */
  lemma BoardedMeans(db: Db, allocationId: Option<string>, passkey: Option<string>, now: int)
    requires Scan(db, allocationId, passkey, now).Boarded?
    ensures Truthy(allocationId) && Truthy(passkey) && IsUuid(allocationId.value) && IsPasskeyText(passkey.value)
    ensures var r := Scan(db, allocationId, passkey, now);
      var v := JoinAllocation(db, allocationId.value);
      && v.Some? && v.value.paymentStatus == "confirmed"
      && (r.journeyType == Pickup <==> now < v.value.returnTime)
      && r.journey == Journey(v.value.allocation.tripId, v.value.allocation.userId, r.journey.cabId, r.journeyType, now)
      && (forall k :: 0 <= k < |db.journeys| ==> !JourneyOf(r.journey.tripId, r.journey.userId, r.journeyType)(db.journeys[k]))
      && (exists c :: c in db.cabs && c.id == r.journey.cabId && c.tripId == r.journey.tripId && c.passkey == passkey.value && c.cabNumber == r.cabNumber)
      && (r.journeyType == Pickup ==> r.journey.cabId == v.value.allocation.cabId)
  {
    var v := JoinAllocation(db, allocationId.value).value;
    var a := v.allocation;
    var scanned := Find(db.cabs, CabWithPasskey(a.tripId, passkey.value)).value;
    assert scanned in db.cabs;
  }

  /** On the return leg any cab of the trip with this passkey boards the
      student, even one other than the allocated cab. */
  lemma DropoffAcceptsAnyTripCab(db: Db, allocationId: string, passkey: string, now: int, v: AllocationView, c: CabRow)
    requires IsUuid(allocationId) && IsPasskeyText(passkey)
    requires JoinAllocation(db, allocationId) == Some(v) && v.paymentStatus == "confirmed"
    requires now >= v.returnTime
    requires forall k :: 0 <= k < |db.journeys| ==> !JourneyOf(v.allocation.tripId, v.allocation.userId, Dropoff)(db.journeys[k])
    requires Find(db.cabs, CabWithPasskey(v.allocation.tripId, passkey)) == Some(c)
    ensures Scan(db, Some(allocationId), Some(passkey), now)
         == Boarded(Dropoff, v.studentName, v.hall, c.cabNumber, Journey(v.allocation.tripId, v.allocation.userId, c.id, Dropoff, now))
  {
    assert Truthy(Some(allocationId)) && Truthy(Some(passkey));
  }

  /** No two journeys of one student on one trip share a journey type. */
  predicate JourneysUnique(journeys: seq<Journey>) {
    forall i, j :: 0 <= i < j < |journeys| ==>
      !(journeys[i].tripId == journeys[j].tripId && journeys[i].userId == journeys[j].userId
        && journeys[i].journeyType == journeys[j].journeyType)
  }

  /** Every scan keeps at most one journey per trip, student and type. */
  lemma ScanKeepsJourneysUnique(db: Db, allocationId: Option<string>, passkey: Option<string>, now: int)
    requires JourneysUnique(db.journeys)
    ensures JourneysUnique(AfterScan(db, Scan(db, allocationId, passkey, now)).journeys)
  {
    var r := Scan(db, allocationId, passkey, now);
    if r.Boarded? {
      BoardedMeans(db, allocationId, passkey, now);
      var js := db.journeys + [r.journey];
      forall i, j | 0 <= i < j < |js|
        ensures !(js[i].tripId == js[j].tripId && js[i].userId == js[j].userId && js[i].journeyType == js[j].journeyType)
      {
        if j == |db.journeys| {
          assert !JourneyOf(r.journey.tripId, r.journey.userId, r.journeyType)(db.journeys[i]);
        }
      }
    }
  }

  /** Scanning again, with the same code and passkey on the same leg, after
      a successful scan reports the student as already boarded. */
  lemma RescanIsAlreadyBoarded(db: Db, allocationId: Option<string>, passkey: Option<string>, now: int, later: int)
    requires Scan(db, allocationId, passkey, now).Boarded?
    requires var v := JoinAllocation(db, allocationId.value);
      v.Some? && JourneyTypeAt(later, v.value.returnTime) == JourneyTypeAt(now, v.value.returnTime)
    ensures var r := Scan(db, allocationId, passkey, now);
      Scan(AfterScan(db, r), allocationId, passkey, later) == AlreadyBoarded(r.journeyType, now, JoinAllocation(db, allocationId.value).value.cab.cabNumber)
  {
    var r := Scan(db, allocationId, passkey, now);
    BoardedMeans(db, allocationId, passkey, now);
    var db2 := AfterScan(db, r);
    assert JoinAllocation(db2, allocationId.value) == JoinAllocation(db, allocationId.value);
    var p := JourneyOf(r.journey.tripId, r.journey.userId, r.journeyType);
    FindAppend(db.journeys, r.journey, p);
  }

  /** The tables `validateQR` works on; only `journeys` is written. */
  class BoardingDesk {
    var allocations: seq<AllocationRow>
    var cabs: seq<CabRow>
    var returnTimes: map<string, int>
    var studentNames: map<string, string>
    var tripUsers: map<(string, string), TripUser>
    var paymentStatus: map<string, string>
    var journeys: seq<Journey>

    function Tables(): Db
      reads this
    {
      Db(allocations, cabs, returnTimes, studentNames, tripUsers, paymentStatus, journeys)
    }

    ghost predicate Valid()
      reads this
    {
      JourneysUnique(journeys)
    }

    constructor(db: Db)
      requires JourneysUnique(db.journeys)
      ensures Valid() && Tables() == db
    {
      allocations := db.allocations;
      cabs := db.cabs;
      returnTimes := db.returnTimes;
      studentNames := db.studentNames;
      tripUsers := db.tripUsers;
      paymentStatus := db.paymentStatus;
      journeys := db.journeys;
    }

    /** `validateQR`: guarded reads, then one journey insert on success. */
    method ValidateQR(allocationId: Option<string>, passkey: Option<string>, now: int) returns (r: ScanResult)
      requires Valid()
      modifies this
      ensures Valid()
      ensures r == Scan(old(Tables()), allocationId, passkey, now)
      ensures Tables() == AfterScan(old(Tables()), r)
    {
      ScanKeepsJourneysUnique(Tables(), allocationId, passkey, now);
      if !Truthy(allocationId) || !Truthy(passkey) {
        return MissingFields;
      }
      if !IsUuid(allocationId.value) {
        return InvalidFormat;
      }
      if !IsPasskeyText(passkey.value) {
        return InvalidPasskeyFormat;
      }
      var found := JoinAllocation(Tables(), allocationId.value);
      if found.None? {
        return NotFound;
      }
      var v := found.value;
      if v.paymentStatus != "confirmed" {
        return PaymentPending;
      }
      var a := v.allocation;
      var journeyType := JourneyTypeAt(now, v.returnTime);
      var existing := Find(journeys, JourneyOf(a.tripId, a.userId, journeyType));
      if existing.Some? {
        return AlreadyBoarded(journeyType, existing.value.time, v.cab.cabNumber);
      }
      var scannedCab := Find(cabs, CabWithPasskey(a.tripId, passkey.value));
      if scannedCab.None? {
        return InvalidPasskey;
      }
      if journeyType == Pickup && scannedCab.value.id != a.cabId {
        return WrongCab(v.cab.cabNumber, v.cab.pickupRegion, scannedCab.value.cabNumber);
      }
      var journey := Journey(a.tripId, a.userId, scannedCab.value.id, journeyType, now);
      journeys := journeys + [journey];
      return Boarded(journeyType, v.studentName, v.hall, scannedCab.value.cabNumber, journey);
    }
  }

  // ---------------------------------------------------------------------
  // getCabDetails
  // ---------------------------------------------------------------------

  /** A student of the cab as `getCabDetails` lists them. */
  datatype SeatedStudent = SeatedStudent(userId: string, bookingId: string, name: string, hall: string, seatPosition: nat)

  /** The columns of the cab that `getCabDetails` selects: every column a
      student may see, and not the passkey. */
  datatype CabView = CabView(
    id: string, cabNumber: string, cabType: string, capacity: int,
    driverName: string, driverPhone: string, pickupRegion: string)

  function StudentView(cab: CabRow): CabView {
    CabView(cab.id, cab.cabNumber, cab.cabType, cab.capacity, cab.driverName, cab.driverPhone, cab.pickupRegion)
  }

  datatype CabDetailsResult =
    | DetailsInvalidFormat
    | AllocationNotFound
    | PaymentRequired
    | CabNotFound
    | CabDetails(cab: CabView, students: seq<SeatedStudent>)

  /** The allocations of one cab that survive the join with `users` and
      `trip_users`, in creation order. */
  function CabRows(db: Db, cabId: string): seq<AllocationRow> {
    Filter(db.allocations, (a: AllocationRow) =>
      a.cabId == cabId && a.userId in db.studentNames && (a.tripId, a.userId) in db.tripUsers)
  }

  /** `rows.map((s, idx) => ({ ..., seat_position: idx + 1 }))` */
  function SeatStudents(db: Db, rows: seq<AllocationRow>): seq<SeatedStudent>
    requires forall k :: 0 <= k < |rows| ==> rows[k].userId in db.studentNames && (rows[k].tripId, rows[k].userId) in db.tripUsers
  {
    if rows == [] then []
    else
      var n := |rows| - 1;
      var a := rows[n];
      SeatStudents(db, rows[..n]) + [SeatedStudent(a.userId, a.id, db.studentNames[a.userId], db.tripUsers[(a.tripId, a.userId)].hall, n + 1)]
  }

  /** Seat positions number the students 1..n in creation order. */
  lemma {:induction false} SeatStudentsNumbered(db: Db, rows: seq<AllocationRow>)
    requires forall k :: 0 <= k < |rows| ==> rows[k].userId in db.studentNames && (rows[k].tripId, rows[k].userId) in db.tripUsers
    ensures |SeatStudents(db, rows)| == |rows|
    ensures forall k :: 0 <= k < |rows| ==>
      SeatStudents(db, rows)[k].seatPosition == k + 1 && SeatStudents(db, rows)[k].bookingId == rows[k].id
      && SeatStudents(db, rows)[k].userId == rows[k].userId
  {
    if rows != [] {
      var n := |rows| - 1;
      SeatStudentsNumbered(db, rows[..n]);
    }
  }

  /** The payment check of `getCabDetails`: the student's `trip_users` row
      for the trip points at a confirmed payment. */
  predicate PaymentConfirmed(db: Db, a: AllocationRow) {
    var key := (a.tripId, a.userId);
    key in db.tripUsers && db.tripUsers[key].paymentId in db.paymentStatus
    && db.paymentStatus[db.tripUsers[key].paymentId] == "confirmed"
  }

  /** `getCabDetails` */
  function GetCabDetails(db: Db, allocationId: string): (r: CabDetailsResult)
    ensures r.CabDetails? ==> IsUuid(allocationId) && exists c :: c in db.cabs && r.cab == StudentView(c)
  {
    if !IsUuid(allocationId) then DetailsInvalidFormat
    else match Find(db.allocations, AllocationWithId(allocationId))
      case None => AllocationNotFound
      case Some(a) =>
        if !PaymentConfirmed(db, a) then PaymentRequired
        else match Find(db.cabs, CabWithId(a.cabId))
          case None => CabNotFound
          case Some(cab) =>
            var rows := CabRows(db, a.cabId);
            FilterSatisfies(db.allocations, (b: AllocationRow) =>
              b.cabId == a.cabId && b.userId in db.studentNames && (b.tripId, b.userId) in db.tripUsers);
            CabDetails(StudentView(cab), SeatStudents(db, rows))
  }

  /** The listed students are the cab's joined allocations in creation
      order, numbered 1..n; with at most seven of them every number is a seat
      of the seven-seat viewer, and no two share one. */
  lemma CabDetailsSeats(db: Db, allocationId: string)
    requires GetCabDetails(db, allocationId).CabDetails?
    ensures var r := GetCabDetails(db, allocationId);
      var rows := CabRows(db, r.cab.id);
      && |r.students| == |rows|
      && (forall k :: 0 <= k < |rows| ==> r.students[k].seatPosition == k + 1 && r.students[k].bookingId == rows[k].id)
      && (|rows| <= 7 ==> forall k :: 0 <= k < |rows| ==> SeatMap.PositionToSeatId(r.students[k].seatPosition).Some?)
      && (forall i, j :: 0 <= i < j < |r.students| ==> r.students[i].seatPosition != r.students[j].seatPosition)
  {
    var a := Find(db.allocations, AllocationWithId(allocationId)).value;
    var p := (b: AllocationRow) => b.cabId == a.cabId && b.userId in db.studentNames && (b.tripId, b.userId) in db.tripUsers;
    FilterSatisfies(db.allocations, p);
    SeatStudentsNumbered(db, CabRows(db, a.cabId));
  }

  /** The error answers of `getCabDetails`, in the order it checks them. */
  lemma CabDetailsErrors(db: Db, allocationId: string)
    ensures var r := GetCabDetails(db, allocationId);
      var found := Find(db.allocations, AllocationWithId(allocationId));
      && (r.DetailsInvalidFormat? <==> !IsUuid(allocationId))
      && (IsUuid(allocationId) ==>
            (r.AllocationNotFound? <==> forall k :: 0 <= k < |db.allocations| ==> db.allocations[k].id != allocationId))
      && (IsUuid(allocationId) && found.Some? ==>
            && (r.PaymentRequired? <==> !PaymentConfirmed(db, found.value))
            && (r.CabNotFound? <==> PaymentConfirmed(db, found.value)
                                    && forall k :: 0 <= k < |db.cabs| ==> db.cabs[k].id != found.value.cabId)
            && (r.CabDetails? ==> r.cab.id == found.value.cabId))
  {
  }

  /** The first cab with an id is found at the same place in two tables
      whose rows differ only in their passkeys. */
  lemma {:induction false} FindCabIgnoresPasskeys(xs: seq<CabRow>, ys: seq<CabRow>, id: string)
    requires |xs| == |ys| && forall k :: 0 <= k < |ys| ==> ys[k] == xs[k].(passkey := ys[k].passkey)
    ensures Find(xs, CabWithId(id)).Some? <==> Find(ys, CabWithId(id)).Some?
    ensures Find(xs, CabWithId(id)).Some? ==>
      StudentView(Find(xs, CabWithId(id)).value) == StudentView(Find(ys, CabWithId(id)).value)
  {
    if xs != [] && xs[0].id != id {
      assert ys[0].id == xs[0].id;
      FindCabIgnoresPasskeys(xs[1..], ys[1..], id);
    }
  }

  /** A student never learns a passkey from `getCabDetails`: changing the
      passkeys of any cabs leaves every error and every cab shown as it was. */
  lemma CabDetailsHidePasskeys(db: Db, cabs: seq<CabRow>, allocationId: string)
    requires |cabs| == |db.cabs| && forall k :: 0 <= k < |cabs| ==> cabs[k] == db.cabs[k].(passkey := cabs[k].passkey)
    ensures var before, after := GetCabDetails(db, allocationId), GetCabDetails(db.(cabs := cabs), allocationId);
      && (before.CabDetails? <==> after.CabDetails?)
      && (before.CabDetails? ==> after.cab == before.cab)
      && (!before.CabDetails? ==> after == before)
  {
    var a := Find(db.allocations, AllocationWithId(allocationId));
    if IsUuid(allocationId) && a.Some? {
      FindCabIgnoresPasskeys(db.cabs, cabs, a.value.cabId);
    }
  }
}
