/** `submitAllocation` of allocation.controller.ts: the validation loop over an
    admin-submitted list of cabs and the replacement of the trip's saved cabs
    and seat allocations. The tables `trip_users`, `cabs` and
    `cab_allocations` are fields of a class; the id the database gives a new
    cab row is a counter. */
module AllocationSubmit {
  import opened Wrappers
  import opened Text
  import opened Sequences

  /** One entry of a cab's `assigned_students`. */
  datatype SubmittedStudent = SubmittedStudent(userId: string, name: string)

  /** One entry of the submitted `cabs` array; a missing text field is the
      empty string, a missing `capacity` is 0 and missing `assigned_students`
      is the empty list. */
  datatype SubmittedCab = SubmittedCab(
    cabNumber: string, driverName: string, driverPhone: string, cabType: string,
    pickupRegion: string, passkey: string, capacity: int, assignedStudents: seq<SubmittedStudent>)

  const MaxStudents: nat := 7
  const DefaultCapacity: int := 7

  const RequiredError := "Trip ID and cabs array are required"
  const FieldsError := "All cab fields (cab_number, driver_name, driver_phone, cab_type, pickup_region, passkey) are required"
  const CapacityError := "Each cab must have 1-7 students assigned"
  const SavedMessage := "Allocation saved successfully"

  /** Why the validation loop refuses the submitted cabs. */
  datatype Rejection =
    | MissingFields
    | BadSize
    | DuplicateCabNumber(cabNumber: string)
    | DuplicatePasskey(passkey: string)
    | MultipleCabs(name: string)

  /** The message the refusal is answered with. */
  function Message(why: Rejection): string {
    match why
    case MissingFields => FieldsError
    case BadSize => CapacityError
    case DuplicateCabNumber(n) => "Duplicate cab number: " + n
    case DuplicatePasskey(p) => "Duplicate passkey: " + p
    case MultipleCabs(name) => "Student " + name + " is assigned to multiple cabs"
  }
  function NotAssigned(count: nat): string { NatToString(count) + " student(s) are not assigned to any cab" }

  // ---------------------------------------------------------------------
  // The rules, stated on the whole array
  // ---------------------------------------------------------------------

  /** All six text fields are non-empty (JavaScript truthiness of a string). */
  predicate HasFields(cab: SubmittedCab) {
    && cab.cabNumber != "" && cab.driverName != "" && cab.pickupRegion != ""
    && cab.passkey != "" && cab.cabType != "" && cab.driverPhone != ""
  }

  /** One to seven students. */
  predicate SizeOk(cab: SubmittedCab) {
    1 <= |cab.assignedStudents| <= MaxStudents
  }

  predicate Distinct(xs: seq<string>) {
    forall k, m :: 0 <= k < m < |xs| ==> xs[k] != xs[m]
  }

  function Ids(students: seq<SubmittedStudent>): (r: seq<string>)
    ensures |r| == |students|
  {
    seq(|students|, k requires 0 <= k < |students| => students[k].userId)
  }

  function CabNumbers(cabs: seq<SubmittedCab>): (r: seq<string>)
    ensures |r| == |cabs|
  {
    seq(|cabs|, k requires 0 <= k < |cabs| => cabs[k].cabNumber)
  }

  function Passkeys(cabs: seq<SubmittedCab>): (r: seq<string>)
    ensures |r| == |cabs|
  {
    seq(|cabs|, k requires 0 <= k < |cabs| => cabs[k].passkey)
  }

  /** The students of all cabs, cab after cab. */
  function AssignedIds(cabs: seq<SubmittedCab>): seq<string> {
    if cabs == [] then [] else AssignedIds(cabs[..|cabs| - 1]) + Ids(cabs[|cabs| - 1].assignedStudents)
  }

  /** What an accepted submission satisfies: every cab has its fields and one
      to seven students, and no cab number, passkey or student occurs twice. */
  predicate AllValid(cabs: seq<SubmittedCab>) {
    && (forall k :: 0 <= k < |cabs| ==> HasFields(cabs[k]) && SizeOk(cabs[k]))
    && Distinct(CabNumbers(cabs)) && Distinct(Passkeys(cabs)) && Distinct(AssignedIds(cabs))
  }

  // ---------------------------------------------------------------------
  // The validation loop, cab after cab
  // ---------------------------------------------------------------------

  /** The three arrays the loop grows: `cabNumbers`, `passkeys` and
      `assignedStudentIds`. */
  datatype Seen = Seen(cabNumbers: seq<string>, passkeys: seq<string>, studentIds: seq<string>)

  /** The inner loop over one cab's students, after `ids` were assigned. */
  function CheckStudents(students: seq<SubmittedStudent>, ids: seq<string>): (r: Result<seq<string>, Rejection>)
    ensures r.Success? ==> r.value == ids + Ids(students)
  {
    if students == [] then Success(ids)
    else
      var last := students[|students| - 1];
      var prev := CheckStudents(students[..|students| - 1], ids);
      if prev.Failure? then prev
      else if last.userId in prev.value then Failure(MultipleCabs(last.name))
      else
        assert Ids(students) == Ids(students[..|students| - 1]) + [last.userId];
        Success(prev.value + [last.userId])
  }

  /** The checks of one cab, in the loop's order. */
  function CheckCab(cab: SubmittedCab, seen: Seen): Result<Seen, Rejection> {
    if !HasFields(cab) then Failure(MissingFields)
    else if !SizeOk(cab) then Failure(BadSize)
    else if cab.cabNumber in seen.cabNumbers then Failure(DuplicateCabNumber(cab.cabNumber))
    else if cab.passkey in seen.passkeys then Failure(DuplicatePasskey(cab.passkey))
    else
      var ids := CheckStudents(cab.assignedStudents, seen.studentIds);
      if ids.Failure? then Failure(ids.error)
      else Success(Seen(seen.cabNumbers + [cab.cabNumber], seen.passkeys + [cab.passkey], ids.value))
  }

  /** The validation loop over the cabs: the first failing check answers. */
  function CheckCabs(cabs: seq<SubmittedCab>): Result<Seen, Rejection> {
    if cabs == [] then Success(Seen([], [], []))
    else
      var prev := CheckCabs(cabs[..|cabs| - 1]);
      if prev.Failure? then prev else CheckCab(cabs[|cabs| - 1], prev.value)
  }

  lemma DistinctSnoc(xs: seq<string>, x: string)
    ensures Distinct(xs + [x]) <==> Distinct(xs) && x !in xs
  {
    if Distinct(xs + [x]) {
      forall k, m | 0 <= k < m < |xs| ensures xs[k] != xs[m] {
        assert xs[k] == (xs + [x])[k] && xs[m] == (xs + [x])[m];
      }
      forall k | 0 <= k < |xs| ensures xs[k] != x {
        assert xs[k] == (xs + [x])[k] && x == (xs + [x])[|xs|];
      }
    }
  }

  /** The inner loop fails exactly when the cab's students repeat one another
      or one already assigned. */
  lemma {:induction false} CheckStudentsSpec(students: seq<SubmittedStudent>, ids: seq<string>)
    requires Distinct(ids)
    ensures CheckStudents(students, ids).Success? <==> Distinct(ids + Ids(students))
  {
    if students != [] {
      var init, last := students[..|students| - 1], students[|students| - 1];
      CheckStudentsSpec(init, ids);
      assert ids + Ids(students) == (ids + Ids(init)) + [last.userId] by {
        assert Ids(students) == Ids(init) + [last.userId];
      }
      DistinctSnoc(ids + Ids(init), last.userId);
      if !Distinct(ids + Ids(init)) {
        assert !Distinct(ids + Ids(students));
      }
    } else {
      assert ids + Ids(students) == ids;
    }
  }

  lemma DistinctAppendLeft(xs: seq<string>, ys: seq<string>)
    requires Distinct(xs + ys)
    ensures Distinct(xs)
  {
    forall k, m | 0 <= k < m < |xs| ensures xs[k] != xs[m] {
      assert xs[k] == (xs + ys)[k] && xs[m] == (xs + ys)[m];
    }
  }

  /** The rules hold of one more cab exactly when they hold of the cabs
      before it and the new cab is complete, of the right size, and repeats
      no cab number, passkey or student. */
  lemma AllValidSnoc(cabs: seq<SubmittedCab>)
    requires cabs != []
    ensures var init, last := cabs[..|cabs| - 1], cabs[|cabs| - 1];
      AllValid(cabs) <==> (AllValid(init) && HasFields(last) && SizeOk(last)
        && last.cabNumber !in CabNumbers(init) && last.passkey !in Passkeys(init)
        && Distinct(AssignedIds(init) + Ids(last.assignedStudents)))
  {
    var init, last := cabs[..|cabs| - 1], cabs[|cabs| - 1];
    assert CabNumbers(cabs) == CabNumbers(init) + [last.cabNumber];
    assert Passkeys(cabs) == Passkeys(init) + [last.passkey];
    DistinctSnoc(CabNumbers(init), last.cabNumber);
    DistinctSnoc(Passkeys(init), last.passkey);
    assert forall k :: 0 <= k < |init| ==> init[k] == cabs[k];
    if Distinct(AssignedIds(init) + Ids(last.assignedStudents)) {
      DistinctAppendLeft(AssignedIds(init), Ids(last.assignedStudents));
    }
    if AllValid(init) && HasFields(last) && SizeOk(last) {
      forall k | 0 <= k < |cabs| ensures HasFields(cabs[k]) && SizeOk(cabs[k]) {
        if k < |init| {
          assert cabs[k] == init[k];
        }
      }
    }
  }

  /** The loop accepts the cabs exactly when they satisfy the rules; the
      arrays it leaves are the cabs' numbers, passkeys and students. */
  lemma {:induction false} CheckCabsSpec(cabs: seq<SubmittedCab>)
    ensures CheckCabs(cabs).Success? <==> AllValid(cabs)
    ensures CheckCabs(cabs).Success? ==> CheckCabs(cabs).value == Seen(CabNumbers(cabs), Passkeys(cabs), AssignedIds(cabs))
  {
    if cabs != [] {
      var init, last := cabs[..|cabs| - 1], cabs[|cabs| - 1];
      CheckCabsSpec(init);
      AllValidSnoc(cabs);
      assert CabNumbers(cabs) == CabNumbers(init) + [last.cabNumber];
      assert Passkeys(cabs) == Passkeys(init) + [last.passkey];
      if CheckCabs(init).Success? {
        CheckStudentsSpec(last.assignedStudents, AssignedIds(init));
      }
    }
  }

  /** After cabs 0..k-1 pass with the arrays `seen`, the loop's answer after
      cab k is cab k's own check. */
  lemma CheckCabsExtend(cabs: seq<SubmittedCab>, k: nat, seen: Seen)
    requires k < |cabs| && CheckCabs(cabs[..k]) == Success(seen)
    ensures CheckCabs(cabs[..k + 1]) == CheckCab(cabs[k], seen)
  {
    assert cabs[..k + 1][..k] == cabs[..k];
  }

  lemma PrefixSnoc(cabs: seq<SubmittedCab>, k: nat)
    requires k < |cabs|
    ensures cabs[..k + 1] == cabs[..k] + [cabs[k]]
  {
  }

  /** The checks of one cab fail in the order of the loop. */
  lemma CheckCabOrder(cab: SubmittedCab, seen: Seen)
    ensures !HasFields(cab) ==> CheckCab(cab, seen) == Failure(MissingFields)
    ensures HasFields(cab) && !SizeOk(cab) ==> CheckCab(cab, seen) == Failure(BadSize)
    ensures HasFields(cab) && SizeOk(cab) && cab.cabNumber in seen.cabNumbers ==>
      CheckCab(cab, seen) == Failure(DuplicateCabNumber(cab.cabNumber))
    ensures HasFields(cab) && SizeOk(cab) && cab.cabNumber !in seen.cabNumbers && cab.passkey in seen.passkeys ==>
      CheckCab(cab, seen) == Failure(DuplicatePasskey(cab.passkey))
  {
  }

  /** Cabs are checked in order and the first failure wins: after valid cabs
      0..k-1, cab k's first failing check gives the answer. */
  lemma FirstInvalidCab(cabs: seq<SubmittedCab>, k: nat)
    requires k < |cabs| && AllValid(cabs[..k])
    ensures !HasFields(cabs[k]) ==> CheckCabs(cabs) == Failure(MissingFields)
    ensures HasFields(cabs[k]) && !SizeOk(cabs[k]) ==> CheckCabs(cabs) == Failure(BadSize)
    ensures HasFields(cabs[k]) && SizeOk(cabs[k]) && cabs[k].cabNumber in CabNumbers(cabs[..k]) ==>
      CheckCabs(cabs) == Failure(DuplicateCabNumber(cabs[k].cabNumber))
    ensures (HasFields(cabs[k]) && SizeOk(cabs[k]) && cabs[k].cabNumber !in CabNumbers(cabs[..k])
      && cabs[k].passkey in Passkeys(cabs[..k])) ==>
      CheckCabs(cabs) == Failure(DuplicatePasskey(cabs[k].passkey))
  {
    var seen := Seen(CabNumbers(cabs[..k]), Passkeys(cabs[..k]), AssignedIds(cabs[..k]));
    CheckCabsSpec(cabs[..k]);
    CheckCabOrder(cabs[k], seen);
    var verdict := CheckCab(cabs[k], seen);
    if verdict.Failure? {
      CheckCabsExtend(cabs, k, seen);
      CheckCabsFailurePrefix(cabs, k + 1, verdict.error);
    }
  }

  /** When the cabs before j fail, the whole array fails the same way. */
  lemma CheckCabsFailurePrefix(cabs: seq<SubmittedCab>, j: nat, error: Rejection)
    requires j <= |cabs| && CheckCabs(cabs[..j]) == Failure(error)
    ensures CheckCabs(cabs) == Failure(error)
  {
    CheckCabsFailureAppend(cabs[..j], cabs[j..], error);
    assert cabs[..j] + cabs[j..] == cabs;
  }

  /** Once some cabs fail, the cabs after them are not looked at. */
  lemma {:induction false} CheckCabsFailureAppend(xs: seq<SubmittedCab>, ys: seq<SubmittedCab>, error: Rejection)
    requires CheckCabs(xs) == Failure(error)
    ensures CheckCabs(xs + ys) == Failure(error)
  {
    if ys != [] {
      var init := ys[..|ys| - 1];
      CheckCabsFailureAppend(xs, init, error);
      assert (xs + ys)[..|xs + ys| - 1] == xs + init;
    } else {
      assert xs + ys == xs;
    }
  }

  /** `submitAllocation`'s validation loop (lines 315-369): the three arrays
      grow cab by cab; the first failing check answers. */
  method Validate(cabs: seq<SubmittedCab>) returns (r: Result<Seen, Rejection>)
    ensures r == CheckCabs(cabs)
  {
    var assignedStudentIds: seq<string> := [];
    var cabNumbers: seq<string> := [];
    var passkeys: seq<string> := [];
    for i := 0 to |cabs|
      invariant CheckCabs(cabs[..i]) == Success(Seen(cabNumbers, passkeys, assignedStudentIds))
    {
      var cab := cabs[i];
      ghost var verdict := CheckCab(cab, Seen(cabNumbers, passkeys, assignedStudentIds));
      CheckCabsExtend(cabs, i, Seen(cabNumbers, passkeys, assignedStudentIds));
      if verdict.Failure? {
        CheckCabsFailurePrefix(cabs, i + 1, verdict.error);
      }
      if !HasFields(cab) {
        return Failure(MissingFields);
      }
      if !SizeOk(cab) {
        return Failure(BadSize);
      }
      if cab.cabNumber in cabNumbers {
        return Failure(DuplicateCabNumber(cab.cabNumber));
      }
      cabNumbers := cabNumbers + [cab.cabNumber];
      if cab.passkey in passkeys {
        return Failure(DuplicatePasskey(cab.passkey));
      }
      passkeys := passkeys + [cab.passkey];
      ghost var before := assignedStudentIds;
      var students := cab.assignedStudents;
      for j := 0 to |students|
        invariant CheckStudents(students[..j], before) == Success(assignedStudentIds)
      {
        var student := students[j];
        assert students[..j + 1][..j] == students[..j];
        if student.userId in assignedStudentIds {
          CheckStudentsPrefixFails(students, j + 1, before);
          return Failure(MultipleCabs(student.name));
        }
        assignedStudentIds := assignedStudentIds + [student.userId];
      }
      assert students[..|students|] == students;
    }
    assert cabs[..|cabs|] == cabs;
    return Success(Seen(cabNumbers, passkeys, assignedStudentIds));
  }

  /** A failing prefix of a cab's students fails the whole inner loop. */
  lemma {:induction false} CheckStudentsPrefixFails(students: seq<SubmittedStudent>, j: nat, ids: seq<string>)
    requires j <= |students| && CheckStudents(students[..j], ids).Failure?
    ensures CheckStudents(students, ids) == CheckStudents(students[..j], ids)
    decreases |students| - j
  {
    if j < |students| {
      assert students[..j + 1][..j] == students[..j];
      CheckStudentsPrefixFails(students, j + 1, ids);
    } else {
      assert students[..j] == students;
    }
  }

  // ---------------------------------------------------------------------
  // Rows and table views
  // ---------------------------------------------------------------------

  /** A `trip_users` row: a booking of a trip by a student. */
  datatype TripUser = TripUser(tripId: string, userId: string)

  /** A `cabs` row. */
  datatype CabRow = CabRow(
    id: nat, tripId: string, cabNumber: string, capacity: int, cabType: string,
    ownerName: string, ownerPhone: string, pickupRegion: string, passkey: string)

  /** A `cab_allocations` row: a student's seat in a cab of a trip. */
  datatype AllocationRow = AllocationRow(tripId: string, userId: string, cabId: nat)

  function CabOfTrip(t: string): CabRow -> bool { (c: CabRow) => c.tripId == t }
  function CabNotOfTrip(t: string): CabRow -> bool { (c: CabRow) => c.tripId != t }
  function SeatOfTrip(t: string): AllocationRow -> bool { (a: AllocationRow) => a.tripId == t }
  function SeatNotOfTrip(t: string): AllocationRow -> bool { (a: AllocationRow) => a.tripId != t }
  function BookingOfTrip(t: string): TripUser -> bool { (b: TripUser) => b.tripId == t }
  function NotIn(ids: seq<string>): string -> bool { (id: string) => id !in ids }

  /** The students of the given allocation rows. */
  function Users(rows: seq<AllocationRow>): (r: seq<string>)
    ensures |r| == |rows|
  {
    seq(|rows|, k requires 0 <= k < |rows| => rows[k].userId)
  }

  /** The trip's cabs, in table order. */
  function TripCabs(rows: seq<CabRow>, t: string): seq<CabRow> {
    Filter(rows, CabOfTrip(t))
  }

  /** The students seated in the trip, in table order. */
  function TripStudents(rows: seq<AllocationRow>, t: string): seq<string> {
    Users(Filter(rows, SeatOfTrip(t)))
  }

  /** `SELECT user_id FROM trip_users WHERE trip_id = $1` */
  function BookedIds(tripUsers: seq<TripUser>, t: string): seq<string> {
    var rows := Filter(tripUsers, BookingOfTrip(t));
    seq(|rows|, k requires 0 <= k < |rows| => rows[k].userId)
  }

  /** `bookedStudentIds.filter(id => !assignedStudentIds.includes(id))`: the
      list is empty exactly when every booked student is assigned. */
  function Unassigned(booked: seq<string>, assignedIds: seq<string>): seq<string> {
    Filter(booked, NotIn(assignedIds))
  }

  lemma UnassignedSpec(booked: seq<string>, assignedIds: seq<string>)
    ensures Unassigned(booked, assignedIds) == [] <==> forall id :: id in booked ==> id in assignedIds
  {
    var r := Unassigned(booked, assignedIds);
    if r != [] {
      FilterMember(booked, NotIn(assignedIds), r[0]);
    } else {
      forall id | id in booked ensures id in assignedIds {
        FilterMember(booked, NotIn(assignedIds), id);
      }
    }
  }

  /** `cab.capacity || 7` */
  function SavedCapacity(capacity: int): int {
    if capacity == 0 then DefaultCapacity else capacity
  }

  /** The row inserted for a submitted cab. */
  function CabRowOf(t: string, cab: SubmittedCab, id: nat): CabRow {
    CabRow(id, t, cab.cabNumber, SavedCapacity(cab.capacity), cab.cabType, cab.driverName, cab.driverPhone,
           cab.pickupRegion, cab.passkey)
  }

  /** The rows inserted for the submitted cabs, with ids from `first` on. */
  function CabRows(t: string, cabs: seq<SubmittedCab>, first: nat): (r: seq<CabRow>)
    ensures |r| == |cabs|
  {
    seq(|cabs|, k requires 0 <= k < |cabs| => CabRowOf(t, cabs[k], first + k))
  }

  /** The allocation rows inserted for one cab's students. */
  function StudentRows(t: string, students: seq<SubmittedStudent>, cabId: nat): (r: seq<AllocationRow>)
    ensures |r| == |students|
  {
    seq(|students|, k requires 0 <= k < |students| => AllocationRow(t, students[k].userId, cabId))
  }

  /** The allocation rows inserted for the submitted cabs, cab after cab. */
  function AllocationRows(t: string, cabs: seq<SubmittedCab>, first: nat): seq<AllocationRow> {
    if cabs == [] then []
    else AllocationRows(t, cabs[..|cabs| - 1], first) + StudentRows(t, cabs[|cabs| - 1].assignedStudents, first + |cabs| - 1)
  }

  /** The tables after a save: the other trips' rows, then the new ones. */
  function SavedCabs(cabs: seq<CabRow>, t: string, submitted: seq<SubmittedCab>, first: nat): seq<CabRow> {
    Filter(cabs, CabNotOfTrip(t)) + CabRows(t, submitted, first)
  }

  function SavedAllocations(rows: seq<AllocationRow>, t: string, submitted: seq<SubmittedCab>, first: nat): seq<AllocationRow> {
    Filter(rows, SeatNotOfTrip(t)) + AllocationRows(t, submitted, first)
  }

  /** The tables' keys and references: every cab id is below the next one and
      names one cab, and every allocation points to a cab of its own trip. */
  predicate Integrity(cabs: seq<CabRow>, allocations: seq<AllocationRow>, next: nat) {
    && (forall c :: c in cabs ==> c.id < next)
    && (forall c, d :: c in cabs && d in cabs && c.id == d.id ==> c == d)
    && (forall a :: a in allocations ==> HasCab(cabs, a))
  }

  // ---------------------------------------------------------------------
  // What a save does to the tables
  // ---------------------------------------------------------------------

  lemma CabRowsMember(t: string, cabs: seq<SubmittedCab>, first: nat, c: CabRow)
    requires c in CabRows(t, cabs, first)
    ensures c.tripId == t && first <= c.id < first + |cabs| && c == CabRows(t, cabs, first)[c.id - first]
  {
  }

  lemma {:induction false} AllocationRowsMember(t: string, cabs: seq<SubmittedCab>, first: nat, a: AllocationRow)
    requires a in AllocationRows(t, cabs, first)
    ensures a.tripId == t && first <= a.cabId < first + |cabs|
  {
    var init := cabs[..|cabs| - 1];
    if a !in StudentRows(t, cabs[|cabs| - 1].assignedStudents, first + |cabs| - 1) {
      AllocationRowsMember(t, init, first, a);
    }
  }

  /** After a save every cab id is below the next one, and the new rows' ids
      are the fresh ones. */
  lemma SavedCabIds(cabs: seq<CabRow>, next: nat, t: string, submitted: seq<SubmittedCab>)
    requires forall c :: c in cabs ==> c.id < next
    ensures forall c :: c in SavedCabs(cabs, t, submitted, next) ==> c.id < next + |submitted|
  {
    var added := CabRows(t, submitted, next);
    forall c | c in SavedCabs(cabs, t, submitted, next)
      ensures c.id < next + |submitted|
    {
      FilterMember(cabs, CabNotOfTrip(t), c);
      if c in added {
        CabRowsMember(t, submitted, next, c);
      }
    }
  }

  /** After a save a cab id still names one cab. */
  lemma SavedCabIdsUnique(cabs: seq<CabRow>, next: nat, t: string, submitted: seq<SubmittedCab>)
    requires forall c :: c in cabs ==> c.id < next
    requires forall c, d :: c in cabs && d in cabs && c.id == d.id ==> c == d
    ensures var saved := SavedCabs(cabs, t, submitted, next);
      forall c, d :: c in saved && d in saved && c.id == d.id ==> c == d
  {
    var added := CabRows(t, submitted, next);
    var newCabs := SavedCabs(cabs, t, submitted, next);
    forall c, d | c in newCabs && d in newCabs && c.id == d.id
      ensures c == d
    {
      FilterMember(cabs, CabNotOfTrip(t), c);
      FilterMember(cabs, CabNotOfTrip(t), d);
      if c in added {
        CabRowsMember(t, submitted, next, c);
      }
      if d in added {
        CabRowsMember(t, submitted, next, d);
      }
    }
  }

  /** The allocation names a cab of its own trip. */
  predicate HasCab(cabs: seq<CabRow>, a: AllocationRow) {
    exists c :: c in cabs && c.id == a.cabId && c.tripId == a.tripId
  }

  /** After a save every allocation still points to a cab of its own trip. */
  lemma SavedAllocationsReferenced(cabs: seq<CabRow>, allocations: seq<AllocationRow>, next: nat, t: string,
                                   submitted: seq<SubmittedCab>)
    requires forall a :: a in allocations ==> HasCab(cabs, a)
    ensures forall a :: a in SavedAllocations(allocations, t, submitted, next) ==> HasCab(SavedCabs(cabs, t, submitted, next), a)
  {
    var kept, added := Filter(cabs, CabNotOfTrip(t)), CabRows(t, submitted, next);
    var newCabs := SavedCabs(cabs, t, submitted, next);
    forall a | a in SavedAllocations(allocations, t, submitted, next)
      ensures HasCab(newCabs, a)
    {
      FilterMember(allocations, SeatNotOfTrip(t), a);
      if a in Filter(allocations, SeatNotOfTrip(t)) {
        assert HasCab(cabs, a);
        var c :| c in cabs && c.id == a.cabId && c.tripId == a.tripId;
        FilterMember(cabs, CabNotOfTrip(t), c);
        assert c in newCabs;
      } else {
        AllocationRowsMember(t, submitted, next, a);
        var c := added[a.cabId - next];
        assert c in newCabs;
      }
    }
  }

  /** A save keeps the keys and references intact. */
  lemma SaveKeepsIntegrity(cabs: seq<CabRow>, allocations: seq<AllocationRow>, next: nat, t: string,
                           submitted: seq<SubmittedCab>)
    requires Integrity(cabs, allocations, next)
    ensures Integrity(SavedCabs(cabs, t, submitted, next), SavedAllocations(allocations, t, submitted, next),
                      next + |submitted|)
  {
    SavedCabIds(cabs, next, t, submitted);
    SavedCabIdsUnique(cabs, next, t, submitted);
    SavedAllocationsReferenced(cabs, allocations, next, t, submitted);
  }


  lemma {:induction false} UsersOfAllocationRows(t: string, cabs: seq<SubmittedCab>, first: nat)
    ensures Users(AllocationRows(t, cabs, first)) == AssignedIds(cabs)
  {
    if cabs != [] {
      var init, last := cabs[..|cabs| - 1], cabs[|cabs| - 1];
      UsersOfAllocationRows(t, init, first);
      var xs, ys := AllocationRows(t, init, first), StudentRows(t, last.assignedStudents, first + |cabs| - 1);
      assert Users(xs + ys) == Users(xs) + Users(ys);
      assert Users(ys) == Ids(last.assignedStudents);
    }
  }

  lemma {:induction false} AllocationRowsOfTrip(t: string, cabs: seq<SubmittedCab>, first: nat)
    ensures forall k :: 0 <= k < |AllocationRows(t, cabs, first)| ==> AllocationRows(t, cabs, first)[k].tripId == t
  {
    var rows := AllocationRows(t, cabs, first);
    forall k | 0 <= k < |rows| ensures rows[k].tripId == t {
      AllocationRowsMember(t, cabs, first, rows[k]);
    }
  }

  lemma TripCabsAfterSave(cabs: seq<CabRow>, t: string, submitted: seq<SubmittedCab>, next: nat)
    ensures TripCabs(SavedCabs(cabs, t, submitted, next), t) == CabRows(t, submitted, next)
  {
    var kept, added := Filter(cabs, CabNotOfTrip(t)), CabRows(t, submitted, next);
    FilterAppend(kept, added, CabOfTrip(t));
    FilterSatisfies(cabs, CabNotOfTrip(t));
    FilterNone(kept, CabOfTrip(t));
    FilterAll(added, CabOfTrip(t));
    assert [] + added == added;
  }

  lemma TripStudentsAfterSave(allocations: seq<AllocationRow>, t: string, submitted: seq<SubmittedCab>, next: nat)
    ensures TripStudents(SavedAllocations(allocations, t, submitted, next), t) == AssignedIds(submitted)
  {
    var kept, added := Filter(allocations, SeatNotOfTrip(t)), AllocationRows(t, submitted, next);
    FilterAppend(kept, added, SeatOfTrip(t));
    FilterSatisfies(allocations, SeatNotOfTrip(t));
    FilterNone(kept, SeatOfTrip(t));
    AllocationRowsOfTrip(t, submitted, next);
    FilterAll(added, SeatOfTrip(t));
    assert Filter(kept + added, SeatOfTrip(t)) == added by {
      assert [] + added == added;
    }
    UsersOfAllocationRows(t, submitted, next);
  }

  lemma OtherCabsAfterSave(cabs: seq<CabRow>, t: string, submitted: seq<SubmittedCab>, next: nat, other: string)
    requires other != t
    ensures TripCabs(SavedCabs(cabs, t, submitted, next), other) == TripCabs(cabs, other)
  {
    var kept, added := Filter(cabs, CabNotOfTrip(t)), CabRows(t, submitted, next);
    FilterAppend(kept, added, CabOfTrip(other));
    FilterNone(added, CabOfTrip(other));
    FilterNarrower(cabs, CabNotOfTrip(t), CabOfTrip(other));
    assert Filter(kept, CabOfTrip(other)) + [] == Filter(kept, CabOfTrip(other));
  }

  lemma OtherStudentsAfterSave(allocations: seq<AllocationRow>, t: string, submitted: seq<SubmittedCab>, next: nat,
                               other: string)
    requires other != t
    ensures TripStudents(SavedAllocations(allocations, t, submitted, next), other) == TripStudents(allocations, other)
  {
    var kept, added := Filter(allocations, SeatNotOfTrip(t)), AllocationRows(t, submitted, next);
    FilterAppend(kept, added, SeatOfTrip(other));
    AllocationRowsOfTrip(t, submitted, next);
    FilterNone(added, SeatOfTrip(other));
    FilterNarrower(allocations, SeatNotOfTrip(t), SeatOfTrip(other));
    assert Filter(kept, SeatOfTrip(other)) + [] == Filter(kept, SeatOfTrip(other));
  }

  /** After a save, the trip's cabs are exactly the submitted ones, in order,
      and its seated students exactly the submitted students; every other
      trip's cabs and students are as before. */
  lemma SaveReplaces(cabs: seq<CabRow>, allocations: seq<AllocationRow>, next: nat, t: string,
                     submitted: seq<SubmittedCab>, other: string)
    ensures TripCabs(SavedCabs(cabs, t, submitted, next), t) == CabRows(t, submitted, next)
    ensures TripStudents(SavedAllocations(allocations, t, submitted, next), t) == AssignedIds(submitted)
    ensures other != t ==>
      && TripCabs(SavedCabs(cabs, t, submitted, next), other) == TripCabs(cabs, other)
      && TripStudents(SavedAllocations(allocations, t, submitted, next), other) == TripStudents(allocations, other)
  {
    TripCabsAfterSave(cabs, t, submitted, next);
    TripStudentsAfterSave(allocations, t, submitted, next);
    if other != t {
      OtherCabsAfterSave(cabs, t, submitted, next, other);
      OtherStudentsAfterSave(allocations, t, submitted, next, other);
    }
  }

  lemma {:induction false} DistinctOnce(xs: seq<string>, x: string)
    requires Distinct(xs) && x in xs
    ensures multiset(xs)[x] == 1
  {
    var init, last := xs[..|xs| - 1], xs[|xs| - 1];
    assert xs == init + [last];
    DistinctSnoc(init, last);
    if x != last {
      DistinctOnce(init, x);
    } else {
      assert x !in init;
    }
  }

  /** An accepted submission seats every booked student of the trip exactly
      once. */
  lemma SaveSeatsEveryBookingOnce(cabs: seq<CabRow>, allocations: seq<AllocationRow>, next: nat, t: string,
                                  submitted: seq<SubmittedCab>, booked: seq<string>)
    requires AllValid(submitted) && Unassigned(booked, AssignedIds(submitted)) == []
    ensures forall u :: u in booked ==>
      multiset(TripStudents(SavedAllocations(allocations, t, submitted, next), t))[u] == 1
  {
    TripStudentsAfterSave(allocations, t, submitted, next);
    UnassignedSpec(booked, AssignedIds(submitted));
    forall u | u in booked
      ensures multiset(TripStudents(SavedAllocations(allocations, t, submitted, next), t))[u] == 1
    {
      DistinctOnce(AssignedIds(submitted), u);
    }
  }

  // ---------------------------------------------------------------------
  // submitAllocation
  // ---------------------------------------------------------------------

  lemma CabRowsSnoc(t: string, cabs: seq<SubmittedCab>, first: nat, i: nat)
    requires i < |cabs|
    ensures CabRows(t, cabs[..i + 1], first) == CabRows(t, cabs[..i], first) + [CabRowOf(t, cabs[i], first + i)]
  {
  }

  lemma AllocationRowsSnoc(t: string, cabs: seq<SubmittedCab>, first: nat, i: nat)
    requires i < |cabs|
    ensures AllocationRows(t, cabs[..i + 1], first)
      == AllocationRows(t, cabs[..i], first) + StudentRows(t, cabs[i].assignedStudents, first + i)
  {
    PrefixSnoc(cabs, i);
    assert cabs[..i + 1][..i] == cabs[..i];
  }

  /** The trip tables the controller reads and writes. */
  class AllocationTables {
    var tripUsers: seq<TripUser>
    var cabs: seq<CabRow>
    var allocations: seq<AllocationRow>
    /** The id the database gives the next inserted cab. */
    var nextCabId: nat

    ghost predicate Valid()
      reads this
    {
      Integrity(cabs, allocations, nextCabId)
    }

    constructor(tripUsers: seq<TripUser>)
      ensures Valid() && this.tripUsers == tripUsers && cabs == [] && allocations == [] && nextCabId == 0
    {
      this.tripUsers := tripUsers;
      cabs := [];
      allocations := [];
      nextCabId := 0;
    }

    /** The transaction body: delete the trip's allocations and cabs, then
        insert every submitted cab and its students' allocations. */
    method Save(tripId: string, submittedCabs: seq<SubmittedCab>)
      modifies this
      ensures tripUsers == old(tripUsers)
      ensures cabs == SavedCabs(old(cabs), tripId, submittedCabs, old(nextCabId))
      ensures allocations == SavedAllocations(old(allocations), tripId, submittedCabs, old(nextCabId))
      ensures nextCabId == old(nextCabId) + |submittedCabs|
    {
      ghost var first := nextCabId;
      allocations := Filter(allocations, SeatNotOfTrip(tripId));
      cabs := Filter(cabs, CabNotOfTrip(tripId));
      ghost var keptCabs, keptAllocations := cabs, allocations;
      for i := 0 to |submittedCabs|
        invariant tripUsers == old(tripUsers)
        invariant cabs == keptCabs + CabRows(tripId, submittedCabs[..i], first)
        invariant allocations == keptAllocations + AllocationRows(tripId, submittedCabs[..i], first)
        invariant nextCabId == first + i
      {
        CabRowsSnoc(tripId, submittedCabs, first, i);
        AllocationRowsSnoc(tripId, submittedCabs, first, i);
        ghost var cabsBefore, rows := CabRows(tripId, submittedCabs[..i], first), AllocationRows(tripId, submittedCabs[..i], first);
        InsertCab(tripId, submittedCabs[i]);
        AppendAssoc(keptCabs, cabsBefore, [CabRowOf(tripId, submittedCabs[i], first + i)]);
        AppendAssoc(keptAllocations, rows, StudentRows(tripId, submittedCabs[i].assignedStudents, first + i));
      }
      assert submittedCabs[..|submittedCabs|] == submittedCabs;
    }

    /** Inserts one cab under the next id, then one allocation per student. */
    method InsertCab(tripId: string, cab: SubmittedCab)
      modifies this
      ensures tripUsers == old(tripUsers)
      ensures cabs == old(cabs) + [CabRowOf(tripId, cab, old(nextCabId))]
      ensures allocations == old(allocations) + StudentRows(tripId, cab.assignedStudents, old(nextCabId))
      ensures nextCabId == old(nextCabId) + 1
    {
      var cabId := nextCabId;
      cabs := cabs + [CabRowOf(tripId, cab, cabId)];
      nextCabId := nextCabId + 1;
      var students := cab.assignedStudents;
      for j := 0 to |students|
        invariant tripUsers == old(tripUsers) && cabs == old(cabs) + [CabRowOf(tripId, cab, cabId)] && nextCabId == cabId + 1
        invariant allocations == old(allocations) + StudentRows(tripId, students[..j], cabId)
      {
        assert StudentRows(tripId, students[..j + 1], cabId)
          == StudentRows(tripId, students[..j], cabId) + [AllocationRow(tripId, students[j].userId, cabId)];
        allocations := allocations + [AllocationRow(tripId, students[j].userId, cabId)];
      }
      assert students[..|students|] == students;
    }

    /** `submitAllocation(tripId, cabs)`: an absent trip id or cabs array is
        refused, then the validation loop runs, then every booked student must
        be assigned; only then are the trip's cabs and allocations deleted and
        the submitted ones inserted, cab after cab. */
    method SubmitAllocation(tripId: string, submitted: Option<seq<SubmittedCab>>) returns (status: nat, message: string)
      requires Valid()
      modifies this
      ensures Valid() && tripUsers == old(tripUsers)
      ensures tripId == "" || submitted.None? ==> status == 400 && message == RequiredError && unchanged(this)
      ensures tripId != "" && submitted.Some? && CheckCabs(submitted.value).Failure? ==>
        status == 400 && message == Message(CheckCabs(submitted.value).error) && unchanged(this)
      ensures tripId != "" && submitted.Some? && CheckCabs(submitted.value).Success? ==>
        var missing := Unassigned(BookedIds(old(tripUsers), tripId), AssignedIds(submitted.value));
        if missing != [] then status == 400 && message == NotAssigned(|missing|) && unchanged(this)
        else
          && status == 200 && message == SavedMessage
          && cabs == SavedCabs(old(cabs), tripId, submitted.value, old(nextCabId))
          && allocations == SavedAllocations(old(allocations), tripId, submitted.value, old(nextCabId))
          && nextCabId == old(nextCabId) + |submitted.value|
    {
      if tripId == "" || submitted.None? {
        return 400, RequiredError;
      }
      var submittedCabs := submitted.value;
      var bookedStudentIds := BookedIds(tripUsers, tripId);
      var check := Validate(submittedCabs);
      if check.Failure? {
        return 400, Message(check.error);
      }
      CheckCabsSpec(submittedCabs);
      var unassignedStudents := Unassigned(bookedStudentIds, check.value.studentIds);
      if |unassignedStudents| > 0 {
        return 400, NotAssigned(|unassignedStudents|);
      }
      SaveKeepsIntegrity(cabs, allocations, nextCabId, tripId, submittedCabs);
      Save(tripId, submittedCabs);
      return 200, SavedMessage;
    }
  }
}
