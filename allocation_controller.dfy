/** The admin allocation controller (allocation.controller.ts): the passkey
    generator, the suggestion of cabs from the solver's answer (`runAllocation`)
    and the validation and saving of an admin-submitted allocation
    (`submitAllocation`). The database is a set of maps; `Math.random` is a
    parameter. */
module AllocationController {
  import opened Wrappers
  import opened Text
  import opened CabModel
  import opened LpModel
  import opened CabSolver

  function Min(x: int, y: int): int {
    if x <= y then x else y
  }

  // ---------------------------------------------------------------------
  // generateUniquePasskey
  // ---------------------------------------------------------------------

  const MaxAttempts: nat := 100
  const PasskeyError := "Failed to generate unique passkey"

  /** The randomness the controller consumes: `random(n, k)` is
      `Math.floor(Math.random() * 9000)` at attempt k of the n-th passkey. */
  ghost predicate ValidRandom(random: (nat, nat) -> int) {
    forall n, k :: 0 <= random(n, k) < 9000
  }

  /** `Math.floor(1000 + d).toString()`: four digits, the first not zero. */
  function PasskeyOf(d: int): (p: string)
    requires 0 <= d < 9000
    ensures |p| == 4 && AllDigits(p) && p[0] != '0' && DigitsValue(p) == 1000 + d
  {
    FourDigitNumbers(1000 + d);
    NatToStringRoundTrip(1000 + d);
    NatToString(1000 + d)
  }

  /** Two draws give the same passkey only when they are equal. */
  lemma PasskeyOfInjective(d: int, e: int)
    requires 0 <= d < 9000 && 0 <= e < 9000 && PasskeyOf(d) == PasskeyOf(e)
    ensures d == e
  {
  }

  /** The candidates of the n-th call of `generateUniquePasskey`, attempt by
      attempt. */
  function Candidates(random: (nat, nat) -> int, n: nat): nat -> string
    requires ValidRandom(random)
  {
    (k: nat) => PasskeyOf(random(n, k))
  }

  /** The outcome of the passkey loop from attempt `attempts` on, over the
      candidates `cand`. */
  function PasskeyFrom(used: set<string>, cand: nat -> string, attempts: nat): (r: Result<string, string>)
    ensures r.Failure? ==> r.error == PasskeyError
    decreases MaxAttempts - attempts
  {
    if attempts >= MaxAttempts then Failure(PasskeyError)
    else if cand(attempts) !in used then Success(cand(attempts))
    else PasskeyFrom(used, cand, attempts + 1)
  }

  /** What the n-th call of `generateUniquePasskey` yields when the trip's cabs
      already use the passkeys `used`. */
  function Passkey(used: set<string>, random: (nat, nat) -> int, n: nat): Result<string, string>
    requires ValidRandom(random)
  {
    PasskeyFrom(used, Candidates(random, n), 0)
  }

  /** The loop answers with the first candidate from `attempts` on that no cab
      of the trip uses, and fails exactly when all remaining ones are in use. */
  lemma {:induction false} PasskeyFromSpec(used: set<string>, cand: nat -> string, attempts: nat)
    requires attempts <= MaxAttempts
    ensures var r := PasskeyFrom(used, cand, attempts);
      && (r.Success? <==> exists k :: attempts <= k < MaxAttempts && cand(k) !in used)
      && (r.Success? ==>
            exists k :: attempts <= k < MaxAttempts && r.value == cand(k)
              && r.value !in used && forall m :: attempts <= m < k ==> cand(m) in used)
    decreases MaxAttempts - attempts
  {
    if attempts < MaxAttempts && cand(attempts) in used {
      PasskeyFromSpec(used, cand, attempts + 1);
    }
  }

  /** `generateUniquePasskey` answers with a four-digit passkey in 1000..9999
      that no cab of the trip uses, the first such among its draws, or fails
      after 100 draws that are all in use. */
  lemma PasskeySpec(used: set<string>, random: (nat, nat) -> int, n: nat)
    requires ValidRandom(random)
    ensures var r := Passkey(used, random, n);
      && (r.Success? <==> exists k :: 0 <= k < MaxAttempts && PasskeyOf(random(n, k)) !in used)
      && (r.Success? ==>
            r.value !in used && |r.value| == 4 && AllDigits(r.value) && 1000 <= DigitsValue(r.value) <= 9999)
      && (r.Success? ==>
            exists k :: 0 <= k < MaxAttempts && r.value == PasskeyOf(random(n, k))
              && forall m :: 0 <= m < k ==> PasskeyOf(random(n, m)) in used)
      && (r.Failure? ==> r.error == PasskeyError)
  {
    var r := Passkey(used, random, n);
    if r.Success? {
      PasskeyFound(used, random, n);
      var k :| 0 <= k < MaxAttempts && r.value == PasskeyOf(random(n, k)) && r.value !in used
        && forall m :: 0 <= m < k ==> PasskeyOf(random(n, m)) in used;
      assert |r.value| == 4 && AllDigits(r.value) && 1000 <= DigitsValue(r.value) <= 9999;
    } else {
      PasskeyExhausted(used, random, n);
    }
  }

  /** A passkey found is the first draw no cab uses. */
  lemma PasskeyFound(used: set<string>, random: (nat, nat) -> int, n: nat)
    requires ValidRandom(random) && Passkey(used, random, n).Success?
    ensures var p := Passkey(used, random, n).value;
      exists k :: 0 <= k < MaxAttempts && p == PasskeyOf(random(n, k)) && p !in used
        && forall m :: 0 <= m < k ==> PasskeyOf(random(n, m)) in used
  {
    var cand := Candidates(random, n);
    PasskeyFromSpec(used, cand, 0);
    var p := Passkey(used, random, n).value;
    var k :| 0 <= k < MaxAttempts && p == cand(k) && p !in used && forall m :: 0 <= m < k ==> cand(m) in used;
    forall m | 0 <= m < k
      ensures PasskeyOf(random(n, m)) in used
    {
      assert cand(m) == PasskeyOf(random(n, m));
    }
    assert p == PasskeyOf(random(n, k));
  }

  /** A failure means every draw is in use. */
  lemma PasskeyExhausted(used: set<string>, random: (nat, nat) -> int, n: nat)
    requires ValidRandom(random) && Passkey(used, random, n).Failure?
    ensures forall k :: 0 <= k < MaxAttempts ==> PasskeyOf(random(n, k)) in used
  {
    var cand := Candidates(random, n);
    PasskeyFromSpec(used, cand, 0);
    forall k | 0 <= k < MaxAttempts
      ensures PasskeyOf(random(n, k)) in used
    {
      assert cand(k) == PasskeyOf(random(n, k));
    }
  }

  /** One attempt of the loop: a free candidate is the answer, a used one
      passes on to the next attempt. */
  lemma PasskeyFromStep(used: set<string>, cand: nat -> string, attempts: nat)
    requires attempts < MaxAttempts
    ensures cand(attempts) !in used ==> PasskeyFrom(used, cand, attempts) == Success(cand(attempts))
    ensures cand(attempts) in used ==> PasskeyFrom(used, cand, attempts) == PasskeyFrom(used, cand, attempts + 1)
  {
  }

  /** `generateUniquePasskey(tripId)`, the n-th call: `used` holds the passkeys
      of the trip's cabs. */
  method GenerateUniquePasskey(used: set<string>, random: (nat, nat) -> int, n: nat) returns (r: Result<string, string>)
    requires ValidRandom(random)
    ensures r == Passkey(used, random, n)
  {
    ghost var cand := Candidates(random, n);
    var attempts := 0;
    while attempts < MaxAttempts
      invariant attempts <= MaxAttempts
      invariant Passkey(used, random, n) == PasskeyFrom(used, cand, attempts)
    {
      var passkey := PasskeyOf(random(n, attempts));
      assert passkey == cand(attempts);
      PasskeyFromStep(used, cand, attempts);
      if passkey !in used {
        return Success(passkey);
      }
      attempts := attempts + 1;
    }
    return Failure(PasskeyError);
  }

  // ---------------------------------------------------------------------
  // runAllocation: drawing students for a destination
  // ---------------------------------------------------------------------

  /** A booking as the student query returns it, in booking order. */
  datatype Student = Student(bookingId: string, userId: string, hall: string, name: string)

  /** `REGION_TO_HALL[r]`, the hall code of region r (empty outside 0..6,
      where the controller never looks). */
  function HallOf(r: nat): (h: string)
    ensures r < Regions ==> h in HallToRegion && HallToRegion[h] == r
  {
    HallRegionInverse();
    if r in RegionToHall then RegionToHall[r] else ""
  }

  /** `students.filter(s => s.hall === hall)` */
  function FromHall(students: seq<Student>, hall: string): (r: seq<Student>)
    ensures |r| <= |students|
    ensures forall k :: 0 <= k < |r| ==> r[k].hall == hall
  {
    if students == [] then []
    else (if students[0].hall == hall then [students[0]] else []) + FromHall(students[1..], hall)
  }

  /** `list.splice(0, count)` for count ≥ 0: the first `count` elements, as far
      as they go. */
  function Take(list: seq<Student>, count: int): (r: seq<Student>)
    ensures |r| <= |list| && (count >= 0 ==> |r| <= count)
    ensures count >= 0 && count <= |list| ==> |r| == count
  {
    list[..Min(if count < 0 then 0 else count, |list|)]
  }

  /** The students drawn for destination j from origins 0..n-1 as written:
      for each origin with a positive count, the first `assignments[i][j]`
      bookings of that origin's hall, filtered afresh from the full list. */
  function Drawn(all: seq<Student>, a: seq<seq<int>>, j: nat, n: nat): seq<Student>
    requires IsMatrix(a) && j < Regions && n <= Regions
  {
    if n == 0 then []
    else
      Drawn(all, a, j, n - 1)
        + (if a[n - 1][j] > 0 then Take(FromHall(all, HallOf(n - 1)), a[n - 1][j]) else [])
  }

  lemma TakeCons(x: Student, xs: seq<Student>, count: int)
    requires count > 0
    ensures Take([x] + xs, count) == [x] + Take(xs, count - 1)
  {
    assert ([x] + xs)[1..] == xs;
  }

  /** Every destination's list of drawn students, as written. */
  function DrawnLists(all: seq<Student>, a: seq<seq<int>>): (lists: seq<seq<Student>>)
    requires IsMatrix(a)
    ensures |lists| == Regions
  {
    seq(Regions, j requires 0 <= j < Regions => Drawn(all, a, j, Regions))
  }

  /** `studentsForRegion` of lines 113-122: the origin loop. */
  method StudentsForRegion(all: seq<Student>, a: seq<seq<int>>, j: nat) returns (studentsForRegion: seq<Student>)
    requires IsMatrix(a) && j < Regions
    ensures studentsForRegion == Drawn(all, a, j, Regions)
  {
    studentsForRegion := [];
    for originIdx := 0 to Regions
      invariant studentsForRegion == Drawn(all, a, j, originIdx)
    {
      var count := a[originIdx][j];
      if count > 0 {
        var studentsFromOrigin := FromHall(all, HallOf(originIdx));
        studentsForRegion := studentsForRegion + Take(studentsFromOrigin, count);
      }
    }
  }

  // ---------------------------------------------------------------------
  // runAllocation: emitting the cabs
  // ---------------------------------------------------------------------

  /** A suggested cab without its passkey: its number (the `temp_` suffix),
      its pickup region and its students in seat order. */
  datatype Slot = Slot(number: nat, region: nat, students: seq<Student>)

  /** The chunks so far followed by the next one. */
  lemma ChunkAppend(list: seq<Student>, c: nat)
    ensures list[..Min(Capacity * c, |list|)] + Chunk(list, c) == list[..Min(Capacity * (c + 1), |list|)]
  {
  }

  /** The c-th `splice(0, 7)` of a destination's list: its students 7c..7c+6,
      as far as they go. */
  function Chunk(list: seq<Student>, c: nat): (r: seq<Student>)
    ensures |r| <= Capacity
  {
    list[Min(Capacity * c, |list|)..Min(Capacity * c + Capacity, |list|)]
  }

  /** `numCabs` as a loop bound: no cabs unless it is positive. */
  function CabCount(numCabs: int): nat {
    if numCabs <= 0 then 0 else numCabs
  }

  /** The `count` cabs of region `region`, numbered from `first`. */
  function RegionSlots(list: seq<Student>, region: nat, first: nat, count: nat): (r: seq<Slot>)
    ensures |r| == count
  {
    seq(count, c requires 0 <= c < count => Slot(first + c, region, Chunk(list, c)))
  }

  /** The cabs of regions 0..n-1, in order, when region j's students are
      lists[j] and it has y[j] cabs. */
  function Emit(lists: seq<seq<Student>>, y: seq<int>, n: nat): seq<Slot>
    requires |lists| == |y| && n <= |y|
  {
    if n == 0 then []
    else
      var prev := Emit(lists, y, n - 1);
      prev + RegionSlots(lists[n - 1], n - 1, |prev| + 1, CabCount(y[n - 1]))
  }

  /** Σ over regions 0..n-1 of their number of cabs. */
  function CabTotal(y: seq<int>, n: nat): nat
    requires n <= |y|
  {
    if n == 0 then 0 else CabTotal(y, n - 1) + CabCount(y[n - 1])
  }

  /** With no negative entry, the number of cabs is the sum of `numCabsPerRegion`. */
  lemma {:induction false} CabTotalIsSum(y: seq<int>, n: nat)
    requires n <= |y| && forall j :: 0 <= j < |y| ==> y[j] >= 0
    ensures CabTotal(y, n) == Sum(y[..n])
  {
    if n > 0 {
      CabTotalIsSum(y, n - 1);
      assert y[..n][..n - 1] == y[..n - 1];
    }
  }

  /** The cabs are numbered 1, 2, … in emission order, there are as many as
      the regions ask for, and their regions ascend. */
  lemma {:induction false} EmitNumbering(lists: seq<seq<Student>>, y: seq<int>, n: nat)
    requires |lists| == |y| && n <= |y|
    ensures var e := Emit(lists, y, n);
      && |e| == CabTotal(y, n)
      && (forall k :: 0 <= k < |e| ==> e[k].number == k + 1 && e[k].region < n)
      && (forall k, m :: 0 <= k <= m < |e| ==> e[k].region <= e[m].region)
  {
    if n > 0 {
      EmitNumbering(lists, y, n - 1);
    }
  }

  /** Emission only appends: the cabs of the first j regions come first. */
  lemma {:induction false} EmitPrefix(lists: seq<seq<Student>>, y: seq<int>, j: nat, n: nat)
    requires |lists| == |y| && j <= n <= |y|
    ensures |Emit(lists, y, j)| <= |Emit(lists, y, n)| && Emit(lists, y, j) == Emit(lists, y, n)[..|Emit(lists, y, j)|]
  {
    if j < n {
      EmitPrefix(lists, y, j, n - 1);
      var prev := Emit(lists, y, n - 1);
      assert Emit(lists, y, n)[..|prev|] == prev;
    }
  }

  /** Region j's cabs are the block between the cabs of the regions before it
      and those after it; the c-th of them carries the c-th chunk of lists[j]. */
  lemma RegionBlock(lists: seq<seq<Student>>, y: seq<int>, j: nat, n: nat)
    requires |lists| == |y| && j < n <= |y|
    ensures var e, start := Emit(lists, y, n), |Emit(lists, y, j)|;
      && start + CabCount(y[j]) <= |e|
      && (forall k :: 0 <= k < |e| ==> (e[k].region == j <==> start <= k < start + CabCount(y[j])))
      && (forall c :: 0 <= c < CabCount(y[j]) ==> e[start + c].students == Chunk(lists[j], c))
  {
    RegionBlockChunks(lists, y, j, n);
    RegionBlockBounds(lists, y, j, n);
  }

  /** The c-th cab after the regions before j carries the c-th chunk of lists[j]. */
  lemma RegionBlockChunks(lists: seq<seq<Student>>, y: seq<int>, j: nat, n: nat)
    requires |lists| == |y| && j < n <= |y|
    ensures var e, start := Emit(lists, y, n), |Emit(lists, y, j)|;
      && start + CabCount(y[j]) <= |e|
      && (forall c :: 0 <= c < CabCount(y[j]) ==> e[start + c].students == Chunk(lists[j], c))
  {
    var e, prev := Emit(lists, y, n), Emit(lists, y, j);
    var slots := RegionSlots(lists[j], j, |prev| + 1, CabCount(y[j]));
    assert Emit(lists, y, j + 1) == prev + slots;
    EmitPrefix(lists, y, j + 1, n);
    forall c | 0 <= c < CabCount(y[j])
      ensures e[|prev| + c].students == Chunk(lists[j], c)
    {
      assert e[|prev| + c] == (prev + slots)[|prev| + c] == slots[c];
    }
  }

  /** The cabs of region j are exactly those in that block. */
  lemma RegionBlockBounds(lists: seq<seq<Student>>, y: seq<int>, j: nat, n: nat)
    requires |lists| == |y| && j < n <= |y|
    ensures var e, start := Emit(lists, y, n), |Emit(lists, y, j)|;
      forall k :: 0 <= k < |e| ==> (e[k].region == j <==> start <= k < start + CabCount(y[j]))
  {
    var e, start := Emit(lists, y, n), |Emit(lists, y, j)|;
    EmitPrefix(lists, y, j + 1, n);
    EmitNumbering(lists, y, n);
    EmitNumbering(lists, y, j + 1);
    var block := Emit(lists, y, j + 1);
    assert |block| == start + CabCount(y[j]);
    forall k | 0 <= k < |e|
      ensures e[k].region == j <==> start <= k < start + CabCount(y[j])
    {
      if k < start {
        EmitNumbering(lists, y, j);
        EmitPrefix(lists, y, j, n);
        assert e[k] == Emit(lists, y, j)[k];
      } else if k < |block| {
        assert e[k] == block[k];
      } else {
        EmitAfter(lists, y, j + 1, n, k);
      }
    }
  }

  /** A cab emitted after the first j regions lies in region j or later. */
  lemma {:induction false} EmitAfter(lists: seq<seq<Student>>, y: seq<int>, j: nat, n: nat, k: nat)
    requires |lists| == |y| && j <= n <= |y| && |Emit(lists, y, j)| <= k < |Emit(lists, y, n)|
    ensures Emit(lists, y, n)[k].region >= j
  {
    if n > j {
      var prev := Emit(lists, y, n - 1);
      if k < |prev| {
        EmitAfter(lists, y, j, n - 1, k);
      }
    } else {
      assert false;
    }
  }

  /** The students of a list of cabs, cab after cab. */
  function SlotStudents(slots: seq<Slot>): seq<Student> {
    if slots == [] then [] else SlotStudents(slots[..|slots| - 1]) + slots[|slots| - 1].students
  }

  lemma SlotStudentsSnoc(slots: seq<Slot>, s: Slot)
    ensures SlotStudents(slots + [s]) == SlotStudents(slots) + s.students
  {
    assert (slots + [s])[..|slots|] == slots;
  }

  lemma {:induction false} SlotStudentsAppend(xs: seq<Slot>, ys: seq<Slot>)
    ensures SlotStudents(xs + ys) == SlotStudents(xs) + SlotStudents(ys)
  {
    if ys != [] {
      var init := ys[..|ys| - 1];
      assert xs + ys == (xs + init) + [ys[|ys| - 1]];
      SlotStudentsSnoc(xs + init, ys[|ys| - 1]);
      SlotStudentsAppend(xs, init);
      assert ys == init + [ys[|ys| - 1]];
      SlotStudentsSnoc(init, ys[|ys| - 1]);
    } else {
      assert xs + ys == xs;
    }
  }

  /** Region cabs take consecutive chunks: together they seat the first
      7·count students of the list, and all of them when the list is no longer. */
  lemma {:induction false} ChunksCover(list: seq<Student>, region: nat, first: nat, count: nat)
    ensures SlotStudents(RegionSlots(list, region, first, count)) == list[..Min(Capacity * count, |list|)]
  {
    if count > 0 {
      var init := RegionSlots(list, region, first, count - 1);
      var last := Slot(first + count - 1, region, Chunk(list, count - 1));
      assert RegionSlots(list, region, first, count) == init + [last];
      SlotStudentsSnoc(init, last);
      ChunksCover(list, region, first, count - 1);
      ChunkAppend(list, count - 1);
    }
  }

  // ---------------------------------------------------------------------
  // runAllocation: the suggested cabs
  // ---------------------------------------------------------------------

  /** A student in a suggested cab, with the 1-based `seat_position`. */
  datatype Seat = Seat(student: Student, seatPosition: nat)

  /** One entry of the `cabs` array of the response. */
  datatype SuggestedCab = SuggestedCab(
    tempId: string, pickupRegion: string, capacity: nat, cabNumber: string, cabType: string,
    driverName: string, driverPhone: string, passkey: string, assignedStudents: seq<Seat>)

  /** `temp_${n}` */
  function TempId(n: nat): string {
    "temp_" + NatToString(n)
  }

  /** Distinct cab numbers give distinct temp ids. */
  lemma TempIdInjective(n: nat, m: nat)
    requires TempId(n) == TempId(m)
    ensures n == m
  {
    assert NatToString(n) == TempId(n)[5..];
    assert NatToString(m) == TempId(m)[5..];
    NatToStringRoundTrip(n);
    NatToStringRoundTrip(m);
  }

  /** The students of a cab with seat positions 1..n in order. */
  function Seats(students: seq<Student>): seq<Seat> {
    seq(|students|, k requires 0 <= k < |students| => Seat(students[k], k + 1))
  }

  /** The object pushed for a cab: an `Omni` for seven with blank number and
      driver, to be filled in by the admin. */
  function CabOf(s: Slot, passkey: string): SuggestedCab {
    SuggestedCab(TempId(s.number), HallOf(s.region), Capacity, "", "Omni", "", "", passkey, Seats(s.students))
  }

  /** A passkey source: the outcome of the n-th call of the generator when it
      must avoid the given passkeys. */
  type Generator = (set<string>, nat) -> Result<string, string>

  /** `generateUniquePasskey` over the draws `random`. */
  function PasskeyGenerator(random: (nat, nat) -> int): Generator
    requires ValidRandom(random)
  {
    (used: set<string>, n: nat) => Passkey(used, random, n)
  }

  lemma PasskeyGeneratorCall(random: (nat, nat) -> int, used: set<string>, n: nat)
    requires ValidRandom(random)
    ensures PasskeyGenerator(random)(used, n) == Passkey(used, random, n)
  {
  }

  /** As written: each cab's passkey avoids only the passkeys already saved
      for the trip; the first failing call fails the whole suggestion. */
  function Attach(slots: seq<Slot>, used: set<string>, gen: Generator): (r: Result<seq<SuggestedCab>, string>)
    ensures r.Success? ==> |r.value| == |slots|
  {
    if slots == [] then Success([])
    else
      var last := slots[|slots| - 1];
      var prev := Attach(slots[..|slots| - 1], used, gen);
      if prev.Failure? then prev
      else
        var passkey := gen(used, last.number);
        if passkey.Failure? then Failure(passkey.error) else Success(prev.value + [CabOf(last, passkey.value)])
  }

  lemma AttachSnoc(slots: seq<Slot>, s: Slot, used: set<string>, gen: Generator)
    ensures var prev := Attach(slots, used, gen);
      Attach(slots + [s], used, gen) ==
        if prev.Failure? then prev
        else
          var passkey := gen(used, s.number);
          if passkey.Failure? then Failure(passkey.error) else Success(prev.value + [CabOf(s, passkey.value)])
  {
    assert (slots + [s])[..|slots|] == slots;
  }

  /** One more cab after a successful prefix. */
  lemma AttachStep(slots: seq<Slot>, s: Slot, used: set<string>, gen: Generator,
                   cabs: seq<SuggestedCab>, passkey: Result<string, string>)
    requires Attach(slots, used, gen) == Success(cabs) && gen(used, s.number) == passkey
    ensures Attach(slots + [s], used, gen)
      == if passkey.Failure? then Failure(passkey.error) else Success(cabs + [CabOf(s, passkey.value)])
  {
    AttachSnoc(slots, s, used, gen);
  }

  /** Once a passkey call fails, the suggestion fails with its error. */
  lemma {:induction false} AttachFailurePersists(xs: seq<Slot>, ys: seq<Slot>, used: set<string>, gen: Generator)
    requires |xs| <= |ys| && xs == ys[..|xs|]
    requires Attach(xs, used, gen).Failure?
    ensures Attach(ys, used, gen) == Attach(xs, used, gen)
  {
    if |xs| < |ys| {
      AttachFailurePersists(xs, ys[..|ys| - 1], used, gen);
    } else {
      assert xs == ys;
    }
  }

  /** Every cab's passkey call succeeds. */
  predicate AllPasskeys(slots: seq<Slot>, used: set<string>, gen: Generator) {
    forall k :: 0 <= k < |slots| ==> gen(used, slots[k].number).Success?
  }

  /** The suggestion succeeds iff every cab's passkey call does. */
  lemma {:induction false} AttachSucceeds(slots: seq<Slot>, used: set<string>, gen: Generator)
    ensures Attach(slots, used, gen).Success? <==> AllPasskeys(slots, used, gen)
  {
    if slots != [] {
      var init, last := slots[..|slots| - 1], slots[|slots| - 1];
      AttachSucceeds(init, used, gen);
      assert AllPasskeys(slots, used, gen) <==> AllPasskeys(init, used, gen) && gen(used, last.number).Success? by {
        assert forall k :: 0 <= k < |init| ==> init[k] == slots[k];
      }
    }
  }

  /** When the suggestion succeeds, cab k is slot k with the passkey of its own
      call. */
  lemma {:induction false} AttachValues(slots: seq<Slot>, used: set<string>, gen: Generator, k: nat)
    requires k < |slots| && Attach(slots, used, gen).Success?
    ensures gen(used, slots[k].number).Success?
    ensures Attach(slots, used, gen).value[k] == CabOf(slots[k], gen(used, slots[k].number).value)
  {
    var init := slots[..|slots| - 1];
    if k < |init| {
      AttachValues(init, used, gen, k);
      assert init[k] == slots[k];
    }
  }

  /** One more region: its cabs follow those of the regions before it. */
  lemma EmitSnoc(lists: seq<seq<Student>>, y: seq<int>, j: nat)
    requires |lists| == |y| && j < |y|
    ensures var prev := Emit(lists, y, j);
      Emit(lists, y, j + 1) == prev + RegionSlots(lists[j], j, |prev| + 1, CabCount(y[j]))
    ensures y[j] == 0 ==> Emit(lists, y, j + 1) == Emit(lists, y, j)
  {
    assert RegionSlots(lists[j], j, |Emit(lists, y, j)| + 1, 0) == [];
  }

  /** One more cab: `splice(0, 7)` on what is left of the list takes the next
      chunk. */
  lemma ChunkStep(list: seq<Student>, c: nat, rest: seq<Student>)
    requires rest == list[Min(Capacity * c, |list|)..]
    ensures var taken := Take(rest, Capacity);
      taken == Chunk(list, c) && rest[|taken|..] == list[Min(Capacity * (c + 1), |list|)..]
  {
    var p, q := Min(Capacity * c, |list|), Min(Capacity * c + Capacity, |list|);
    assert Min(Capacity, |rest|) == q - p;
    assert Take(rest, Capacity) == rest[..q - p];
  }

  /** The cabs so far, followed by the next cab of the region. */
  lemma RegionSlotsSnoc(prev: seq<Slot>, list: seq<Student>, region: nat, c: nat, s: Slot)
    requires s == Slot(|prev| + 1 + c, region, Chunk(list, c))
    ensures prev + RegionSlots(list, region, |prev| + 1, c + 1) == (prev + RegionSlots(list, region, |prev| + 1, c)) + [s]
  {
    var longer, shorter := RegionSlots(list, region, |prev| + 1, c + 1), RegionSlots(list, region, |prev| + 1, c);
    assert longer == shorter + [s] by {
      forall k | 0 <= k < c + 1
        ensures longer[k] == (shorter + [s])[k]
      {
        if k < c {
          assert longer[k] == shorter[k];
        }
      }
    }
    assert prev + (shorter + [s]) == (prev + shorter) + [s];
  }

  /** One iteration of the cab loop as written: the cab built from the next
      chunk of the list and the call's passkey. */
  lemma CabStep(prev: seq<Slot>, list: seq<Student>, region: nat, c: nat, slot: Slot,
                used: set<string>, gen: Generator, cabs: seq<SuggestedCab>, passkey: Result<string, string>)
    requires slot == Slot(|prev| + 1 + c, region, Chunk(list, c))
    requires Attach(prev + RegionSlots(list, region, |prev| + 1, c), used, gen) == Success(cabs)
    requires gen(used, slot.number) == passkey
    ensures Attach(prev + RegionSlots(list, region, |prev| + 1, c + 1), used, gen)
      == if passkey.Failure? then Failure(passkey.error) else Success(cabs + [CabOf(slot, passkey.value)])
  {
    var slots := prev + RegionSlots(list, region, |prev| + 1, c);
    RegionSlotsSnoc(prev, list, region, c, slot);
    AttachStep(slots, slot, used, gen, cabs, passkey);
  }

  /** The cab loop of one region (lines 125-151): `numCabs` cabs, each
      taking the next seven students of the region's list, numbered on from
      `cabCounter`; `prev` are the cabs emitted before. On a failed passkey the
      loop stops after `emitted` cabs. */
  method DistributeRegion(
    studentsForRegion: seq<Student>, regionIdx: nat, numCabs: int, cabs: seq<SuggestedCab>, cabCounter: nat,
    used: set<string>, random: (nat, nat) -> int, ghost prev: seq<Slot>)
    returns (r: Result<seq<SuggestedCab>, string>, nextCounter: nat, ghost emitted: nat)
    requires ValidRandom(random)
    requires Attach(prev, used, PasskeyGenerator(random)) == Success(cabs) && cabCounter == |prev| + 1
    ensures emitted <= CabCount(numCabs)
    ensures r == Attach(prev + RegionSlots(studentsForRegion, regionIdx, |prev| + 1, emitted), used, PasskeyGenerator(random))
    ensures r.Success? ==> emitted == CabCount(numCabs) && nextCounter == cabCounter + emitted
  {
    ghost var list := studentsForRegion;
    ghost var gen := PasskeyGenerator(random);
    var rest := studentsForRegion;
    var built := cabs;
    nextCounter := cabCounter;
    var cabIdx := 0;
    assert prev + RegionSlots(list, regionIdx, |prev| + 1, 0) == prev;
    while cabIdx < numCabs
      invariant cabIdx <= CabCount(numCabs)
      invariant rest == list[Min(Capacity * cabIdx, |list|)..]
      invariant Attach(prev + RegionSlots(list, regionIdx, |prev| + 1, cabIdx), used, gen) == Success(built)
      invariant nextCounter == cabCounter + cabIdx
    {
      ChunkStep(list, cabIdx, rest);
      var assignedStudents := Take(rest, Capacity);
      var slot := Slot(nextCounter, regionIdx, assignedStudents);
      var passkey := GenerateUniquePasskey(used, random, nextCounter);
      PasskeyGeneratorCall(random, used, nextCounter);
      CabStep(prev, list, regionIdx, cabIdx, slot, used, gen, built, passkey);
      rest := rest[|assignedStudents|..];
      if passkey.Failure? {
        return Failure(passkey.error), nextCounter, cabIdx + 1;
      }
      built := built + [CabOf(slot, passkey.value)];
      nextCounter := nextCounter + 1;
      cabIdx := cabIdx + 1;
    }
    return Success(built), nextCounter, cabIdx;
  }

  /** runAllocation's emission loop as written (lines 102-152). */
  method SuggestCabs(a: seq<seq<int>>, y: seq<int>, all: seq<Student>, used: set<string>, random: (nat, nat) -> int)
    returns (r: Result<seq<SuggestedCab>, string>)
    requires IsMatrix(a) && |y| == Regions && ValidRandom(random)
    ensures r == Attach(Emit(DrawnLists(all, a), y, Regions), used, PasskeyGenerator(random))
  {
    ghost var lists := DrawnLists(all, a);
    ghost var gen := PasskeyGenerator(random);
    var cabs: seq<SuggestedCab> := [];
    var cabCounter := 1;
    for regionIdx := 0 to Regions
      invariant Attach(Emit(lists, y, regionIdx), used, gen) == Success(cabs)
      invariant cabCounter == |Emit(lists, y, regionIdx)| + 1
    {
      ghost var prev := Emit(lists, y, regionIdx);
      EmitSnoc(lists, y, regionIdx);
      var numCabs := y[regionIdx];
      if numCabs == 0 {
        continue;
      }
      var studentsForRegion := StudentsForRegion(all, a, regionIdx);
      assert studentsForRegion == lists[regionIdx];
      var result, next, emitted := DistributeRegion(studentsForRegion, regionIdx, numCabs, cabs, cabCounter, used, random, prev);
      if result.Failure? {
        EmitWithin(lists, y, regionIdx, emitted);
        AttachFailurePersists(prev + RegionSlots(studentsForRegion, regionIdx, |prev| + 1, emitted), Emit(lists, y, Regions), used, gen);
        return result;
      }
      cabs, cabCounter := result.value, next;
    }
    return Success(cabs);
  }

  /** The cabs of the regions before j and the first c cabs of region j start
      the whole emission. */
  lemma EmitWithin(lists: seq<seq<Student>>, y: seq<int>, j: nat, c: nat)
    requires |lists| == |y| && j < |y| && c <= CabCount(y[j])
    ensures var prev := Emit(lists, y, j);
      var xs := prev + RegionSlots(lists[j], j, |prev| + 1, c);
      |xs| <= |Emit(lists, y, |y|)| && xs == Emit(lists, y, |y|)[..|xs|]
  {
    var prev := Emit(lists, y, j);
    var next := Emit(lists, y, j + 1);
    EmitPrefix(lists, y, j + 1, |y|);
    assert RegionSlots(lists[j], j, |prev| + 1, c) == RegionSlots(lists[j], j, |prev| + 1, CabCount(y[j]))[..c];
    assert prev + RegionSlots(lists[j], j, |prev| + 1, c) == next[..|prev| + c];
  }

  // ---------------------------------------------------------------------
  // runAllocation corrected: drawn students leave the shared list, and
  // each new passkey also avoids the passkeys suggested before it
  // ---------------------------------------------------------------------

  /** `allStudents` spliced in place: the first `count` students of `hall`
      leave the pool. */
  function Draw(pool: seq<Student>, hall: string, count: int): (r: (seq<Student>, seq<Student>))
    decreases |pool|
  {
    if pool == [] || count <= 0 then ([], pool)
    else
      var (taken, rest) := Draw(pool[1..], hall, count - (if pool[0].hall == hall then 1 else 0));
      if pool[0].hall == hall then ([pool[0]] + taken, rest) else (taken, [pool[0]] + rest)
  }

  /** A draw only splits the pool: the students taken and those left are,
      together, the pool. */
  lemma {:induction false} DrawSplits(pool: seq<Student>, hall: string, count: int)
    ensures multiset(Draw(pool, hall, count).0) + multiset(Draw(pool, hall, count).1) == multiset(pool)
    decreases |pool|
  {
    if pool != [] && count > 0 {
      var next := Draw(pool[1..], hall, count - (if pool[0].hall == hall then 1 else 0));
      DrawSplits(pool[1..], hall, count - (if pool[0].hall == hall then 1 else 0));
      assert multiset(pool) == multiset([pool[0]]) + multiset(pool[1..]) by {
        assert pool == [pool[0]] + pool[1..];
      }
      if pool[0].hall == hall {
        assert Draw(pool, hall, count) == ([pool[0]] + next.0, next.1);
      } else {
        assert Draw(pool, hall, count) == (next.0, [pool[0]] + next.1);
      }
    }
  }

  /** The students a draw takes are those a fresh filter and splice would
      take from the same pool. */
  lemma {:induction false} DrawTakesFirst(pool: seq<Student>, hall: string, count: int)
    ensures Draw(pool, hall, count).0 == Take(FromHall(pool, hall), count)
    decreases |pool|
  {
    if pool != [] && count > 0 {
      var rest := FromHall(pool[1..], hall);
      assert FromHall(pool, hall) == (if pool[0].hall == hall then [pool[0]] else []) + rest;
      if pool[0].hall == hall {
        DrawTakesFirst(pool[1..], hall, count - 1);
        TakeCons(pool[0], rest, count);
      } else {
        DrawTakesFirst(pool[1..], hall, count);
      }
    }
  }

  /** The corrected draw for destination j from origins 0..n-1: the list and
      what is left of the pool. */
  function DrawRegion(pool: seq<Student>, a: seq<seq<int>>, j: nat, n: nat): (r: (seq<Student>, seq<Student>))
    requires IsMatrix(a) && j < Regions && n <= Regions
    ensures multiset(r.0) + multiset(r.1) == multiset(pool)
  {
    if n == 0 then ([], pool)
    else
      var (list, rest) := DrawRegion(pool, a, j, n - 1);
      if a[n - 1][j] > 0 then
        DrawSplits(rest, HallOf(n - 1), a[n - 1][j]);
        var (taken, rest') := Draw(rest, HallOf(n - 1), a[n - 1][j]);
        (list + taken, rest')
      else (list, rest)
  }

  /** The lists concatenated. */
  function Flatten(lists: seq<seq<Student>>): seq<Student> {
    if lists == [] then [] else Flatten(lists[..|lists| - 1]) + lists[|lists| - 1]
  }

  lemma FlattenSnoc(lists: seq<seq<Student>>, list: seq<Student>)
    ensures Flatten(lists + [list]) == Flatten(lists) + list
  {
    assert (lists + [list])[..|lists|] == lists;
  }

  /** The corrected lists of destinations 0..n-1 and the pool left after
      them; a region without cabs draws nothing. */
  function FixedLists(all: seq<Student>, a: seq<seq<int>>, y: seq<int>, n: nat): (r: (seq<seq<Student>>, seq<Student>))
    requires IsMatrix(a) && |y| == Regions && n <= Regions
    ensures |r.0| == n
    ensures multiset(Flatten(r.0)) + multiset(r.1) == multiset(all)
  {
    if n == 0 then ([], all)
    else
      var (lists, pool) := FixedLists(all, a, y, n - 1);
      if y[n - 1] == 0 then
        FlattenSnoc(lists, []);
        (lists + [[]], pool)
      else
        var (list, rest) := DrawRegion(pool, a, n - 1, Regions);
        FlattenSnoc(lists, list);
        (lists + [list], rest)
  }

  /** Later regions do not change the lists of earlier ones. */
  lemma {:induction false} FixedListsPrefix(all: seq<Student>, a: seq<seq<int>>, y: seq<int>, j: nat, n: nat)
    requires IsMatrix(a) && |y| == Regions && j <= n <= Regions
    ensures FixedLists(all, a, y, n).0[..j] == FixedLists(all, a, y, j).0
  {
    if j < n {
      FixedListsPrefix(all, a, y, j, n - 1);
      assert FixedLists(all, a, y, n).0[..n - 1] == FixedLists(all, a, y, n - 1).0;
    }
  }

  /** The corrected suggestion so far: the cabs and the passkeys no further
      cab may take (the trip's saved ones and those of these cabs). */
  datatype Suggestion = Suggestion(cabs: seq<SuggestedCab>, inUse: set<string>)

  /** Corrected: each cab's passkey avoids the trip's saved passkeys and the
      passkeys of the cabs suggested before it. */
  function AttachFixed(slots: seq<Slot>, used: set<string>, gen: Generator): (r: Result<Suggestion, string>)
    ensures r.Success? ==> |r.value.cabs| == |slots|
  {
    if slots == [] then Success(Suggestion([], used))
    else
      var last := slots[|slots| - 1];
      var prev := AttachFixed(slots[..|slots| - 1], used, gen);
      if prev.Failure? then prev
      else
        var passkey := gen(prev.value.inUse, last.number);
        if passkey.Failure? then Failure(passkey.error)
        else Success(Suggestion(prev.value.cabs + [CabOf(last, passkey.value)], prev.value.inUse + {passkey.value}))
  }

  /** One more cab after a successful prefix. */
  lemma AttachFixedStep(slots: seq<Slot>, s: Slot, used: set<string>, gen: Generator,
                        done: Suggestion, passkey: Result<string, string>)
    requires AttachFixed(slots, used, gen) == Success(done) && gen(done.inUse, s.number) == passkey
    ensures AttachFixed(slots + [s], used, gen)
      == if passkey.Failure? then Failure(passkey.error)
         else Success(Suggestion(done.cabs + [CabOf(s, passkey.value)], done.inUse + {passkey.value}))
  {
    assert (slots + [s])[..|slots|] == slots;
  }

  /** One iteration of the corrected cab loop: the cab built from the next
      chunk of the list and the call's passkey. */
  lemma FixedCabStep(prev: seq<Slot>, list: seq<Student>, region: nat, c: nat, slot: Slot,
                     used: set<string>, gen: Generator, done: Suggestion, passkey: Result<string, string>)
    requires slot == Slot(|prev| + 1 + c, region, Chunk(list, c))
    requires AttachFixed(prev + RegionSlots(list, region, |prev| + 1, c), used, gen) == Success(done)
    requires gen(done.inUse, slot.number) == passkey
    ensures AttachFixed(prev + RegionSlots(list, region, |prev| + 1, c + 1), used, gen)
      == if passkey.Failure? then Failure(passkey.error)
         else Success(Suggestion(done.cabs + [CabOf(slot, passkey.value)], done.inUse + {passkey.value}))
  {
    var slots := prev + RegionSlots(list, region, |prev| + 1, c);
    RegionSlotsSnoc(prev, list, region, c, slot);
    AttachFixedStep(slots, slot, used, gen, done, passkey);
  }

  lemma {:induction false} AttachFixedFailurePersists(xs: seq<Slot>, ys: seq<Slot>, used: set<string>, gen: Generator)
    requires |xs| <= |ys| && xs == ys[..|xs|]
    requires AttachFixed(xs, used, gen).Failure?
    ensures AttachFixed(ys, used, gen) == AttachFixed(xs, used, gen)
  {
    if |xs| < |ys| {
      AttachFixedFailurePersists(xs, ys[..|ys| - 1], used, gen);
    } else {
      assert xs == ys;
    }
  }

  /** A generator whose every answer is a four-digit passkey outside the
      passkeys it must avoid. */
  ghost predicate FreshGenerator(gen: Generator) {
    forall avoid, n :: gen(avoid, n).Success? ==>
      gen(avoid, n).value !in avoid && |gen(avoid, n).value| == 4 && AllDigits(gen(avoid, n).value)
  }

  /** `generateUniquePasskey` is such a generator. */
  lemma PasskeyGeneratorFresh(random: (nat, nat) -> int)
    requires ValidRandom(random)
    ensures FreshGenerator(PasskeyGenerator(random))
  {
    forall avoid, n | PasskeyGenerator(random)(avoid, n).Success?
      ensures var p := PasskeyGenerator(random)(avoid, n).value;
        p !in avoid && |p| == 4 && AllDigits(p)
    {
      PasskeyGeneratorCall(random, avoid, n);
      PasskeySpec(avoid, random, n);
    }
  }

  /** Corrected passkeys are four-digit, unused by the trip and pairwise
      distinct; the passkeys in use are the trip's and the cabs'. */
  lemma {:induction false} AttachFixedPasskeys(slots: seq<Slot>, used: set<string>, gen: Generator)
    requires FreshGenerator(gen) && AttachFixed(slots, used, gen).Success?
    ensures var done := AttachFixed(slots, used, gen).value;
      && used <= done.inUse
      && (forall k :: 0 <= k < |done.cabs| ==>
            done.cabs[k].passkey in done.inUse && done.cabs[k].passkey !in used
            && |done.cabs[k].passkey| == 4 && AllDigits(done.cabs[k].passkey))
      && (forall k, m :: 0 <= k < m < |done.cabs| ==> done.cabs[k].passkey != done.cabs[m].passkey)
  {
    if slots != [] {
      var init, last := slots[..|slots| - 1], slots[|slots| - 1];
      AttachFixedPasskeys(init, used, gen);
      var prev := AttachFixed(init, used, gen).value;
      var p := gen(prev.inUse, last.number).value;
      var done := AttachFixed(slots, used, gen).value;
      assert done == Suggestion(prev.cabs + [CabOf(last, p)], prev.inUse + {p});
      assert p !in prev.inUse;
      forall k | 0 <= k < |done.cabs|
        ensures done.cabs[k].passkey in done.inUse && done.cabs[k].passkey !in used
      {
        if k < |prev.cabs| {
          assert done.cabs[k] == prev.cabs[k];
        }
      }
      forall k, m | 0 <= k < m < |done.cabs|
        ensures done.cabs[k].passkey != done.cabs[m].passkey
      {
        if m < |prev.cabs| {
          assert done.cabs[k] == prev.cabs[k] && done.cabs[m] == prev.cabs[m];
        } else {
          assert done.cabs[k] == prev.cabs[k];
        }
      }
    }
  }

  /** The students seated by the first n regions' cabs: those of the first n - 1 regions, then region n - 1's seated prefix. */
  lemma EmitSeats(lists: seq<seq<Student>>, y: seq<int>, n: nat)
    requires |lists| == |y| && 0 < n <= |y|
    ensures SlotStudents(Emit(lists, y, n))
      == SlotStudents(Emit(lists, y, n - 1)) + lists[n - 1][..Min(Capacity * CabCount(y[n - 1]), |lists[n - 1]|)]
  {
    var prev := Emit(lists, y, n - 1);
    var block := RegionSlots(lists[n - 1], n - 1, |prev| + 1, CabCount(y[n - 1]));
    assert Emit(lists, y, n) == prev + block;
    SlotStudentsAppend(prev, block);
    ChunksCover(lists[n - 1], n - 1, |prev| + 1, CabCount(y[n - 1]));
  }

  lemma FlattenPrefix(lists: seq<seq<Student>>, n: nat)
    requires 0 < n <= |lists|
    ensures Flatten(lists[..n]) == Flatten(lists[..n - 1]) + lists[n - 1]
  {
    assert lists[..n] == lists[..n - 1] + [lists[n - 1]];
    FlattenSnoc(lists[..n - 1], lists[n - 1]);
  }

  /** One induction step of EmitSeatsAtMost, stated on plain sequences. */
  lemma SeatsStep(seated: seq<Student>, seated0: seq<Student>, listed: seq<Student>, listed0: seq<Student>,
                  list: seq<Student>, q: nat)
    requires q <= |list|
    requires seated == seated0 + list[..q] && listed == listed0 + list
    requires multiset(seated0) <= multiset(listed0)
    ensures multiset(seated) <= multiset(listed)
  {
    assert list == list[..q] + list[q..];
  }

  /** The students the first n regions seat: each region's list up to its cabs' seats. */
  function Seated(lists: seq<seq<Student>>, y: seq<int>, n: nat): seq<Student>
    requires |lists| == |y| && n <= |y|
  {
    if n == 0 then []
    else Seated(lists, y, n - 1) + lists[n - 1][..Min(Capacity * CabCount(y[n - 1]), |lists[n - 1]|)]
  }

  lemma {:induction false} EmitSeated(lists: seq<seq<Student>>, y: seq<int>, n: nat)
    requires |lists| == |y| && n <= |y|
    ensures SlotStudents(Emit(lists, y, n)) == Seated(lists, y, n)
  {
    if n > 0 {
      EmitSeats(lists, y, n);
      EmitSeated(lists, y, n - 1);
    }
  }

  lemma {:induction false} SeatedAtMost(lists: seq<seq<Student>>, y: seq<int>, n: nat)
    requires |lists| == |y| && n <= |y|
    ensures multiset(Seated(lists, y, n)) <= multiset(Flatten(lists[..n]))
  {
    if n > 0 {
      SeatedAtMost(lists, y, n - 1);
      FlattenPrefix(lists, n);
      SeatsStep(Seated(lists, y, n), Seated(lists, y, n - 1), Flatten(lists[..n]), Flatten(lists[..n - 1]),
                lists[n - 1], Min(Capacity * CabCount(y[n - 1]), |lists[n - 1]|));
    }
  }

  /** The cabs carry every student at most as often as the lists hold them. */
  lemma EmitSeatsAtMost(lists: seq<seq<Student>>, y: seq<int>, n: nat)
    requires |lists| == |y| && n <= |y|
    ensures multiset(SlotStudents(Emit(lists, y, n))) <= multiset(Flatten(lists[..n]))
  {
    EmitSeated(lists, y, n);
    SeatedAtMost(lists, y, n);
  }

  /** Corrected `studentsForRegion`: the drawn students are spliced out of
      the shared pool, so a later destination cannot draw them again. */
  method StudentsForRegionFixed(pool: seq<Student>, a: seq<seq<int>>, j: nat)
    returns (studentsForRegion: seq<Student>, rest: seq<Student>)
    requires IsMatrix(a) && j < Regions
    ensures (studentsForRegion, rest) == DrawRegion(pool, a, j, Regions)
  {
    studentsForRegion, rest := [], pool;
    for originIdx := 0 to Regions
      invariant (studentsForRegion, rest) == DrawRegion(pool, a, j, originIdx)
    {
      var count := a[originIdx][j];
      if count > 0 {
        var (taken, left) := Draw(rest, HallOf(originIdx), count);
        studentsForRegion, rest := studentsForRegion + taken, left;
      }
    }
  }

  /** Corrected cab loop of one region: each passkey also avoids those of the
      cabs already suggested. */
  method DistributeRegionFixed(
    studentsForRegion: seq<Student>, regionIdx: nat, numCabs: int, done: Suggestion, cabCounter: nat,
    used: set<string>, random: (nat, nat) -> int, ghost prev: seq<Slot>)
    returns (r: Result<Suggestion, string>, nextCounter: nat, ghost emitted: nat)
    requires ValidRandom(random)
    requires AttachFixed(prev, used, PasskeyGenerator(random)) == Success(done) && cabCounter == |prev| + 1
    ensures emitted <= CabCount(numCabs)
    ensures r == AttachFixed(prev + RegionSlots(studentsForRegion, regionIdx, |prev| + 1, emitted), used, PasskeyGenerator(random))
    ensures r.Success? ==> emitted == CabCount(numCabs) && nextCounter == cabCounter + emitted
  {
    ghost var list := studentsForRegion;
    ghost var gen := PasskeyGenerator(random);
    var rest := studentsForRegion;
    var built, inUse := done.cabs, done.inUse;
    nextCounter := cabCounter;
    var cabIdx := 0;
    assert prev + RegionSlots(list, regionIdx, |prev| + 1, 0) == prev;
    while cabIdx < numCabs
      invariant cabIdx <= CabCount(numCabs)
      invariant rest == list[Min(Capacity * cabIdx, |list|)..]
      invariant AttachFixed(prev + RegionSlots(list, regionIdx, |prev| + 1, cabIdx), used, gen) == Success(Suggestion(built, inUse))
      invariant nextCounter == cabCounter + cabIdx
    {
      ChunkStep(list, cabIdx, rest);
      var assignedStudents := Take(rest, Capacity);
      var slot := Slot(nextCounter, regionIdx, assignedStudents);
      var passkey := GenerateUniquePasskey(inUse, random, nextCounter);
      PasskeyGeneratorCall(random, inUse, nextCounter);
      FixedCabStep(prev, list, regionIdx, cabIdx, slot, used, gen, Suggestion(built, inUse), passkey);
      rest := rest[|assignedStudents|..];
      if passkey.Failure? {
        return Failure(passkey.error), nextCounter, cabIdx + 1;
      }
      built, inUse := built + [CabOf(slot, passkey.value)], inUse + {passkey.value};
      nextCounter := nextCounter + 1;
      cabIdx := cabIdx + 1;
    }
    return Success(Suggestion(built, inUse)), nextCounter, cabIdx;
  }

  /** Region j's corrected list is drawn from the pool the regions before it
      left. */
  lemma FixedListsStep(all: seq<Student>, a: seq<seq<int>>, y: seq<int>, j: nat)
    requires IsMatrix(a) && |y| == Regions && j < Regions
    ensures var (lists, pool) := FixedLists(all, a, y, j);
      var full := FixedLists(all, a, y, Regions).0;
      && full[..j] == lists
      && (y[j] == 0 ==> FixedLists(all, a, y, j + 1).1 == pool)
      && (y[j] != 0 ==> full[j] == DrawRegion(pool, a, j, Regions).0
                        && FixedLists(all, a, y, j + 1).1 == DrawRegion(pool, a, j, Regions).1)
  {
    FixedListsPrefix(all, a, y, j, Regions);
    FixedListsPrefix(all, a, y, j + 1, Regions);
    var full := FixedLists(all, a, y, Regions).0;
    assert full[j] == full[..j + 1][j];
  }

  /** runAllocation's emission loop, corrected. */
  method SuggestCabsFixed(a: seq<seq<int>>, y: seq<int>, all: seq<Student>, used: set<string>, random: (nat, nat) -> int)
    returns (r: Result<Suggestion, string>)
    requires IsMatrix(a) && |y| == Regions && ValidRandom(random)
    ensures r == AttachFixed(Emit(FixedLists(all, a, y, Regions).0, y, Regions), used, PasskeyGenerator(random))
  {
    ghost var lists := FixedLists(all, a, y, Regions).0;
    ghost var gen := PasskeyGenerator(random);
    var pool := all;
    var done := Suggestion([], used);
    var cabCounter := 1;
    for regionIdx := 0 to Regions
      invariant pool == FixedLists(all, a, y, regionIdx).1
      invariant AttachFixed(Emit(lists, y, regionIdx), used, gen) == Success(done)
      invariant cabCounter == |Emit(lists, y, regionIdx)| + 1
    {
      ghost var prev := Emit(lists, y, regionIdx);
      EmitSnoc(lists, y, regionIdx);
      FixedListsStep(all, a, y, regionIdx);
      var numCabs := y[regionIdx];
      if numCabs == 0 {
        continue;
      }
      var studentsForRegion, left := StudentsForRegionFixed(pool, a, regionIdx);
      pool := left;
      var result, next, emitted := DistributeRegionFixed(studentsForRegion, regionIdx, numCabs, done, cabCounter, used, random, prev);
      if result.Failure? {
        EmitWithin(lists, y, regionIdx, emitted);
        AttachFixedFailurePersists(prev + RegionSlots(studentsForRegion, regionIdx, |prev| + 1, emitted), Emit(lists, y, Regions), used, gen);
        return result;
      }
      done, cabCounter := result.value, next;
    }
    return Success(done);
  }

  // ---------------------------------------------------------------------
  // What the suggested cabs carry
  // ---------------------------------------------------------------------

  /** The students of a cab's seats, in seat order. */
  function SeatStudents(seats: seq<Seat>): (r: seq<Student>)
    ensures |r| == |seats|
  {
    seq(|seats|, k requires 0 <= k < |seats| => seats[k].student)
  }

  /** The students of the suggested cabs, cab after cab. */
  function CabStudents(cabs: seq<SuggestedCab>): seq<Student> {
    if cabs == [] then [] else CabStudents(cabs[..|cabs| - 1]) + SeatStudents(cabs[|cabs| - 1].assignedStudents)
  }

  lemma CabStudentsSnoc(cabs: seq<SuggestedCab>, s: Slot, passkey: string)
    ensures CabStudents(cabs + [CabOf(s, passkey)]) == CabStudents(cabs) + s.students
  {
    assert (cabs + [CabOf(s, passkey)])[..|cabs|] == cabs;
    assert SeatStudents(Seats(s.students)) == s.students;
  }

  /** As written, the cabs carry the slots' students. */
  lemma {:induction false} AttachStudents(slots: seq<Slot>, used: set<string>, gen: Generator)
    requires Attach(slots, used, gen).Success?
    ensures CabStudents(Attach(slots, used, gen).value) == SlotStudents(slots)
  {
    if slots != [] {
      var init, last := slots[..|slots| - 1], slots[|slots| - 1];
      AttachStudents(init, used, gen);
      CabStudentsSnoc(Attach(init, used, gen).value, last, gen(used, last.number).value);
    }
  }

  /** Corrected, the cabs carry the slots' students. */
  lemma {:induction false} AttachFixedStudents(slots: seq<Slot>, used: set<string>, gen: Generator)
    requires AttachFixed(slots, used, gen).Success?
    ensures CabStudents(AttachFixed(slots, used, gen).value.cabs) == SlotStudents(slots)
  {
    if slots != [] {
      var init, last := slots[..|slots| - 1], slots[|slots| - 1];
      AttachFixedStudents(init, used, gen);
      var prev := AttachFixed(init, used, gen).value;
      CabStudentsSnoc(prev.cabs, last, gen(prev.inUse, last.number).value);
    }
  }

  /** Cab k of a corrected suggestion is slot k with its passkey: its temp id,
      pickup hall, seats and blank admin fields all come from the slot. */
  lemma {:induction false} AttachFixedCarries(slots: seq<Slot>, used: set<string>, gen: Generator)
    requires AttachFixed(slots, used, gen).Success?
    ensures var cabs := AttachFixed(slots, used, gen).value.cabs;
      forall k :: 0 <= k < |cabs| ==> cabs[k] == CabOf(slots[k], cabs[k].passkey)
  {
    if slots != [] {
      var init := slots[..|slots| - 1];
      AttachFixedCarries(init, used, gen);
      var prev := AttachFixed(init, used, gen).value.cabs;
      var cabs := AttachFixed(slots, used, gen).value.cabs;
      forall k | 0 <= k < |prev|
        ensures cabs[k] == CabOf(slots[k], cabs[k].passkey)
      {
        assert cabs[k] == prev[k] && slots[k] == init[k];
      }
    }
  }

  /** Every emitted cab holds one chunk, at most seven students. */
  lemma {:induction false} EmitSmall(lists: seq<seq<Student>>, y: seq<int>, n: nat)
    requires |lists| == |y| && n <= |y|
    ensures forall k :: 0 <= k < |Emit(lists, y, n)| ==> |Emit(lists, y, n)[k].students| <= Capacity
  {
    if n > 0 {
      EmitSmall(lists, y, n - 1);
      var prev := Emit(lists, y, n - 1);
      var block := RegionSlots(lists[n - 1], n - 1, |prev| + 1, CabCount(y[n - 1]));
      forall k | 0 <= k < |Emit(lists, y, n)|
        ensures |Emit(lists, y, n)[k].students| <= Capacity
      {
        if k >= |prev| {
          assert Emit(lists, y, n)[k] == block[k - |prev|];
        } else {
          assert Emit(lists, y, n)[k] == prev[k];
        }
      }
    }
  }

  /** The corrected suggestion's cabs are `temp_1`, `temp_2`, … in order, as
      many as the regions ask for, each with at most seven students in seats
      1..n, and each an `Omni` for seven with blank number and driver. */
  lemma SuggestionShape(lists: seq<seq<Student>>, y: seq<int>, used: set<string>, gen: Generator)
    requires |lists| == |y| == Regions && AttachFixed(Emit(lists, y, Regions), used, gen).Success?
    ensures var cabs := AttachFixed(Emit(lists, y, Regions), used, gen).value.cabs;
      && |cabs| == CabTotal(y, Regions)
      && forall k :: 0 <= k < |cabs| ==>
           && cabs[k].tempId == TempId(k + 1)
           && cabs[k].capacity == Capacity && cabs[k].cabType == "Omni"
           && cabs[k].cabNumber == "" && cabs[k].driverName == "" && cabs[k].driverPhone == ""
           && |cabs[k].assignedStudents| <= Capacity
           && forall m :: 0 <= m < |cabs[k].assignedStudents| ==> cabs[k].assignedStudents[m].seatPosition == m + 1
  {
    var e := Emit(lists, y, Regions);
    var cabs := AttachFixed(e, used, gen).value.cabs;
    EmitNumbering(lists, y, Regions);
    EmitSmall(lists, y, Regions);
    AttachFixedCarries(e, used, gen);
    forall k | 0 <= k < |cabs|
      ensures cabs[k].tempId == TempId(k + 1) && |cabs[k].assignedStudents| <= Capacity
      ensures forall m :: 0 <= m < |cabs[k].assignedStudents| ==> cabs[k].assignedStudents[m].seatPosition == m + 1
    {
      assert cabs[k] == CabOf(e[k], cabs[k].passkey);
      assert e[k].number == k + 1;
    }
  }

  // ---------------------------------------------------------------------
  // The duplicate draw and the shared passkeys, as written and corrected
  // ---------------------------------------------------------------------

  /** As written, every destination that origin 0 sends students to starts
      with origin 0's first booking. */
  lemma {:induction false} DrawnStartsWith(all: seq<Student>, a: seq<seq<int>>, j: nat, n: nat)
    requires IsMatrix(a) && j < Regions && 1 <= n <= Regions
    requires |all| > 0 && all[0].hall == HallOf(0) && a[0][j] > 0
    ensures |Drawn(all, a, j, n)| > 0 && Drawn(all, a, j, n)[0] == all[0]
  {
    if n == 1 {
      var from := FromHall(all, HallOf(0));
      assert from == [all[0]] + FromHall(all[1..], HallOf(0));
      assert Drawn(all, a, j, 1) == Take(from, a[0][j]);
    } else {
      DrawnStartsWith(all, a, j, n - 1);
    }
  }

  /** Later regions only add seated students. */
  lemma {:induction false} SeatedGrows(lists: seq<seq<Student>>, y: seq<int>, j: nat, n: nat)
    requires |lists| == |y| && j <= n <= |y|
    ensures multiset(Seated(lists, y, j)) <= multiset(Seated(lists, y, n))
  {
    if j < n {
      SeatedGrows(lists, y, j, n - 1);
    }
  }

  /** When regions 0 and 1 both have cabs and their lists start with the same
      student, that student is seated twice by them. */
  lemma SeatedTwice(lists: seq<seq<Student>>, y: seq<int>, x: Student)
    requires |lists| == |y| >= 2 && y[0] > 0 && y[1] > 0
    requires |lists[0]| > 0 && |lists[1]| > 0 && lists[0][0] == x && lists[1][0] == x
    ensures multiset(Seated(lists, y, 2))[x] >= 2
  {
    var q0 := Min(Capacity * CabCount(y[0]), |lists[0]|);
    var q1 := Min(Capacity * CabCount(y[1]), |lists[1]|);
    assert Seated(lists, y, 1) == lists[0][..q0];
    assert Seated(lists, y, 2) == lists[0][..q0] + lists[1][..q1];
    assert lists[0][..q0] == [x] + lists[0][1..q0];
    assert lists[1][..q1] == [x] + lists[1][1..q1];
  }

  /** As written: when origin 0 sends students to destinations 0 and 1 and
      both have cabs, origin 0's first booking is seated in two cabs. */
  lemma AsWrittenDrawsTwice(all: seq<Student>, a: seq<seq<int>>, y: seq<int>)
    requires IsMatrix(a) && |y| == Regions
    requires |all| > 0 && all[0].hall == HallOf(0) && a[0][0] > 0 && a[0][1] > 0 && y[0] > 0 && y[1] > 0
    ensures multiset(SlotStudents(Emit(DrawnLists(all, a), y, Regions)))[all[0]] >= 2
  {
    var lists := DrawnLists(all, a);
    DrawnStartsWith(all, a, 0, Regions);
    DrawnStartsWith(all, a, 1, Regions);
    assert lists[0] == Drawn(all, a, 0, Regions) && lists[1] == Drawn(all, a, 1, Regions);
    SeatedTwice(lists, y, all[0]);
    SeatedGrows(lists, y, 2, Regions);
    EmitSeated(lists, y, Regions);
  }

  /** As written, a successful suggestion then seats that booking twice, more
      often than it was booked when it was booked once. */
  lemma AsWrittenSeatsTwice(all: seq<Student>, a: seq<seq<int>>, y: seq<int>, used: set<string>, random: (nat, nat) -> int)
    requires IsMatrix(a) && |y| == Regions && ValidRandom(random)
    requires |all| > 0 && all[0].hall == HallOf(0) && a[0][0] > 0 && a[0][1] > 0 && y[0] > 0 && y[1] > 0
    ensures var r := Attach(Emit(DrawnLists(all, a), y, Regions), used, PasskeyGenerator(random));
      r.Success? ==>
        && multiset(CabStudents(r.value))[all[0]] >= 2
        && (multiset(all)[all[0]] == 1 ==> !(multiset(CabStudents(r.value)) <= multiset(all)))
  {
    var slots := Emit(DrawnLists(all, a), y, Regions);
    if Attach(slots, used, PasskeyGenerator(random)).Success? {
      AttachStudents(slots, used, PasskeyGenerator(random));
      AsWrittenDrawsTwice(all, a, y);
    }
  }

  /** Corrected, the cabs seat every booking at most as often as it was
      booked: no student rides two cabs. */
  lemma FixedSeatsAtMost(all: seq<Student>, a: seq<seq<int>>, y: seq<int>, used: set<string>, gen: Generator)
    requires IsMatrix(a) && |y| == Regions
    ensures var slots := Emit(FixedLists(all, a, y, Regions).0, y, Regions);
      && multiset(SlotStudents(slots)) <= multiset(all)
      && (AttachFixed(slots, used, gen).Success? ==>
            multiset(CabStudents(AttachFixed(slots, used, gen).value.cabs)) <= multiset(all))
  {
    var lists := FixedLists(all, a, y, Regions).0;
    var slots := Emit(lists, y, Regions);
    EmitSeatsAtMost(lists, y, Regions);
    assert lists[..Regions] == lists;
    if AttachFixed(slots, used, gen).Success? {
      AttachFixedStudents(slots, used, gen);
    }
  }

  /** The first draw of a call is its answer when that passkey is free. */
  lemma PasskeyFirstDraw(used: set<string>, random: (nat, nat) -> int, n: nat)
    requires ValidRandom(random) && PasskeyOf(random(n, 0)) !in used
    ensures PasskeyGenerator(random)(used, n) == Success(PasskeyOf(random(n, 0)))
  {
    assert Candidates(random, n)(0) == PasskeyOf(random(n, 0));
  }

  /** As written: two cabs whose calls draw the same first number get the same
      passkey, since neither call sees the other's passkey. */
  lemma AsWrittenSharesPasskeys(slots: seq<Slot>, used: set<string>, random: (nat, nat) -> int)
    requires ValidRandom(random) && |slots| == 2
    requires random(slots[0].number, 0) == random(slots[1].number, 0)
    requires PasskeyOf(random(slots[0].number, 0)) !in used
    ensures var r := Attach(slots, used, PasskeyGenerator(random));
      r.Success? && r.value[0].passkey == r.value[1].passkey
  {
    var gen := PasskeyGenerator(random);
    var p := PasskeyOf(random(slots[0].number, 0));
    PasskeyFirstDraw(used, random, slots[0].number);
    PasskeyFirstDraw(used, random, slots[1].number);
    AttachStep([], slots[0], used, gen, [], Success(p));
    assert [] + [slots[0]] == [slots[0]];
    assert [] + [CabOf(slots[0], p)] == [CabOf(slots[0], p)];
    assert Attach([slots[0]], used, gen) == Success([CabOf(slots[0], p)]);
    assert gen(used, slots[1].number) == Success(p);
    assert [slots[0]] + [slots[1]] == slots;
    AttachStep([slots[0]], slots[1], used, gen, [CabOf(slots[0], p)], Success(p));
  }

  /** Corrected, the passkeys of a suggestion are pairwise distinct, four
      digits and unused by the trip's saved cabs. */
  lemma FixedPasskeysDistinct(slots: seq<Slot>, used: set<string>, random: (nat, nat) -> int)
    requires ValidRandom(random) && AttachFixed(slots, used, PasskeyGenerator(random)).Success?
    ensures var cabs := AttachFixed(slots, used, PasskeyGenerator(random)).value.cabs;
      && (forall k :: 0 <= k < |cabs| ==> cabs[k].passkey !in used && |cabs[k].passkey| == 4 && AllDigits(cabs[k].passkey))
      && (forall k, m :: 0 <= k < m < |cabs| ==> cabs[k].passkey != cabs[m].passkey)
  {
    PasskeyGeneratorFresh(random);
    AttachFixedPasskeys(slots, used, PasskeyGenerator(random));
  }

  // ---------------------------------------------------------------------
  // runAllocation
  // ---------------------------------------------------------------------

  /** `hallDemand.reduce((sum, row) => sum + row.count, 0)` */
  function TotalStudents(demand: seq<HallDemand>): int {
    if demand == [] then 0 else TotalStudents(demand[..|demand| - 1]) + demand[|demand| - 1].count
  }

  /** The vector `convertHallDemandToRegions` builds. */
  function RegionCounts(demand: seq<HallDemand>): (r: seq<int>)
    ensures |r| == Regions
  {
    seq(Regions, r requires 0 <= r < Regions => RegionCount(demand, r))
  }

  /** The demand query groups by hall: no hall has two rows. */
  predicate DistinctHalls(demand: seq<HallDemand>) {
    forall k, m :: 0 <= k < m < |demand| ==> demand[k].hall != demand[m].hall
  }

  /** Every row names one of the seven hall codes. */
  predicate KnownHalls(demand: seq<HallDemand>) {
    forall k :: 0 <= k < |demand| ==> demand[k].hall in HallToRegion
  }

  /** With one row per known hall, `total_students` is the number of students
      the solver is asked to carry. */
  lemma {:induction false} TotalStudentsIsRegionSum(demand: seq<HallDemand>)
    requires DistinctHalls(demand) && KnownHalls(demand)
    ensures Sum(RegionCounts(demand)) == TotalStudents(demand)
  {
    if demand != [] {
      var init, last := demand[..|demand| - 1], demand[|demand| - 1];
      assert forall k :: 0 <= k < |init| ==> init[k] == demand[k];
      TotalStudentsIsRegionSum(init);
      HallRegionInverse();
      var r := HallToRegion[last.hall];
      forall k | 0 <= k < |init|
        ensures !(init[k].hall in HallToRegion && HallToRegion[init[k].hall] == r)
      {
        if init[k].hall in HallToRegion && HallToRegion[init[k].hall] == r {
          HallToRegionInjective(init[k].hall, last.hall);
        }
      }
      AbsentRegionIsZero(init, r);
      assert RegionCounts(demand) == RegionCounts(init)[r := last.count];
      SumUpdate(RegionCounts(init), r, last.count);
    } else {
      ZeroSum(RegionCounts(demand));
    }
  }

  /** The response of `runAllocation`: the suggestion, or an HTTP status and
      its error. */
  datatype AllocationResponse =
    | Suggested(totalStudents: int, totalCabs: nat, solverCost: int, cabs: seq<SuggestedCab>)
    | Rejected(status: nat, error: string)

  const AllocationFailed := "Failed to run allocation algorithm"

  /** `runAllocation` with the corrected emission loop. `hallDemand` is the
      per-hall count query, `allStudents` the trip's bookings in booking
      order and `used` the passkeys of the trip's saved cabs; an error thrown
      by the solver or the passkey generator becomes the 500 response.
      `plan` is the solver's allocation the suggestion was built from. */
  method RunAllocation(tripId: string, hallDemand: seq<HallDemand>, allStudents: seq<Student>, used: set<string>,
                       solve: Lp -> LpResult, random: (nat, nat) -> int)
    returns (resp: AllocationResponse, ghost plan: LpAllocation)
    requires TrustedLpSolver(solve) && ValidRandom(random)
    ensures tripId == "" ==> resp == Rejected(400, "Trip ID is required")
    ensures tripId != "" && hallDemand == [] ==> resp == Rejected(400, "No students have booked this trip yet")
    ensures tripId != "" && hallDemand != [] && resp.Rejected? ==> resp == Rejected(500, AllocationFailed)
    ensures tripId != "" && hallDemand != [] && (exists r :: 0 <= r < Regions && RegionCount(hallDemand, r) < 0) ==>
      resp.Rejected?
    ensures tripId != "" && hallDemand != [] && (forall r :: 0 <= r < Regions ==> RegionCount(hallDemand, r) >= 0) ==>
      && ReadsBack(solve(LpOf(RegionCounts(hallDemand))), plan)
      && Delivers(RegionCounts(hallDemand), plan)
      && (resp.Suggested? <==>
          AttachFixed(Emit(FixedLists(allStudents, plan.assignments, plan.numCabsPerRegion, Regions).0,
                           plan.numCabsPerRegion, Regions), used, PasskeyGenerator(random)).Success?)
    ensures resp.Suggested? ==>
      && tripId != "" && hallDemand != []
      && ReadsBack(solve(LpOf(RegionCounts(hallDemand))), plan)
      && Delivers(RegionCounts(hallDemand), plan)
      && resp.totalStudents == TotalStudents(hallDemand)
      && resp.solverCost == plan.objectiveValue
      && resp.totalCabs == |resp.cabs| == CabTotal(plan.numCabsPerRegion, Regions)
      && var r := AttachFixed(Emit(FixedLists(allStudents, plan.assignments, plan.numCabsPerRegion, Regions).0,
                                   plan.numCabsPerRegion, Regions), used, PasskeyGenerator(random));
         r.Success? && resp.cabs == r.value.cabs
    ensures resp.Suggested? ==> multiset(CabStudents(resp.cabs)) <= multiset(allStudents)
    ensures resp.Suggested? ==>
      forall k, m :: 0 <= k < m < |resp.cabs| ==> resp.cabs[k].passkey != resp.cabs[m].passkey
  {
    plan := LpAllocation(0, [], [], []);
    if tripId == "" {
      return Rejected(400, "Trip ID is required"), plan;
    }
    if hallDemand == [] {
      return Rejected(400, "No students have booked this trip yet"), plan;
    }
    var totalStudents := TotalStudents(hallDemand);
    var studentsPerRegion := ConvertHallDemandToRegions(hallDemand);
    assert studentsPerRegion == RegionCounts(hallDemand);
    var solverResult := CabSolver.SolveCabAllocation(studentsPerRegion, solve);
    if solverResult.Failure? {
      return Rejected(500, AllocationFailed), plan;
    }
    var solved := solverResult.value;
    plan := solved;
    var a, y := solved.assignments, solved.numCabsPerRegion;
    var suggestion := SuggestCabsFixed(a, y, allStudents, used, random);
    if suggestion.Failure? {
      return Rejected(500, AllocationFailed), plan;
    }
    var cabs := suggestion.value.cabs;
    ghost var slots := Emit(FixedLists(allStudents, a, y, Regions).0, y, Regions);
    SuggestionShape(FixedLists(allStudents, a, y, Regions).0, y, used, PasskeyGenerator(random));
    FixedSeatsAtMost(allStudents, a, y, used, PasskeyGenerator(random));
    FixedPasskeysDistinct(slots, used, random);
    resp := Suggested(totalStudents, |cabs|, solved.objectiveValue, cabs);
  }

  /** `runAllocation` as written: the same steps as `RunAllocation`, with the
      emission loop of lines 102-152 that draws every region's students from
      the whole booking list and checks passkeys against the saved cabs only,
      so the suggestion may seat a booking twice and repeat a passkey. */
  method RunAllocationAsWritten(tripId: string, hallDemand: seq<HallDemand>, allStudents: seq<Student>, used: set<string>,
                                solve: Lp -> LpResult, random: (nat, nat) -> int)
    returns (resp: AllocationResponse, ghost plan: LpAllocation)
    requires TrustedLpSolver(solve) && ValidRandom(random)
    ensures tripId == "" ==> resp == Rejected(400, "Trip ID is required")
    ensures tripId != "" && hallDemand == [] ==> resp == Rejected(400, "No students have booked this trip yet")
    ensures tripId != "" && hallDemand != [] && resp.Rejected? ==> resp == Rejected(500, AllocationFailed)
    ensures tripId != "" && hallDemand != [] && (exists r :: 0 <= r < Regions && RegionCount(hallDemand, r) < 0) ==>
      resp.Rejected?
    ensures tripId != "" && hallDemand != [] && (forall r :: 0 <= r < Regions ==> RegionCount(hallDemand, r) >= 0) ==>
      && ReadsBack(solve(LpOf(RegionCounts(hallDemand))), plan)
      && Delivers(RegionCounts(hallDemand), plan)
      && (resp.Suggested? <==>
          Attach(Emit(DrawnLists(allStudents, plan.assignments), plan.numCabsPerRegion, Regions), used,
                 PasskeyGenerator(random)).Success?)
    ensures resp.Suggested? ==>
      && tripId != "" && hallDemand != []
      && ReadsBack(solve(LpOf(RegionCounts(hallDemand))), plan)
      && Delivers(RegionCounts(hallDemand), plan)
      && resp.totalStudents == TotalStudents(hallDemand)
      && resp.solverCost == plan.objectiveValue
      && resp.cabs == Attach(Emit(DrawnLists(allStudents, plan.assignments), plan.numCabsPerRegion, Regions), used,
                             PasskeyGenerator(random)).value
      && resp.totalCabs == |resp.cabs| == CabTotal(plan.numCabsPerRegion, Regions)
  {
    plan := LpAllocation(0, [], [], []);
    if tripId == "" {
      return Rejected(400, "Trip ID is required"), plan;
    }
    if hallDemand == [] {
      return Rejected(400, "No students have booked this trip yet"), plan;
    }
    var totalStudents := TotalStudents(hallDemand);
    var studentsPerRegion := ConvertHallDemandToRegions(hallDemand);
    assert studentsPerRegion == RegionCounts(hallDemand);
    var solverResult := CabSolver.SolveCabAllocation(studentsPerRegion, solve);
    if solverResult.Failure? {
      return Rejected(500, AllocationFailed), plan;
    }
    var solved := solverResult.value;
    plan := solved;
    var a, y := solved.assignments, solved.numCabsPerRegion;
    var suggestion := SuggestCabs(a, y, allStudents, used, random);
    if suggestion.Failure? {
      return Rejected(500, AllocationFailed), plan;
    }
    var cabs := suggestion.value;
    EmitNumbering(DrawnLists(allStudents, a), y, Regions);
    resp := Suggested(totalStudents, |cabs|, solved.objectiveValue, cabs);
  }
}
