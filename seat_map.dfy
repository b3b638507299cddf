// Seat numbering of the seven-seat cab in the vehicle viewer
// (frontend/src/utils/allocation.utils.ts): backend positions 1..7 and the
// viewer's seat ids.
module SeatMap {
  import opened Wrappers
  import opened Text

  datatype SeatId = F1 | M1 | M2 | M3 | B1 | B2 | B3

  const AllSeats: set<SeatId> := {F1, M1, M2, M3, B1, B2, B3}

  /** `POSITION_TO_SEAT_ID[p]`: undefined outside 1..7. */
  function PositionToSeatId(p: int): (r: Option<SeatId>)
    ensures r.Some? <==> 1 <= p <= 7
  {
    match p
    case 1 => Some(F1)
    case 2 => Some(M1)
    case 3 => Some(M2)
    case 4 => Some(M3)
    case 5 => Some(B1)
    case 6 => Some(B2)
    case 7 => Some(B3)
    case _ => None
  }

  /** `SEAT_ID_TO_POSITION[s]`, which is `getPositionFromSeatId(s)`. */
  function SeatIdToPosition(s: SeatId): (p: int)
    ensures 1 <= p <= 7 && PositionToSeatId(p) == Some(s)
  {
    match s
    case F1 => 1
    case M1 => 2
    case M2 => 3
    case M3 => 4
    case B1 => 5
    case B2 => 6
    case B3 => 7
  }

  /** The two tables are inverse bijections between 1..7 and the seat ids. */
  lemma PositionSeatInverse(p: int)
    requires 1 <= p <= 7
    ensures SeatIdToPosition(PositionToSeatId(p).value) == p
  {
  }

  lemma SeatIdToPositionInjective(s: SeatId, t: SeatId)
    requires SeatIdToPosition(s) == SeatIdToPosition(t)
    ensures s == t
  {
  }

  /** `parseInt(s, 10)`: leading white space is skipped, an optional sign is
      read, then the longest run of digits; no digit at all gives `NaN`
      (`None`). */
  function ParseInt(s: string): (r: Option<int>)
    ensures AllDigits(s) && s != [] ==> r == Some(DigitsValue(s) as int)
  {
    var t := TrimStart(s);
    var negative := t != [] && t[0] == '-';
    var body := if t != [] && (t[0] == '-' || t[0] == '+') then t[1..] else t;
    var digits := LeadingDigits(body);
    if digits == [] then None
    else if negative then Some(-(DigitsValue(digits) as int))
    else (assert AllDigits(s) ==> digits == s; Some(DigitsValue(digits) as int))
  }

  /** A student's `seat_position`: a number, a string, or missing. Fractional
      numbers are not modelled. */
  datatype SeatPosition = NumberPosition(n: int) | TextPosition(text: string) | NoPosition

  datatype AssignedStudent = AssignedStudent(userId: string, name: string, seatPosition: SeatPosition)

  /** The position `mapStudentsToSeats` reads: a number as it is; otherwise
      `parseInt` of its text, where a missing or empty text reads as "0". */
  function PositionOf(v: SeatPosition): (r: Option<int>)
    ensures v.NumberPosition? ==> r == Some(v.n)
    ensures v == NoPosition || v == TextPosition("") ==> r == Some(0)
  {
    match v
    case NumberPosition(n) => Some(n)
    case TextPosition(t) => (assert AllDigits("0") && DigitsValue("0") == 0; ParseInt(if t == "" then "0" else t))
    case NoPosition => (assert AllDigits("0") && DigitsValue("0") == 0; ParseInt("0"))
  }

  /** The seat a position value names, if any. */
  function SeatOf(v: SeatPosition): (r: Option<SeatId>)
    ensures r.Some? <==> PositionOf(v).Some? && 1 <= PositionOf(v).value <= 7
    ensures v == NoPosition ==> r == None
  {
    var p := PositionOf(v);
    if p.Some? then PositionToSeatId(p.value) else None
  }

  /** `getSeatIdFromPosition`: a number, or a string read by `parseInt`. */
  function SeatIdFromPosition(position: SeatPosition): (r: Option<SeatId>)
    requires !position.NoPosition?
    ensures r == SeatOf(position)
  {
    var p := if position.NumberPosition? then Some(position.n) else ParseInt(position.text);
    if p.Some? then PositionToSeatId(p.value) else None
  }

  /** The text of a position 1..7 names the same seat as the number. */
  lemma TextPositionAgrees(p: nat)
    requires 1 <= p <= 7
    ensures SeatIdFromPosition(TextPosition(NatToString(p))) == SeatIdFromPosition(NumberPosition(p))
    ensures SeatOf(TextPosition(NatToString(p))) == Some(PositionToSeatId(p).value)
  {
    NatToStringRoundTrip(p);
  }

  function SeatAt(students: seq<AssignedStudent>, k: nat): Option<SeatId>
    requires k < |students|
  {
    SeatOf(students[k].seatPosition)
  }

  /** `mapStudentsToSeats`: a left fold that writes each student under the
      seat its position names and skips the others. */
  function MapStudentsToSeats(students: seq<AssignedStudent>): (r: map<SeatId, AssignedStudent>)
    ensures |r| <= |students|
  {
    if students == [] then map[]
    else
      var acc := MapStudentsToSeats(students[..|students| - 1]);
      var last := students[|students| - 1];
      var seat := SeatOf(last.seatPosition);
      if seat.Some? then acc[seat.value := last] else acc
  }

  /** A seat is a key exactly when some student's position names it. */
  lemma {:induction false} SeatMapKeys(students: seq<AssignedStudent>, s: SeatId)
    ensures s in MapStudentsToSeats(students) <==> exists k :: 0 <= k < |students| && SeatAt(students, k) == Some(s)
  {
    if students != [] {
      var n := |students| - 1;
      var init := students[..n];
      SeatMapKeys(init, s);
      var r, acc := MapStudentsToSeats(students), MapStudentsToSeats(init);
      var last := SeatAt(students, n);
      assert r == if last.Some? then acc[last.value := students[n]] else acc;
      if last == Some(s) {
        assert s in r;
      } else {
        assert s in r <==> s in acc;
        if exists k :: 0 <= k < |students| && SeatAt(students, k) == Some(s) {
          var k :| 0 <= k < |students| && SeatAt(students, k) == Some(s);
          if k < n {
            assert SeatAt(init, k) == SeatAt(students, k);
          }
        }
        if exists k :: 0 <= k < |init| && SeatAt(init, k) == Some(s) {
          var k :| 0 <= k < |init| && SeatAt(init, k) == Some(s);
          assert SeatAt(students, k) == SeatAt(init, k);
        }
      }
    }
  }

  /** Each seat holds the last student whose position names it: when
      positions collide, the later student wins. */
  lemma {:induction false} SeatMapLaterWins(students: seq<AssignedStudent>, s: SeatId, k: nat)
    requires k < |students| && SeatAt(students, k) == Some(s)
    requires forall j :: k < j < |students| ==> SeatAt(students, j) != Some(s)
    ensures s in MapStudentsToSeats(students) && MapStudentsToSeats(students)[s] == students[k]
  {
    var n := |students| - 1;
    var init := students[..n];
    var acc := MapStudentsToSeats(init);
    var last := SeatAt(students, n);
    assert MapStudentsToSeats(students) == if last.Some? then acc[last.value := students[n]] else acc;
    if k < n {
      assert last != Some(s);
      forall j | k < j < |init|
        ensures SeatAt(init, j) != Some(s)
      {
        assert SeatAt(init, j) == SeatAt(students, j);
      }
      assert SeatAt(init, k) == SeatAt(students, k);
      SeatMapLaterWins(init, s, k);
    }
  }

  lemma {:induction false} SubsetCardinality<T>(a: set<T>, b: set<T>)
    requires a <= b
    ensures |a| <= |b|
  {
    if a != {} {
      var x :| x in a;
      SubsetCardinality(a - {x}, b - {x});
    }
  }

  /** The seat map has at most seven entries. */
  lemma SeatMapSize(students: seq<AssignedStudent>)
    ensures |MapStudentsToSeats(students)| <= 7
  {
    var r := MapStudentsToSeats(students);
    assert |AllSeats| == 7;
    assert r.Keys <= AllSeats by {
      forall s: SeatId
        ensures s in AllSeats
      {
        match s
        case F1 => case M1 => case M2 => case M3 => case B1 => case B2 => case B3 =>
      }
    }
    SubsetCardinality(r.Keys, AllSeats);
    assert |r| == |r.Keys|;
  }
}
