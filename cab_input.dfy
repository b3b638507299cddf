/** The "Optimize" button of the dashboard (`on_optimize`): read one entry per
    region, solve, and lay out the cab plan. The solver is an oracle passed in
    as a function from the counts to its status and values; the Tk widgets are
    left out, an entry is its text and the output is an `Outcome`. */
module CabInput {
  import opened Wrappers
  import opened Text
  import opened CabModel
  import opened CabPlan

  /** Python's whitespace (`str.isspace`), which `str.strip()` removes: the
      ASCII controls 9-13 and 28-31, the space, and the Unicode spaces. Unlike
      JavaScript it includes U+001C-U+001F and U+0085 and excludes U+FEFF. */
  predicate IsPySpace(c: char) {
    || '\t' <= c <= '\r' || '\U{1C}' <= c <= ' '
    || c == '\U{85}' || c == '\U{A0}' || c == '\U{1680}'
    || '\U{2000}' <= c <= '\U{200A}'
    || c == '\U{2028}' || c == '\U{2029}' || c == '\U{202F}' || c == '\U{205F}'
    || c == '\U{3000}'
  }

  /** The text without its leading Python whitespace. */
  function StripStart(s: string): string {
    if s != [] && IsPySpace(s[0]) then StripStart(s[1..]) else s
  }

  /** The text without its trailing Python whitespace. */
  function StripEnd(s: string): string {
    if s != [] && IsPySpace(s[|s| - 1]) then StripEnd(s[..|s| - 1]) else s
  }

  /** `s.strip()` */
  function Strip(s: string): string {
    StripEnd(StripStart(s))
  }

  /** `lstrip` leaves the longest suffix that does not begin with whitespace. */
  lemma {:induction false} StripStartSpec(s: string)
    ensures |StripStart(s)| <= |s| && StripStart(s) == s[|s| - |StripStart(s)|..]
    ensures StripStart(s) == [] || !IsPySpace(StripStart(s)[0])
    ensures forall k :: 0 <= k < |s| - |StripStart(s)| ==> IsPySpace(s[k])
  {
    if s != [] && IsPySpace(s[0]) {
      var r := StripStart(s[1..]);
      StripStartSpec(s[1..]);
      assert s[1..][|s| - 1 - |r|..] == s[|s| - |r|..];
      assert forall k :: 1 <= k < |s| - |r| ==> s[k] == s[1..][k - 1];
    }
  }

  /** `rstrip` leaves the longest prefix that does not end with whitespace. */
  lemma {:induction false} StripEndSpec(s: string)
    ensures |StripEnd(s)| <= |s| && StripEnd(s) == s[..|StripEnd(s)|]
    ensures StripEnd(s) == [] || !IsPySpace(StripEnd(s)[|StripEnd(s)| - 1])
    ensures forall k :: |StripEnd(s)| <= k < |s| ==> IsPySpace(s[k])
  {
    if s != [] && IsPySpace(s[|s| - 1]) {
      var r := StripEnd(s[..|s| - 1]);
      StripEndSpec(s[..|s| - 1]);
      assert s[..|s| - 1][..|r|] == s[..|r|];
      assert forall k :: |r| <= k < |s| - 1 ==> s[k] == s[..|s| - 1][k];
    }
  }

  /** The digits `int` accepts: decimal digits, with single underscores
      allowed between two digits (`1_000`). */
  predicate Grouped(t: string) {
    && t != [] && IsDigit(t[0]) && IsDigit(t[|t| - 1])
    && (forall k :: 0 <= k < |t| ==> IsDigit(t[k]) || t[k] == '_')
    && (forall k :: 0 <= k < |t| - 1 ==> t[k] == '_' ==> t[k + 1] != '_')
  }

  predicate IsSign(c: char) { c == '+' || c == '-' }

  /** `int(t)` on a stripped text: an optional sign followed by decimal
      digits, possibly grouped by underscores; the underscores are skipped. */
  function ParseInt(t: string): (r: Option<int>)
    ensures r.Some? <==> Grouped(t) || (t != [] && IsSign(t[0]) && Grouped(t[1..]))
    ensures r.Some? && AllDigits(t) ==> r.value == DigitsValue(t)
  {
    if t != [] && IsSign(t[0]) then
      var digits := t[1..];
      if Grouped(digits) then
        var magnitude: int := DigitsValue(DigitsOf(digits));
        Some(if t[0] == '-' then -magnitude else magnitude)
      else None
    else if Grouped(t) then
      if AllDigits(t) then DigitsOfDigits(t); Some(DigitsValue(DigitsOf(t)))
      else Some(DigitsValue(DigitsOf(t)))
    else None
  }

  /** One entry: blank after `strip()` counts as 0; otherwise it must be a
      non-negative integer, and anything else is an input error (`None`). */
  function ParseEntry(text: string): (r: Option<int>)
    ensures r.Some? ==> r.value >= 0
    ensures Strip(text) == [] ==> r == Some(0)
    ensures Strip(text) != [] ==> (r.Some? <==> ParseInt(Strip(text)).Some? && ParseInt(Strip(text)).value >= 0)
  {
    var t := Strip(text);
    if t == [] then Some(0)
    else
      match ParseInt(t)
      case Some(v) => if v < 0 then None else Some(v)
      case None => None
  }

  lemma {:induction false} DigitsAreNotSpaces(s: string)
    requires AllDigits(s)
    ensures Strip(s) == s
  {
    if s != [] {
      assert !IsPySpace(s[0]) && !IsPySpace(s[|s| - 1]);
    }
  }

  /** Python's `int` skips the underscores between digit groups. */
  lemma UnderscoresSkipped()
    ensures ParseEntry("1_000") == Some(1000)
  {
    var t := "1_000";
    assert !IsPySpace(t[0]) && !IsPySpace(t[|t| - 1]);
    assert Strip(t) == t;
    assert Grouped(t) && !IsSign(t[0]);
    assert DigitsOf(t) == "1000";
    var d := "1000";
    assert d[..3] == "100" && d[..3][..2] == "10" && d[..3][..2][..1] == "1";
    assert DigitsValue("1") == 1;
    assert DigitsValue("10") == 10;
    assert DigitsValue("100") == 100;
    assert DigitsValue(d) == 1000;
  }

  /** `strip()` removes U+001C, which JavaScript's `trim` keeps, and keeps
      U+FEFF, which `trim` removes. */
  lemma PythonWhitespace()
    ensures ParseEntry("\U{1C}5") == Some(5)
    ensures ParseEntry("\U{FEFF}5") == None
  {
    var a := "\U{1C}5";
    assert StripStart(a) == StripStart(a[1..]) && a[1..] == "5";
    assert Strip(a) == "5";
    var b := "\U{FEFF}5";
    assert !IsPySpace(b[0]) && !IsPySpace(b[|b| - 1]);
    assert Strip(b) == b;
    assert !Grouped(b) && !IsSign(b[0]);
  }

  /** Every count the dashboard can show is read back as itself. */
  lemma EntryRoundTrip(n: nat)
    ensures ParseEntry(NatToString(n)) == Some(n)
  {
    var t := NatToString(n);
    DigitsAreNotSpaces(t);
    NatToStringRoundTrip(n);
    assert !IsSign(t[0]) && Grouped(t);
  }

  /** A minus sign in front of a positive count is an input error. */
  lemma NegativeRejected(n: nat)
    requires n > 0
    ensures ParseEntry("-" + NatToString(n)) == None
  {
    var digits := NatToString(n);
    var t := "-" + digits;
    assert t[1..] == digits;
    assert !IsPySpace(t[0]) && !IsPySpace(t[|t| - 1]);
    assert Strip(t) == t;
    NatToStringRoundTrip(n);
    DigitsOfDigits(digits);
  }

  /** A text that is not a number at all (here: one letter) is an input error. */
  lemma LetterRejected(c: char)
    requires 'a' <= c <= 'z'
    ensures ParseEntry([c]) == None
  {
    assert !IsPySpace(c);
    assert Strip([c]) == [c];
  }

  /** What the button leaves in the window. */
  datatype Outcome =
    | InputError                     // "Please enter non-negative integers for all regions."
    | NoStudents                     // "Total students is 0. Nothing to optimize."
    | SolverError                    // "No feasible solution found."
    | Report(students: seq<int>, result: Allocation, headings: seq<Heading>, cabs: seq<Cab>, lines: seq<CabLine>)

  /** The solver's answer to a vector of counts. */
  datatype Answer = Answer(status: Status, values: Values)

  /** A solver that keeps the CP-SAT promise for every model it is given. */
  ghost predicate TrustedSolver(solve: seq<int> -> Answer) {
    forall s :: |s| == Regions ==> SolverContract(CabCpModel(s), solve(s).status, solve(s).values)
  }

  /** A report shows a plan of the model for its counts, laid out cab by cab,
      with no cab left empty. */
  predicate ShowsPlan(o: Outcome)
    requires o.Report?
  {
    var p := o.result;
    && |o.students| == Regions
    && IsCabPlan(o.students, p.assignments, p.numCabsPerRegion, p.unusedSeatsPerRegion)
    && o.cabs == PlanCabs(AllLoads(p.assignments, p.numCabsPerRegion), p.numCabsPerRegion, Regions)
    && Describes(o.lines, o.cabs)
    && forall k :: 0 <= k < |o.lines| ==> o.lines[k].kind != Empty && 1 <= o.lines[k].used
  }

  lemma NoEmptyCab(s: seq<int>, a: seq<seq<int>>, y: seq<int>, r: seq<int>, cabs: seq<Cab>, lines: seq<CabLine>)
    requires |s| == Regions && IsCabPlan(s, a, y, r)
    requires cabs == PlanCabs(AllLoads(a, y), y, Regions) && Describes(lines, cabs)
    ensures forall k :: 0 <= k < |lines| ==> lines[k].kind != Empty && 1 <= lines[k].used
  {
    forall k | 0 <= k < |lines|
      ensures lines[k].kind != Empty && 1 <= lines[k].used
    {
      PlanOccupancy(s, a, y, r, k);
    }
  }

  /** The counts read from entries that all parse (an unparsable entry reads as 0). */
  function Parsed(entries: seq<string>): (s: seq<int>)
    ensures |s| == |entries|
    ensures forall k :: 0 <= k < |entries| ==> s[k] == ParseEntry(entries[k]).GetOr(0)
  {
    seq(|entries|, k requires 0 <= k < |entries| => ParseEntry(entries[k]).GetOr(0))
  }

  lemma ParsedNonNegative(entries: seq<string>)
    ensures forall k :: 0 <= k < |entries| ==> Parsed(entries)[k] >= 0
  {
    forall k | 0 <= k < |entries|
      ensures Parsed(entries)[k] >= 0
    {
      var r := ParseEntry(entries[k]);
    }
  }

  /** Non-negative counts summing to 0 are all 0. */
  lemma AllZero(xs: seq<int>)
    requires forall k :: 0 <= k < |xs| ==> xs[k] >= 0
    requires Sum(xs) == 0
    ensures forall k :: 0 <= k < |xs| ==> xs[k] == 0
  {
    forall k | 0 <= k < |xs|
      ensures xs[k] == 0
    {
      ElementAtMostSum(xs, k);
    }
  }

  /** `on_optimize`: parse every entry, refuse a total of 0, solve, and build
      the cab plan from the solver's matrix and cab counts. */
  method OnOptimize(entries: seq<string>, solve: seq<int> -> Answer) returns (outcome: Outcome)
    requires |entries| == Regions
    requires TrustedSolver(solve)
    ensures outcome == InputError <==> !AllParse(entries)
    ensures outcome.NoStudents? ==> forall k :: 0 <= k < |entries| ==> Parsed(entries)[k] == 0
    ensures AllParse(entries) && Sum(Parsed(entries)) == 0 ==> outcome == NoStudents
    ensures outcome.SolverError? ==> !Solved(solve(Parsed(entries)).status)
    ensures outcome.Report? ==>
      && outcome.students == Parsed(entries) && Sum(outcome.students) > 0
      && |entries| == Regions && ShowsPlan(outcome)
  {
    var students := ReadEntries(entries);
    if students.None? {
      return InputError;
    }
    var s := students.value;
    ParsedNonNegative(entries);
    SumNonNegative(s);
    if Sum(s) == 0 {
      AllZero(s);
      return NoStudents;
    }
    outcome := Optimize(s, solve);
  }

  /** Every entry holds a blank or a non-negative integer. */
  predicate AllParse(entries: seq<string>) {
    forall k :: 0 <= k < |entries| ==> ParseEntry(entries[k]).Some?
  }

  /** The first k entries parse, and `read` holds their values. */
  predicate ReadSoFar(entries: seq<string>, k: nat, read: seq<int>) {
    && k <= |entries| && |read| == k
    && forall m :: 0 <= m < k ==> ParseEntry(entries[m]).Some? && read[m] == ParseEntry(entries[m]).value
  }

  lemma ReadStep(entries: seq<string>, k: nat, read: seq<int>)
    requires k < |entries| && ReadSoFar(entries, k, read) && ParseEntry(entries[k]).Some?
    ensures ReadSoFar(entries, k + 1, read + [ParseEntry(entries[k]).value])
  {
  }

  lemma ReadDone(entries: seq<string>, read: seq<int>)
    requires ReadSoFar(entries, |entries|, read)
    ensures AllParse(entries) && read == Parsed(entries)
  {
  }

  /** The `try` block: one `int` per entry, appended in order; the first bad
      entry aborts with `None`. */
  method ReadEntries(entries: seq<string>) returns (students: Option<seq<int>>)
    ensures students.None? <==> !AllParse(entries)
    ensures students.Some? ==> students.value == Parsed(entries)
  {
    var read: seq<int> := [];
    for k := 0 to |entries|
      invariant ReadSoFar(entries, k, read)
    {
      var v := ParseEntry(entries[k]);
      if v.None? {
        return None;
      }
      ReadStep(entries, k, read);
      read := read + [v.value];
    }
    ReadDone(entries, read);
    return Some(read);
  }

  /** Solving and laying out the plan for counts with a positive total. */
  method Optimize(s: seq<int>, solve: seq<int> -> Answer) returns (outcome: Outcome)
    requires |s| == Regions && TrustedSolver(solve)
    requires Sum(s) > 0
    ensures outcome.SolverError? || outcome.Report?
    ensures outcome.SolverError? ==> !Solved(solve(s).status)
    ensures outcome.Report? ==>
      && outcome.students == s && ShowsPlan(outcome)
  {
    var answer := solve(s);
    var res := SolveCabAllocation(s, answer.status, answer.values);
    if res.Failure? || res.value.None? {
      return SolverError;
    }
    var p := res.value.value;
    var headings, cabs, lines := BuildCabPlan(p.assignments, p.numCabsPerRegion);
    NoEmptyCab(s, p.assignments, p.numCabsPerRegion, p.unusedSeatsPerRegion, cabs, lines);
    return Report(s, p, headings, cabs, lines);
  }
}
