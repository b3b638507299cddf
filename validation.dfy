/** The request-body validators of the HTTP middleware: trips (creation and
    partial update), route ids, the user's own profile, and the user records
    an administrator creates and edits. Each validator either passes the
    request on (`Next`) or answers 400 with a message and, where the source
    sends one, the list of every field error it found. */
module Validation {
  import opened Wrappers
  import opened Text

  /** A field of a parsed JSON request body as JavaScript sees it. JSON numbers
      are integers here; a fractional amount arrives as text. */
  datatype Json = Undefined | Null | Str(s: string) | Num(n: int) | Bool(b: bool)

  /** JavaScript's falsy values among the above (`!v`). */
  predicate Falsy(v: Json) {
    v.Undefined? || v.Null? || v == Str("") || v == Num(0) || v == Bool(false)
  }

  /** `String(v)`. */
  function JsString(v: Json): (r: string)
    ensures v.Str? ==> r == v.s
  {
    match v
    case Undefined => "undefined"
    case Null => "null"
    case Str(s) => s
    case Num(n) => if n < 0 then "-" + NatToString(-n) else NatToString(n)
    case Bool(b) => if b then "true" else "false"
  }

  /** The five timestamp fields of a trip. */
  datatype StampField = BookingStartTime | BookingEndTime | DepartureTime | PrayerTime | EndTime

  /** The field's name in the request body and in messages. */
  function FieldName(f: StampField): string {
    match f
    case BookingStartTime => "booking_start_time"
    case BookingEndTime => "booking_end_time"
    case DepartureTime => "departure_time"
    case PrayerTime => "prayer_time"
    case EndTime => "end_time"
  }

  /** The field errors a validator records; `Wording` is the text the
      response carries for each. */
  datatype Problem =
    | TitleRequired | TitleNonEmpty | TitleTooLong
    | DateRequired | DateFormat | DateInvalid
    | StampRequired(field: StampField) | StampFormat(field: StampField)
    | WindowBackwards | WindowAfterDeparture | DepartureAfterPrayer | PrayerAfterEnd
    | AmountRequired | AmountNotPositive | AmountTooHigh
    | NameRequired | NameNonEmpty | NameTooLong | PhoneDigits | NotificationsFlag
    | EmailRequired | EmailString | EmailFormat | AdminFlag

  function Wording(p: Problem): string {
    match p
    case TitleRequired => "Trip title is required and must be a non-empty string"
    case TitleNonEmpty => "Trip title must be a non-empty string"
    case TitleTooLong => "Trip title must not exceed 255 characters"
    case DateRequired => "Trip date is required"
    case DateFormat => "Trip date must be in YYYY-MM-DD format"
    case DateInvalid => "Invalid trip date"
    case StampRequired(f) => FieldName(f) + " is required"
    case StampFormat(f) => "Invalid " + FieldName(f) + " format"
    case WindowBackwards => "booking_end_time must be after booking_start_time"
    case WindowAfterDeparture =>
      "booking_end_time must be before departure_time (booking window must close before cabs depart)"
    case DepartureAfterPrayer => "departure_time must be before prayer_time"
    case PrayerAfterEnd => "prayer_time must be before end_time"
    case AmountRequired => "amount_per_person is required"
    case AmountNotPositive => "amount_per_person must be a positive number"
    case AmountTooHigh => "amount_per_person seems too high (max: 10,000)"
    case NameRequired => "Name is required"
    case NameNonEmpty => "Name must be a non-empty string"
    case NameTooLong => "Name must not exceed 255 characters"
    case PhoneDigits => "Phone number must be exactly 10 digits (without +91)"
    case NotificationsFlag => "email_notifications must be a boolean"
    case EmailRequired => "Email is required"
    case EmailString => "Email must be a string"
    case EmailFormat => "Invalid email format"
    case AdminFlag => "is_admin must be a boolean"
  }

  /** The `error` of a 400 response. */
  datatype Refusal = ValidationFailed | NoTripFields | InvalidId | NoProfileFields | NoUserFields

  function RefusalWording(r: Refusal): string {
    match r
    case ValidationFailed => "Validation failed"
    case NoTripFields => "At least one field must be provided for update"
    case InvalidId => "Invalid ID format"
    case NoProfileFields => "At least one field (name, phone_number, or email_notifications) is required"
    case NoUserFields => "At least one field (email, name, or phone_number) is required"
  }

  /** `next()`, or a 400 response with its `error` and, for a failed
      validation, the `details` listing every problem in the order found. */
  datatype Outcome = Next | Rejected(status: int, error: Refusal, details: Option<seq<Problem>>)


  /** The common tail of every validator: any recorded error answers 400 with
      all of them, in the order found; none passes the request on. */
  function Respond(errors: seq<Problem>): (r: Outcome)
    ensures r.Next? <==> errors == []
    ensures r.Rejected? ==> r.status == 400 && r.error == ValidationFailed && r.details == Some(errors)
  {
    if |errors| > 0 then Rejected(400, ValidationFailed, Some(errors)) else Next
  }

  // ---------------------------------------------------------------------
  // Dates and times
  // ---------------------------------------------------------------------

  /** Date-string parsing (`Date.parse`) is the JavaScript engine's: a
      parameter of the model, giving the time value or `None` for NaN. */
  type DateParser = string -> Option<int>

  /** The largest time value a JavaScript `Date` holds, in milliseconds. */
  const MaxTime := 8640000000000000

  /** `new Date(v).getTime()`, with `None` for NaN. */
  function TimeOf(v: Json, parseDate: DateParser): (r: Option<int>)
    ensures v.Num? ==> (r.Some? <==> -MaxTime <= v.n <= MaxTime)
    ensures v.Undefined? ==> r.None?
  {
    match v
    case Undefined => None
    case Null => Some(0)
    case Str(s) => parseDate(s)
    case Num(n) => if -MaxTime <= n <= MaxTime then Some(n) else None
    case Bool(b) => Some(if b then 1 else 0)
  }

  /** `/^\d{4}-\d{2}-\d{2}$/.test(s)` */
  predicate IsDateText(s: string) {
    && |s| == 10 && s[4] == '-' && s[7] == '-'
    && forall k :: 0 <= k < 10 && k != 4 && k != 7 ==> IsDigit(s[k])
  }

  /** Only a string can pass the date pattern: `String` of a number has no
      dash in fifth place, and the other values have the wrong length. */
  lemma DateTextIsString(v: Json)
    requires IsDateText(JsString(v))
    ensures v.Str?
  {
  }

  // ---------------------------------------------------------------------
  // parseFloat
  // ---------------------------------------------------------------------

  /** A JavaScript number produced by `parseFloat`. */
  datatype Float = NaN | Finite(value: real) | Infinity(negative: bool)

  /** `m` times ten to the power `e`. */
  function Scale(m: real, e: int): real
    decreases if e < 0 then -e else e
  {
    if e == 0 then m
    else if e > 0 then Scale(m, e - 1) * 10.0
    else Scale(m, e + 1) / 10.0
  }

  /** The value of an exponent part (`e`, optional sign, digits) at the head
      of `s`; 0 when there is none. */
  function ExponentOf(s: string): int {
    if s == [] || (s[0] != 'e' && s[0] != 'E') then 0
    else
      var t := s[1..];
      var negative := t != [] && t[0] == '-';
      var body := if t != [] && (t[0] == '-' || t[0] == '+') then t[1..] else t;
      var digits := LeadingDigits(body);
      if negative then -(DigitsValue(digits) as int) else DigitsValue(digits)
  }

  /** The text after an optional leading sign. */
  function Unsigned(t: string): (r: string)
    ensures |r| <= |t|
  {
    if t != [] && (t[0] == '-' || t[0] == '+') then t[1..] else t
  }

  predicate StartsInfinity(body: string) {
    |body| >= 8 && body[..8] == "Infinity"
  }

  /** The value of the longest decimal literal at the head of `body`: digits,
      an optional point and fraction, an optional exponent; `None` when
      there is no digit before or after the point. The digits on both sides
      of the point read as one whole number, scaled down by the length of
      the fraction. */
  function DecimalValue(body: string): Option<real> {
    var whole := LeadingDigits(body);
    var rest := body[|whole|..];
    var point := rest != [] && rest[0] == '.';
    var fraction := if point then LeadingDigits(rest[1..]) else [];
    if whole == [] && fraction == [] then None
    else
      var tail := if point then rest[1 + |fraction|..] else rest;
      Some(Scale(DigitsValue(whole + fraction) as real, ExponentOf(tail) - |fraction|))
  }

  /** `parseFloat(s)`: leading white space is skipped, then an optional sign
      and either `Infinity` or the longest decimal literal; no digit at all
      gives NaN. Whatever follows the literal is ignored. */
  function ParseFloat(s: string): Float {
    var t := TrimStart(s);
    var negative := t != [] && t[0] == '-';
    var body := Unsigned(t);
    if StartsInfinity(body) then Infinity(negative)
    else
      match DecimalValue(body)
      case None => NaN
      case Some(m) => Finite(if negative then -m else m)
  }

  lemma {:induction false} LeadingDigitsOfDigits(s: string)
    requires AllDigits(s)
    ensures LeadingDigits(s) == s
  {
    if s != [] {
      LeadingDigitsOfDigits(s[1..]);
    }
  }

  lemma TrimStartKeeps(s: string)
    requires s == [] || !IsJsSpace(s[0])
    ensures TrimStart(s) == s
  {
  }

  lemma NotInfinity(body: string)
    requires body != [] && body[0] != 'I'
    ensures !StartsInfinity(body)
  {
    assert |body| >= 8 ==> body[..8][0] == body[0];
  }

  /** A run of digits is a decimal literal worth its value. */
  lemma DecimalOfDigits(t: string)
    requires AllDigits(t) && t != []
    ensures DecimalValue(t) == Some(DigitsValue(t) as real)
  {
    LeadingDigitsOfDigits(t);
    assert t[|t|..] == [];
    assert t + [] == t;
  }

  /** `parseFloat(String(n))` gives `n` back for every integer. */
  lemma ParseFloatInteger(n: int)
    ensures ParseFloat(JsString(Num(n))) == Finite(n as real)
  {
    var m: nat := if n < 0 then -n else n;
    var digits := NatToString(m);
    NatToStringRoundTrip(m);
    DecimalOfDigits(digits);
    NotInfinity(digits);
    var s := JsString(Num(n));
    assert s[0] == '-' || IsDigit(s[0]);
    TrimStartKeeps(s);
    assert Unsigned(s) == digits;
  }

  /** Text that starts with no sign, digit, point or `Infinity` reads as NaN. */
  lemma ParseFloatNoDigit(s: string)
    requires s != [] && !IsJsSpace(s[0]) && !IsDigit(s[0])
    requires s[0] != 'I' && s[0] != '.' && s[0] != '-' && s[0] != '+'
    ensures ParseFloat(s) == NaN
  {
    TrimStartKeeps(s);
    NotInfinity(s);
    assert LeadingDigits(s) == [];
  }

  /** `parseFloat` of a missing value, `null` or a boolean is NaN. */
  lemma ParseFloatNonNumbers(v: Json)
    requires v.Undefined? || v.Null? || v.Bool?
    ensures ParseFloat(JsString(v)) == NaN
  {
    var s := JsString(v);
    assert s[0] == 'u' || s[0] == 'n' || s[0] == 't' || s[0] == 'f';
    ParseFloatNoDigit(s);
  }

  /** `parseFloat(v)` on a body field. `parseFloat` reads `String(v)`,
      which gives a number back as it is and makes every other non-string
      NaN, as `ParseAmountAgrees` shows. */
  function ParseAmount(v: Json): Float {
    match v
    case Str(s) => ParseFloat(s)
    case Num(n) => Finite(n as real)
    case _ => NaN
  }

  lemma ParseAmountAgrees(v: Json)
    ensures ParseAmount(v) == ParseFloat(JsString(v))
  {
    if v.Num? {
      ParseFloatInteger(v.n);
    } else if !v.Str? {
      ParseFloatNonNumbers(v);
    }
  }

  // ---------------------------------------------------------------------
  // Field rules shared by several validators
  // ---------------------------------------------------------------------


  const MaxTextLength := 255
  const MaxAmount := 10000.0

  /** A trip title the creation rule accepts: a string with a non-blank trim,
      at most 255 characters long before trimming. */
  predicate TitleOk(v: Json) {
    v.Str? && |Trim(v.s)| > 0 && |v.s| <= MaxTextLength
  }

  /** A trip date both validators accept: text in the YYYY-MM-DD layout
      that the date parser reads as a real date. */
  predicate DateOk(v: Json, parseDate: DateParser) {
    v.Str? && IsDateText(v.s) && parseDate(v.s).Some?
  }

  /** The amount rule of both validators: `parseFloat` gives a number in
      (0, 10000]; a missing amount reads as NaN. */
  predicate AmountOk(v: Json) {
    var a := ParseAmount(v);
    a.Finite? && 0.0 < a.value <= MaxAmount
  }

  function AmountRangeErrors(v: Json): seq<Problem> {
    var a := ParseAmount(v);
    if a.NaN? || (a.Finite? && a.value <= 0.0) || a == Infinity(true) then [AmountNotPositive]
    else if (a.Finite? && a.value > MaxAmount) || a == Infinity(false) then [AmountTooHigh]
    else []
  }

  // ---------------------------------------------------------------------
  // validateTripData
  // ---------------------------------------------------------------------

  datatype TripBody = TripBody(
    tripTitle: Json,
    tripDate: Json,
    bookingStartTime: Json,
    bookingEndTime: Json,
    departureTime: Json,
    prayerTime: Json,
    endTime: Json,
    amountPerPerson: Json)

  /** One of the five timestamp fields, with the name its messages use. */
  datatype Stamp = Stamp(field: StampField, value: Json)

  /** The timestamp fields in the order they are checked. */
  function Stamps(b: TripBody): (r: seq<Stamp>)
    ensures |r| == 5
    ensures r[0].value == b.bookingStartTime && r[1].value == b.bookingEndTime
    ensures r[2].value == b.departureTime && r[3].value == b.prayerTime && r[4].value == b.endTime
  {
    [ Stamp(BookingStartTime, b.bookingStartTime),
      Stamp(BookingEndTime, b.bookingEndTime),
      Stamp(DepartureTime, b.departureTime),
      Stamp(PrayerTime, b.prayerTime),
      Stamp(EndTime, b.endTime) ]
  }

  function TitleErrors(v: Json): seq<Problem> {
    if Falsy(v) || !v.Str? || |Trim(v.s)| == 0 then [TitleRequired]
    else if |v.s| > MaxTextLength then [TitleTooLong]
    else []
  }

  function DateErrors(v: Json, parseDate: DateParser): seq<Problem> {
    if Falsy(v) then [DateRequired]
    else if !IsDateText(JsString(v)) then [DateFormat]
    else if TimeOf(v, parseDate).None? then [DateInvalid] else []
  }

  /** A timestamp the creation rule accepts: present and a valid date. */
  predicate StampOk(v: Json, parseDate: DateParser) {
    !Falsy(v) && TimeOf(v, parseDate).Some?
  }

  function StampError(t: Stamp, parseDate: DateParser): seq<Problem> {
    if Falsy(t.value) then [StampRequired(t.field)]
    else if TimeOf(t.value, parseDate).None? then [StampFormat(t.field)]
    else []
  }

  /** The errors of a run of timestamp fields, in order. */
  function StampErrors(ts: seq<Stamp>, parseDate: DateParser): seq<Problem> {
    if ts == [] then [] else StampErrors(ts[..|ts| - 1], parseDate) + StampError(ts[|ts| - 1], parseDate)
  }

  lemma {:induction false} StampErrorsEmpty(ts: seq<Stamp>, parseDate: DateParser)
    ensures StampErrors(ts, parseDate) == [] <==> forall k :: 0 <= k < |ts| ==> StampOk(ts[k].value, parseDate)
  {
    if ts != [] {
      StampErrorsEmpty(ts[..|ts| - 1], parseDate);
      StampRule(ts[|ts| - 1], parseDate);
      assert forall k :: 0 <= k < |ts| - 1 ==> ts[..|ts| - 1][k] == ts[k];
    }
  }

  /** JavaScript's `a <= b` on two time values: false when either is NaN. */
  predicate AtMost(a: Option<int>, b: Option<int>) {
    a.Some? && b.Some? && a.value <= b.value
  }

  /** JavaScript's `a < b` on two time values: false when either is NaN. */
  predicate Before(a: Option<int>, b: Option<int>) {
    a.Some? && b.Some? && a.value < b.value
  }

  /** The four ordering checks, each reported on its own. */
  function OrderErrors(b: TripBody, parseDate: DateParser): seq<Problem> {
    var bStart := TimeOf(b.bookingStartTime, parseDate);
    var bEnd := TimeOf(b.bookingEndTime, parseDate);
    var dTime := TimeOf(b.departureTime, parseDate);
    var pTime := TimeOf(b.prayerTime, parseDate);
    var eTime := TimeOf(b.endTime, parseDate);
    Flag(AtMost(bEnd, bStart), WindowBackwards) + Flag(AtMost(dTime, bEnd), WindowAfterDeparture)
    + Flag(AtMost(pTime, dTime), DepartureAfterPrayer) + Flag(AtMost(eTime, pTime), PrayerAfterEnd)
  }

  /** The problem, recorded when the check fails. */
  function Flag(failed: bool, p: Problem): seq<Problem> {
    if failed then [p] else []
  }

  predicate AllPresent(b: TripBody) {
    && !Falsy(b.bookingStartTime) && !Falsy(b.bookingEndTime) && !Falsy(b.departureTime)
    && !Falsy(b.prayerTime) && !Falsy(b.endTime)
  }

  /** The field errors found before the ordering check. */
  function FieldErrors(b: TripBody, parseDate: DateParser): seq<Problem> {
    TitleErrors(b.tripTitle) + DateErrors(b.tripDate, parseDate) + StampErrors(Stamps(b), parseDate)
  }

  function AmountErrors(v: Json): seq<Problem> {
    if v.Undefined? || v.Null? then [AmountRequired] else AmountRangeErrors(v)
  }

  /** Every error `validateTripData` records, in order: the ordering checks
      run only when all five timestamps are present and nothing else has
      been recorded yet; the amount is checked last. */
  function TripDataErrors(b: TripBody, parseDate: DateParser): seq<Problem> {
    var early := FieldErrors(b, parseDate);
    var order := if AllPresent(b) && early == [] then OrderErrors(b, parseDate) else [];
    early + order + AmountErrors(b.amountPerPerson)
  }

  /** The trip schedule runs strictly forward: the booking window opens,
      closes, then the cabs depart, then prayer, then the trip ends. */
  predicate Chronological(b: TripBody, parseDate: DateParser) {
    var bStart := TimeOf(b.bookingStartTime, parseDate);
    var bEnd := TimeOf(b.bookingEndTime, parseDate);
    var dTime := TimeOf(b.departureTime, parseDate);
    var pTime := TimeOf(b.prayerTime, parseDate);
    var eTime := TimeOf(b.endTime, parseDate);
    Before(bStart, bEnd) && Before(bEnd, dTime) && Before(dTime, pTime) && Before(pTime, eTime)
  }

  /** Each field rule refuses exactly what its predicate excludes, under
      both the creation and the update reading. */
  lemma TitleRule(v: Json)
    ensures TitleErrors(v) == [] <==> TitleOk(v)
    ensures UpdateTitleErrors(v) == [] <==> v.Undefined? || TitleOk(v)
  {
  }

  lemma DateRule(v: Json, parseDate: DateParser)
    ensures DateErrors(v, parseDate) == [] <==> DateOk(v, parseDate)
    ensures UpdateDateErrors(v, parseDate) == [] <==> v.Undefined? || DateOk(v, parseDate)
  {
    if IsDateText(JsString(v)) {
      DateTextIsString(v);
    }
  }

  lemma StampRule(t: Stamp, parseDate: DateParser)
    ensures StampError(t, parseDate) == [] <==> StampOk(t.value, parseDate)
    ensures UpdateStampError(t, parseDate) == [] <==> UpdateStampOk(t.value, parseDate)
  {
  }

  lemma AmountRule(v: Json)
    ensures AmountErrors(v) == [] <==> AmountOk(v)
    ensures AmountRangeErrors(v) == [] <==> AmountOk(v)
  {
  }

  /** What a new trip must satisfy, field by field. */
  predicate TripAcceptable(b: TripBody, parseDate: DateParser) {
    && TitleOk(b.tripTitle)
    && DateOk(b.tripDate, parseDate)
    && StampOk(b.bookingStartTime, parseDate) && StampOk(b.bookingEndTime, parseDate)
    && StampOk(b.departureTime, parseDate) && StampOk(b.prayerTime, parseDate)
    && StampOk(b.endTime, parseDate)
    && Chronological(b, parseDate)
    && AmountOk(b.amountPerPerson)
  }

  lemma FieldErrorsEmpty(b: TripBody, parseDate: DateParser)
    ensures FieldErrors(b, parseDate) == [] <==>
      && TitleOk(b.tripTitle) && DateOk(b.tripDate, parseDate)
      && StampOk(b.bookingStartTime, parseDate) && StampOk(b.bookingEndTime, parseDate)
      && StampOk(b.departureTime, parseDate) && StampOk(b.prayerTime, parseDate)
      && StampOk(b.endTime, parseDate)
  {
    TitleRule(b.tripTitle);
    DateRule(b.tripDate, parseDate);
    var ts := Stamps(b);
    StampErrorsEmpty(ts, parseDate);
    assert (forall k :: 0 <= k < |ts| ==> StampOk(ts[k].value, parseDate)) <==>
      StampOk(ts[0].value, parseDate) && StampOk(ts[1].value, parseDate) && StampOk(ts[2].value, parseDate)
      && StampOk(ts[3].value, parseDate) && StampOk(ts[4].value, parseDate);
  }

  /** `validateTripData` passes a request on exactly when the trip is
      acceptable: every field valid, the schedule strictly in order, and the
      amount in (0, 10000]. */
  lemma TripDataAccepts(b: TripBody, parseDate: DateParser)
    ensures Respond(TripDataErrors(b, parseDate)) == Next <==> TripAcceptable(b, parseDate)
  {
    FieldErrorsEmpty(b, parseDate);
    AmountRule(b.amountPerPerson);
  }

  /** The ordering checks run only on an otherwise clean body: when a
      field error is recorded or a timestamp is missing, the response lists
      the field errors and the amount's; otherwise exactly the ordering
      checks that fail, then the amount's error if any. */
  lemma OrderCheckedOnlyWhenClean(b: TripBody, parseDate: DateParser)
    ensures FieldErrors(b, parseDate) != [] || !AllPresent(b) ==>
      TripDataErrors(b, parseDate) == FieldErrors(b, parseDate) + AmountErrors(b.amountPerPerson)
    ensures FieldErrors(b, parseDate) == [] && AllPresent(b) ==>
      TripDataErrors(b, parseDate) == OrderErrors(b, parseDate) + AmountErrors(b.amountPerPerson)
  {
  }

  /** The validator: the middleware's own step-by-step checks, including the
      loop over the timestamp fields, record exactly `TripDataErrors`. */
  method ValidateTripData(body: TripBody, parseDate: DateParser) returns (r: Outcome)
    ensures r == Respond(TripDataErrors(body, parseDate))
  {
    var errors := CollectFieldErrors(body, parseDate);
    if AllPresent(body) && errors == [] {
      var bStart := TimeOf(body.bookingStartTime, parseDate);
      var bEnd := TimeOf(body.bookingEndTime, parseDate);
      var dTime := TimeOf(body.departureTime, parseDate);
      var pTime := TimeOf(body.prayerTime, parseDate);
      var eTime := TimeOf(body.endTime, parseDate);
      errors := errors + Flag(AtMost(bEnd, bStart), WindowBackwards);
      errors := errors + Flag(AtMost(dTime, bEnd), WindowAfterDeparture);
      errors := errors + Flag(AtMost(pTime, dTime), DepartureAfterPrayer);
      errors := errors + Flag(AtMost(eTime, pTime), PrayerAfterEnd);
      assert errors == OrderErrors(body, parseDate);
    }
    assert errors == FieldErrors(body, parseDate)
      + (if AllPresent(body) && FieldErrors(body, parseDate) == [] then OrderErrors(body, parseDate) else []);
    var amountErrors := CheckAmount(body.amountPerPerson);
    errors := errors + amountErrors;
    if |errors| > 0 {
      r := Rejected(400, ValidationFailed, Some(errors));
      return;
    }
    r := Next;
  }

  /** The title, date and timestamp checks, in the middleware's order. */
  method CollectFieldErrors(body: TripBody, parseDate: DateParser) returns (errors: seq<Problem>)
    ensures errors == FieldErrors(body, parseDate)
  {
    errors := CheckTitle(body.tripTitle);
    var dateErrors := CheckDate(body.tripDate, parseDate);
    errors := errors + dateErrors;
    var stampErrors := CheckStamps(Stamps(body), parseDate);
    errors := errors + stampErrors;
  }

  /** The loop over the timestamp fields. */
  method CheckStamps(timestamps: seq<Stamp>, parseDate: DateParser) returns (errors: seq<Problem>)
    ensures errors == StampErrors(timestamps, parseDate)
  {
    errors := [];
    for i := 0 to |timestamps|
      invariant errors == StampErrors(timestamps[..i], parseDate)
    {
      var ts := timestamps[i];
      if Falsy(ts.value) {
        errors := errors + [StampRequired(ts.field)];
      } else if TimeOf(ts.value, parseDate).None? {
        errors := errors + [StampFormat(ts.field)];
      }
      assert timestamps[..i + 1][..i] == timestamps[..i];
    }
    assert timestamps[..|timestamps|] == timestamps;
  }

  method CheckTitle(title: Json) returns (errors: seq<Problem>)
    ensures errors == TitleErrors(title)
  {
    errors := [];
    if Falsy(title) || !title.Str? || |Trim(title.s)| == 0 {
      errors := errors + [TitleRequired];
    } else if |title.s| > MaxTextLength {
      errors := errors + [TitleTooLong];
    }
  }

  method CheckDate(date: Json, parseDate: DateParser) returns (errors: seq<Problem>)
    ensures errors == DateErrors(date, parseDate)
  {
    errors := [];
    if Falsy(date) {
      errors := errors + [DateRequired];
    } else if !IsDateText(JsString(date)) {
      errors := errors + [DateFormat];
    } else if TimeOf(date, parseDate).None? {
      errors := errors + [DateInvalid];
    }
  }

  /** The amount check of the creation rule: required, then in range. */
  method CheckAmount(amount: Json) returns (errors: seq<Problem>)
    ensures errors == AmountErrors(amount)
  {
    errors := [];
    if amount.Undefined? || amount.Null? {
      errors := errors + [AmountRequired];
    } else {
      errors := CheckAmountRange(amount);
    }
  }

  /** `parseFloat` of a present amount must give a number in (0, 10000]. */
  method CheckAmountRange(amount: Json) returns (errors: seq<Problem>)
    ensures errors == AmountRangeErrors(amount)
  {
    errors := [];
    var a := ParseAmount(amount);
    if a.NaN? || (a.Finite? && a.value <= 0.0) || a == Infinity(true) {
      errors := errors + [AmountNotPositive];
    } else if (a.Finite? && a.value > MaxAmount) || a == Infinity(false) {
      errors := errors + [AmountTooHigh];
    }
  }

  // ---------------------------------------------------------------------
  // validateTripUpdate
  // ---------------------------------------------------------------------

  /** Nothing to update: the seven text fields falsy and no amount at all. */
  predicate NothingToUpdate(b: TripBody) {
    && Falsy(b.tripTitle) && Falsy(b.tripDate) && !AnyStampPresent(b)
    && b.amountPerPerson.Undefined?
  }

  /** Some timestamp field is truthy. */
  predicate AnyStampPresent(b: TripBody) {
    || !Falsy(b.bookingStartTime) || !Falsy(b.bookingEndTime) || !Falsy(b.departureTime)
    || !Falsy(b.prayerTime) || !Falsy(b.endTime)
  }

  function UpdateTitleErrors(v: Json): seq<Problem> {
    if v.Undefined? then []
    else if !v.Str? || |Trim(v.s)| == 0 then [TitleNonEmpty]
    else if |v.s| > MaxTextLength then [TitleTooLong]
    else []
  }

  function UpdateDateErrors(v: Json, parseDate: DateParser): seq<Problem> {
    if v.Undefined? then []
    else if !IsDateText(JsString(v)) then [DateFormat]
    else if TimeOf(v, parseDate).None? then [DateInvalid] else []
  }

  function UpdateStampError(t: Stamp, parseDate: DateParser): seq<Problem> {
    if !t.value.Undefined? && TimeOf(t.value, parseDate).None? then [StampFormat(t.field)] else []
  }

  function UpdateStampErrors(ts: seq<Stamp>, parseDate: DateParser): seq<Problem> {
    if ts == [] then [] else UpdateStampErrors(ts[..|ts| - 1], parseDate) + UpdateStampError(ts[|ts| - 1], parseDate)
  }

  /** A provided timestamp is acceptable to the update rule when it is a
      valid date; `undefined` is not checked. */
  predicate UpdateStampOk(v: Json, parseDate: DateParser) {
    TimeOf(v, parseDate).Some? || v.Undefined?
  }

  lemma {:induction false} UpdateStampErrorsEmpty(ts: seq<Stamp>, parseDate: DateParser)
    ensures UpdateStampErrors(ts, parseDate) == [] <==>
      forall k :: 0 <= k < |ts| ==> UpdateStampOk(ts[k].value, parseDate)
  {
    if ts != [] {
      UpdateStampErrorsEmpty(ts[..|ts| - 1], parseDate);
      StampRule(ts[|ts| - 1], parseDate);
      assert forall k :: 0 <= k < |ts| - 1 ==> ts[..|ts| - 1][k] == ts[k];
    }
  }

  function UpdateFieldErrors(b: TripBody, parseDate: DateParser): seq<Problem> {
    UpdateTitleErrors(b.tripTitle) + UpdateDateErrors(b.tripDate, parseDate) + UpdateStampErrors(Stamps(b), parseDate)
  }

  function TripUpdateErrors(b: TripBody, parseDate: DateParser): seq<Problem> {
    UpdateFieldErrors(b, parseDate)
    + (if b.amountPerPerson.Undefined? then [] else AmountRangeErrors(b.amountPerPerson))
  }

  function TripUpdateOutcome(b: TripBody, parseDate: DateParser): Outcome {
    if NothingToUpdate(b) then Rejected(400, NoTripFields, None)
    else Respond(TripUpdateErrors(b, parseDate))
  }

  /** What a partial update must satisfy: something to update, and each
      provided field valid on its own; nothing relates the times. */
  predicate UpdateAcceptable(b: TripBody, parseDate: DateParser) {
    && !NothingToUpdate(b)
    && (b.tripTitle.Undefined? || TitleOk(b.tripTitle))
    && (b.tripDate.Undefined? || DateOk(b.tripDate, parseDate))
    && UpdateStampOk(b.bookingStartTime, parseDate) && UpdateStampOk(b.bookingEndTime, parseDate)
    && UpdateStampOk(b.departureTime, parseDate) && UpdateStampOk(b.prayerTime, parseDate)
    && UpdateStampOk(b.endTime, parseDate)
    && (b.amountPerPerson.Undefined? || AmountOk(b.amountPerPerson))
  }

  lemma TripUpdateAccepts(b: TripBody, parseDate: DateParser)
    ensures TripUpdateOutcome(b, parseDate) == Next <==> UpdateAcceptable(b, parseDate)
  {
    TitleRule(b.tripTitle);
    DateRule(b.tripDate, parseDate);
    AmountRule(b.amountPerPerson);
    var ts := Stamps(b);
    UpdateStampErrorsEmpty(ts, parseDate);
    assert (forall k :: 0 <= k < |ts| ==> UpdateStampOk(ts[k].value, parseDate)) <==>
      UpdateStampOk(ts[0].value, parseDate) && UpdateStampOk(ts[1].value, parseDate)
      && UpdateStampOk(ts[2].value, parseDate) && UpdateStampOk(ts[3].value, parseDate)
      && UpdateStampOk(ts[4].value, parseDate);
  }

  /** The same body with its five timestamps in reverse order. */
  function ReversedTimes(b: TripBody): TripBody {
    b.(bookingStartTime := b.endTime, bookingEndTime := b.prayerTime,
       prayerTime := b.bookingEndTime, endTime := b.bookingStartTime)
  }

  /** A partial update never checks the order of the times: reversing them
      does not change whether it passes. Creation does check it: a new trip
      whose times are reversed is refused. */
  lemma UpdateIgnoresOrder(b: TripBody, parseDate: DateParser)
    ensures TripUpdateOutcome(b, parseDate).Next? <==> TripUpdateOutcome(ReversedTimes(b), parseDate).Next?
    ensures TripAcceptable(b, parseDate) ==> !TripAcceptable(ReversedTimes(b), parseDate)
  {
    TripUpdateAccepts(b, parseDate);
    TripUpdateAccepts(ReversedTimes(b), parseDate);
  }

  method ValidateTripUpdate(body: TripBody, parseDate: DateParser) returns (r: Outcome)
    ensures r == TripUpdateOutcome(body, parseDate)
  {
    if NothingToUpdate(body) {
      r := Rejected(400, NoTripFields, None);
      return;
    }
    var errors := CollectUpdateFieldErrors(body, parseDate);
    var amount := body.amountPerPerson;
    var amountErrors: seq<Problem> := [];
    if !amount.Undefined? {
      amountErrors := CheckAmountRange(amount);
    }
    errors := errors + amountErrors;
    if |errors| > 0 {
      r := Rejected(400, ValidationFailed, Some(errors));
      return;
    }
    r := Next;
  }

  /** The checks of the fields an update provides, in the middleware's order. */
  method CollectUpdateFieldErrors(body: TripBody, parseDate: DateParser) returns (errors: seq<Problem>)
    ensures errors == UpdateFieldErrors(body, parseDate)
  {
    errors := CheckUpdateTitle(body.tripTitle);
    var dateErrors := CheckUpdateDate(body.tripDate, parseDate);
    errors := errors + dateErrors;
    var stampErrors := CheckUpdateStamps(Stamps(body), parseDate);
    errors := errors + stampErrors;
  }

  /** The loop over the timestamp fields an update provides. */
  method CheckUpdateStamps(fields: seq<Stamp>, parseDate: DateParser) returns (errors: seq<Problem>)
    ensures errors == UpdateStampErrors(fields, parseDate)
  {
    errors := [];
    for i := 0 to |fields|
      invariant errors == UpdateStampErrors(fields[..i], parseDate)
    {
      var field := fields[i];
      if !field.value.Undefined? {
        if TimeOf(field.value, parseDate).None? {
          errors := errors + [StampFormat(field.field)];
        }
      }
      assert fields[..i + 1][..i] == fields[..i];
    }
    assert fields[..|fields|] == fields;
  }

  method CheckUpdateTitle(title: Json) returns (errors: seq<Problem>)
    ensures errors == UpdateTitleErrors(title)
  {
    errors := [];
    if !title.Undefined? {
      if !title.Str? || |Trim(title.s)| == 0 {
        errors := errors + [TitleNonEmpty];
      } else if |title.s| > MaxTextLength {
        errors := errors + [TitleTooLong];
      }
    }
  }

  method CheckUpdateDate(date: Json, parseDate: DateParser) returns (errors: seq<Problem>)
    ensures errors == UpdateDateErrors(date, parseDate)
  {
    errors := [];
    if !date.Undefined? {
      if !IsDateText(JsString(date)) {
        errors := errors + [DateFormat];
      } else if TimeOf(date, parseDate).None? {
        errors := errors + [DateInvalid];
      }
    }
  }

  // ---------------------------------------------------------------------
  // validateUUID
  // ---------------------------------------------------------------------

  /** `validateUUID` on the route's `id` parameter. */
  function ValidateUuid(id: string): (r: Outcome)
    ensures r.Next? <==> IsUuid(id)
    ensures r.Rejected? ==> r == Rejected(400, InvalidId, None)
  {
    if !IsUuid(id) then Rejected(400, InvalidId, None) else Next
  }

  function LowerChar(c: char): char {
    if 'A' <= c <= 'Z' then (c as int - 'A' as int + 'a' as int) as char else c
  }

  /** ASCII lower case. */
  function Lower(s: string): (r: string)
    ensures |r| == |s| && forall k :: 0 <= k < |s| ==> r[k] == LowerChar(s[k])
  {
    seq(|s|, k requires 0 <= k < |s| => LowerChar(s[k]))
  }

  /** The id check ignores letter case, and for five dash-separated groups
      of hexadecimal digits it is exactly the 8-4-4-4-12 layout. */
  lemma UuidAccepts(id: string, a: string, b: string, c: string, d: string, e: string)
    requires AllHex(a) && AllHex(b) && AllHex(c) && AllHex(d) && AllHex(e)
    ensures ValidateUuid(Lower(id)) == ValidateUuid(id)
    ensures ValidateUuid(a + "-" + b + "-" + c + "-" + d + "-" + e) == Next
        <==> |a| == 8 && |b| == 4 && |c| == 4 && |d| == 4 && |e| == 12
  {
    UuidGroups(a, b, c, d, e);
    var l := Lower(id);
    assert forall k :: 0 <= k < |id| ==> (IsHexDigit(l[k]) <==> IsHexDigit(id[k])) && (l[k] == '-' <==> id[k] == '-');
  }

  // ---------------------------------------------------------------------
  // Names and phone numbers, shared by the user validators
  // ---------------------------------------------------------------------


  /** A name the user validators accept: a string whose trim is non-empty
      and at most 255 characters. */
  predicate NameOk(v: Json) {
    v.Str? && 0 < |Trim(v.s)| <= MaxTextLength
  }

  /** The name check once a name is provided. */
  function NameErrors(v: Json): seq<Problem> {
    if !v.Str? || |Trim(v.s)| == 0 then [NameNonEmpty]
    else if |Trim(v.s)| > MaxTextLength then [NameTooLong]
    else []
  }

  /** `null` and `''` clear the phone number without any check. */
  predicate ClearsPhone(v: Json) {
    v.Null? || v == Str("")
  }

  /** `String(v).replace(/[^0-9]/g, '')` */
  function NormalizedPhone(v: Json): (r: string)
    ensures AllDigits(r)
  {
    DigitsOf(JsString(v))
  }

  /** A phone field the user validators accept: absent, cleared, or ten
      digits once everything else is stripped. */
  predicate PhoneOk(v: Json) {
    v.Undefined? || ClearsPhone(v) || |NormalizedPhone(v)| == 10
  }

  function PhoneErrors(v: Json): seq<Problem> {
    if !v.Undefined? && !ClearsPhone(v) && |NormalizedPhone(v)| != 10 then [PhoneDigits] else []
  }

  // ---------------------------------------------------------------------
  // validateProfileUpdate
  // ---------------------------------------------------------------------


  datatype ProfileBody = ProfileBody(name: Json, phoneNumber: Json, emailNotifications: Json)

  /** The response, and the body as the handlers after the middleware see it. */
  datatype Checked = Checked(outcome: Outcome, body: ProfileBody)

  /** The name after the check: trimmed when it passes, otherwise as sent. */
  function RewrittenName(v: Json): Json {
    if NameOk(v) then Str(Trim(v.s)) else v
  }

  /** The phone number after the check: cleared to `null`, replaced by its
      ten digits, or left as sent when it fails or is absent. */
  function RewrittenPhone(v: Json): Json {
    if v.Undefined? then v
    else if ClearsPhone(v) then Null
    else if |NormalizedPhone(v)| == 10 then Str(NormalizedPhone(v))
    else v
  }

  function ProfileErrors(b: ProfileBody): seq<Problem> {
    (if b.name.Undefined? then [] else NameErrors(b.name))
    + PhoneErrors(b.phoneNumber)
    + (if b.emailNotifications.Undefined? || b.emailNotifications.Bool? then [] else [NotificationsFlag])
  }

  /** `validateProfileUpdate`: the response and the rewritten body. A body
      with none of the three fields is refused before anything is rewritten. */
  function ProfileUpdate(b: ProfileBody): Checked {
    if b.name.Undefined? && b.phoneNumber.Undefined? && b.emailNotifications.Undefined? then
      Checked(Rejected(400, NoProfileFields, None), b)
    else
      Checked(Respond(ProfileErrors(b)),
              ProfileBody(RewrittenName(b.name), RewrittenPhone(b.phoneNumber), b.emailNotifications))
  }

  /** A profile update passes exactly when something is sent and each sent
      field is valid. */
  lemma ProfileAccepts(b: ProfileBody)
    ensures ProfileUpdate(b).outcome == Next <==>
      && !(b.name.Undefined? && b.phoneNumber.Undefined? && b.emailNotifications.Undefined?)
      && (b.name.Undefined? || NameOk(b.name))
      && PhoneOk(b.phoneNumber)
      && (b.emailNotifications.Undefined? || b.emailNotifications.Bool?)
  {
  }

  /** Phone normalisation: `null` or `''` becomes `null`; any other sent
      value that passes is replaced by exactly its ten digits. */
  lemma PhoneNormalised(b: ProfileBody)
    requires !b.phoneNumber.Undefined?
    ensures var after := ProfileUpdate(b);
      && (ClearsPhone(b.phoneNumber) ==> after.body.phoneNumber == Null)
      && (after.outcome == Next && !ClearsPhone(b.phoneNumber) ==>
            && after.body.phoneNumber == Str(NormalizedPhone(b.phoneNumber))
            && |after.body.phoneNumber.s| == 10 && AllDigits(after.body.phoneNumber.s))
  {
  }

  lemma TrimEndKeeps(s: string)
    requires s == [] || !IsJsSpace(s[|s| - 1])
    ensures TrimEnd(s) == s
  {
  }

  lemma TrimIdempotent(s: string)
    ensures Trim(Trim(s)) == Trim(s)
  {
    var u := TrimStart(s);
    var t := TrimEnd(u);
    TrimStartSpec(s);
    TrimEndSpec(u);
    assert t != [] ==> t[0] == u[0];
    TrimStartKeeps(t);
    TrimEndKeeps(t);
  }


  /** A body the middleware has accepted and rewritten passes again
      unchanged: trimming and digit-stripping are already done. */
  lemma ProfileRewriteStable(b: ProfileBody)
    requires ProfileUpdate(b).outcome == Next
    ensures ProfileUpdate(ProfileUpdate(b).body) == ProfileUpdate(b)
  {
    var after := ProfileUpdate(b).body;
    if NameOk(b.name) {
      TrimIdempotent(b.name.s);
    }
    var phone := b.phoneNumber;
    if !phone.Undefined? && !ClearsPhone(phone) {
      DigitsOfDigits(NormalizedPhone(phone));
    }
    assert ProfileErrors(after) == [];
  }

  /** The request whose body the middleware rewrites in place. */
  class ProfileRequest {
    var name: Json
    var phoneNumber: Json
    var emailNotifications: Json

    constructor(body: ProfileBody)
      ensures Body() == body
    {
      name := body.name;
      phoneNumber := body.phoneNumber;
      emailNotifications := body.emailNotifications;
    }

    function Body(): ProfileBody
      reads this
    {
      ProfileBody(name, phoneNumber, emailNotifications)
    }

    /** The name check of a sent name, trimming it when it passes. */
    method CheckName() returns (errors: seq<Problem>)
      modifies this
      ensures errors == NameErrors(old(name))
      ensures name == RewrittenName(old(name))
      ensures phoneNumber == old(phoneNumber) && emailNotifications == old(emailNotifications)
    {
      errors := [];
      if !name.Str? || |Trim(name.s)| == 0 {
        errors := errors + [NameNonEmpty];
      } else if |Trim(name.s)| > MaxTextLength {
        errors := errors + [NameTooLong];
      } else {
        name := Str(Trim(name.s));
      }
    }

    /** The phone check: clearing, or normalising to ten digits. */
    method CheckPhone() returns (errors: seq<Problem>)
      modifies this
      ensures errors == PhoneErrors(old(phoneNumber))
      ensures phoneNumber == RewrittenPhone(old(phoneNumber))
      ensures name == old(name) && emailNotifications == old(emailNotifications)
    {
      errors := [];
      if !phoneNumber.Undefined? {
        if phoneNumber.Null? || phoneNumber == Str("") {
          phoneNumber := Null;
        } else {
          var normalized := DigitsOf(JsString(phoneNumber));
          if |normalized| != 10 {
            errors := errors + [PhoneDigits];
          } else {
            phoneNumber := Str(normalized);
          }
        }
      }
    }

    /** `validateProfileUpdate`: the name and phone fields are rewritten as
        they pass, before the errors are looked at. */
    method ValidateProfileUpdate() returns (r: Outcome)
      modifies this
      ensures Checked(r, Body()) == ProfileUpdate(old(Body()))
    {
      if name.Undefined? && phoneNumber.Undefined? && emailNotifications.Undefined? {
        r := Rejected(400, NoProfileFields, None);
        return;
      }
      ghost var before := Body();
      var errors: seq<Problem> := [];
      if !name.Undefined? {
        errors := CheckName();
      }
      var phoneErrors := CheckPhone();
      errors := errors + phoneErrors;
      if !emailNotifications.Undefined? {
        if !emailNotifications.Bool? {
          errors := errors + [NotificationsFlag];
        }
      }
      assert errors == ProfileErrors(before);
      if |errors| > 0 {
        r := Rejected(400, ValidationFailed, Some(errors));
        return;
      }
      r := Next;
    }
  }

  // ---------------------------------------------------------------------
  // validateUserCreation and validateUserUpdate
  // ---------------------------------------------------------------------


  /** A character `[^\s@]` matches. */
  predicate Plain(c: char) {
    !IsJsSpace(c) && c != '@'
  }

  /** `/^[^\s@]+@[^\s@]+\.[^\s@]+$/.test(s)`: one `@` with plain text before
      it, and after it plain text holding a dot with something on both sides. */
  predicate IsEmail(s: string) {
    exists at, dot :: 0 < at && at + 1 < dot && dot + 1 < |s| && s[at] == '@' && s[dot] == '.'
      && forall k :: 0 <= k < |s| && k != at ==> Plain(s[k])
  }

  /** A campus address passes the pattern. */
  lemma EmailAccepted()
    ensures IsEmail("ali@iitb.ac.in")
  {
    var s := "ali@iitb.ac.in";
    assert s[3] == '@' && s[8] == '.';
  }

  /** A domain without a dot, or a space anywhere, fails it. */
  lemma EmailRejected()
    ensures !IsEmail("ali@iitb")
    ensures !IsEmail("ali @iitb.ac.in")
  {
    var t := "ali@iitb";
    assert forall at, dot :: 0 < at && at + 1 < dot && dot + 1 < |t| && t[at] == '@' ==> at == 3 && t[dot] != '.';
    var u := "ali @iitb.ac.in";
    assert !Plain(u[3]);
  }

  /** Plain text, an `@`, plain text, a dot and plain text always pass. */
  lemma EmailFromParts(user: string, domain: string, suffix: string)
    requires user != [] && domain != [] && suffix != []
    requires forall k :: 0 <= k < |user| ==> Plain(user[k])
    requires forall k :: 0 <= k < |domain| ==> Plain(domain[k])
    requires forall k :: 0 <= k < |suffix| ==> Plain(suffix[k])
    ensures IsEmail(user + "@" + domain + "." + suffix)
  {
    var s := user + "@" + domain + "." + suffix;
    var at, dot := |user|, |user| + 1 + |domain|;
    assert s[at] == '@' && s[dot] == '.';
    forall k | 0 <= k < |s| && k != at
      ensures Plain(s[k])
    {
      if k < at {
        assert s[k] == user[k];
      } else if k < dot {
        assert s[k] == domain[k - at - 1];
      } else if k > dot {
        assert s[k] == suffix[k - dot - 1];
      }
    }
  }

  /** Whitespace anywhere fails the pattern. */
  lemma EmailNoSpace(s: string, k: int)
    requires 0 <= k < |s| && IsJsSpace(s[k])
    ensures !IsEmail(s)
  {
  }

  /** So does an `@` with no dot after it. */
  lemma EmailNeedsDot(s: string, i: int)
    requires 0 <= i < |s| && s[i] == '@'
    requires forall k :: i < k < |s| ==> s[k] != '.'
    ensures !IsEmail(s)
  {
  }

  /** An address that passes holds exactly one `@`. */
  lemma EmailSingleAt(s: string, i: int, j: int)
    requires IsEmail(s)
    requires 0 <= i < |s| && 0 <= j < |s| && s[i] == '@' && s[j] == '@'
    ensures i == j
  {
  }


  /** The e-mail rule once a value is sent: a string in the address layout. */
  predicate EmailOk(v: Json) {
    v.Str? && IsEmail(v.s)
  }

  datatype UserBody = UserBody(email: Json, name: Json, phoneNumber: Json, isAdmin: Json)

  function UserCreationErrors(u: UserBody): seq<Problem> {
    (if Falsy(u.email) then [EmailRequired]
     else if !u.email.Str? then [EmailString]
     else if !IsEmail(u.email.s) then [EmailFormat]
     else [])
    + (if Falsy(u.name) then [NameRequired] else NameErrors(u.name))
    + PhoneErrors(u.phoneNumber)
    + (if !u.isAdmin.Undefined? && !u.isAdmin.Bool? then [AdminFlag] else [])
  }

  /** `validateUserCreation`: every refusal is a 400 listing at least one
      problem; `UserCreationAccepts` says when it passes. */
  function ValidateUserCreation(u: UserBody): (r: Outcome)
    ensures r.Rejected? ==> r.status == 400 && r.error == ValidationFailed && r.details.Some? && r.details.value != []
  {
    Respond(UserCreationErrors(u))
  }

  /** A new user is accepted exactly when the e-mail and name are valid, the
      phone number is absent, cleared or ten digits, and `is_admin`, if sent,
      is a boolean. */
  lemma UserCreationAccepts(u: UserBody)
    ensures ValidateUserCreation(u) == Next <==>
      EmailOk(u.email) && NameOk(u.name) && PhoneOk(u.phoneNumber) && (u.isAdmin.Undefined? || u.isAdmin.Bool?)
  {
    if EmailOk(u.email) {
      assert u.email.s != [];
    }
  }

  function UserUpdateErrors(u: UserBody): seq<Problem> {
    (if u.email.Undefined? then []
     else if !u.email.Str? then [EmailString]
     else if !IsEmail(u.email.s) then [EmailFormat]
     else [])
    + (if u.name.Undefined? then [] else NameErrors(u.name))
    + PhoneErrors(u.phoneNumber)
  }

  /** `validateUserUpdate`; `is_admin` is not looked at. Every refusal is a
      400, and it names the missing fields exactly when none is sent. */
  function ValidateUserUpdate(u: UserBody): (r: Outcome)
    ensures r.Rejected? ==> r.status == 400
    ensures r.Rejected? ==>
      (r.error == NoUserFields <==> u.email.Undefined? && u.name.Undefined? && u.phoneNumber.Undefined?)
  {
    if u.email.Undefined? && u.name.Undefined? && u.phoneNumber.Undefined? then Rejected(400, NoUserFields, None)
    else Respond(UserUpdateErrors(u))
  }

  /** A user edit is accepted exactly when something is sent and each sent
      field is valid. */
  lemma UserUpdateAccepts(u: UserBody)
    ensures ValidateUserUpdate(u) == Next <==>
      && !(u.email.Undefined? && u.name.Undefined? && u.phoneNumber.Undefined?)
      && (u.email.Undefined? || EmailOk(u.email))
      && (u.name.Undefined? || NameOk(u.name))
      && PhoneOk(u.phoneNumber)
  {
  }

  /** Anything a new-user form may carry is also a valid edit. */
  lemma CreationImpliesUpdate(u: UserBody)
    requires ValidateUserCreation(u) == Next
    ensures ValidateUserUpdate(u) == Next
  {
    UserCreationAccepts(u);
    UserUpdateAccepts(u);
  }
}
