// Display format of a ten-digit phone number (frontend/src/lib/utils.ts).
module PhoneFormat {
  import opened Wrappers

  const CountryCode: string := "+91 "
  const DefaultFallback: string := "Not provided"

  /** `formatPhoneNumber(phone, fallback)`: an absent or empty phone gives the
      fallback; otherwise the country code, the first five characters, a
      space, and the rest. */
  function FormatPhoneNumber(phone: Option<string>, fallback: string := DefaultFallback): (r: string)
    ensures phone.None? || phone.value == "" ==> r == fallback
    ensures phone.Some? && phone.value != "" ==>
      var p := phone.value;
      var cut := if |p| < 5 then |p| else 5;
      && |r| == |p| + 5
      && r[..4] == CountryCode && r[4..4 + cut] == p[..cut] && r[4 + cut] == ' ' && r[5 + cut..] == p[cut..]
  {
    if phone.None? || phone.value == "" then fallback
    else
      var p := phone.value;
      var cut := if |p| < 5 then |p| else 5;
      CountryCode + p[..cut] + " " + p[cut..]
  }

  /** For a phone of at least five characters, dropping the country code and
      the inserted space gives the phone back. */
  lemma FormatRoundTrip(p: string)
    requires |p| >= 5
    ensures var r := FormatPhoneNumber(Some(p)); r[4..9] + r[10..] == p
  {
    var r := FormatPhoneNumber(Some(p));
    assert p == p[..5] + p[5..];
  }

  /** A phone shorter than five characters is printed whole, followed by a
      trailing space. */
  lemma ShortPhoneTrailingSpace(p: string)
    requires 0 < |p| < 5
    ensures FormatPhoneNumber(Some(p)) == CountryCode + p + " "
  {
    assert p[..|p|] == p;
    assert p[|p|..] == [];
  }
}
