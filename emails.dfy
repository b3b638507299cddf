// Subject lines of the notification e-mails (backend/src/emails/index.ts).
module Emails {
  import opened Wrappers

  /** The part of a template's data that the subject reads; an absent field is
      `None`. */
  datatype TemplateData = TemplateData(tripTitle: Option<string>, subject: Option<string>)

  /** The keys of the template map, in declaration order. */
  const AvailableTemplates: seq<string> :=
    ["booking_confirmed", "cab_allocated", "journey_pickup", "journey_return", "admin_announcement"]

  const BookingPrefix: string := "✅ Booking Confirmed - "
  const CabPrefix: string := "\U{1F695} Cab Assigned - "
  const PickupPrefix: string := "✓ Boarding Confirmed - "
  const ReturnPrefix: string := "✓ Journey Completed - "
  const AnnouncementPrefix: string := "\U{1F4E2} "
  const DefaultAnnouncement: string := "Important Update from Friday Cab"
  const FallbackSubject: string := "Friday Cab Notification"

  /** A value placed in a template literal: an absent one prints as `undefined`. */
  function Interpolated(v: Option<string>): (r: string)
    ensures v.Some? ==> r == v.value
  {
    if v.Some? then v.value else "undefined"
  }

  /** JavaScript truthiness of an optional string. */
  predicate Truthy(v: Option<string>) {
    v.Some? && v.value != ""
  }

  /** The prefix of the four trip templates, if `template` is one of them. */
  function TripPrefix(template: string): Option<string> {
    match template
    case "booking_confirmed" => Some(BookingPrefix)
    case "cab_allocated" => Some(CabPrefix)
    case "journey_pickup" => Some(PickupPrefix)
    case "journey_return" => Some(ReturnPrefix)
    case _ => None
  }

  /** `getEmailSubject`. */
  function EmailSubject(template: string, data: TemplateData): (r: string)
    ensures TripPrefix(template).Some? ==> r == TripPrefix(template).value + Interpolated(data.tripTitle)
    ensures template == "admin_announcement" && Truthy(data.subject) ==> r == AnnouncementPrefix + data.subject.value
    ensures template == "admin_announcement" && !Truthy(data.subject) ==> r == AnnouncementPrefix + DefaultAnnouncement
    ensures template !in AvailableTemplates ==> r == FallbackSubject
  {
    match template
    case "booking_confirmed" => BookingPrefix + Interpolated(data.tripTitle)
    case "cab_allocated" => CabPrefix + Interpolated(data.tripTitle)
    case "journey_pickup" => PickupPrefix + Interpolated(data.tripTitle)
    case "journey_return" => ReturnPrefix + Interpolated(data.tripTitle)
    case "admin_announcement" => AnnouncementPrefix + (if Truthy(data.subject) then data.subject.value else DefaultAnnouncement)
    case _ => FallbackSubject
  }

  /** The fallback subject is given exactly to the templates outside the
      template map: every listed template's subject starts with a symbol the
      fallback does not. */
  lemma FallbackIffUnknown(template: string, data: TemplateData)
    ensures EmailSubject(template, data) == FallbackSubject <==> template !in AvailableTemplates
  {
    var r := EmailSubject(template, data);
    if template in AvailableTemplates {
      assert r[0] != 'F';
    }
  }

  /** The template list has five distinct keys, and the trip templates are
      exactly its first four. */
  lemma AvailableTemplatesShape()
    ensures |AvailableTemplates| == 5
    ensures forall i, j :: 0 <= i < j < |AvailableTemplates| ==> AvailableTemplates[i] != AvailableTemplates[j]
    ensures forall t :: TripPrefix(t).Some? <==> t in AvailableTemplates[..4]
  {
    assert AvailableTemplates[..4] == ["booking_confirmed", "cab_allocated", "journey_pickup", "journey_return"];
  }

  /** Different trip templates give different subjects for the same data. */
  lemma TripSubjectsDiffer(t1: string, t2: string, data: TemplateData)
    requires TripPrefix(t1).Some? && TripPrefix(t2).Some? && t1 != t2
    ensures EmailSubject(t1, data) != EmailSubject(t2, data)
  {
    var p1, p2 := TripPrefix(t1).value, TripPrefix(t2).value;
    var k := if (t1 == "journey_pickup" && t2 == "journey_return") || (t1 == "journey_return" && t2 == "journey_pickup") then 2 else 0;
    assert p1[k] != p2[k];
    assert EmailSubject(t1, data)[k] == p1[k];
    assert EmailSubject(t2, data)[k] == p2[k];
  }
}
