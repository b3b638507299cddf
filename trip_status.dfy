// Status of a trip on the admin detail page and which tabs it opens
// (frontend/src/pages/admin/trips/detail/utils.ts). Timestamps are
// milliseconds since the epoch.
module TripStatus {
  import opened Wrappers

  datatype DetailStatus = Upcoming | ActiveBookingOpen | ActiveBookingClosed | Completed {
    function Name(): string {
      match this
      case Upcoming => "upcoming"
      case ActiveBookingOpen => "active-booking-open"
      case ActiveBookingClosed => "active-booking-closed"
      case Completed => "completed"
    }
  }

  datatype Tab = Demand | Journey | Allocation

  /** `getTripDetailStatus` at time `now`. */
  function TripDetailStatus(bookingStart: int, bookingEnd: int, tripEnd: int, now: int): (s: DetailStatus)
    ensures s == Completed <==> tripEnd <= now
    ensures s == ActiveBookingClosed <==> bookingStart <= now < tripEnd && now > bookingEnd
    ensures s == ActiveBookingOpen <==> bookingStart <= now < tripEnd && now <= bookingEnd
    ensures s == Upcoming <==> now < tripEnd && now < bookingStart
  {
    if tripEnd <= now then Completed
    else if now >= bookingStart && now < tripEnd && now > bookingEnd then ActiveBookingClosed
    else if now >= bookingStart && now < tripEnd && now <= bookingEnd then ActiveBookingOpen
    else Upcoming
  }

  /** `canAccessTab`; `allocationCount` is the trip's optional
      `allocation_count`. */
  function CanAccessTab(tab: Tab, status: DetailStatus, allocationCount: Option<int>): (r: bool)
    ensures tab == Demand ==> (r <==> status != Upcoming)
    ensures tab == Allocation ==> (r <==> status in {ActiveBookingClosed, Completed})
    ensures tab == Journey ==> (r <==> allocationCount.Some? && allocationCount.value > 0 && status in {ActiveBookingClosed, Completed})
  {
    var hasAllocations := allocationCount.Some? && allocationCount.value > 0;
    match tab
    case Demand => status != Upcoming
    case Journey => hasAllocations && (status == ActiveBookingClosed || status == Completed)
    case Allocation => status == ActiveBookingClosed || status == Completed
  }

  /** Every tab that is open for a status is the demand tab or comes after it:
      the journey tab is open only where the allocation tab is, and the
      allocation tab only where the demand tab is. */
  lemma TabsNest(status: DetailStatus, allocationCount: Option<int>)
    ensures CanAccessTab(Journey, status, allocationCount) ==> CanAccessTab(Allocation, status, allocationCount)
    ensures CanAccessTab(Allocation, status, allocationCount) ==> CanAccessTab(Demand, status, allocationCount)
  {
  }

  /** `getDefaultTab`: the first open tab of demand, allocation, journey,
      falling back to demand; by the nesting above it is always demand. */
  function DefaultTab(status: DetailStatus, allocationCount: Option<int>): (r: Tab)
    ensures r == Demand
  {
    if CanAccessTab(Demand, status, allocationCount) then Demand
    else if CanAccessTab(Allocation, status, allocationCount) then Allocation
    else if CanAccessTab(Journey, status, allocationCount) then Journey
    else Demand
  }

  /** Once a trip has ended it stays completed, and a status never moves back
      to upcoming as time passes. */
  lemma StatusMonotone(bookingStart: int, bookingEnd: int, tripEnd: int, now: int, later: int)
    requires now <= later
    ensures TripDetailStatus(bookingStart, bookingEnd, tripEnd, now) == Completed
      ==> TripDetailStatus(bookingStart, bookingEnd, tripEnd, later) == Completed
    ensures TripDetailStatus(bookingStart, bookingEnd, tripEnd, later) == Upcoming
      ==> TripDetailStatus(bookingStart, bookingEnd, tripEnd, now) == Upcoming
  {
  }
}
