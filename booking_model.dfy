/** The booking schema of models/Booking.js: which records a creation admits and what it stores. */
module BookingModel {
  import opened Common

  /** The `enum` of the `status` path. */
  const Statuses: set<string> := {"pending", "accepted", "ontheway", "completed"}

  /** The `default` of the `status` path. */
  const DefaultStatus: string := "pending"

  /** A creation request: the request body as it reaches `new Booking(...)`. Paths the schema
      does not declare are dropped by Mongoose's strict mode and do not appear here. */
  datatype BookingRequest = BookingRequest(
    bookingId: Option<string>,
    name: Option<string>,
    phone: Option<string>,
    device: Option<string>,
    service: Option<string>,
    address: Option<string>,
    datetime: Option<string>,
    status: Option<string>)

  /** A stored booking. `id` is the store's own primary key (`_id`); `createdAt` is a
      timestamp in milliseconds. */
  datatype Booking = Booking(
    id: nat,
    bookingId: string,
    name: string,
    phone: string,
    device: string,
    service: string,
    address: string,
    datetime: Option<string>,
    status: string,
    createdAt: int)

  function CreatedAt(b: Booking): int
  {
    b.createdAt
  }

  /** The six `required: true` paths are all present and not empty; `datetime` is not one. */
  predicate HasRequiredFields(req: BookingRequest)
  {
    && Filled(req.bookingId)
    && Filled(req.name)
    && Filled(req.phone)
    && Filled(req.device)
    && Filled(req.service)
    && Filled(req.address)
  }

  /** The `enum` validator: an absent status takes the default, a given one must be listed. */
  predicate StatusAllowed(status: Option<string>)
  {
    status.None? || status.value in Statuses
  }

  /** What every stored booking keeps for its lifetime: the required paths are not empty.
      The status is not part of it, because the update route writes it without validators. */
  predicate WellFormed(b: Booking)
  {
    b.bookingId != "" && b.name != "" && b.phone != "" && b.device != ""
    && b.service != "" && b.address != ""
  }

  /** `new Booking(body)` followed by the validation of `save()`, with primary key `id`
      and clock reading `now`. The unique index on `bookingId` is a property of the whole
      collection and is checked by the store. */
  function NewBooking(id: nat, req: BookingRequest, now: int): (r: Option<Booking>)
    ensures r.Some? <==> HasRequiredFields(req) && StatusAllowed(req.status)
    ensures r.Some? ==> WellFormed(r.value) && r.value.status in Statuses
    ensures r.Some? ==>
      && r.value.id == id
      && r.value.createdAt == now
      && Some(r.value.bookingId) == req.bookingId
      && Some(r.value.name) == req.name
      && Some(r.value.phone) == req.phone
      && Some(r.value.device) == req.device
      && Some(r.value.service) == req.service
      && Some(r.value.address) == req.address
      && r.value.datetime == req.datetime
    ensures r.Some? && req.status.None? ==> r.value.status == DefaultStatus
    ensures r.Some? && req.status.Some? ==> r.value.status == req.status.value
  {
    if HasRequiredFields(req) && StatusAllowed(req.status) then
      Some(Booking(id, req.bookingId.value, req.name.value, req.phone.value, req.device.value,
                   req.service.value, req.address.value, req.datetime,
                   if req.status.Some? then req.status.value else DefaultStatus, now))
    else None
  }

  /** `datetime` is optional: leaving it out never decides whether a booking is admitted. */
  lemma DatetimeOptional(id: nat, req: BookingRequest, now: int)
    ensures NewBooking(id, req.(datetime := None), now).Some? == NewBooking(id, req, now).Some?
  {
  }

  /** No two bookings of a collection share a `bookingId` (the `unique: true` index). */
  predicate UniqueBookingIds(bookings: map<nat, Booking>)
  {
    forall a, b :: a in bookings && b in bookings && bookings[a].bookingId == bookings[b].bookingId ==> a == b
  }
}
