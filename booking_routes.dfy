/** The booking routes of routes/bookings.js over an in-memory collection: create, list
    newest first, look up by `bookingId`, and update the status with its WhatsApp message. */
module BookingRoutes {
  import opened Common
  import opened JsText
  import opened BookingModel
  import Ordering

  const BookingErrorMessage: string := "Booking error"
  const InvalidBookingIdMessage: string := "Invalid Booking ID"
  const StatusUpdateFailedMessage: string := "Status update failed"

  /** One call of the WhatsApp sender: the recipient's phone number and the text. */
  datatype Notification = Notification(to: string, text: string)

  /** The statuses that have a message template. */
  const NotifyingStatuses: set<string> := {"accepted", "ontheway", "completed"}

  /** The opening of a status's template, up to the customer's name: an emoji, a space,
      "Hi" and a space; empty for a status without a template. */
  function Greeting(status: string): string
  {
    if status == "accepted" then "\U{2705} Hi "
    else if status == "ontheway" then "\U{1F6B4} Hi "
    else if status == "completed" then "\U{1F389} Hi "
    else ""
  }

  /** The message chosen for a normalised status, with the customer's name filled in;
      the empty string means that no message is sent. A chosen message is the status's
      greeting, then the name, then the rest of the template. */
  function StatusMessage(status: string, name: string): (m: string)
    ensures m != "" <==> status in NotifyingStatuses
    ensures m != "" ==>
      var g := Greeting(status);
      |g| + |name| < |m| && m[..|g|] == g && m[|g|..|g| + |name|] == name
  {
    if status == "accepted" then
      "\U{2705} Hi " + name + ", your Phonly repair request is accepted. Our technician will contact you soon."
    else if status == "ontheway" then
      "\U{1F6B4} Hi " + name + ", our technician is on the way. Please be available."
    else if status == "completed" then
      "\U{1F389} Hi " + name + ", your phone repair is completed. Thank you for choosing Phonly!"
    else ""
  }

  /** The length of a string in UTF-16 code units, JavaScript's `length`: a character
      beyond U+FFFF takes a surrogate pair. */
  function Utf16Length(s: string): nat
  {
    if s == [] then 0 else (if s[0] as int > 0xFFFF then 2 else 1) + Utf16Length(s[1..])
  }

  /** Every greeting has five characters, but in JavaScript's units the name starts at
      index 5 only in the accepted message: U+1F6B4 and U+1F389 each take two code units,
      so it starts at 6 in the on-the-way and completed messages. */
  lemma GreetingWidths()
    ensures forall status :: status in NotifyingStatuses ==> |Greeting(status)| == 5
    ensures Utf16Length(Greeting("accepted")) == 5
    ensures Utf16Length(Greeting("ontheway")) == 6
    ensures Utf16Length(Greeting("completed")) == 6
  {
  }

  /** Each notifying status has its own template: for one name the three messages differ. */
  lemma TemplatesDistinct(name: string)
    ensures StatusMessage("accepted", name) != StatusMessage("ontheway", name)
    ensures StatusMessage("accepted", name) != StatusMessage("completed", name)
    ensures StatusMessage("ontheway", name) != StatusMessage("completed", name)
  {
  }

  /** A status given as "Accepted" is stored as "accepted" and chooses the accepted
      template for the booking's customer. */
  lemma AcceptedCapitalised(name: string)
    ensures ToLower("Accepted") == "accepted"
    ensures StatusMessage(ToLower("Accepted"), name)
         == "\U{2705} Hi " + name + ", your Phonly repair request is accepted. Our technician will contact you soon."
  {
  }

  /** No booking of the collection carries `bookingId`. */
  predicate Free(bookings: map<nat, Booking>, bookingId: string)
  {
    forall id :: id in bookings ==> bookings[id].bookingId != bookingId
  }

  /** The collection after `findByIdAndUpdate(id, { status })`: the booking with key `id`,
      if there is one, gets `status`; nothing else changes. */
  function WithStatus(bookings: map<nat, Booking>, id: nat, status: string): map<nat, Booking>
  {
    if id in bookings then bookings[id := bookings[id].(status := status)] else bookings
  }

  /** A status update keeps every booking well formed and `bookingId` unique, whatever the
      status written: the update path runs no validators, but it touches only `status`. */
  lemma WithStatusKeepsInvariant(bookings: map<nat, Booking>, id: nat, status: string)
    requires UniqueBookingIds(bookings)
    requires forall k :: k in bookings ==> WellFormed(bookings[k])
    ensures UniqueBookingIds(WithStatus(bookings, id, status))
    ensures forall k :: k in WithStatus(bookings, id, status) ==> WellFormed(WithStatus(bookings, id, status)[k])
    ensures WithStatus(bookings, id, status).Keys == bookings.Keys
    ensures forall k :: k in bookings ==> WithStatus(bookings, id, status)[k].bookingId == bookings[k].bookingId
  {
  }

  /** The invariant of collecting the bookings: `collected` holds, without repeated keys,
      exactly the bookings whose keys are no longer in `todo`. */
  ghost predicate CollectedSoFar(bookings: map<nat, Booking>, collected: seq<Booking>, todo: set<nat>)
  {
    && todo <= bookings.Keys
    && |collected| + |todo| == |bookings|
    && (forall i :: 0 <= i < |collected| ==> collected[i] in bookings.Values && collected[i].id !in todo)
    && (forall i, j :: 0 <= i < j < |collected| ==> collected[i].id != collected[j].id)
    && (forall id :: id in bookings && id !in todo ==> bookings[id] in collected)
  }

  /** Moving one key from `todo` to `collected` keeps the invariant, when every booking is
      stored under its own id. */
  lemma CollectStep(bookings: map<nat, Booking>, collected: seq<Booking>, todo: set<nat>, id: nat)
    requires forall k :: k in bookings ==> bookings[k].id == k
    requires CollectedSoFar(bookings, collected, todo)
    requires id in todo
    ensures CollectedSoFar(bookings, collected + [bookings[id]], todo - {id})
  {
    var c := collected + [bookings[id]];
    assert bookings[id].id == id;
    assert forall i :: 0 <= i < |collected| ==> c[i] == collected[i];
  }

  /** Once `todo` is empty, `collected` is every stored booking, each of them once. */
  lemma CollectDone(bookings: map<nat, Booking>, collected: seq<Booking>)
    requires CollectedSoFar(bookings, collected, {})
    ensures |collected| == |bookings|
    ensures forall b :: b in collected <==> b in bookings.Values
    ensures forall i, j :: 0 <= i < j < |collected| ==> collected[i] != collected[j]
  {
  }

  /** In a sequence without repeats, every element occurs exactly once. */
  lemma {:induction false} DistinctOnce(s: seq<Booking>)
    requires forall i, j :: 0 <= i < j < |s| ==> s[i] != s[j]
    ensures forall b :: b in s ==> multiset(s)[b] == 1
  {
    if s != [] {
      var t := s[..|s| - 1];
      assert s == t + [s[|s| - 1]];
      DistinctOnce(t);
      assert s[|s| - 1] !in t;
    }
  }

  /** The booking collection and the log of messages handed to the WhatsApp sender. */
  class BookingStore {
    var bookings: map<nat, Booking>
    var nextId: nat
    var outbox: seq<Notification>

    /** Keys are the bookings' own ids and were all handed out; every booking keeps its
        required fields; `bookingId` is unique across the collection. */
    ghost predicate Valid()
      reads this
    {
      && (forall id :: id in bookings ==> id < nextId && bookings[id].id == id && WellFormed(bookings[id]))
      && UniqueBookingIds(bookings)
    }

    constructor ()
      ensures Valid() && bookings == map[] && outbox == []
    {
      bookings := map[];
      nextId := 0;
      outbox := [];
    }

    /** `findOne({ bookingId })`: the key of the booking with exactly this `bookingId`. */
    method FindKey(bookingId: string) returns (key: Option<nat>)
      ensures key.Some? ==> key.value in bookings && bookings[key.value].bookingId == bookingId
      ensures key.None? <==> Free(bookings, bookingId)
    {
      var todo := bookings.Keys;
      while todo != {}
        invariant todo <= bookings.Keys
        invariant forall id :: id in bookings && id !in todo ==> bookings[id].bookingId != bookingId
        decreases |todo|
      {
        var id :| id in todo;
        if bookings[id].bookingId == bookingId {
          return Some(id);
        }
        todo := todo - {id};
      }
      return None;
    }

    /** GET `/:bookingId`: the booking carrying exactly `bookingId` (the only one, by
        uniqueness), or 404 "Invalid Booking ID" when none does. */
    method GetByBookingId(bookingId: string) returns (reply: Reply<Booking>)
      requires Valid()
      ensures reply.Ok? ==> reply.body in bookings.Values && reply.body.bookingId == bookingId
      ensures reply.Ok? ==> forall id :: id in bookings && bookings[id].bookingId == bookingId ==> bookings[id] == reply.body
      ensures reply.Error? <==> Free(bookings, bookingId)
      ensures reply.Error? ==> reply == Error(404, InvalidBookingIdMessage)
    {
      var key := FindKey(bookingId);
      if key.None? {
        return Error(404, InvalidBookingIdMessage);
      }
      return Ok(bookings[key.value]);
    }

    /** The stored bookings in some order, each of them once. */
    method Collect() returns (collected: seq<Booking>)
      requires Valid()
      ensures |collected| == |bookings|
      ensures forall b :: b in collected <==> b in bookings.Values
      ensures forall i, j :: 0 <= i < j < |collected| ==> collected[i] != collected[j]
    {
      collected := [];
      var todo := bookings.Keys;
      while todo != {}
        invariant CollectedSoFar(bookings, collected, todo)
        decreases |todo|
      {
        var id :| id in todo;
        CollectStep(bookings, collected, todo, id);
        collected := collected + [bookings[id]];
        todo := todo - {id};
      }
      CollectDone(bookings, collected);
    }

    /** GET `/`: every booking once, newest first. */
    method ListNewestFirst() returns (list: seq<Booking>)
      requires Valid()
      ensures |list| == |bookings|
      ensures forall b :: b in list <==> b in bookings.Values
      ensures forall b :: b in list ==> multiset(list)[b] == 1
      ensures Ordering.NewestFirst(list, CreatedAt)
    {
      var collected := Collect();
      DistinctOnce(collected);
      list := Ordering.SortNewestFirst(collected, CreatedAt);
      assert forall b :: b in list <==> b in multiset(collected);
    }

    /** POST `/`: the body is validated by the schema, then inserted under the next key;
        a failed validation or a `bookingId` already in use answers 500 "Booking error" and
        stores nothing. No message is sent. */
    method Create(req: BookingRequest, now: int) returns (reply: Reply<Booking>)
      requires Valid()
      modifies this
      ensures Valid()
      ensures outbox == old(outbox)
      ensures var made := NewBooking(old(nextId), req, now);
        if made.Some? && Free(old(bookings), made.value.bookingId) then
          reply == Ok(made.value) && bookings == old(bookings)[old(nextId) := made.value]
        else
          reply == Error(500, BookingErrorMessage) && bookings == old(bookings)
    {
      var made := NewBooking(nextId, req, now);
      if made.None? {
        return Error(500, BookingErrorMessage);
      }
      var clash := FindKey(made.value.bookingId);
      if clash.Some? {
        return Error(500, BookingErrorMessage);
      }
      bookings := bookings[nextId := made.value];
      nextId := nextId + 1;
      reply := Ok(made.value);
    }

    /** PUT `/:id` with body `{ status }`. A missing status throws before any write. Otherwise
        the lower-cased status is written to the booking with key `id` (no validators run on
        this path, so any string is stored), then the template for that status, if any, is
        handed to the sender with the booking's phone number; `delivered` is the sender's
        outcome. The answer is the updated booking, or 500 "Status update failed" when the
        sender fails (the write stays) or when a template needs the name of a booking that
        does not exist. An unknown `id` with a status that has no template answers success
        with no booking. */
    method UpdateStatus(id: nat, status: Option<string>, delivered: bool) returns (reply: Reply<Option<Booking>>)
      requires Valid()
      modifies this
      ensures Valid()
      ensures nextId == old(nextId)
      ensures status.None? ==>
        reply == Error(500, StatusUpdateFailedMessage) && bookings == old(bookings) && outbox == old(outbox)
      ensures status.Some? ==> bookings == WithStatus(old(bookings), id, ToLower(status.value))
      ensures status.Some? && id !in old(bookings) ==>
        && outbox == old(outbox)
        && reply == (if ToLower(status.value) in NotifyingStatuses then Error(500, StatusUpdateFailedMessage) else Ok(None))
      ensures status.Some? && id in old(bookings) ==>
        var b := bookings[id];
        var m := StatusMessage(ToLower(status.value), b.name);
        && b.status == ToLower(status.value)
        && outbox == (if m == "" then old(outbox) else old(outbox) + [Notification(b.phone, m)])
        && reply == (if m != "" && !delivered then Error(500, StatusUpdateFailedMessage) else Ok(Some(b)))
    {
      if status.None? {
        return Error(500, StatusUpdateFailedMessage);
      }
      var normalised := ToLower(status.value);
      WithStatusKeepsInvariant(bookings, id, normalised);
      bookings := WithStatus(bookings, id, normalised);
      var updated: Option<Booking> := if id in bookings then Some(bookings[id]) else None;

      var message := "";
      if normalised in NotifyingStatuses {
        if updated.None? {
          // the template reads `name` of a null booking, which throws
          return Error(500, StatusUpdateFailedMessage);
        }
        message := StatusMessage(normalised, updated.value.name);
      }
      if message != "" {
        outbox := outbox + [Notification(updated.value.phone, message)];
        if !delivered {
          return Error(500, StatusUpdateFailedMessage);
        }
      }
      reply := Ok(updated);
    }
  }
}
