/** The `bookings` collection and the notifications its status updates emit
    (src/services/bookings.ts). */
module Bookings {
  import opened Common

  /** `Booking['status']`; `UserConfirmed` is the string 'User Confirmed'. */
  datatype BookingStatus = Pending | Confirmed | Completed | Cancelled | UserConfirmed

  /** The stored `date` field as the pages see it: a store timestamp (a value
      with `toDate()`, here its milliseconds since the epoch) or anything else. */
  datatype DateValue = Timestamp(millis: int) | Untimed

  /** A stored booking document; its id is the key it is stored under. */
  datatype Booking = Booking(
    service: string,
    date: DateValue,
    name: string,
    phone: string,
    notes: Option<string>,
    promoCode: Option<string>,
    status: BookingStatus,
    partnerId: Option<Id>,
    partnerWhatsapp: Option<string>,
    finalPrice: Option<real>,
    userConfirmed: Option<bool>)

  /** `Omit<Booking, 'id' | 'status'>`: what a caller of `addBooking` passes.
      There is no field for the id or the status, so a caller cannot pick them. */
  datatype BookingInput = BookingInput(
    service: string,
    date: DateValue,
    name: string,
    phone: string,
    notes: Option<string>,
    promoCode: Option<string>,
    partnerId: Option<Id>,
    partnerWhatsapp: Option<string>,
    finalPrice: Option<real>,
    userConfirmed: Option<bool>)

  /** `Partial<Booking>` without the id: each present field is written, each
      absent one is left as it is. */
  datatype BookingPatch = BookingPatch(
    service: Option<string>,
    date: Option<DateValue>,
    name: Option<string>,
    phone: Option<string>,
    notes: Option<string>,
    promoCode: Option<string>,
    status: Option<BookingStatus>,
    partnerId: Option<Id>,
    partnerWhatsapp: Option<string>,
    finalPrice: Option<real>,
    userConfirmed: Option<bool>)

  /** The patch with no field present. */
  const NoChange := BookingPatch(None, None, None, None, None, None, None, None, None, None, None)

  /** `{ status }`, the patch `updateBookingStatus` writes. */
  function StatusPatch(status: BookingStatus): BookingPatch {
    NoChange.(status := Some(status))
  }

  /** The document `addBooking` stores: the caller's fields, then status
      Pending and userConfirmed false written over them. */
  function NewBooking(input: BookingInput): (b: Booking)
    ensures b.status == Pending
    ensures b.userConfirmed == Some(false)
    ensures InputOf(b) == input.(userConfirmed := Some(false))
  {
    Booking(input.service, input.date, input.name, input.phone, input.notes,
            input.promoCode, Pending, input.partnerId, input.partnerWhatsapp,
            input.finalPrice, Some(false))
  }

  /** The caller-visible part of a booking: everything but its status. */
  function InputOf(b: Booking): BookingInput {
    BookingInput(b.service, b.date, b.name, b.phone, b.notes, b.promoCode,
                 b.partnerId, b.partnerWhatsapp, b.finalPrice, b.userConfirmed)
  }

  /** A booking after `updateDoc(doc, patch)`. */
  function ApplyPatch(b: Booking, p: BookingPatch): Booking {
    Booking(
      p.service.GetOr(b.service), p.date.GetOr(b.date), p.name.GetOr(b.name),
      p.phone.GetOr(b.phone),
      if p.notes.Some? then p.notes else b.notes,
      if p.promoCode.Some? then p.promoCode else b.promoCode,
      p.status.GetOr(b.status),
      if p.partnerId.Some? then p.partnerId else b.partnerId,
      if p.partnerWhatsapp.Some? then p.partnerWhatsapp else b.partnerWhatsapp,
      if p.finalPrice.Some? then p.finalPrice else b.finalPrice,
      if p.userConfirmed.Some? then p.userConfirmed else b.userConfirmed)
  }

  /** Writing the empty patch changes nothing. */
  lemma EmptyPatchKeepsBooking(b: Booking)
    ensures ApplyPatch(b, NoChange) == b
  {
  }

  /** Writing the same patch twice leaves what writing it once leaves. */
  lemma PatchIdempotent(b: Booking, p: BookingPatch)
    ensures ApplyPatch(ApplyPatch(b, p), p) == ApplyPatch(b, p)
  {
  }

  /** A field the patch holds ends with the patch's value; a field it does
      not hold keeps the booking's value. */
  lemma PatchWritesOnlyPresentFields(b: Booking, p: BookingPatch)
    ensures var r := ApplyPatch(b, p);
      (p.service.Some? ==> r.service == p.service.value) && (p.service.None? ==> r.service == b.service) &&
      (p.date.Some? ==> r.date == p.date.value) && (p.date.None? ==> r.date == b.date) &&
      (p.name.Some? ==> r.name == p.name.value) && (p.name.None? ==> r.name == b.name) &&
      (p.phone.Some? ==> r.phone == p.phone.value) && (p.phone.None? ==> r.phone == b.phone) &&
      (p.status.Some? ==> r.status == p.status.value) && (p.status.None? ==> r.status == b.status)
    ensures var r := ApplyPatch(b, p);
      (p.notes.Some? ==> r.notes == p.notes) && (p.notes.None? ==> r.notes == b.notes) &&
      (p.promoCode.Some? ==> r.promoCode == p.promoCode) && (p.promoCode.None? ==> r.promoCode == b.promoCode) &&
      (p.partnerId.Some? ==> r.partnerId == p.partnerId) && (p.partnerId.None? ==> r.partnerId == b.partnerId) &&
      (p.partnerWhatsapp.Some? ==> r.partnerWhatsapp == p.partnerWhatsapp) &&
      (p.partnerWhatsapp.None? ==> r.partnerWhatsapp == b.partnerWhatsapp) &&
      (p.finalPrice.Some? ==> r.finalPrice == p.finalPrice) && (p.finalPrice.None? ==> r.finalPrice == b.finalPrice) &&
      (p.userConfirmed.Some? ==> r.userConfirmed == p.userConfirmed) &&
      (p.userConfirmed.None? ==> r.userConfirmed == b.userConfirmed)
  {
  }

  /** A status write changes the status, to any of the five values from any
      current one, and no other field. */
  lemma StatusPatchWritesOnlyStatus(b: Booking, s: BookingStatus)
    ensures ApplyPatch(b, StatusPatch(s)) == b.(status := s)
    ensures InputOf(ApplyPatch(b, StatusPatch(s))) == InputOf(b)
  {
  }

  /** A notification document; its creation time is left out of the model. */
  datatype Notification = Notification(userId: string, bookingId: Id, message: string, isRead: bool)

  const ConfirmationMessage: string :=
    "आपकी बुकिंग की पुष्टि हो गई है! विवरण देखने और अंतिम पुष्टि करने के लिए क्लिक करें।"

  /** The notifications a status write of `status` to booking `id` emits. */
  function NoticesFor(id: Id, status: BookingStatus): (r: seq<Notification>)
    ensures |r| <= 1
    ensures |r| == 1 <==> status == Confirmed
    ensures forall n :: n in r ==> n.bookingId == id && !n.isRead && n.userId == "admin"
  {
    if status == Confirmed then [Notification("admin", id, ConfirmationMessage, false)] else []
  }

  /** The `bookings` collection keyed by document id, and the `notifications`
      collection in creation order. */
  class BookingStore {
    var bookings: map<Id, Booking>
    var notifications: seq<Notification>

    constructor ()
      ensures bookings == map[] && notifications == []
    {
      bookings := map[];
      notifications := [];
    }

    /** `addBooking`; `newId` is the id the store generates. */
    method AddBooking(input: BookingInput, newId: Id) returns (id: Id)
      requires newId !in bookings
      modifies this
      ensures id == newId && id !in old(bookings)
      ensures bookings == old(bookings)[id := NewBooking(input)]
      ensures bookings[id].status == Pending && bookings[id].userConfirmed == Some(false)
      ensures notifications == old(notifications)
    {
      id := newId;
      bookings := bookings[id := NewBooking(input)];
    }

    /** `updateBooking`: the store refuses to update a document that does not
      exist, and then nothing changes. */
    method UpdateBooking(id: Id, patch: BookingPatch) returns (ok: bool)
      modifies this
      ensures ok == (id in old(bookings))
      ensures ok ==> bookings == old(bookings)[id := ApplyPatch(old(bookings)[id], patch)]
      ensures !ok ==> bookings == old(bookings)
      ensures notifications == old(notifications)
    {
      ok := id in bookings;
      if ok {
        bookings := bookings[id := ApplyPatch(bookings[id], patch)];
      }
    }

    /** `updateBookingStatus`: writes `{ status }` with no transition rule,
      then, only if that write succeeded and the status is Confirmed, creates
      one unread notification for the booking. */
    method UpdateBookingStatus(id: Id, status: BookingStatus) returns (ok: bool)
      modifies this
      ensures ok == (id in old(bookings))
      ensures ok ==> bookings == old(bookings)[id := old(bookings)[id].(status := status)]
      ensures !ok ==> bookings == old(bookings)
      ensures notifications == old(notifications) + if ok then NoticesFor(id, status) else []
    {
      ok := UpdateBooking(id, StatusPatch(status));
      if ok {
        StatusPatchWritesOnlyStatus(old(bookings)[id], status);
        if status == Confirmed {
          notifications := notifications + [Notification("admin", id, ConfirmationMessage, false)];
        }
      }
    }

    /** `deleteBooking`: removes that one document; deleting a missing id
      changes nothing. */
    method DeleteBooking(id: Id)
      modifies this
      ensures bookings == old(bookings) - {id}
      ensures id !in bookings
      ensures forall k :: k in old(bookings) && k != id ==> k in bookings && bookings[k] == old(bookings)[k]
      ensures notifications == old(notifications)
    {
      bookings := bookings - {id};
    }
  }
}
