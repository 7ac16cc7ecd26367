# A verified model of the studio booking site's business rules

The site lets customers book studio sessions and lets partners refer
customers to it. Operators confirm, complete or cancel bookings, and approve
or reject the partners who apply. Every piece of state lives in a document
store with four collections that matter here: `bookings`, `notifications`,
`partners` and `users`. Most of the code wraps calls to the store. This
project models the rules those wrappers and pages contain, and proves them:

- **Bookings** (`bookings.dfy`, class `BookingStore`). The collection is a
  map from document id to booking, and notifications are a sequence.
  - `addBooking` forces status Pending and `userConfirmed = false`.
  - `updateBooking` writes only the fields present in its partial record.
  - `updateBookingStatus` writes only the status. It appends exactly one
    notification, and only when the new status is Confirmed.
  - `deleteBooking` removes the one document.
  - Writing to a missing document fails and changes nothing. A failed
    status write therefore sends no notification.
- **Partners** (`partners.dfy`, class `PartnerRegistry`). The collection is a
  sequence; its order stands for the order in which a query returns matches.
  - `requestPartnerAccess` refuses a number that any partner already holds,
    whatever that partner's status. Otherwise it appends a Pending partner.
  - `getPartnerByWhatsappNumber` returns the first match.
  - `updatePartnerStatus` overwrites the status unconditionally.
  - A lemma about every sequential history of operations shows that no two
    partners ever share a number.
- **Users** (`users.dfy`, class `UserStore`).
  - `getUser` returns the first match for a phone.
  - `addUser` and `findOrCreateUser` never give a phone a second user. They
    rename the user when the name differs.
  - `addUser` returns the record as it was before the rename, so its name
    is stale.
  - `findOrCreateUser` is idempotent.
- **Sort order** (`booking_order.dfy`). Both booking lists use the same
  date-descending comparator.
  - The order is a permutation of its input.
  - It puts later dates first whenever every date is a timestamp.
- **Operator pages**.
  - `admin_bookings.dfy` models which buttons each booking status offers.
    Every click moves a booking forward in Pending < Confirmed/User
    Confirmed < Completed, and Cancel (a delete behind a prompt) is always
    offered.
  - `admin_partners.dfy` models the Approve/Reject table and the earnings
    dialog. The dialog validates with `Number` and rejects negative values.
    Its save writes only `earnings`.
- **Customer and partner pages**.
  - `booking_page.dfy` models the booking form schema and the referral gate,
    which attaches a partner only when it is Approved. Submission resets the
    form only on success, and the reset also drops the referral.
  - `partner_page.dfy` models the WhatsApp-number pattern and how a failure
    is reported. A message containing "already exists" counts as a
    duplicate.
  - `partner_dashboard.dfy` models the partner's dashboard: the filter by
    partner id, the referral count, and earnings of 100 per completed
    booking. A missing or empty id denies access.

Three rules of the code are easy to misread, and one choice shapes the
whole model:

- **Phone check.** The booking form accepts any phone of at least 10
  characters, not only digits.
- **No user upsert.** Creating a booking does not upsert a user: the booking
  page never calls `findOrCreateUser`.
- **Earnings write.** No code increments earnings atomically. The operator
  types the amount and the page overwrites it.
- **Page-level answers.** The store, its generated ids and the outcome of
  each write become method parameters. Each page then states, as a contract,
  what it answers and what it writes.

## Model

| member | source | states |
|---|---|---|
| Bookings.NewBooking | src/services/bookings.ts:23-29 | a new booking has status Pending and userConfirmed false, and every other caller-supplied field is copied unchanged |
| Bookings.EmptyPatchKeepsBooking | src/services/bookings.ts:44-47 | writing a partial record with no fields leaves the booking as it was |
| Bookings.PatchIdempotent | src/services/bookings.ts:44-47 | writing the same partial record twice leaves what one write leaves |
| Bookings.PatchWritesOnlyPresentFields | src/services/bookings.ts:44-47 | for every one of the eleven writable fields, a present value is written and an absent one keeps the stored value |
| Bookings.StatusPatchWritesOnlyStatus | src/services/bookings.ts:50-53 | a status write sets the status to any of the five values from any current one and changes no other field |
| Bookings.NoticesFor | src/services/bookings.ts:55-63 | exactly one unread notification for user "admin" about that booking iff the new status is Confirmed, none otherwise |
| Bookings.BookingStore.constructor | src/services/bookings.ts:21 | the store starts with no bookings and no notifications |
| Bookings.BookingStore.AddBooking | src/services/bookings.ts:23-30 | stores exactly one new document, NewBooking of the input, under the fresh id, and returns that id; the caller chooses neither id nor status |
| Bookings.BookingStore.UpdateBooking | src/services/bookings.ts:44-47 | on an existing id only that booking is patched; a missing id fails and nothing changes |
| Bookings.BookingStore.UpdateBookingStatus | src/services/bookings.ts:50-64 | only the status of the named booking changes, and the notifications grow by NoticesFor exactly when the write succeeded |
| Bookings.BookingStore.DeleteBooking | src/services/bookings.ts:66-69 | removes exactly the booking with that id and leaves every other booking and all notifications unchanged |
| Partners.NumberIndex | src/services/partners.ts:31-41 | no index iff no partner has the number, otherwise the index of the first partner that has it |
| Partners.PartnerByNumber | src/services/partners.ts:31-41 | null iff no partner of any status has the number, otherwise the first partner in store order with that number |
| Partners.LookupFindsUniqueHolder | src/services/partners.ts:31-41 | with numbers unique the lookup of a partner's number returns that partner |
| Partners.RequestAccess | src/services/partners.ts:14-29 | fails with the "already exists" message iff some partner has the number, leaving the collection unchanged; otherwise appends exactly one Pending partner with that number and the new id |
| Partners.RequestKeepsNumbersUnique | src/services/partners.ts:14-29 | a request never puts a second partner on a number |
| Partners.RequestThenLookup | src/services/partners.ts:23-41 | after a successful request the lookup of the number returns the new Pending partner |
| Partners.SecondRequestFails | src/services/partners.ts:16-21 | a second request with the same number fails with the duplicate message and changes nothing |
| Partners.ApplyPartnerPatch | src/services/partners.ts:52-55 | a written field takes the new value, an absent one keeps the stored value, and id and number never change |
| Partners.Patched | src/services/partners.ts:52-55 | a write fails iff no partner has the id; otherwise exactly the partner with that id is patched and every other partner is unchanged |
| Partners.StatusWriteChangesOnlyStatus | src/services/partners.ts:52-55 | a status write replaces the status of that partner, whatever it was, and changes nothing else |
| Partners.PatchKeepsNumbersUnique | src/services/partners.ts:52-55 | partner writes never make two numbers equal |
| Partners.ReplayKeepsNumbersUnique | src/services/partners.ts:14-55 | any sequence of requests and writes keeps the numbers unique |
| Partners.RegistryNeverDuplicatesNumbers | src/services/partners.ts:14-55 | starting from an empty collection, no history of requests and writes ever holds two partners with the same number |
| Partners.PartnerRegistry.constructor | src/services/partners.ts:12 | the collection starts empty |
| Partners.PartnerRegistry.RequestPartnerAccess | src/services/partners.ts:14-29 | outcome and new collection are exactly RequestAccess of the old collection |
| Partners.PartnerRegistry.UpdatePartner | src/app/admin/partners/page.tsx:58-60 | succeeds iff the id exists, and then the collection is exactly Patched; otherwise nothing changes |
| Partners.PartnerRegistry.UpdatePartnerStatus | src/services/partners.ts:52-55 | the collection becomes Patched with the status patch when the id exists, and is unchanged otherwise |
| Users.PhoneIndex | src/services/users.ts:29-37 | no index iff no user has the phone, otherwise the index of the first user with it |
| Users.GetUser | src/services/users.ts:29-37 | null iff no user has the phone, otherwise the first user in store order with it |
| Users.ApplyUserPatch | src/services/users.ts:48-51 | present fields are written, absent ones kept, the id never changes |
| Users.UpdatedUsers | src/services/users.ts:48-51 | fails iff no user has the id; otherwise only the users with that id are patched |
| Users.RenameById | src/services/users.ts:48-51 | with ids unique, renaming a user by id changes exactly that user's name |
| Users.AddUser | src/services/users.ts:14-26 | on a known phone, returns the user found before any rename and the new collection is the old one with only that user's name set; on an unknown phone, appends exactly one user with that phone and name and returns it |
| Users.FindOrCreateUser | src/services/users.ts:54-67 | on a known phone returns the found user carrying the given name; on an unknown phone behaves as addUser |
| Users.FindSameNameWritesNothing | src/services/users.ts:55-62 | a known phone with the same name performs no write and returns the stored user |
| Users.FindOtherNameRenamesOnly | src/services/users.ts:57-61 | a known phone with another name changes only that user's name and returns the user with the new name |
| Users.FindUnknownCreatesOne | src/services/users.ts:64-66 | an unknown phone creates exactly one user with that phone and name |
| Users.AddUserReturnsStaleName | src/services/users.ts:19-22 | addUser with a new name for a known phone stores the new name but returns the old one |
| Users.FindOrCreateKeepsPhonesUnique | src/services/users.ts:16-23 | neither addUser nor findOrCreateUser ever creates a second user for a phone |
| Users.FindOrCreateKeepsIdsUnique | src/services/users.ts:54-67 | both operations keep user ids distinct when the generated id is fresh |
| Users.FindOrCreateIdempotent | src/services/users.ts:54-67 | a second findOrCreateUser with the same phone and name returns the same user and leaves the store the first call left |
| Users.UserStore.constructor | src/services/users.ts:11 | the collection starts empty |
| Users.UserStore.UpdateUser | src/services/users.ts:48-51 | succeeds iff the id exists, and the collection becomes UpdatedUsers; otherwise nothing changes |
| Users.UserStore.AddUserTo | src/services/users.ts:14-26 | the returned user and new collection are exactly AddUser of the old collection |
| Users.UserStore.FindOrCreate | src/services/users.ts:54-67 | the returned user and new collection are exactly FindOrCreateUser of the old collection |
| BookingOrder.CompareByDateDesc | src/app/admin/bookings/page.tsx:20-27 | with two timestamps, negative iff the first date is later and zero iff the dates are equal; 0 when either date is not a timestamp |
| BookingOrder.CompareAntisymmetric | src/app/admin/bookings/page.tsx:20-27 | swapping the two bookings negates the comparator |
| BookingOrder.NewestFirstMeansLaterFirst | src/app/admin/bookings/page.tsx:20-27 | in a list in comparator order whose dates are all timestamps, an earlier position never has an earlier date |
| BookingOrder.Insert | src/app/admin/bookings/page.tsx:20-27 | inserting adds exactly that booking to the multiset of the list |
| BookingOrder.InsertMember | src/app/admin/bookings/page.tsx:20-27 | every element after an insert is the inserted booking or came from the list |
| BookingOrder.ConsNewestFirst | src/app/admin/bookings/page.tsx:20-27 | a head in order with every element of an ordered list gives an ordered list |
| BookingOrder.InsertKeepsNewestFirst | src/app/admin/bookings/page.tsx:20-27 | inserting a timestamped booking into an ordered timestamped list keeps it ordered |
| BookingOrder.SortByDateDesc | src/app/admin/bookings/page.tsx:20-27 | the sorted list is a permutation of the snapshot |
| BookingOrder.SortIsNewestFirst | src/app/admin/bookings/page.tsx:20-27 | when every date is a timestamp, the sorted list puts later dates first |
| AdminBookings.BookingActions | src/app/admin/bookings/page.tsx:109-119 | every status shows at least one button and the last button is always Cancel |
| AdminBookings.ActionTarget | src/app/admin/bookings/page.tsx:111-119 | Cancel is the only button that writes no status; Confirm writes Confirmed, Complete writes Completed, so no button writes Pending, Cancelled or User Confirmed |
| AdminBookings.PendingOffersOnlyConfirm | src/app/admin/bookings/page.tsx:110-112 | a Pending booking offers Confirm and Cancel, and its only status target is Confirmed |
| AdminBookings.ConfirmedOffersOnlyComplete | src/app/admin/bookings/page.tsx:113-118 | Confirmed and User Confirmed bookings offer Complete and Cancel, and their only status target is Completed |
| AdminBookings.FinishedOffersNoTransition | src/app/admin/bookings/page.tsx:109-119 | Completed and Cancelled bookings offer only Cancel and no status transition |
| AdminBookings.CancelAlwaysOffered | src/app/admin/bookings/page.tsx:119 | Cancel is offered in every status and writes no status |
| AdminBookings.ActionsMoveForward | src/app/admin/bookings/page.tsx:110-118 | every status a button writes is exactly one stage after the current one |
| AdminBookings.WalksMoveForward | src/app/admin/bookings/page.tsx:110-118 | any sequence of clicks advances one stage per click, so it is at most two clicks long, and ends in Confirmed or Completed when non-empty |
| AdminBookings.HandleUpdateStatus | src/app/admin/bookings/page.tsx:36-38 | the named booking's status is overwritten and the confirmation notice is appended iff the write succeeded and the status is Confirmed |
| AdminBookings.HandleDeleteBooking | src/app/admin/bookings/page.tsx:40-44 | the booking is deleted iff the operator accepts the prompt; nothing else changes |
| AdminBookings.ClickRowAction | src/app/admin/bookings/page.tsx:109-119 | Cancel deletes behind the prompt; Confirm and Complete move the booking exactly one stage forward, and only Confirm notifies |
| AdminPartners.PartnerActions | src/app/admin/partners/page.tsx:114-125 | every partner status shows at least one status button |
| AdminPartners.PartnerActionTarget | src/app/admin/partners/page.tsx:116-124 | Approve writes Approved, Reject writes Rejected, and no button writes Pending |
| AdminPartners.PendingCanBeApprovedOrRejected | src/app/admin/partners/page.tsx:114-119 | a Pending partner can be moved to Approved or Rejected |
| AdminPartners.DecidedPartnersToggle | src/app/admin/partners/page.tsx:120-125 | an Approved partner can only be rejected and a Rejected one only approved |
| AdminPartners.PartnerActionsChangeStatus | src/app/admin/partners/page.tsx:114-125 | every button changes the status and none leads back to Pending |
| AdminPartners.DotIndex | src/app/admin/partners/page.tsx:25 | the position of the first decimal point, None iff there is none |
| AdminPartners.Pow10 | src/app/admin/partners/page.tsx:25 | the scale of a fractional part is at least 1 |
| AdminPartners.UnsignedNumber | src/app/admin/partners/page.tsx:25 | `Number` of an unsigned decimal is never negative, reads plain digits as their value, and rejects "" and "." |
| AdminPartners.DecimalValue | src/app/admin/partners/page.tsx:25 | the value of "whole.frac" is at least the whole part, and positive unless both parts are zero |
| AdminPartners.JsNumber | src/app/admin/partners/page.tsx:25 | text without a leading '-' reads as unsigned; with one, it is defined iff the rest is, and then it is the negated, non-positive value |
| AdminPartners.ParseEarnings | src/app/admin/partners/page.tsx:23-28 | accepted as undefined iff the field is the empty string; every accepted number is at least 0; an untouched field fails as not a number; a pre-filled number is accepted iff it is at least 0 |
| AdminPartners.NatToDecimal | src/app/admin/partners/page.tsx:25 | the decimal writing of a whole amount is a non-empty string of digits |
| AdminPartners.DecimalDigitsValue | src/app/admin/partners/page.tsx:25 | reading back the decimal writing of a whole amount gives that amount |
| AdminPartners.TypedAmountAccepted | src/app/admin/partners/page.tsx:23-28 | any typed whole amount is accepted as exactly that amount |
| AdminPartners.TypedNegativeRefused | src/app/admin/partners/page.tsx:23-28 | a typed negative amount is refused by the minimum check |
| AdminPartners.DecimalReading | src/app/admin/partners/page.tsx:25 | `Number` reads "w.f" as w plus f divided by ten to the number of digits of f |
| AdminPartners.DigitsDotDigits | src/app/admin/partners/page.tsx:25 | "digits.digits" reads as its whole part plus its scaled fraction |
| AdminPartners.FractionalAmountAccepted | src/app/admin/partners/page.tsx:23-28 | a typed amount "whole.frac" of any digit strings, leading zeros included, is accepted as exactly its decimal value |
| AdminPartners.TwelveOhFiveAccepted | src/app/admin/partners/page.tsx:23-28 | "12.05" is accepted as 12.05 |
| AdminPartners.TwelveOhFiveValue | src/app/admin/partners/page.tsx:25 | "12" and "05" read as 12.05 |
| AdminPartners.FractionalNegativeRefused | src/app/admin/partners/page.tsx:23-28 | a typed "-whole.frac" of any digit strings, other than zero, is refused by the minimum check |
| AdminPartners.NegatedReadingRefused | src/app/admin/partners/page.tsx:23-28 | a '-' before any text `Number` reads as a positive value is refused by the minimum check |
| AdminPartners.DotAfterDigits | src/app/admin/partners/page.tsx:25 | in "digits.digits" the first decimal point is the one after the whole part |
| AdminPartners.PrefillEarnings | src/app/admin/partners/page.tsx:62-66 | the dialog starts with the stored earnings, or 0 when absent |
| AdminPartners.PrefillRoundTrip | src/app/admin/partners/page.tsx:23-28 | saving the pre-filled value unchanged is accepted and writes back the stored amount, or 0 |
| AdminPartners.PartnersAdminPage.constructor | src/app/admin/partners/page.tsx:35-38 | the dialog starts closed with no partner being edited |
| AdminPartners.PartnersAdminPage.HandlePartnerStatusUpdate | src/app/admin/partners/page.tsx:58-60 | writes only the status of the named partner; a missing id changes nothing |
| AdminPartners.PartnersAdminPage.ClickPartnerAction | src/app/admin/partners/page.tsx:114-125 | a button writes its target status, which always differs from the current one |
| AdminPartners.PartnersAdminPage.HandleEditPartnerEarnings | src/app/admin/partners/page.tsx:62-66 | opens the dialog for that partner with the pre-filled value |
| AdminPartners.PartnersAdminPage.HandlePartnerEarningsFormSubmit | src/app/admin/partners/page.tsx:68-75 | writes only the earnings of the partner being edited, and nothing when none is; the form resets and the dialog closes unless the write was refused |
| AdminPartners.PartnersAdminPage.SubmitEarnings | src/app/admin/partners/page.tsx:139 | a refused value shows its issue and changes nothing; an accepted value is the parsed earnings, which is written to the partner being edited when it is defined and that partner exists, and the dialog resets exactly when the save handler gets that far |
| BookingPage.Issues | src/app/booking/page.tsx:33-46 | one issue per failed rule: missing service, missing date, name under 2 characters, phone under 10 characters |
| BookingPage.Validate | src/app/booking/page.tsx:33-46 | accepted iff service and date are present, the name has at least 2 characters and the phone at least 10 of any kind; the accepted data copies every field |
| BookingPage.PhoneNeedNotBeDigits | src/app/booking/page.tsx:41 | a phone of ten letters passes validation |
| BookingPage.ReferralPartner | src/app/booking/page.tsx:69-77 | a partner is attached iff ref is non-empty and resolves to an Approved partner, which then carries exactly that number |
| BookingPage.ApprovedLinkAttachesItsPartner | src/app/booking/page.tsx:69-77 | with numbers unique, an Approved partner's own link attaches exactly that partner |
| BookingPage.UndecidedOrRejectedLinkIgnored | src/app/booking/page.tsx:72-75 | a Pending or Rejected partner's link attaches nobody |
| BookingPage.BookingForm.constructor | src/app/booking/page.tsx:54-64 | the form starts at its defaults, with both partner fields "" |
| BookingPage.BookingForm.SetPartnerData | src/app/booking/page.tsx:69-77 | sets partnerId and partnerWhatsapp from the gated partner, and leaves the form unchanged otherwise |
| BookingPage.BookingForm.OnSubmit | src/app/booking/page.tsx:83-99 | on success stores exactly one Pending booking and resets the form, dropping the referral; on failure shows the error and changes nothing |
| BookingPage.BookingForm.Submit | src/app/booking/page.tsx:110 | invalid values show their issues and write nothing; valid ones go to onSubmit |
| PartnerPage.NumberIssues | src/app/partner/page.tsx:23-25 | accepted iff the number is 10 to 15 ASCII digits; too short iff under 10 characters |
| PartnerPage.TooShortIsBadFormat | src/app/partner/page.tsx:24 | every number failing the length check also fails the pattern |
| PartnerPage.SixteenDigitsRefused | src/app/partner/page.tsx:24 | sixteen digits fail only the pattern |
| Common.NotContainsWithoutFirstChar | src/app/partner/page.tsx:49 | a pattern whose first character is absent from a message does not occur in it |
| Common.ContainsProperties | src/app/partner/page.tsx:49 | `includes` finds the empty pattern in every message, never finds a pattern longer than the message, and finds a pattern in any message built around it |
| PartnerPage.Classify | src/app/partner/page.tsx:47-61 | reported as a duplicate iff the message contains "already exists"; a missing or empty message is generic |
| PartnerPage.DuplicateFailureReportedAsDuplicate | src/app/partner/page.tsx:49 | the registry's own duplicate failure is reported as a duplicate |
| PartnerPage.MissingMessageReportedAsGeneric | src/app/partner/page.tsx:47 | an error without a message gets the generic report |
| PartnerPage.PartnerForm.constructor | src/app/partner/page.tsx:30-35 | the number field starts empty |
| PartnerPage.PartnerForm.Submit | src/app/partner/page.tsx:37-63 | an invalid number writes nothing; otherwise the registry changes exactly as the request says, the input resets only when the request was created, and failures are classified |
| PartnerDashboard.PartnerBookings | src/app/partner/dashboard/page.tsx:37 | exactly the snapshot's bookings whose partnerId equals the id, each as often as it occurs |
| PartnerDashboard.CountCompleted | src/app/partner/dashboard/page.tsx:31 | the number of Completed bookings is at most the number of bookings |
| PartnerDashboard.InsertKeepsCompletedCount | src/app/partner/dashboard/page.tsx:38-45 | inserting adds one to the Completed count exactly when the booking is Completed |
| PartnerDashboard.SortKeepsCompletedCount | src/app/partner/dashboard/page.tsx:38-45 | sorting keeps the Completed count |
| PartnerDashboard.Dashboard | src/app/partner/dashboard/page.tsx:30-46 | access denied iff the id is missing or empty; otherwise referrals is the number of rows, earnings is 100 per Completed row, and the rows are the partner's bookings sorted |
| PartnerDashboard.RowsAreThePartnersBookings | src/app/partner/dashboard/page.tsx:30-37 | the rows are exactly the snapshot's bookings for that partner, and their count is the referral total |
| PartnerDashboard.EarningsBound | src/app/partner/dashboard/page.tsx:30-31 | earnings are 100 times the partner's Completed bookings, and lie between 0 and 100 times the referrals |
| PartnerDashboard.RowsNewestFirst | src/app/partner/dashboard/page.tsx:38-45 | when every date is a timestamp the rows put later dates first |
| PartnerDashboard.UnreferredBookingOnNoDashboard | src/app/partner/dashboard/page.tsx:63-79 | a booking made without a referral carries the empty partner id, which every dashboard refuses, so it is shown on none |

## Left out

- Store internals: the document store, its SDK and its subscriptions are
  modelled as in-memory collections. Each subscription delivery is a full
  snapshot passed as a parameter. Generated ids are fresh ids passed by the
  caller. Whether a write reaches the store is a boolean or optional-error
  parameter.
- Clocks and dates: `createdAt` and `serverTimestamp` are left out.
  Date formatting is left out. The calendar's "no past dates" rule is left
  out, because it reads the wall clock.
- Toasts, console logging, the title and description texts, and async
  ordering and races are left out. They are UI and concurrency concerns.
- Pricing, promo discounts, the 10% commission, `finalPrice` computation
  and atomic earnings increments are not modelled. No code in this core
  implements them.
- User upsert on booking: the booking page does not call `findOrCreateUser`.
  The user operations are modelled on their own.
- src/app/admin/page.tsx is not part of this model. It repeats the action
  tables, but offers no Complete button for User Confirmed.
- Missing symbols: `createNotification`, `updatePartner` and the
  `earnings` field of `Partner` are not defined in the service files.
  - The model takes `createNotification` to append a notification. The
    creation time and the `read`/`isRead` naming mismatch are left out.
  - It takes `updatePartner` to pass its object straight to the store, as
    the other service writes do.
- Partners.PartnerRegistry.UpdatePartner: one store behaviour is taken as
  given: a partial write whose value is `undefined` is refused. This means
  a cleared earnings field is accepted by the schema but its save fails,
  and the dialog stays open.
- AdminPartners.ParseEarnings: `Number` is modelled on an optional '-',
  then digits with an optional fractional part. A number input also holds
  exponent forms such as "1e3", which `Number` reads and the page saves;
  the model refuses them as not a number. Surrounding whitespace,
  hexadecimal and "Infinity" never reach `Number`, because the input holds
  them as "".
- BookingOrder.SortByDateDesc: this is an insertion sort on values.
  The engine's own in-place `Array.prototype.sort` is not modelled.
  - When some dates are not timestamps the comparator is inconsistent. The
    model then promises only a permutation, not the engine's exact order.
- BookingPage.Validate and PartnerPage.NumberIssues: lengths count Dafny
  characters, while JavaScript counts UTF-16 code units. The two differ only for characters outside the
  Basic Multilingual Plane.
- Booking form services list: `onServicesUpdate` and the service options
  are left out. The chosen service is just a string.
- Partners.ReplayKeepsNumbersUnique: the proof covers sequential
  histories only. `requestPartnerAccess` queries and then adds without a
  transaction, so two concurrent requests for one number can both succeed.
- Partners.PartnerByNumber: the model's "first match" is the first in
  sequence order. A query without `orderBy` returns documents in id order,
  and ids are random, so when two documents match the store may return the
  other one. Partner numbers stay unique, but `updateUser` can write a
  phone that another user holds, so `Users.GetUser` has the same caveat.
- JavaScript numbers: `earnings`, `finalPrice` and the result of `Number`
  are doubles in the source and exact reals in the model. Rounding,
  overflow to Infinity and loss of precision are not modelled.
- Bookings.BookingStore.UpdateBookingStatus: the notification write is
  taken to succeed. In the source a failure after the status write leaves
  the new status in place, creates no notification and throws.
