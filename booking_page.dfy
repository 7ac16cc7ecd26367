/** The customer booking form (src/app/booking/page.tsx): its schema, the
    referral gate that attaches a partner, and submission. */
module BookingPage {
  import opened Common
  import opened Bookings
  import P = Partners

  /** The form's values. `service` and `date` start undefined; `date` is the
      picked day as milliseconds, which the store keeps as a timestamp. */
  datatype FormValues = FormValues(
    service: Option<string>,
    date: Option<int>,
    name: string,
    phone: string,
    notes: string,
    promoCode: string,
    partnerId: string,
    partnerWhatsapp: string)

  /** The form's `defaultValues`. */
  const DefaultValues := FormValues(None, None, "", "", "", "", "", "")

  datatype FieldIssue = ServiceRequired | DateRequired | NameTooShort | PhoneTooShort

  /** What `bookingFormSchema` reports, in field order. */
  function Issues(v: FormValues): (r: seq<FieldIssue>)
    ensures ServiceRequired in r <==> v.service.None?
    ensures DateRequired in r <==> v.date.None?
    ensures NameTooShort in r <==> |v.name| < 2
    ensures PhoneTooShort in r <==> |v.phone| < 10
  {
    (if v.service.None? then [ServiceRequired] else []) +
    (if v.date.None? then [DateRequired] else []) +
    (if |v.name| < 2 then [NameTooShort] else []) +
    (if |v.phone| < 10 then [PhoneTooShort] else [])
  }

  datatype Validation = Valid(data: BookingInput) | Invalid(issues: seq<FieldIssue>)

  /** `bookingFormSchema`: a service and a date, a name of at least 2
      characters and a phone of at least 10 characters of any kind; notes,
      promo code and the partner fields pass through as they are. */
  function Validate(v: FormValues): (r: Validation)
    ensures r.Valid? <==> v.service.Some? && v.date.Some? && |v.name| >= 2 && |v.phone| >= 10
    ensures r.Invalid? ==> r.issues == Issues(v) && r.issues != []
    ensures r.Valid? ==>
      r.data.service == v.service.value && r.data.date == Timestamp(v.date.value) &&
      r.data.name == v.name && r.data.phone == v.phone &&
      r.data.notes == Some(v.notes) && r.data.promoCode == Some(v.promoCode) &&
      r.data.partnerId == Some(v.partnerId) && r.data.partnerWhatsapp == Some(v.partnerWhatsapp) &&
      r.data.finalPrice.None? && r.data.userConfirmed.None?
  {
    if Issues(v) != [] then Invalid(Issues(v))
    else Valid(BookingInput(v.service.value, Timestamp(v.date.value), v.name, v.phone,
                            Some(v.notes), Some(v.promoCode), Some(v.partnerId),
                            Some(v.partnerWhatsapp), None, None))
  }

  /** The phone rule counts characters only: ten letters pass. */
  lemma PhoneNeedNotBeDigits()
    ensures Validate(DefaultValues.(service := Some("Mixing"), date := Some(0),
                                    name := "Ravi", phone := "abcdefghij")).Valid?
  {
  }

  /** The partner `setPartnerData` attaches: only for a non-empty `ref` that
      the lookup resolves to an Approved partner. */
  function ReferralPartner(ref: Option<string>, ps: seq<P.Partner>): (r: Option<P.Partner>)
    ensures r.Some? <==>
      ref.Some? && ref.value != "" && P.PartnerByNumber(ps, ref.value).Some? &&
      P.PartnerByNumber(ps, ref.value).value.status == P.Approved
    ensures r.Some? ==> r == P.PartnerByNumber(ps, ref.value) && r.value.whatsappNumber == ref.value
  {
    if ref.Some? && ref.value != "" then
      match P.PartnerByNumber(ps, ref.value)
      case Some(p) => if p.status == P.Approved then Some(p) else None
      case None => None
    else None
  }

  /** With numbers unique (as the registry keeps them) an Approved partner's
      own link attaches exactly that partner. */
  lemma ApprovedLinkAttachesItsPartner(ps: seq<P.Partner>, i: nat)
    requires P.UniqueNumbers(ps) && i < |ps| && ps[i].status == P.Approved && ps[i].whatsappNumber != ""
    ensures ReferralPartner(Some(ps[i].whatsappNumber), ps) == Some(ps[i])
  {
    P.LookupFindsUniqueHolder(ps, i);
  }

  /** A Pending or Rejected partner's link attaches nobody. */
  lemma UndecidedOrRejectedLinkIgnored(ps: seq<P.Partner>, i: nat)
    requires P.UniqueNumbers(ps) && i < |ps| && ps[i].status != P.Approved
    ensures ReferralPartner(Some(ps[i].whatsappNumber), ps) == None
  {
    P.LookupFindsUniqueHolder(ps, i);
  }

  datatype SubmitOutcome = InlineIssues(issues: seq<FieldIssue>) | SuccessToast | ErrorToast

  class BookingForm {
    var values: FormValues

    constructor ()
      ensures values == DefaultValues
    {
      values := DefaultValues;
    }

    /** `setPartnerData` over the partners collection `ps`. */
    method SetPartnerData(ref: Option<string>, ps: seq<P.Partner>)
      modifies this
      ensures ReferralPartner(ref, ps).Some? ==>
        var p := ReferralPartner(ref, ps).value;
        values == old(values).(partnerId := p.id, partnerWhatsapp := p.whatsappNumber)
      ensures ReferralPartner(ref, ps).None? ==> values == old(values)
    {
      if ref.Some? && ref.value != "" {
        var partner := P.PartnerByNumber(ps, ref.value);
        if partner.Some? && partner.value.status == P.Approved {
          values := values.(partnerId := partner.value.id);
          values := values.(partnerWhatsapp := partner.value.whatsappNumber);
        }
      }
    }

    /** `onSubmit(data)`: `writeFails` says whether the store rejects the
      write. On success the form is reset to its defaults, which also clears
      any attached partner; on failure nothing changes. */
    method OnSubmit(store: BookingStore, data: BookingInput, newId: Id, writeFails: bool)
      returns (outcome: SubmitOutcome)
      requires newId !in store.bookings
      modifies this, store
      ensures writeFails ==>
        outcome == ErrorToast && values == old(values) && store.bookings == old(store.bookings)
      ensures !writeFails ==>
        outcome == SuccessToast && values == DefaultValues &&
        store.bookings == old(store.bookings)[newId := NewBooking(data)]
      ensures store.notifications == old(store.notifications)
    {
      if writeFails {
        outcome := ErrorToast;
        return;
      }
      var _ := store.AddBooking(data, newId);
      outcome := SuccessToast;
      values := DefaultValues;
    }

    /** Pressing submit: `onSubmit` runs only with values the schema accepts. */
    method Submit(store: BookingStore, newId: Id, writeFails: bool) returns (outcome: SubmitOutcome)
      requires newId !in store.bookings
      modifies this, store
      ensures Validate(old(values)).Invalid? ==>
        outcome == InlineIssues(Issues(old(values))) && values == old(values) &&
        store.bookings == old(store.bookings)
      ensures Validate(old(values)).Valid? && writeFails ==>
        outcome == ErrorToast && values == old(values) && store.bookings == old(store.bookings)
      ensures Validate(old(values)).Valid? && !writeFails ==>
        outcome == SuccessToast && values == DefaultValues &&
        store.bookings == old(store.bookings)[newId := NewBooking(Validate(old(values)).data)]
      ensures store.notifications == old(store.notifications)
    {
      match Validate(values)
      case Invalid(issues) =>
        outcome := InlineIssues(issues);
      case Valid(data) =>
        outcome := OnSubmit(store, data, newId, writeFails);
    }
  }
}
