/** The "become a partner" form (src/app/partner/page.tsx): the number's
    schema, the request, and how a failure is reported. */
module PartnerPage {
  import opened Common
  import opened Partners

  datatype NumberIssue = TooShort | BadFormat

  /** `\d` without the `u` flag: an ASCII digit. */
  predicate IsAsciiDigit(c: char) {
    '0' <= c <= '9'
  }

  /** `/^\d{10,15}$/`. */
  predicate MatchesNumberPattern(s: string) {
    10 <= |s| <= 15 && forall i | 0 <= i < |s| :: IsAsciiDigit(s[i])
  }

  /** What `partnerFormSchema` reports: both checks run and both carry the
      same message. */
  function NumberIssues(s: string): (r: seq<NumberIssue>)
    ensures TooShort in r <==> |s| < 10
    ensures BadFormat in r <==> !MatchesNumberPattern(s)
    ensures r == [] <==> MatchesNumberPattern(s)
  {
    (if |s| < 10 then [TooShort] else []) +
    (if MatchesNumberPattern(s) then [] else [BadFormat])
  }

  /** The length check adds nothing the pattern does not already demand. */
  lemma TooShortIsBadFormat(s: string)
    ensures TooShort in NumberIssues(s) ==> BadFormat in NumberIssues(s)
  {
  }

  /** Sixteen digits fail although every character is a digit. */
  lemma SixteenDigitsRefused()
    ensures NumberIssues("1234567890123456") == [BadFormat]
  {
    assert |"1234567890123456"| == 16;
  }

  /** The message used when the error thrown has none. */
  const DefaultErrorMessage: string := "अनुरोध भेजने में कोई समस्या हुई।"

  datatype ErrorKind = Duplicate | Generic

  /** The catch block: the error's message, or the default when it is absent
      or empty; "already exists" anywhere in it selects the duplicate toast. */
  function Classify(message: Option<string>): (r: ErrorKind)
    ensures r == Duplicate <==> Contains(message.GetOr(""), "already exists")
  {
    var text := if message.None? || message.value == "" then DefaultErrorMessage else message.value;
    NotContainsWithoutFirstChar(DefaultErrorMessage, "already exists");
    NotContainsWithoutFirstChar("", "already exists");
    if Contains(text, "already exists") then Duplicate else Generic
  }

  /** The registry's own duplicate failure is reported as a duplicate. */
  lemma DuplicateFailureReportedAsDuplicate()
    ensures Classify(Some(DuplicateRequestMessage)) == Duplicate
  {
    assert OccursAt(DuplicateRequestMessage, "already exists", 35);
  }

  /** An error without a message is reported as a generic failure. */
  lemma MissingMessageReportedAsGeneric()
    ensures Classify(None) == Generic && Classify(Some("")) == Generic
  {
  }

  datatype SubmitOutcome =
    | InlineIssues(issues: seq<NumberIssue>)
    | RequestSent
    | ErrorToast(kind: ErrorKind)

  /** The form, next to the registry it writes. */
  class PartnerForm {
    var whatsappNumber: string

    constructor ()
      ensures whatsappNumber == ""
    {
      whatsappNumber := "";
    }

    /** Pressing submit. `ioError` is what the store does: None when it
      answers, `Some(m)` when the call throws an error with message `m`.
      Only a request that was sent resets the input. */
    method Submit(registry: PartnerRegistry, newId: Id, ioError: Option<Option<string>>)
      returns (outcome: SubmitOutcome)
      requires registry.Valid() && !HasId(registry.partners, newId)
      modifies this, registry
      ensures registry.Valid()
      ensures !MatchesNumberPattern(old(whatsappNumber)) ==>
        outcome == InlineIssues(NumberIssues(old(whatsappNumber))) &&
        registry.partners == old(registry.partners) && whatsappNumber == old(whatsappNumber)
      ensures MatchesNumberPattern(old(whatsappNumber)) && ioError.Some? ==>
        outcome == ErrorToast(Classify(ioError.value)) &&
        registry.partners == old(registry.partners) && whatsappNumber == old(whatsappNumber)
      ensures MatchesNumberPattern(old(whatsappNumber)) && ioError.None? ==>
        var (o, after) := RequestAccess(old(registry.partners), old(whatsappNumber), newId);
        registry.partners == after &&
        (o.Created? ==> outcome == RequestSent && whatsappNumber == "") &&
        (o.Failed? ==> outcome == ErrorToast(Duplicate) && whatsappNumber == old(whatsappNumber))
    {
      var issues := NumberIssues(whatsappNumber);
      if issues != [] {
        outcome := InlineIssues(issues);
        return;
      }
      if ioError.Some? {
        outcome := ErrorToast(Classify(ioError.value));
        return;
      }
      var o := registry.RequestPartnerAccess(whatsappNumber, newId);
      match o
      case Created(_) =>
        outcome := RequestSent;
        whatsappNumber := "";
      case Failed(message) =>
        DuplicateFailureReportedAsDuplicate();
        outcome := ErrorToast(Classify(Some(message)));
    }
  }
}
