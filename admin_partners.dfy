/** The operator's partner table (src/app/admin/partners/page.tsx): the
    Approve/Reject buttons per status, and the earnings dialog with its
    validation. */
module AdminPartners {
  import opened Common
  import opened Partners

  datatype PartnerAction = Approve | Reject

  /** The status buttons a row with this status shows, left to right. */
  function PartnerActions(s: PartnerStatus): (r: seq<PartnerAction>)
    ensures |r| > 0
  {
    match s
    case Pending => [Approve, Reject]
    case Approved => [Reject]
    case Rejected => [Approve]
  }

  /** The status a button writes: never Pending. */
  function PartnerActionTarget(a: PartnerAction): (r: PartnerStatus)
    ensures r != Pending
    ensures r == Approved <==> a == Approve
  {
    match a
    case Approve => Approved
    case Reject => Rejected
  }

  function PartnerTargets(s: PartnerStatus): set<PartnerStatus> {
    set a | a in PartnerActions(s) :: PartnerActionTarget(a)
  }

  lemma PendingCanBeApprovedOrRejected()
    ensures PartnerTargets(Pending) == {Approved, Rejected}
  {
    assert Approve in PartnerActions(Pending) && Reject in PartnerActions(Pending);
  }

  /** Approved can only be rejected and Rejected only approved. */
  lemma DecidedPartnersToggle(s: PartnerStatus)
    requires s != Pending
    ensures PartnerTargets(s) == if s == Approved then {Rejected} else {Approved}
  {
    assert PartnerActions(s)[0] in PartnerActions(s);
  }

  /** Every button changes the status, and none leads back to Pending. */
  lemma PartnerActionsChangeStatus(s: PartnerStatus, a: PartnerAction)
    requires a in PartnerActions(s)
    ensures PartnerActionTarget(a) != s && PartnerActionTarget(a) != Pending
  {
  }

  /** What the earnings input holds: nothing yet (after a reset), the number
      the dialog pre-filled, or the text the operator typed. */
  datatype FieldValue = Unset | NumberValue(n: real) | TextValue(text: string)

  datatype EarningsIssue = InvalidNumber | NegativeEarnings

  /** The outcome of `partnerEarningsSchema`: the parsed `earnings`
      (None for `undefined`) or the issue shown under the input. */
  datatype EarningsResult = Accepted(earnings: Option<real>) | Refused(issue: EarningsIssue)

  predicate IsDigit(c: char) {
    '0' <= c <= '9'
  }

  predicate AllDigits(s: string) {
    forall i | 0 <= i < |s| :: IsDigit(s[i])
  }

  /** The value of a string of decimal digits. */
  function DigitsValue(s: string): nat
    requires AllDigits(s)
    decreases |s|
  {
    if s == [] then 0
    else DigitsValue(s[..|s| - 1]) * 10 + (s[|s| - 1] as int - '0' as int)
  }

  function Pow10(n: nat): (r: nat)
    ensures r >= 1
  {
    if n == 0 then 1 else 10 * Pow10(n - 1)
  }

  /** The position of the first '.' in `s`. */
  function DotIndex(s: string): (r: Option<nat>)
    ensures r.None? <==> '.' !in s
    ensures r.Some? ==> r.value < |s| && s[r.value] == '.' && '.' !in s[..r.value]
  {
    if s == [] then None
    else if s[0] == '.' then Some(0)
    else match DotIndex(s[1..])
      case None => None
      case Some(k) =>
        assert s[..k + 1] == [s[0]] + s[1..][..k];
        Some(k + 1)
  }

  /** Digits with an optional fractional part ("12", "12.5", "12.", ".5"). */
  function UnsignedNumber(t: string): (r: Option<real>)
    ensures r.Some? ==> r.value >= 0.0
    ensures '.' !in t && |t| > 0 && AllDigits(t) ==> r == Some(DigitsValue(t) as real)
    ensures t == "" || t == "." ==> r.None?
  {
    match DotIndex(t)
    case None =>
      if |t| > 0 && AllDigits(t) then Some(DigitsValue(t) as real) else None
    case Some(k) =>
      var whole, frac := t[..k], t[k + 1..];
      if |whole| + |frac| > 0 && AllDigits(whole) && AllDigits(frac)
      then Some(DecimalValue(whole, frac))
      else None
  }

  /** The value of "whole.frac". */
  function DecimalValue(whole: string, frac: string): (v: real)
    requires AllDigits(whole) && AllDigits(frac)
    ensures v >= DigitsValue(whole) as real
    ensures DigitsValue(whole) + DigitsValue(frac) > 0 ==> v > 0.0
  {
    ScaledFractionSign(DigitsValue(frac), Pow10(|frac|));
    DigitsValue(whole) as real + DigitsValue(frac) as real / Pow10(|frac|) as real
  }

  /** A digit run divided by its scale keeps its sign. */
  lemma ScaledFractionSign(f: nat, scale: nat)
    requires scale >= 1
    ensures f as real / scale as real >= 0.0
    ensures f > 0 ==> f as real / scale as real > 0.0
  {
    var q := f as real / scale as real;
    assert q * scale as real == f as real;
  }

  /** `Number(text)` on an optional '-' and a decimal; None stands for NaN.
      Exponent forms are not read. */
  function JsNumber(text: string): (r: Option<real>)
    ensures (|text| == 0 || text[0] != '-') ==> r == UnsignedNumber(text)
    ensures |text| > 0 && text[0] == '-' ==>
      (r.Some? <==> UnsignedNumber(text[1..]).Some?) &&
      (r.Some? ==> r.value == -UnsignedNumber(text[1..]).value && r.value <= 0.0)
  {
    if |text| > 0 && text[0] == '-' then
      match UnsignedNumber(text[1..])
      case None => None
      case Some(v) => Some(-v)
    else UnsignedNumber(text)
  }

  /** `partnerEarningsSchema`: "" becomes undefined and is accepted; any
      other value goes through `Number`, must not be NaN and must be >= 0. */
  function ParseEarnings(v: FieldValue): (r: EarningsResult)
    ensures r == Accepted(None) <==> v == TextValue("")
    ensures r.Accepted? && r.earnings.Some? ==> r.earnings.value >= 0.0
    ensures v.Unset? ==> r == Refused(InvalidNumber)
    ensures v.NumberValue? ==> r == if v.n >= 0.0 then Accepted(Some(v.n)) else Refused(NegativeEarnings)
  {
    match v
    case Unset => Refused(InvalidNumber)
    case NumberValue(n) => if n >= 0.0 then Accepted(Some(n)) else Refused(NegativeEarnings)
    case TextValue(t) =>
      if t == "" then Accepted(None)
      else match JsNumber(t)
        case None => Refused(InvalidNumber)
        case Some(n) => if n >= 0.0 then Accepted(Some(n)) else Refused(NegativeEarnings)
  }

  /** The decimal digits of `n`. */
  function NatToDecimal(n: nat): (s: string)
    ensures |s| > 0 && AllDigits(s)
  {
    var d := ['0' + (n % 10) as char];
    if n < 10 then d else NatToDecimal(n / 10) + d
  }

  lemma {:induction false} DecimalDigitsValue(n: nat)
    ensures DigitsValue(NatToDecimal(n)) == n && '.' !in NatToDecimal(n)
  {
    var s := NatToDecimal(n);
    if n >= 10 {
      DecimalDigitsValue(n / 10);
      assert s[..|s| - 1] == NatToDecimal(n / 10);
    }
  }

  /** Whatever whole amount the operator types is accepted as that amount. */
  lemma TypedAmountAccepted(n: nat)
    ensures ParseEarnings(TextValue(NatToDecimal(n))) == Accepted(Some(n as real))
  {
    DecimalDigitsValue(n);
    var s := NatToDecimal(n);
    assert s[0] != '-' by { assert IsDigit(s[0]); }
  }

  /** A typed negative amount is refused with the "positive number" issue. */
  lemma TypedNegativeRefused(n: nat)
    requires n > 0
    ensures ParseEarnings(TextValue("-" + NatToDecimal(n))) == Refused(NegativeEarnings)
  {
    DecimalDigitsValue(n);
    assert ("-" + NatToDecimal(n))[1..] == NatToDecimal(n);
  }

  /** `Number` reads "w.f" as w plus f scaled by its number of digits. */
  lemma DecimalReading(w: nat, f: nat)
    ensures var frac := NatToDecimal(f);
      UnsignedNumber(NatToDecimal(w) + "." + frac) == Some(w as real + f as real / Pow10(|frac|) as real)
  {
    var whole, frac := NatToDecimal(w), NatToDecimal(f);
    DecimalDigitsValue(w);
    DecimalDigitsValue(f);
    DigitsDotDigits(whole, frac);
    assert DecimalValue(whole, frac) == w as real + f as real / Pow10(|frac|) as real;
  }

  /** "digits.digits" reads as its whole part plus its scaled fraction. */
  lemma DigitsDotDigits(whole: string, frac: string)
    requires |whole| > 0 && AllDigits(whole) && AllDigits(frac)
    ensures UnsignedNumber(whole + "." + frac) == Some(DecimalValue(whole, frac))
  {
    var t := whole + "." + frac;
    DotAfterDigits(whole, frac);
    assert t[..|whole|] == whole;
    assert t[|whole| + 1..] == frac;
  }

  /** A typed amount with a fractional part, "whole.frac" (leading zeros in
      either part allowed, as in "12.05"), is accepted as its value. */
  lemma FractionalAmountAccepted(whole: string, frac: string)
    requires |whole| > 0 && AllDigits(whole) && AllDigits(frac)
    ensures ParseEarnings(TextValue(whole + "." + frac)) == Accepted(Some(DecimalValue(whole, frac)))
  {
    var t := whole + "." + frac;
    DigitsDotDigits(whole, frac);
    assert t[0] != '-' by { assert t[0] == whole[0] && IsDigit(whole[0]); }
  }

  /** A typed negative amount with a fractional part, "-whole.frac", is
      refused unless it is zero. */
  lemma FractionalNegativeRefused(whole: string, frac: string)
    requires |whole| > 0 && AllDigits(whole) && AllDigits(frac)
    requires DigitsValue(whole) + DigitsValue(frac) > 0
    ensures ParseEarnings(TextValue("-" + whole + "." + frac)) == Refused(NegativeEarnings)
  {
    var u := whole + "." + frac;
    assert "-" + whole + "." + frac == "-" + u;
    DigitsDotDigits(whole, frac);
    NegatedReadingRefused(u, DecimalValue(whole, frac));
  }

  /** "-" before a text `Number` reads as a positive value is refused. */
  lemma NegatedReadingRefused(u: string, v: real)
    requires UnsignedNumber(u) == Some(v) && v > 0.0
    ensures ParseEarnings(TextValue("-" + u)) == Refused(NegativeEarnings)
  {
    assert ("-" + u)[1..] == u;
  }

  /** An amount with a leading zero in its fraction. */
  lemma TwelveOhFiveAccepted()
    ensures ParseEarnings(TextValue("12.05")) == Accepted(Some(12.05))
  {
    assert "12.05" == "12" + "." + "05";
    FractionalAmountAccepted("12", "05");
    TwelveOhFiveValue();
  }

  lemma TwelveOhFiveValue()
    ensures DecimalValue("12", "05") == 12.05
  {
    assert "12"[..1] == "1" && "1"[..0] == [];
    assert "05"[..1] == "0" && "0"[..0] == [];
    assert DigitsValue("12") == 12 && DigitsValue("05") == 5 && Pow10(2) == 100;
  }

  /** In "digits.digits" the first '.' is the one after the whole part. */
  lemma DotAfterDigits(whole: string, frac: string)
    requires AllDigits(whole) && AllDigits(frac)
    ensures DotIndex(whole + "." + frac) == Some(|whole|)
  {
    var t := whole + "." + frac;
    assert t[|whole|] == '.';
    assert '.' !in t[..|whole|] by {
      assert t[..|whole|] == whole;
      forall i | 0 <= i < |whole| ensures whole[i] != '.' { assert IsDigit(whole[i]); }
    }
  }

  /** The value the dialog starts with: the stored earnings, or 0 when absent. */
  function PrefillEarnings(p: Partner): (v: real)
    ensures p.earnings.None? ==> v == 0.0
    ensures p.earnings.Some? ==> v == p.earnings.value
  {
    p.earnings.GetOr(0.0)
  }

  /** Saving the pre-filled value unchanged succeeds and writes back the
      stored amount (0 for a partner with none). */
  lemma PrefillRoundTrip(p: Partner)
    requires p.earnings.Some? ==> p.earnings.value >= 0.0
    ensures ParseEarnings(NumberValue(PrefillEarnings(p))) == Accepted(Some(p.earnings.GetOr(0.0)))
  {
  }

  /** The page's state next to the registry it shows. */
  class PartnersAdminPage {
    const registry: PartnerRegistry
    var dialogOpen: bool
    var editing: Option<Partner>
    var field: FieldValue

    constructor (registry: PartnerRegistry)
      ensures this.registry == registry
      ensures !dialogOpen && editing == None && field == Unset
    {
      this.registry := registry;
      dialogOpen := false;
      editing := None;
      field := Unset;
    }

    /** `handlePartnerStatusUpdate`: writes `{ status }` only. */
    method HandlePartnerStatusUpdate(id: Id, status: PartnerStatus)
      requires registry.Valid()
      modifies registry
      ensures registry.Valid()
      ensures HasId(old(registry.partners), id) ==>
        registry.partners == Patched(old(registry.partners), id, StatusPatch(status)).value
      ensures !HasId(old(registry.partners), id) ==> registry.partners == old(registry.partners)
    {
      var _ := registry.UpdatePartner(id, StatusPatch(status));
    }

    /** A click on one of the status buttons row `p` shows. */
    method ClickPartnerAction(p: Partner, action: PartnerAction)
      requires registry.Valid() && p in registry.partners && action in PartnerActions(p.status)
      modifies registry
      ensures registry.Valid()
      ensures registry.partners == Patched(old(registry.partners), p.id, StatusPatch(PartnerActionTarget(action))).value
      ensures PartnerActionTarget(action) != p.status
    {
      HandlePartnerStatusUpdate(p.id, PartnerActionTarget(action));
    }

    /** `handleEditPartnerEarnings`: opens the dialog pre-filled for `p`. */
    method HandleEditPartnerEarnings(p: Partner)
      modifies this
      ensures editing == Some(p) && field == NumberValue(PrefillEarnings(p)) && dialogOpen
    {
      editing := Some(p);
      field := NumberValue(PrefillEarnings(p));
      dialogOpen := true;
    }

    /** `handlePartnerEarningsFormSubmit` with the validated `earnings`:
      writes `{ earnings }` to the partner being edited, if any, then resets
      the form and closes the dialog. The store refuses a write whose value
      is `undefined` (the cleared field) or whose document is missing; the
      handler then throws before the reset. */
    method HandlePartnerEarningsFormSubmit(earnings: Option<real>)
      requires registry.Valid()
      modifies this, registry
      ensures registry.Valid()
      ensures var written := old(editing).Some? && earnings.Some? &&
                             HasId(old(registry.partners), old(editing).value.id);
        if written
        then registry.partners == Patched(old(registry.partners), old(editing).value.id, PartnerPatch(None, earnings)).value
        else registry.partners == old(registry.partners)
      ensures var reset := old(editing).None? ||
                           (earnings.Some? && HasId(old(registry.partners), old(editing).value.id));
        if reset then field == Unset && editing == None && !dialogOpen
        else field == old(field) && editing == old(editing) && dialogOpen == old(dialogOpen)
    {
      if editing.Some? {
        if earnings.None? {
          return;
        }
        var ok := registry.UpdatePartner(editing.value.id, PartnerPatch(None, earnings));
        if !ok {
          return;
        }
      }
      field := Unset;
      editing := None;
      dialogOpen := false;
    }

    /** Pressing Save: the schema runs first; the handler runs only when it
      accepts, otherwise the issue is shown and nothing else changes. */
    method SubmitEarnings() returns (issue: Option<EarningsIssue>)
      requires registry.Valid()
      modifies this, registry
      ensures registry.Valid()
      ensures issue.Some? <==> ParseEarnings(old(field)).Refused?
      ensures issue.Some? ==>
        (issue.value == ParseEarnings(old(field)).issue &&
         registry.partners == old(registry.partners) && field == old(field) &&
         editing == old(editing) && dialogOpen == old(dialogOpen))
      ensures issue.None? ==>
        var e := ParseEarnings(old(field)).earnings;
        var written := old(editing).Some? && e.Some? && HasId(old(registry.partners), old(editing).value.id);
        if written
        then registry.partners == Patched(old(registry.partners), old(editing).value.id, PartnerPatch(None, e)).value
        else registry.partners == old(registry.partners)
      ensures issue.None? ==>
        var e := ParseEarnings(old(field)).earnings;
        var reset := old(editing).None? || (e.Some? && HasId(old(registry.partners), old(editing).value.id));
        if reset then field == Unset && editing == None && !dialogOpen
        else field == old(field) && editing == old(editing) && dialogOpen == old(dialogOpen)
    {
      match ParseEarnings(field)
      case Refused(i) =>
        issue := Some(i);
      case Accepted(e) =>
        issue := None;
        HandlePartnerEarningsFormSubmit(e);
    }
  }
}
