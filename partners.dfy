/** The `partners` collection: access requests, the lookup by WhatsApp number
    and status writes (src/services/partners.ts), plus the whole-record
    update the admin page uses. */
module Partners {
  import opened Common

  datatype PartnerStatus = Pending | Approved | Rejected

  /** A stored partner. `earnings` is absent until an operator sets it; the
      creation timestamp is left out of the model. */
  datatype Partner = Partner(id: Id, whatsappNumber: string, status: PartnerStatus, earnings: Option<real>)

  const DuplicateRequestMessage: string := "A partner request with this number already exists."

  /** Some stored partner, of any status, has this number. */
  predicate HasNumber(ps: seq<Partner>, number: string) {
    exists i | 0 <= i < |ps| :: ps[i].whatsappNumber == number
  }

  /** Some stored partner has this id. */
  predicate HasId(ps: seq<Partner>, id: Id) {
    exists i | 0 <= i < |ps| :: ps[i].id == id
  }

  /** The store keeps document ids distinct. */
  predicate UniqueIds(ps: seq<Partner>) {
    forall i, j | 0 <= i < j < |ps| :: ps[i].id != ps[j].id
  }

  /** No two partners share a WhatsApp number. */
  predicate UniqueNumbers(ps: seq<Partner>) {
    forall i, j | 0 <= i < j < |ps| :: ps[i].whatsappNumber != ps[j].whatsappNumber
  }

  /** Position `i` holds the first partner with this number. */
  predicate FirstWithNumber(ps: seq<Partner>, number: string, i: nat) {
    i < |ps| && ps[i].whatsappNumber == number &&
    forall j | 0 <= j < i :: ps[j].whatsappNumber != number
  }

  /** The position of the first partner with this number. */
  function NumberIndex(ps: seq<Partner>, number: string): (r: Option<nat>)
    ensures r.None? <==> !HasNumber(ps, number)
    ensures r.Some? ==> FirstWithNumber(ps, number, r.value)
  {
    if |ps| == 0 then None
    else if ps[0].whatsappNumber == number then Some(0)
    else match NumberIndex(ps[1..], number)
      case None => None
      case Some(k) => Some(k + 1)
  }

  /** `getPartnerByWhatsappNumber` over the collection in store order: null
      iff no partner has the number, otherwise the first one that does. */
  function PartnerByNumber(ps: seq<Partner>, number: string): (r: Option<Partner>)
    ensures r.None? <==> !HasNumber(ps, number)
    ensures r.Some? ==> r.value.whatsappNumber == number
    ensures r.Some? ==> exists i: nat :: FirstWithNumber(ps, number, i) && ps[i] == r.value
  {
    match NumberIndex(ps, number)
    case None => None
    case Some(i) => Some(ps[i])
  }

  /** With numbers unique, the lookup finds the one partner holding it. */
  lemma LookupFindsUniqueHolder(ps: seq<Partner>, i: nat)
    requires UniqueNumbers(ps) && i < |ps|
    ensures PartnerByNumber(ps, ps[i].whatsappNumber) == Some(ps[i])
  {
    var k := NumberIndex(ps, ps[i].whatsappNumber).value;
    assert !(k < i) && !(i < k);
  }

  /** What `requestPartnerAccess` reports. */
  datatype RequestOutcome = Created(id: Id) | Failed(message: string)

  /** `requestPartnerAccess(number)` on the collection `ps`, with `newId` the id
      the store generates: the request and the collection afterwards. */
  function RequestAccess(ps: seq<Partner>, number: string, newId: Id): (r: (RequestOutcome, seq<Partner>))
    ensures r.0.Failed? <==> HasNumber(ps, number)
    ensures r.0.Failed? ==> r.0.message == DuplicateRequestMessage && r.1 == ps
    ensures r.0.Created? ==> r.0.id == newId && r.1 == ps + [Partner(newId, number, Pending, None)]
  {
    if HasNumber(ps, number) then (Failed(DuplicateRequestMessage), ps)
    else (Created(newId), ps + [Partner(newId, number, Pending, None)])
  }

  /** A request never puts a second partner on a number. */
  lemma RequestKeepsNumbersUnique(ps: seq<Partner>, number: string, newId: Id)
    requires UniqueNumbers(ps)
    ensures UniqueNumbers(RequestAccess(ps, number, newId).1)
  {
    var r := RequestAccess(ps, number, newId).1;
    if r != ps {
      forall i, j | 0 <= i < j < |r| ensures r[i].whatsappNumber != r[j].whatsappNumber {
        if j == |ps| {
          assert r[i] == ps[i];
        }
      }
    }
  }

  /** After a successful request the lookup of that number gives the new
      Pending partner. */
  lemma RequestThenLookup(ps: seq<Partner>, number: string, newId: Id)
    requires RequestAccess(ps, number, newId).0.Created?
    ensures PartnerByNumber(RequestAccess(ps, number, newId).1, number)
            == Some(Partner(newId, number, Pending, None))
  {
    var r := RequestAccess(ps, number, newId).1;
    assert r[|ps|].whatsappNumber == number;
  }

  /** A second request with the same number fails and changes nothing. */
  lemma SecondRequestFails(ps: seq<Partner>, number: string, id1: Id, id2: Id)
    ensures var after := RequestAccess(ps, number, id1).1;
            RequestAccess(after, number, id2) == (Failed(DuplicateRequestMessage), after)
  {
    var after := RequestAccess(ps, number, id1).1;
    if !HasNumber(ps, number) {
      assert after[|ps|].whatsappNumber == number;
    }
  }

  /** The fields a partner write may carry: the pages write `{ status }` or
      `{ earnings }`. An absent field is not written. */
  datatype PartnerPatch = PartnerPatch(status: Option<PartnerStatus>, earnings: Option<real>)

  function ApplyPartnerPatch(p: Partner, patch: PartnerPatch): (r: Partner)
    ensures r.id == p.id && r.whatsappNumber == p.whatsappNumber
    ensures patch.status.None? ==> r.status == p.status
    ensures patch.status.Some? ==> r.status == patch.status.value
    ensures patch.earnings.None? ==> r.earnings == p.earnings
    ensures patch.earnings.Some? ==> r.earnings == patch.earnings
  {
    p.(status := patch.status.GetOr(p.status),
       earnings := if patch.earnings.Some? then patch.earnings else p.earnings)
  }

  /** `updateDoc(doc(partners, id), patch)`: fails (None) when no document
      has the id, otherwise the document with that id is patched and every
      other one is left alone. */
  function Patched(ps: seq<Partner>, id: Id, patch: PartnerPatch): (r: Option<seq<Partner>>)
    ensures r.None? <==> !HasId(ps, id)
    ensures r.Some? ==> |r.value| == |ps|
    ensures r.Some? ==> forall i | 0 <= i < |ps| ::
      r.value[i] == if ps[i].id == id then ApplyPartnerPatch(ps[i], patch) else ps[i]
  {
    if !HasId(ps, id) then None
    else Some(seq(|ps|, i requires 0 <= i < |ps| =>
                if ps[i].id == id then ApplyPartnerPatch(ps[i], patch) else ps[i]))
  }

  /** `updatePartnerStatus` writes `{ status }`, whatever the current status. */
  function StatusPatch(status: PartnerStatus): PartnerPatch {
    PartnerPatch(Some(status), None)
  }

  /** A status write changes the status of that partner and nothing else. */
  lemma StatusWriteChangesOnlyStatus(ps: seq<Partner>, id: Id, status: PartnerStatus, i: nat)
    requires HasId(ps, id) && i < |ps|
    ensures var r := Patched(ps, id, StatusPatch(status)).value;
            r[i] == if ps[i].id == id then ps[i].(status := status) else ps[i]
  {
  }

  /** No partner write changes a number, so writes keep numbers unique. */
  lemma PatchKeepsNumbersUnique(ps: seq<Partner>, id: Id, patch: PartnerPatch)
    requires UniqueNumbers(ps) && HasId(ps, id)
    ensures UniqueNumbers(Patched(ps, id, patch).value)
  {
    var r := Patched(ps, id, patch).value;
    forall i, j | 0 <= i < j < |r| ensures r[i].whatsappNumber != r[j].whatsappNumber {
      assert r[i].whatsappNumber == ps[i].whatsappNumber;
      assert r[j].whatsappNumber == ps[j].whatsappNumber;
    }
  }

  /** Everything that writes the collection. */
  datatype RegistryOp =
    | Request(number: string, newId: Id)
    | Write(id: Id, patch: PartnerPatch)

  function Step(ps: seq<Partner>, op: RegistryOp): seq<Partner> {
    match op
    case Request(n, newId) => RequestAccess(ps, n, newId).1
    case Write(id, patch) => Patched(ps, id, patch).GetOr(ps)
  }

  function Replay(ps: seq<Partner>, ops: seq<RegistryOp>): seq<Partner>
    decreases |ops|
  {
    if ops == [] then ps else Replay(Step(ps, ops[0]), ops[1..])
  }

  /** Since a request is the only way a partner is created, and writes never
      touch a number, no history of operations ever yields two partners with
      the same number. */
  lemma {:induction false} ReplayKeepsNumbersUnique(ps: seq<Partner>, ops: seq<RegistryOp>)
    requires UniqueNumbers(ps)
    ensures UniqueNumbers(Replay(ps, ops))
    decreases |ops|
  {
    if ops != [] {
      match ops[0] {
        case Request(n, newId) =>
          RequestKeepsNumbersUnique(ps, n, newId);
        case Write(id, patch) =>
          if HasId(ps, id) {
            PatchKeepsNumbersUnique(ps, id, patch);
          }
      }
      ReplayKeepsNumbersUnique(Step(ps, ops[0]), ops[1..]);
    }
  }

  /** Starting from an empty collection. */
  lemma RegistryNeverDuplicatesNumbers(ops: seq<RegistryOp>)
    ensures UniqueNumbers(Replay([], ops))
  {
    ReplayKeepsNumbersUnique([], ops);
  }

  /** The `partners` collection in store order. Distinct ids are the
      store's guarantee; distinct numbers are what the operations keep. */
  class PartnerRegistry {
    var partners: seq<Partner>

    ghost predicate Valid()
      reads this
    {
      UniqueIds(partners) && UniqueNumbers(partners)
    }

    constructor ()
      ensures Valid() && partners == []
    {
      partners := [];
    }

    /** `requestPartnerAccess`: the duplicate query, then the append. */
    method RequestPartnerAccess(number: string, newId: Id) returns (outcome: RequestOutcome)
      requires Valid() && !HasId(partners, newId)
      modifies this
      ensures Valid()
      ensures (outcome, partners) == RequestAccess(old(partners), number, newId)
    {
      if HasNumber(partners, number) {
        outcome := Failed(DuplicateRequestMessage);
        return;
      }
      RequestKeepsNumbersUnique(partners, number, newId);
      partners := partners + [Partner(newId, number, Pending, None)];
      outcome := Created(newId);
    }

    /** The intended `updatePartner(id, data)` the admin page calls. */
    method UpdatePartner(id: Id, patch: PartnerPatch) returns (ok: bool)
      requires Valid()
      modifies this
      ensures Valid()
      ensures ok == HasId(old(partners), id)
      ensures ok ==> partners == Patched(old(partners), id, patch).value
      ensures !ok ==> partners == old(partners)
    {
      ok := HasId(partners, id);
      if ok {
        PatchKeepsNumbersUnique(partners, id, patch);
        partners := Patched(partners, id, patch).value;
        assert forall i | 0 <= i < |partners| :: partners[i].id == old(partners)[i].id;
      }
    }

    /** `updatePartnerStatus`: an unconditional status overwrite. */
    method UpdatePartnerStatus(id: Id, status: PartnerStatus) returns (ok: bool)
      requires Valid()
      modifies this
      ensures Valid()
      ensures ok == HasId(old(partners), id)
      ensures ok ==> partners == Patched(old(partners), id, StatusPatch(status)).value
      ensures !ok ==> partners == old(partners)
    {
      ok := UpdatePartner(id, StatusPatch(status));
    }
  }
}
