/** The cause routes (`/api/causes`): the donate handler over a store that
    maps cause ids to cause documents. The route has no authentication and
    no status or deadline check. */
module Causes {
  import opened Common
  import opened Ledger

  /** A cause as stored (the `Cause` schema). */
  datatype CauseDoc = CauseDoc(
    title: string,
    description: string,
    category: string,
    goalAmount: real,
    currentAmount: real,
    endDate: Time,
    status: Status,
    supporters: seq<Id>)

  const InvalidAmount := Reply(400, "Invalid donation amount")
  const CauseNotFound := Reply(404, "Cause not found")

  class CauseStore {
    var causes: map<Id, CauseDoc>

    constructor (causes: map<Id, CauseDoc>)
      ensures this.causes == causes
    {
      this.causes := causes;
    }

    /** POST /api/causes/:id/donate: reject a missing or non-positive amount,
        then an unknown id; otherwise add the amount to the running total
        (read, add, save). */
    method Donate(id: Id, amount: Option<real>) returns (r: Response)
      modifies this
      ensures (amount.None? || amount.value <= 0.0) ==> r == InvalidAmount
      ensures amount.Some? && amount.value > 0.0 && id !in old(causes) ==> r == CauseNotFound
      ensures r.Code() == 200 <==> amount.Some? && amount.value > 0.0 && id in old(causes)
      ensures r.Code() != 200 ==> causes == old(causes)
      ensures r.Code() == 200 ==>
                causes == old(causes)[id := old(causes)[id].(currentAmount := old(causes)[id].currentAmount + amount.value)]
    {
      if amount.None? || amount.value <= 0.0 {
        return InvalidAmount;
      }
      if id !in causes {
        return CauseNotFound;
      }
      var cause := causes[id];
      cause := cause.(currentAmount := cause.currentAmount + amount.value);
      causes := causes[id := cause];
      r := Reply(200, "Donation successful");
    }
  }

  /** A cause past its deadline and marked expired still takes a donation. */
  method ExpiredCauseStillAccepts(now: Time)
  {
    var expired := CauseDoc("Flood relief", "Emergency supplies", "disaster", 1000.0, 10.0,
                            now - 1, Expired, []);
    var store := new CauseStore(map[7 := expired]);
    var r := store.Donate(7, Some(25.0));
    assert r.Code() == 200 && store.causes[7].currentAmount == 35.0;
  }
}
