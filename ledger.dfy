/** The campaign document (`Donation` schema): its persisted fields, its
    derived values (progress percentage, days remaining) and the in-place
    methods `addDonation` and `isActive`. The key invariant is that the
    running total equals the sum of the donor amounts. */
module Ledger {
  import opened Common

  /** One day in milliseconds, `1000 * 60 * 60 * 24`. */
  const DayMs: int := 1000 * 60 * 60 * 24

  datatype Status = Active | Completed | Cancelled | Expired

  datatype Location = Location(country: string, city: string, address: string)

  datatype DonorEntry = DonorEntry(user: Id, amount: real, message: string, isAnonymous: bool, donatedAt: Time)

  datatype CampaignUpdate = CampaignUpdate(title: string, content: string, createdAt: Time)

  /** A campaign as stored. */
  datatype CampaignDoc = CampaignDoc(
    title: string,
    description: string,
    category: string,
    goalAmount: real,
    currentAmount: real,
    currency: string,
    image: string,
    creator: Id,
    status: Status,
    endDate: Time,
    tags: seq<string>,
    location: Location,
    isVerified: bool,
    donors: seq<DonorEntry>,
    updates: seq<CampaignUpdate>)

  /** The schema's `maxlength` limits, counted in UTF-16 code units as
      Mongoose counts them; a save of a document outside them throws. */
  predicate WithinSchema(d: CampaignDoc) {
    && WithinMaxLength(d.title, 200)
    && WithinMaxLength(d.description, 2000)
    && (forall e :: e in d.donors ==> WithinMaxLength(e.message, 500))
    && (forall u :: u in d.updates ==> WithinMaxLength(u.title, 200) && WithinMaxLength(u.content, 2000))
  }

  /** The sum of the donor amounts. */
  function SumAmounts(donors: seq<DonorEntry>): real {
    if donors == [] then 0.0 else donors[0].amount + SumAmounts(donors[1..])
  }

  lemma {:induction false} SumAppend(a: seq<DonorEntry>, b: seq<DonorEntry>)
    ensures SumAmounts(a + b) == SumAmounts(a) + SumAmounts(b)
  {
    if a == [] {
      assert a + b == b;
    } else {
      assert (a + b)[1..] == a[1..] + b;
      SumAppend(a[1..], b);
    }
  }

  /** The ledger invariant: `currentAmount` is the sum of the donor amounts. */
  predicate Ledgered(d: CampaignDoc) {
    d.currentAmount == SumAmounts(d.donors)
  }

  /** The document after `addDonation` recorded `e`. */
  function WithDonation(d: CampaignDoc, e: DonorEntry): (r: CampaignDoc)
    ensures Ledgered(d) ==> Ledgered(r)
    ensures r.donors == d.donors + [e] && r.currentAmount == d.currentAmount + e.amount
  {
    SumAppend(d.donors, [e]);
    assert SumAmounts([e]) == e.amount;
    d.(donors := d.donors + [e], currentAmount := d.currentAmount + e.amount)
  }

  /** Recording a donation keeps a document within the schema exactly when
      the donor's message is within its 500-unit limit. */
  lemma DonationWithinSchema(d: CampaignDoc, e: DonorEntry)
    requires WithinSchema(d)
    ensures WithinSchema(WithDonation(d, e)) <==> WithinMaxLength(e.message, 500)
  {
    var r := WithDonation(d, e);
    assert e in r.donors;
    assert forall x :: x in r.donors ==> x in d.donors || x == e;
  }

  /** A run of donations applied one after another. */
  function WithDonations(d: CampaignDoc, es: seq<DonorEntry>): CampaignDoc
    decreases |es|
  {
    if es == [] then d else WithDonations(WithDonation(d, es[0]), es[1..])
  }

  /** N donations in sequence add exactly N entries, in order, and raise the
      total by exactly the sum of their amounts; nothing else changes. */
  lemma {:induction false} DonationsAccumulate(d: CampaignDoc, es: seq<DonorEntry>)
    ensures WithDonations(d, es).donors == d.donors + es
    ensures WithDonations(d, es).currentAmount == d.currentAmount + SumAmounts(es)
    ensures WithDonations(d, es) == d.(donors := d.donors + es, currentAmount := d.currentAmount + SumAmounts(es))
    decreases |es|
  {
    if es == [] {
      assert d.donors + es == d.donors;
    } else {
      var d1 := WithDonation(d, es[0]);
      DonationsAccumulate(d1, es[1..]);
      assert d.donors + [es[0]] + es[1..] == d.donors + es;
    }
  }

  /** The `progressPercentage` virtual, `Math.min(current / goal * 100, 100)`;
      the schema keeps `goalAmount >= 1`. */
  function ProgressPercentage(current: real, goal: real): (p: real)
    requires goal >= 1.0
    ensures p <= 100.0
    ensures current <= goal ==> p == current / goal * 100.0
    ensures p == 100.0 <==> current >= goal
    ensures current >= 0.0 ==> p >= 0.0
  {
    var raw := current / goal * 100.0;
    ScaledBelowHundred(current, goal);
    if raw < 100.0 then raw else 100.0
  }

  lemma ScaledBelowHundred(current: real, goal: real)
    requires goal >= 1.0
    ensures current / goal * 100.0 < 100.0 <==> current < goal
    ensures current >= 0.0 ==> current / goal * 100.0 >= 0.0
  {
    var q := current / goal;
    assert q * goal == current;
    if current < goal {
      assert q < 1.0;
    } else {
      assert q >= 1.0;
    }
  }

  /** `Math.ceil(a / d)` for a positive divisor. */
  function CeilDiv(a: int, d: int): (c: int)
    requires d > 0
    ensures (c - 1) * d < a <= c * d
  {
    var c := (a + d - 1) / d;
    assert (a + d - 1) == c * d + (a + d - 1) % d;
    c
  }

  /** The `daysRemaining` virtual: whole days left until `endDate`, rounded
      up, and never negative. */
  function DaysRemaining(endDate: Time, now: Time): (days: nat)
    ensures endDate <= now ==> days == 0
    ensures endDate > now ==> days >= 1 && (days - 1) * DayMs < endDate - now <= days * DayMs
  {
    var diffDays := CeilDiv(endDate - now, DayMs);
    if diffDays > 0 then diffDays else 0
  }

  /** A campaign document loaded into memory, which the routes change in
      place and then save. */
  class Campaign {
    var title: string
    var description: string
    var category: string
    var goalAmount: real
    var currentAmount: real
    var currency: string
    var image: string
    var creator: Id
    var status: Status
    var endDate: Time
    var tags: seq<string>
    var location: Location
    var isVerified: bool
    var donors: seq<DonorEntry>
    var updates: seq<CampaignUpdate>

    /** The stored form of this document. */
    function Snapshot(): CampaignDoc
      reads this
    {
      CampaignDoc(title, description, category, goalAmount, currentAmount, currency, image,
                  creator, status, endDate, tags, location, isVerified, donors, updates)
    }

    /** `Donation.findById`: the stored document, in memory. */
    constructor Load(d: CampaignDoc)
      ensures Snapshot() == d
    {
      title, description, category := d.title, d.description, d.category;
      goalAmount, currentAmount, currency, image := d.goalAmount, d.currentAmount, d.currency, d.image;
      creator, status, endDate, tags := d.creator, d.status, d.endDate, d.tags;
      location, isVerified, donors, updates := d.location, d.isVerified, d.donors, d.updates;
    }

    /** `new Donation({...})`: the given fields, with the schema defaults for
        the rest (nothing raised, active, unverified, no donors, no updates). */
    constructor New(title: string, description: string, category: string, goalAmount: real,
                    currency: string, endDate: Time, tags: seq<string>, location: Location,
                    image: string, creator: Id)
      ensures Snapshot() == CampaignDoc(title, description, category, goalAmount, 0.0, currency, image,
                                        creator, Active, endDate, tags, location, false, [], [])
      ensures Ledgered(Snapshot())
    {
      this.title, this.description, this.category := title, description, category;
      this.goalAmount, this.currentAmount, this.currency, this.image := goalAmount, 0.0, currency, image;
      this.creator, this.status, this.endDate, this.tags := creator, Active, endDate, tags;
      this.location, this.isVerified, this.donors, this.updates := location, false, [], [];
    }

    /** `isActive()`, with the clock reading as a parameter. */
    predicate IsActive(now: Time)
      reads this
      ensures IsActive(now) <==> status == Active && DaysRemaining(endDate, now) >= 1
    {
      status == Active && now < endDate
    }

    /** `addDonation(userId, amount, message = '', isAnonymous = false)`:
        push one donor entry and add its amount to the total. */
    method AddDonation(user: Id, amount: real, message: Option<string>, isAnonymous: Option<bool>, now: Time)
      modifies this
      ensures Snapshot() == WithDonation(old(Snapshot()),
                                         DonorEntry(user, amount, message.GetOr(""), isAnonymous.GetOr(false), now))
      ensures old(Ledgered(Snapshot())) ==> Ledgered(Snapshot())
    {
      ghost var before := Snapshot();
      donors := donors + [DonorEntry(user, amount, message.GetOr(""), isAnonymous.GetOr(false), now)];
      currentAmount := currentAmount + amount;
      ghost var e := DonorEntry(user, amount, message.GetOr(""), isAnonymous.GetOr(false), now);
      assert Snapshot() == WithDonation(before, e);
    }
  }

  /** The worked example: a 5000 goal, donations of 1000 and then 4500, ends
      with 5500 raised, two donor entries and progress shown as 100. */
  method ExampleTwoDonations(creator: Id, donor: Id, now: Time)
  {
    var c := new Campaign.New("Clean water", "Wells for three villages in the region", "community",
                              5000.0, "USD", now + 30 * DayMs, [], Location("", "", ""), "", creator);
    c.AddDonation(donor, 1000.0, None, None, now);
    c.AddDonation(donor, 4500.0, Some("good luck"), Some(true), now);
    assert c.currentAmount == 5500.0 && |c.donors| == 2;
    assert Ledgered(c.Snapshot());
    assert ProgressPercentage(c.currentAmount, c.goalAmount) == 100.0;
    assert DaysRemaining(c.endDate, now) == 30;
  }
}
