/** The campaign routes (`/api/donations`): create, list, get, donate,
    update, delete and add-update, over a store that maps campaign ids to
    campaign documents. Every handler that needs a signed-in caller takes the
    outcome of the `auth` guard; a refusal there is the response. */
module Campaigns {
  import opened Common
  import opened Users
  import opened Auth
  import opened Ledger

  const Categories: seq<string> := ["medical", "education", "disaster", "community", "environment", "other"]
  const Currencies: seq<string> := ["USD", "EUR", "GBP", "CAD", "AUD"]

  const TitleError := FieldError("title", "Title must be between 5 and 200 characters")
  const DescriptionError := FieldError("description", "Description must be between 20 and 2000 characters")
  const CategoryError := FieldError("category", "Invalid category")
  const GoalError := FieldError("goalAmount", "Goal amount must be at least 1")
  const EndDateError := FieldError("endDate", "End date must be a valid date")
  const CurrencyError := FieldError("currency", "Invalid currency")
  const AmountError := FieldError("amount", "Amount must be at least 1")
  const MessageError := FieldError("message", "Message cannot exceed 500 characters")
  const ContentError := FieldError("content", "Content must be between 10 and 2000 characters")

  const NotFound := Reply(404, "Donation campaign not found")
  const PastEndDate := Reply(400, "End date must be in the future")

  /** The body of a create request. A missing text field reads as "" (as
      express-validator sees it); a missing or unparsable date or amount is
      None. */
  datatype CreateRequest = CreateRequest(
    title: string, description: string, category: string, goalAmount: Option<real>,
    endDate: Option<Time>, currency: Option<string>, tags: Option<seq<string>>,
    location: Option<Location>, image: Option<string>)

  /** Every validator of the create route, in declaration order. */
  function CreateErrors(q: CreateRequest): (errs: seq<FieldError>)
    ensures TitleError in errs <==> !LengthIn(q.title, 5, 200)
    ensures DescriptionError in errs <==> !LengthIn(q.description, 20, 2000)
    ensures CategoryError in errs <==> q.category !in Categories
    ensures GoalError in errs <==> !(q.goalAmount.Some? && q.goalAmount.value >= 1.0)
    ensures EndDateError in errs <==> q.endDate.None?
    ensures CurrencyError in errs <==> !(q.currency.None? || q.currency.value in Currencies)
    ensures errs == [] <==> (LengthIn(q.title, 5, 200) && LengthIn(q.description, 20, 2000)
                             && q.category in Categories && q.goalAmount.Some? && q.goalAmount.value >= 1.0
                             && q.endDate.Some? && (q.currency.None? || q.currency.value in Currencies))
  {
    Check(LengthIn(q.title, 5, 200), TitleError)
    + Check(LengthIn(q.description, 20, 2000), DescriptionError)
    + Check(q.category in Categories, CategoryError)
    + Check(q.goalAmount.Some? && q.goalAmount.value >= 1.0, GoalError)
    + Check(q.endDate.Some?, EndDateError)
    + Check(q.currency.None? || q.currency.value in Currencies, CurrencyError)
  }

  /** The document a valid create request stores. */
  function NewCampaign(q: CreateRequest, creator: Id): CampaignDoc
    requires q.goalAmount.Some? && q.endDate.Some?
  {
    CampaignDoc(q.title, q.description, q.category, q.goalAmount.value, 0.0, q.currency.GetOr("USD"),
                q.image.GetOr(""), creator, Active, q.endDate.value, q.tags.GetOr([]),
                q.location.GetOr(Location("", "", "")), false, [], [])
  }

  /** The schema limits a valid create request can still break: the
      validators count characters, `maxlength` counts UTF-16 code units. */
  predicate CreateFits(q: CreateRequest) {
    WithinMaxLength(q.title, 200) && WithinMaxLength(q.description, 2000)
  }

  datatype DonateRequest = DonateRequest(amount: Option<real>, message: Option<string>, isAnonymous: Option<bool>)

  function DonateErrors(q: DonateRequest): (errs: seq<FieldError>)
    ensures AmountError in errs <==> !(q.amount.Some? && q.amount.value >= 1.0)
    ensures MessageError in errs <==> !(q.message.None? || |q.message.value| <= 500)
    ensures errs == [] <==> q.amount.Some? && q.amount.value >= 1.0 && (q.message.None? || |q.message.value| <= 500)
  {
    Check(q.amount.Some? && q.amount.value >= 1.0, AmountError)
    + Check(q.message.None? || |q.message.value| <= 500, MessageError)
  }

  /** The donor entry a valid donation records. */
  function EntryFor(caller: Id, q: DonateRequest, now: Time): DonorEntry
    requires q.amount.Some?
  {
    DonorEntry(caller, q.amount.value, q.message.GetOr(""), q.isAnonymous.GetOr(false), now)
  }

  /** The body of an update request: every field optional. */
  datatype UpdateRequest = UpdateRequest(
    title: Option<string>, description: Option<string>, category: Option<string>,
    goalAmount: Option<real>, endDate: Option<Time>, tags: Option<seq<string>>,
    location: Option<Location>, image: Option<string>)

  /** The update route's validators, each applied only to a supplied field. */
  function UpdateErrors(q: UpdateRequest): (errs: seq<FieldError>)
    ensures TitleError in errs <==> q.title.Some? && !LengthIn(q.title.value, 5, 200)
    ensures DescriptionError in errs <==> q.description.Some? && !LengthIn(q.description.value, 20, 2000)
    ensures CategoryError in errs <==> q.category.Some? && q.category.value !in Categories
    ensures GoalError in errs <==> q.goalAmount.Some? && q.goalAmount.value < 1.0
    ensures errs == [] <==> ((q.title.None? || LengthIn(q.title.value, 5, 200))
                             && (q.description.None? || LengthIn(q.description.value, 20, 2000))
                             && (q.category.None? || q.category.value in Categories)
                             && (q.goalAmount.None? || q.goalAmount.value >= 1.0))
  {
    Check(q.title.None? || LengthIn(q.title.value, 5, 200), TitleError)
    + Check(q.description.None? || LengthIn(q.description.value, 20, 2000), DescriptionError)
    + Check(q.category.None? || q.category.value in Categories, CategoryError)
    + Check(q.goalAmount.None? || q.goalAmount.value >= 1.0, GoalError)
  }

  /** A campaign with the supplied fields of `q` written over it and every
      other field as it was. */
  function Revised(d: CampaignDoc, q: UpdateRequest): CampaignDoc {
    d.(title := q.title.GetOr(d.title), description := q.description.GetOr(d.description),
       category := q.category.GetOr(d.category), goalAmount := q.goalAmount.GetOr(d.goalAmount),
       endDate := q.endDate.GetOr(d.endDate), tags := q.tags.GetOr(d.tags),
       location := q.location.GetOr(d.location), image := q.image.GetOr(d.image))
  }

  /** The update validators that `runValidators` applies to the supplied
      fields. */
  predicate UpdateFits(q: UpdateRequest) {
    (q.title.None? || WithinMaxLength(q.title.value, 200))
    && (q.description.None? || WithinMaxLength(q.description.value, 2000))
  }

  /** The `updateFields` object of the update route, built field by field.
      Title, description, category, goal amount, end date, tags and location
      are copied when truthy, and the image whenever it is supplied (even as
      ""). A supplied end date that is not in the future stops the handler.
      Once the validators have passed, every supplied text and amount is
      truthy (and arrays and objects always are), so exactly the supplied
      fields are copied. */
  method BuildUpdate(q: UpdateRequest, now: Time) returns (fields: UpdateRequest, pastEnd: bool)
    ensures pastEnd <==> q.endDate.Some? && q.endDate.value <= now
    ensures UpdateErrors(q) == [] && !pastEnd ==> fields == q
  {
    fields := UpdateRequest(None, None, None, None, None, None, None, None);
    if q.title.Some? && q.title.value != "" { fields := fields.(title := q.title); }
    if q.description.Some? && q.description.value != "" { fields := fields.(description := q.description); }
    if q.category.Some? && q.category.value != "" { fields := fields.(category := q.category); }
    if q.goalAmount.Some? && q.goalAmount.value != 0.0 { fields := fields.(goalAmount := q.goalAmount); }
    if q.endDate.Some? {
      if q.endDate.value <= now {
        return fields, true;
      }
      fields := fields.(endDate := q.endDate);
    }
    if q.tags.Some? { fields := fields.(tags := q.tags); }
    if q.location.Some? { fields := fields.(location := q.location); }
    if q.image.Some? { fields := fields.(image := q.image); }
    pastEnd := false;
  }

  datatype CampaignUpdateRequest = CampaignUpdateRequest(title: string, content: string)

  function CampaignUpdateErrors(q: CampaignUpdateRequest): (errs: seq<FieldError>)
    ensures TitleError in errs <==> !LengthIn(q.title, 5, 200)
    ensures ContentError in errs <==> !LengthIn(q.content, 10, 2000)
    ensures errs == [] <==> LengthIn(q.title, 5, 200) && LengthIn(q.content, 10, 2000)
  {
    Check(LengthIn(q.title, 5, 200), TitleError) + Check(LengthIn(q.content, 10, 2000), ContentError)
  }

  /** The schema limits of a pushed campaign update. */
  predicate UpdateEntryFits(q: CampaignUpdateRequest) {
    WithinMaxLength(q.title, 200) && WithinMaxLength(q.content, 2000)
  }

  /** The list route's query parameters; None is a parameter left out. */
  datatype ListParams = ListParams(category: Option<string>, status: Option<string>)

  /** The database query the list route builds: a filter per truthy parameter. */
  datatype Filter = Filter(category: Option<string>, status: Option<string>)

  function StatusName(s: Status): string {
    match s
    case Active => "active"
    case Completed => "completed"
    case Cancelled => "cancelled"
    case Expired => "expired"
  }

  /** `status` defaults to 'active'; an empty parameter adds no filter. */
  function BuildFilter(p: ListParams): (f: Filter)
    ensures p.status.None? ==> f.status == Some("active")
    ensures p.status == Some("") ==> f.status.None?
    ensures f.category.Some? <==> p.category.Some? && p.category.value != ""
    ensures f.category.Some? ==> f.category == p.category
  {
    var status := p.status.GetOr("active");
    Filter(if p.category.Some? && p.category.value != "" then p.category else None,
           if status != "" then Some(status) else None)
  }

  predicate Matches(d: CampaignDoc, f: Filter) {
    (f.category.None? || d.category == f.category.value)
    && (f.status.None? || StatusName(d.status) == f.status.value)
  }

  /** The ids the list route can return (before search, sorting and paging). */
  function ListCampaigns(campaigns: map<Id, CampaignDoc>, p: ListParams): (ids: set<Id>)
    ensures ids <= campaigns.Keys
    ensures forall id :: id in ids <==> (
              && id in campaigns
              && (p.category.None? || p.category.value == "" || campaigns[id].category == p.category.value)
              && (p.status.None? ==> campaigns[id].status == Active)
              && (p.status.Some? && p.status.value != "" ==> StatusName(campaigns[id].status) == p.status.value))
    ensures p.status.None? ==> forall id :: id in ids ==> campaigns[id].status == Active
    ensures p.status.None? ==>
              forall id :: (id in campaigns && campaigns[id].status == Active
                            && (p.category.None? || p.category.value in {"", campaigns[id].category})) ==> id in ids
  {
    set id | id in campaigns && Matches(campaigns[id], BuildFilter(p))
  }

  /** A get response and the campaign it carries. */
  datatype Fetch = Fetch(response: Response, body: Option<CampaignDoc>)

  /** The stored campaigns. */
  class CampaignStore {
    var campaigns: map<Id, CampaignDoc>
    var nextId: Id

    /** Ids are below the next fresh id, every campaign keeps its ledger
        invariant and the schema's length limits, and every goal is at
        least 1. */
    ghost predicate Valid()
      reads this
    {
      forall id :: id in campaigns ==>
        id < nextId && Ledgered(campaigns[id]) && WithinSchema(campaigns[id]) && campaigns[id].goalAmount >= 1.0
    }

    constructor ()
      ensures Valid() && campaigns == map[]
    {
      campaigns, nextId := map[], 0;
    }

    /** POST /api/donations */
    method Create(access: Access, q: CreateRequest, now: Time) returns (r: Response)
      requires Valid() && FromAuth(access)
      modifies this
      ensures Valid()
      ensures access.Denied? ==> r == Reply(access.status, access.message)
      ensures access.Granted? && CreateErrors(q) != [] ==> r == Invalid(CreateErrors(q))
      ensures access.Granted? && CreateErrors(q) == [] && q.endDate.value <= now ==> r == PastEndDate
      ensures access.Granted? && CreateErrors(q) == [] && q.endDate.value > now && !CreateFits(q) ==> r == ServerError
      ensures r.Code() == 201 <==> access.Granted? && CreateErrors(q) == [] && q.endDate.value > now && CreateFits(q)
      ensures r.Code() != 201 ==> campaigns == old(campaigns) && nextId == old(nextId)
      ensures r.Code() == 201 ==> (old(nextId) !in old(campaigns)
                                   && campaigns == old(campaigns)[old(nextId) := NewCampaign(q, access.user.id)])
    {
      if access.Denied? {
        return Reply(access.status, access.message);
      }
      var errs := CreateErrors(q);
      if errs != [] {
        return Invalid(errs);
      }
      if q.endDate.value <= now {
        return PastEndDate;
      }
      var donation := new Campaign.New(q.title, q.description, q.category, q.goalAmount.value,
                                       q.currency.GetOr("USD"), q.endDate.value, q.tags.GetOr([]),
                                       q.location.GetOr(Location("", "", "")), q.image.GetOr(""), access.user.id);
      if !WithinSchema(donation.Snapshot()) {
        return ServerError;
      }
      campaigns := campaigns[nextId := donation.Snapshot()];
      nextId := nextId + 1;
      r := Reply(201, "Donation campaign created successfully");
    }

    /** GET /api/donations/:id as written: an authenticated viewer makes the
        handler call `donation.incrementViews()`, which the campaign schema
        does not define, so the handler falls into its 500 branch. */
    function GetAsWritten(id: Id, viewer: Option<User>): (f: Fetch)
      reads this
      ensures f.response.Code() == 200 <==> id in campaigns && viewer.None?
      ensures id !in campaigns ==> f == Fetch(NotFound, None)
      ensures f.body.Some? <==> f.response.Code() == 200
    {
      if id !in campaigns then Fetch(NotFound, None)
      else if viewer.Some? then Fetch(ServerError, None)
      else Fetch(Reply(200, ""), Some(campaigns[id]))
    }

    /** GET /api/donations/:id as intended: any viewer gets the campaign;
        campaigns keep no view counter, so nothing changes. */
    function Get(id: Id, viewer: Option<User>): (f: Fetch)
      reads this
      ensures f.response.Code() == 200 <==> id in campaigns
      ensures f.response.Code() != 200 ==> f == Fetch(NotFound, None)
      ensures f.body == if id in campaigns then Some(campaigns[id]) else None
      ensures viewer.None? ==> f == GetAsWritten(id, viewer)
    {
      if id !in campaigns then Fetch(NotFound, None) else Fetch(Reply(200, ""), Some(campaigns[id]))
    }

    /** POST /api/donations/:id/donate */
    method Donate(access: Access, id: Id, q: DonateRequest, now: Time, users: UserDirectory) returns (r: Response)
      requires Valid() && FromAuth(access)
      modifies this, users
      ensures Valid() && nextId == old(nextId)
      ensures access.Denied? ==> r == Reply(access.status, access.message)
      ensures access.Granted? && DonateErrors(q) != [] ==> r == Invalid(DonateErrors(q))
      ensures access.Granted? && DonateErrors(q) == [] && id !in old(campaigns) ==> r == NotFound
      ensures access.Granted? && DonateErrors(q) == [] && id in old(campaigns)
              && !(old(campaigns)[id].status == Active && now < old(campaigns)[id].endDate)
              ==> r == Reply(400, "This campaign is no longer active")
      ensures access.Granted? && DonateErrors(q) == [] && id in old(campaigns)
              && old(campaigns)[id].status == Active && now < old(campaigns)[id].endDate
              && !WithinMaxLength(q.message.GetOr(""), 500)
              ==> r == ServerError
      ensures r.Code() == 200 <==> (access.Granted? && DonateErrors(q) == [] && id in old(campaigns)
                                 && old(campaigns)[id].status == Active && now < old(campaigns)[id].endDate
                                 && WithinMaxLength(q.message.GetOr(""), 500))
      ensures r.Code() != 200 ==> campaigns == old(campaigns) && users.accounts == old(users.accounts)
      ensures r.Code() == 200 ==>
                campaigns == old(campaigns)[id := WithDonation(old(campaigns)[id], EntryFor(access.user.id, q, now))]
                && users.accounts == CountDonation(old(users.accounts), access.user.id)
    {
      if access.Denied? {
        return Reply(access.status, access.message);
      }
      var errs := DonateErrors(q);
      if errs != [] {
        return Invalid(errs);
      }
      if id !in campaigns {
        return NotFound;
      }
      var donation := new Campaign.Load(campaigns[id]);
      if !donation.IsActive(now) {
        return Reply(400, "This campaign is no longer active");
      }
      donation.AddDonation(access.user.id, q.amount.value, q.message, q.isAnonymous, now);
      DonationWithinSchema(campaigns[id], EntryFor(access.user.id, q, now));
      if !WithinSchema(donation.Snapshot()) {
        return ServerError;
      }
      campaigns := campaigns[id := donation.Snapshot()];
      users.IncrementDonations(access.user.id);
      r := Reply(200, "Donation made successfully");
    }

    /** PUT /api/donations/:id */
    method Update(access: Access, id: Id, q: UpdateRequest, now: Time) returns (r: Response)
      requires Valid() && FromAuth(access)
      modifies this
      ensures Valid() && nextId == old(nextId)
      ensures access.Denied? ==> r == Reply(access.status, access.message)
      ensures access.Granted? && UpdateErrors(q) != [] ==> r == Invalid(UpdateErrors(q))
      ensures access.Granted? && UpdateErrors(q) == [] && id !in old(campaigns) ==> r == NotFound
      ensures access.Granted? && UpdateErrors(q) == [] && id in old(campaigns)
              && old(campaigns)[id].creator != access.user.id
              ==> r == Reply(403, "Not authorized to update this campaign")
      ensures access.Granted? && UpdateErrors(q) == [] && id in old(campaigns)
              && old(campaigns)[id].creator == access.user.id && old(campaigns)[id].donors != []
              ==> r == Reply(400, "Cannot update campaign that has received donations")
      ensures access.Granted? && UpdateErrors(q) == [] && id in old(campaigns)
              && old(campaigns)[id].creator == access.user.id && old(campaigns)[id].donors == []
              && q.endDate.Some? && q.endDate.value <= now
              ==> r == PastEndDate
      ensures access.Granted? && UpdateErrors(q) == [] && id in old(campaigns)
              && old(campaigns)[id].creator == access.user.id && old(campaigns)[id].donors == []
              && (q.endDate.None? || q.endDate.value > now) && !UpdateFits(q)
              ==> r == ServerError
      ensures r.Code() == 200 <==> (access.Granted? && UpdateErrors(q) == [] && id in old(campaigns)
                                 && old(campaigns)[id].creator == access.user.id && old(campaigns)[id].donors == []
                                 && (q.endDate.None? || q.endDate.value > now) && UpdateFits(q))
      ensures r.Code() != 200 ==> campaigns == old(campaigns)
      ensures r.Code() == 200 ==> campaigns == old(campaigns)[id := Revised(old(campaigns)[id], q)]
    {
      if access.Denied? {
        return Reply(access.status, access.message);
      }
      var errs := UpdateErrors(q);
      if errs != [] {
        return Invalid(errs);
      }
      if id !in campaigns {
        return NotFound;
      }
      var d := campaigns[id];
      if d.creator != access.user.id {
        return Reply(403, "Not authorized to update this campaign");
      }
      if |d.donors| > 0 {
        return Reply(400, "Cannot update campaign that has received donations");
      }
      var fields, pastEnd := BuildUpdate(q, now);
      if pastEnd {
        return PastEndDate;
      }
      if !WithinSchema(Revised(d, fields)) {
        return ServerError;
      }
      campaigns := campaigns[id := Revised(d, fields)];
      r := Reply(200, "Campaign updated successfully");
    }

    /** DELETE /api/donations/:id (a hard delete) */
    method Delete(access: Access, id: Id) returns (r: Response)
      requires Valid() && FromAuth(access)
      modifies this
      ensures Valid() && nextId == old(nextId)
      ensures access.Denied? ==> r == Reply(access.status, access.message)
      ensures access.Granted? && id !in old(campaigns) ==> r == NotFound
      ensures access.Granted? && id in old(campaigns) && old(campaigns)[id].creator != access.user.id
              ==> r == Reply(403, "Not authorized to delete this campaign")
      ensures access.Granted? && id in old(campaigns) && old(campaigns)[id].creator == access.user.id
              && old(campaigns)[id].donors != []
              ==> r == Reply(400, "Cannot delete campaign that has received donations")
      ensures r.Code() == 200 <==> (access.Granted? && id in old(campaigns)
                                 && old(campaigns)[id].creator == access.user.id && old(campaigns)[id].donors == [])
      ensures r.Code() != 200 ==> campaigns == old(campaigns)
      ensures r.Code() == 200 ==> campaigns == old(campaigns) - {id}
    {
      if access.Denied? {
        return Reply(access.status, access.message);
      }
      if id !in campaigns {
        return NotFound;
      }
      if campaigns[id].creator != access.user.id {
        return Reply(403, "Not authorized to delete this campaign");
      }
      if |campaigns[id].donors| > 0 {
        return Reply(400, "Cannot delete campaign that has received donations");
      }
      campaigns := campaigns - {id};
      r := Reply(200, "Campaign deleted successfully");
    }

    /** POST /api/donations/:id/updates */
    method AddUpdate(access: Access, id: Id, q: CampaignUpdateRequest, now: Time) returns (r: Response)
      requires Valid() && FromAuth(access)
      modifies this
      ensures Valid() && nextId == old(nextId)
      ensures access.Denied? ==> r == Reply(access.status, access.message)
      ensures access.Granted? && CampaignUpdateErrors(q) != [] ==> r == Invalid(CampaignUpdateErrors(q))
      ensures access.Granted? && CampaignUpdateErrors(q) == [] && id !in old(campaigns) ==> r == NotFound
      ensures access.Granted? && CampaignUpdateErrors(q) == [] && id in old(campaigns)
              && old(campaigns)[id].creator != access.user.id
              ==> r == Reply(403, "Not authorized to add updates to this campaign")
      ensures access.Granted? && CampaignUpdateErrors(q) == [] && id in old(campaigns)
              && old(campaigns)[id].creator == access.user.id && !UpdateEntryFits(q)
              ==> r == ServerError
      ensures r.Code() == 200 <==> (access.Granted? && CampaignUpdateErrors(q) == [] && id in old(campaigns)
                                 && old(campaigns)[id].creator == access.user.id && UpdateEntryFits(q))
      ensures r.Code() != 200 ==> campaigns == old(campaigns)
      ensures r.Code() == 200 ==>
                campaigns == old(campaigns)[id := old(campaigns)[id].(updates := old(campaigns)[id].updates
                                                                      + [CampaignUpdate(q.title, q.content, now)])]
    {
      if access.Denied? {
        return Reply(access.status, access.message);
      }
      var errs := CampaignUpdateErrors(q);
      if errs != [] {
        return Invalid(errs);
      }
      if id !in campaigns {
        return NotFound;
      }
      var donation := new Campaign.Load(campaigns[id]);
      if donation.creator != access.user.id {
        return Reply(403, "Not authorized to add updates to this campaign");
      }
      donation.updates := donation.updates + [CampaignUpdate(q.title, q.content, now)];
      if !WithinSchema(donation.Snapshot()) {
        return ServerError;
      }
      campaigns := campaigns[id := donation.Snapshot()];
      r := Reply(200, "Update added successfully");
    }
  }

  /** The fault in the get route: for a stored campaign, any signed-in viewer
      gets a 500 and no campaign, where the intended handler answers 200. */
  lemma GetFailsForSignedInViewers(s: CampaignStore, id: Id, viewer: User)
    requires id in s.campaigns
    ensures s.GetAsWritten(id, Some(viewer)).response == Reply(500, "Server error")
    ensures s.Get(id, Some(viewer)).response.Code() == 200
  {
  }
}
