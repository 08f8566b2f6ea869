/** The user records that the routes read and count on (the User schema
    itself is not part of this model; only the fields used here appear). */
module Users {
  import opened Common

  datatype Role = Member | Moderator | Admin

  datatype User = User(id: Id, username: string, role: Role, totalDonations: nat, totalPosts: nat)

  /** Each record is filed under its own `_id`. */
  predicate Keyed(accounts: map<Id, User>) {
    forall k :: k in accounts ==> accounts[k].id == k
  }

  /** `User.findByIdAndUpdate(id, { $inc: { totalDonations: 1 } })`: a missing
      user is left alone. */
  function CountDonation(accounts: map<Id, User>, id: Id): (r: map<Id, User>)
    ensures r.Keys == accounts.Keys
    ensures id in accounts ==> r[id].totalDonations == accounts[id].totalDonations + 1
    ensures id in accounts ==> r[id] == accounts[id].(totalDonations := r[id].totalDonations)
    ensures forall k :: k in accounts && k != id ==> r[k] == accounts[k]
    ensures Keyed(accounts) ==> Keyed(r)
  {
    if id in accounts then accounts[id := accounts[id].(totalDonations := accounts[id].totalDonations + 1)]
    else accounts
  }

  /** `User.findByIdAndUpdate(id, { $inc: { totalPosts: 1 } })`. */
  function CountPost(accounts: map<Id, User>, id: Id): (r: map<Id, User>)
    ensures r.Keys == accounts.Keys
    ensures id in accounts ==> r[id].totalPosts == accounts[id].totalPosts + 1
    ensures id in accounts ==> r[id] == accounts[id].(totalPosts := r[id].totalPosts)
    ensures forall k :: k in accounts && k != id ==> r[k] == accounts[k]
    ensures Keyed(accounts) ==> Keyed(r)
  {
    if id in accounts then accounts[id := accounts[id].(totalPosts := accounts[id].totalPosts + 1)]
    else accounts
  }

  /** The users collection, whose counters other routes increment in place. */
  class UserDirectory {
    var accounts: map<Id, User>

    constructor (accounts: map<Id, User>)
      ensures this.accounts == accounts
    {
      this.accounts := accounts;
    }

    method IncrementDonations(id: Id)
      modifies this
      ensures accounts == CountDonation(old(accounts), id)
    {
      if id in accounts {
        accounts := accounts[id := accounts[id].(totalDonations := accounts[id].totalDonations + 1)];
      }
    }

    method IncrementPosts(id: Id)
      modifies this
      ensures accounts == CountPost(old(accounts), id)
    {
      if id in accounts {
        accounts := accounts[id := accounts[id].(totalPosts := accounts[id].totalPosts + 1)];
      }
    }
  }
}
