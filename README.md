# charity-forum, modelled in Dafny

This project models the decision logic and state updates of the charity-forum
application. The application is an Express/Mongoose back end with a React
client. The model covers these parts:

- **Campaign ledger** (module `Ledger`). A donation campaign document
  (`CampaignDoc`) has a `Campaign` class that the routes load, change in place
  and save. `AddDonation` appends a donor entry and raises `currentAmount`.
  The invariant `Ledgered` says that `currentAmount` equals the sum of the
  donor amounts. The derived values `progressPercentage` and `daysRemaining`
  are modelled too.
- **Campaign routes** (module `Campaigns`). A `CampaignStore` holds the
  campaigns as a map from id to document. It has create, list filter, get,
  donate, update, hard delete and add-update. Each handler has the source's
  validation messages, its 400/403/404 decisions and its "nothing changes on
  failure" behaviour.
- **Forum posts** (module `Posts`). The `ForumPost` class has `addLike`,
  `addDislike`, `addComment` and `incrementViews`. It is specified by pure
  functions on the reaction lists (`Liked`, `Disliked`). Lemmas prove that the
  lists stay duplicate-free and disjoint, that reactions are idempotent, and
  that a reaction touches only the reacting user.
- **Forum routes** (module `Forum`). A `ForumStore` has create, list, get
  (which hides soft-deleted posts and counts views for signed-in viewers),
  author-only update and soft delete, like and dislike, and add, edit and
  delete of comments.
- **Causes** (module `Causes`). The cause donate handler has no status check.
- **Testimonials** (module `Testimonials`). Create has the 5-unit minimum and
  the schema's 1000-unit maximum, both counted in UTF-16 code units as
  JavaScript's `length` counts them. The list is newest first, built by
  an insertion sort that is proved to sort and to permute.
- **Access decisions** (module `Auth`). This module models `auth`,
  `optionalAuth`, `adminAuth` and `moderatorAuth`. JWT verification is an
  uninterpreted function from token to user id.
- **Client session reducer** (module `Session`). This is `authReducer` of the
  authentication context, plus lemmas about any sequence of dispatches.
- **Testimonial card helpers** (module `Avatar`). `getRandomColor` is a loop
  with the 32-bit `<<` wrap-around made explicit. The module also has the
  author display-name fallback.

Shared modules:

- `Common` holds `Option`, ids, times, field errors, the HTTP `Response` and
  the two ways the back end measures text. The validators' `isLength` counts
  characters (`|s|`). JavaScript's `length` and Mongoose's `maxlength` count
  UTF-16 code units (`Utf16Length`). A request can therefore pass a validator
  and still fail the schema on save, which the handlers answer with 500
  "Server error". The campaign and forum handlers model that branch.
- `Users` holds the user records whose `totalDonations` and `totalPosts`
  counters the routes bump with `$inc`. The User model file is not part of
  this model. Its fields are taken from the routes that use them.

The database is a `map` from id to document. The current time is a parameter.
Money is `real`.

## Model

| member | source | states |
|---|---|---|
| `Users.CountDonation` | backend/routes/donations.js:203-208 | `$inc totalDonations`: the signed-in user's counter goes up by exactly one, every other field and user is unchanged, and a missing user is left alone |
| `Users.CountPost` | backend/routes/forum.js:49-53 | `$inc totalPosts`: the same for the post counter; both increments keep every account filed under its own id |
| `Auth.ExtractToken` | backend/middleware/auth.js:6 | no header gives no token, and a token that is given is never empty (an empty one is as falsy as none) |
| `Users.UserDirectory.IncrementDonations` | backend/routes/donations.js:203-208 | the in-place update leaves the directory equal to `CountDonation` of the old one |
| `Users.UserDirectory.IncrementPosts` | backend/routes/forum.js:49-53 | the in-place update leaves the directory equal to `CountPost` of the old one |
| `Auth.BearerToken` | backend/middleware/auth.js:6 | a header `"Bearer " + t` yields the token `t`, and no token when `t` is empty |
| `Auth.HeaderWithoutPrefix` | backend/middleware/auth.js:6 | a non-empty header without `"Bearer "` is taken whole as the token, because `replace` changes nothing |
| `Auth.Authenticate` | backend/middleware/auth.js:4-25 | no token gives 401 "No token, authorization denied"; access is granted iff a token is present and verifies to an existing user, and the user attached is exactly the one the token resolves to; with accounts filed under their own ids, that user's id is the id the token carries; every refusal is 401 |
| `Auth.OptionalAuthenticate` | backend/middleware/auth.js:27-44 | always proceeds, and attaches only the stored user the token resolves to |
| `Auth.OptionalAgreesWithRequired` | backend/middleware/auth.js:4-44 | `optionalAuth` attaches a user exactly when `auth` would grant access, and it is the same user |
| `Auth.AdminGate` | backend/middleware/auth.js:50-54 | passes iff the resolved user is an admin; any other resolved user gets 403 "Access denied. Admin only."; a refusal from `auth` passes through unchanged |
| `Auth.ModeratorGate` | backend/middleware/auth.js:64-68 | passes iff the role is admin or moderator; a member gets 403 "Access denied. Moderator or admin only." |
| `Auth.AdminAuth` | backend/middleware/auth.js:46-58 | `adminAuth` lets a request through iff `auth` resolves its user and that user is an admin, and then with that same user; it refuses with 401 or with 403 "Access denied. Admin only." |
| `Auth.ModeratorAuth` | backend/middleware/auth.js:60-72 | `moderatorAuth` lets a request through iff `auth` resolves its user and the role is admin or moderator; it refuses with 401 or with 403 "Access denied. Moderator or admin only." |
| `Auth.GatesNarrowAuth` | backend/middleware/auth.js:46-72 | whoever passes `adminAuth` passes `moderatorAuth`, whoever passes that passes `auth`, and a refusal by `auth` is the role checks' answer too |
| `Ledger.SumAppend` | backend/models/Donation.js:124-133 | the sum of donor amounts over two lists joined is the sum of the two sums |
| `Ledger.WithDonation` | backend/models/Donation.js:124-133 | exactly one donor entry is appended and `currentAmount` rises by its amount; the ledger invariant is preserved |
| `Ledger.DonationWithinSchema` | backend/models/Donation.js:76-79 | a campaign within the schema's length limits stays within them after a donation exactly when the donor's message is at most 500 UTF-16 code units, so `save` fails otherwise |
| `Ledger.DonationsAccumulate` | backend/models/Donation.js:124-133 | any run of donations appends exactly those entries in order, raises the total by their sum, and changes nothing else |
| `Ledger.ProgressPercentage` | backend/models/Donation.js:110-112 | at most 100; equals current/goal*100 while current <= goal; is 100 iff the goal is met; non-negative for a non-negative total |
| `Ledger.ScaledBelowHundred` | backend/models/Donation.js:110-112 | the unclamped percentage is below 100 exactly when the total is below the goal |
| `Ledger.CeilDiv` | backend/models/Donation.js:119 | `Math.ceil(a / d)` for a positive divisor: the least c with a <= c*d |
| `Ledger.DaysRemaining` | backend/models/Donation.js:115-121 | 0 once the end date has passed, otherwise the ceiling of the remaining milliseconds over 86400000 (at least 1) |
| `Ledger.Campaign.New` | backend/models/Donation.js:1-107 | a new campaign starts with 0 raised, status active, unverified, with no donors and no updates, and so satisfies the ledger invariant |
| `Ledger.Campaign.IsActive` | backend/models/Donation.js:136-138 | `isActive()` holds iff the status is active and at least one day remains by `daysRemaining`, that is, the end date is still in the future |
| `Ledger.Campaign.AddDonation` | backend/models/Donation.js:124-133 | the new document is `WithDonation` of the old one, with `message` defaulting to "" and `isAnonymous` to false; no other field changes; the invariant is kept |
| `Campaigns.CreateErrors` | backend/routes/donations.js:12-36 | reports each of title 5..200, description 20..2000, the six categories, goal >= 1, a present end date and the five currencies exactly when violated, and nothing iff all hold |
| `Campaigns.DonateErrors` | backend/routes/donations.js:171-183 | amount >= 1 and message at most 500 characters, each reported iff violated |
| `Campaigns.UpdateErrors` | backend/routes/donations.js:227-245 | each optional field is checked only when supplied, and reported iff it is supplied and invalid |
| `Campaigns.CampaignUpdateErrors` | backend/routes/donations.js:335-345 | title 5..200 and content 10..2000, each reported iff violated |
| `Campaigns.BuildUpdate` | backend/routes/donations.js:270-285 | flags a supplied end date that is not in the future; for a valid request whose end date is acceptable, the fields collected one by one are exactly the supplied ones |
| `Campaigns.BuildFilter` | backend/routes/donations.js:87-110 | the status filter defaults to "active", an empty status or category adds no filter, and a supplied category is filtered on exactly |
| `Campaigns.ListCampaigns` | backend/routes/donations.js:87-141 | a campaign is listed iff it is stored, matches a non-empty category parameter, is active when no status is given, and has the given status when a non-empty one is given |
| `Campaigns.CampaignStore.Create` | backend/routes/donations.js:12-82 | validation errors give 400 with every failed field; a past end date gives 400 "End date must be in the future"; a title over 200 or a description over 2000 UTF-16 code units fails the save and gives 500; otherwise 201 and one new campaign whose creator is the caller, with currency defaulting to USD and tags to []; nothing stored on failure |
| `Campaigns.CampaignStore.GetAsWritten` | backend/routes/donations.js:146-166 | 404 for an unknown id; 200 with the campaign only for an anonymous viewer; a signed-in viewer reaches the undefined `incrementViews` call and gets 500 |
| `Campaigns.CampaignStore.Get` | backend/routes/donations.js:146-166 | 200 with the stored campaign iff it exists, else 404; agrees with the code as written for anonymous viewers |
| `Campaigns.GetFailsForSignedInViewers` | backend/routes/donations.js:156-159 | for every stored campaign a signed-in viewer gets 500 where the intended handler answers 200 |
| `Campaigns.CampaignStore.Donate` | backend/routes/donations.js:171-222 | 400 on invalid fields, 404 for an unknown campaign, 400 "This campaign is no longer active" unless active and before its end date; a message over 500 UTF-16 code units fails the save and gives 500; on success, one `addDonation` with the caller's entry and the caller's `totalDonations` + 1; nothing changes otherwise |
| `Campaigns.CampaignStore.Update` | backend/routes/donations.js:227-301 | 404, then 403 for a non-creator, then 400 once there are donors, then 400 "End date must be in the future" for a supplied past end date, then 500 when `runValidators` rejects a supplied title or description over the schema limit; on success only the supplied fields change; nothing changes on any refusal |
| `Campaigns.CampaignStore.Delete` | backend/routes/donations.js:306-330 | 404, 403 for a non-creator, 400 once there are donors; on success the campaign is removed and nothing else changes |
| `Campaigns.CampaignStore.AddUpdate` | backend/routes/donations.js:335-372 | 400 on invalid title or content, 404, 403 for a non-creator, 500 when the title or content is over the schema limit in UTF-16 code units; on success exactly one `{title, content, createdAt}` is appended to `updates` |
| `Posts.WithoutMembers` | backend/models/ForumPost.js:94 | `filter` removes exactly the given user from a reaction list |
| `Posts.WithoutNoDup` | backend/models/ForumPost.js:94 | filtering a duplicate-free list keeps it duplicate-free |
| `Posts.WithoutLength` | backend/models/ForumPost.js:94 | filtering out a present user of a duplicate-free list shortens it by one, and an absent one by none |
| `Posts.DistinctCount` | backend/models/ForumPost.js:75-81 | a list without repeats has exactly as many entries as distinct members |
| `Posts.ReactKeepsConsistent` | backend/models/ForumPost.js:90-97 | one reaction keeps both lists duplicate-free and disjoint |
| `Posts.ReactionsStayConsistent` | backend/models/ForumPost.js:90-107 | `addLike` and `addDislike` both preserve duplicate-freedom and disjointness |
| `Posts.LikePlacesUser` | backend/models/ForumPost.js:90-97 | after a like, the user is among the likes and not among the dislikes |
| `Posts.DislikePlacesUser` | backend/models/ForumPost.js:100-107 | the mirror image for a dislike |
| `Posts.ReactionsIdempotent` | backend/models/ForumPost.js:91 | liking twice equals liking once, and the same for disliking |
| `Posts.ReactionsTouchOnlyReactor` | backend/models/ForumPost.js:92-94 | a reaction leaves every other user's membership of both lists unchanged |
| `Posts.LikeThenDislike` | backend/models/ForumPost.js:90-107 | a like followed by a dislike from the same user leaves that user only among the dislikes |
| `Posts.LikeCounts` | backend/models/ForumPost.js:75-97 | a first like adds one to `likeCount` and takes one from `dislikeCount` exactly when the user had disliked; a repeated like changes neither |
| `Posts.FreshPostLikeThenDislike` | backend/models/ForumPost.js:90-107 | on a fresh post, a like then a dislike by one user leaves no likes and exactly that user among the dislikes |
| `Posts.FreshCommentId` | backend/models/ForumPost.js:110-116 | the new comment's subdocument id differs from every existing one |
| `Posts.ForumPost.LikeCount` | backend/models/ForumPost.js:75-77 | `likeCount` is the number of distinct users who like the post, given no repeated likes |
| `Posts.ForumPost.DislikeCount` | backend/models/ForumPost.js:79-81 | `dislikeCount` is the number of distinct users who dislike the post, given no repeated dislikes |
| `Posts.ForumPost.CommentCount` | backend/models/ForumPost.js:84-86 | `commentCount` is the number of distinct comment ids, given unique subdocument ids |
| `Posts.ForumPost.AddLike` | backend/models/ForumPost.js:90-97 | the lists become `Liked` of the old lists and no other field changes; from a consistent state they stay consistent and the user ends among the likes only |
| `Posts.ForumPost.AddDislike` | backend/models/ForumPost.js:100-107 | the mirror image of `AddLike` |
| `Posts.ForumPost.AddComment` | backend/models/ForumPost.js:110-116 | exactly one comment with the given author and content is appended, earlier comments are untouched, and comment ids stay unique |
| `Posts.ForumPost.IncrementViews` | backend/models/ForumPost.js:119-122 | `views` rises by exactly one and nothing else changes |
| `Forum.CreateErrors` | backend/routes/forum.js:12-25 | title 5..200, content 20..10000 and the seven categories, each reported iff violated |
| `Forum.UpdateErrors` | backend/routes/forum.js:159-172 | each supplied field is checked, and reported iff it is supplied and invalid |
| `Forum.BuildUpdate` | backend/routes/forum.js:188-199 | for a valid request, the fields collected one by one are exactly the supplied ones |
| `Forum.ListPosts` | backend/routes/forum.js:71-126 | a post is listed iff it is stored, its status is active (so deleted and archived ones are hidden), it matches a non-empty category parameter and it matches a given author |
| `Forum.FindComment` | backend/routes/forum.js:351-356 | finds an index of a comment with the given id, or reports that there is none |
| `Forum.RemoveExactlyThat` | backend/routes/forum.js:404-405 | removing a comment by index drops exactly the comment with that id and keeps the rest |
| `Forum.ForumStore.Create` | backend/routes/forum.js:12-66 | 400 with every failed field; a title over 200 or content over 10000 UTF-16 code units fails the save and gives 500 before any counter moves; on success one new post whose author is the caller, and the caller's `totalPosts` + 1 |
| `Forum.ForumStore.Get` | backend/routes/forum.js:131-154 | 404 iff the post is missing or soft-deleted; a signed-in viewer raises `views` by one; an anonymous viewer changes nothing |
| `Forum.ForumStore.Update` | backend/routes/forum.js:159-215 | 400, 404, then 403 unless the caller is the author, then 500 when `runValidators` rejects a supplied title or content over the schema limit; on success only the supplied fields change |
| `Forum.ForumStore.Delete` | backend/routes/forum.js:220-241 | 404, 403 unless the caller is the author; on success the record stays, comments included, with status deleted |
| `Forum.ForumStore.Like` | backend/routes/forum.js:246-264 | 404 for an unknown post; otherwise the lists become `Liked` and the reply carries the new counts |
| `Forum.ForumStore.Dislike` | backend/routes/forum.js:269-287 | the mirror image for a dislike |
| `Forum.ForumStore.AddComment` | backend/routes/forum.js:292-328 | content must be 1..2000 characters; 404; a locked post gives 400 and keeps its comments; on success one comment by the caller is appended |
| `Forum.ForumStore.EditComment` | backend/routes/forum.js:333-379 | 404 for the post, 404 for the comment, 403 "Not authorized to update this comment" unless the caller wrote the comment; on success only that comment's content changes |
| `Forum.ForumStore.DeleteComment` | backend/routes/forum.js:384-419 | 404 for the post, 404 for the comment, 403 "Not authorized to delete this comment" when the caller wrote neither the comment nor the post; succeeds iff the comment exists and the caller wrote it or the post; then exactly that comment is removed |
| `Causes.CauseStore.Donate` | backend/routes/causes.js:27-42 | a missing or non-positive amount gives 400, an unknown cause 404, with nothing changed; otherwise `currentAmount` rises by exactly the amount and no other field changes, whatever the cause's status |
| `Testimonials.Insert` | backend/routes/testimonials.js:10 | inserting into a newest-first list keeps it newest first and adds exactly that testimonial |
| `Testimonials.InsertBehindHead` | backend/routes/testimonials.js:10 | inserting behind a newer head keeps the order and the multiset |
| `Testimonials.NewestFirst` | backend/routes/testimonials.js:10 | the listing is sorted by `createdAt`, newest first, and is a permutation of the stored testimonials |
| `Testimonials.TestimonialStore.List` | backend/routes/testimonials.js:6-13 | returns every stored testimonial, newest first |
| `Testimonials.TestimonialStore.Create` | backend/routes/testimonials.js:18-33 | requires authentication; a missing message or one under 5 UTF-16 code units gives 400; one over 1000 fails the save and gives 500; either way nothing is stored; otherwise 201 and exactly one testimonial by the caller is appended |
| `Common.Utf16Length` | backend/routes/testimonials.js:21 | JavaScript's `length`: between the number of characters and twice that, and equal to it iff every character lies in the Basic Multilingual Plane |
| `Common.Utf16LengthCounts` | backend/routes/testimonials.js:21 | JavaScript's `length` is exactly the number of characters plus the number of characters outside the Basic Multilingual Plane, each of which is a surrogate pair |
| `Testimonials.ThreeEmojiMessageIsLongEnough` | backend/routes/testimonials.js:21 | three emoji are three characters but six UTF-16 code units, so they pass the 5-unit minimum |
| `Session.Initial` | frontend/src/contexts/AuthContext.js:7-12 | the client starts signed out, with no user, loading, and holding the token saved in the browser |
| `Session.Reduce` | frontend/src/contexts/AuthContext.js:14-50 | only AUTH_SUCCESS signs the client in; only a sign-in, a failure or a logout changes the token; only AUTH_START starts loading; AUTH_START and unknown actions leave the user alone |
| `Session.StepEffects` | frontend/src/contexts/AuthContext.js:14-50 | AUTH_START only sets loading; AUTH_SUCCESS installs user and token, signed in, not loading; AUTH_FAIL and LOGOUT give the same signed-out state; LOGOUT is idempotent; UPDATE_USER changes only the user; an unknown action changes nothing |
| `Session.SignedInIffLastSuccess` | frontend/src/contexts/AuthContext.js:14-50 | after any sequence of dispatches the client is signed in iff the last sign-in or sign-out action was AUTH_SUCCESS, and holds that action's token (none after a sign-out) |
| `Session.SavedTokenAloneDoesNotSignIn` | frontend/src/contexts/AuthContext.js:7-50 | from the initial state, a saved token never signs the client in by itself: it is signed in iff the last sign-in or sign-out was AUTH_SUCCESS |
| `Session.LoadingIffLastStart` | frontend/src/contexts/AuthContext.js:14-50 | after any sequence of dispatches the client is loading iff the last loading-relevant action was AUTH_START |
| `Avatar.ToInt32` | frontend/src/components/TestimonialList.js:8 | the result is a signed 32-bit integer congruent to the input modulo 2^32, and the input itself when it already fits |
| `Avatar.ShiftLeft5` | frontend/src/components/TestimonialList.js:8 | `hash << 5` is a signed 32-bit integer congruent to 32 times the operand modulo 2^32 |
| `Avatar.ShiftExact` | frontend/src/components/TestimonialList.js:8 | the shift is multiplication by 32 when that does not overflow |
| `Avatar.HashBound` | frontend/src/components/TestimonialList.js:6-9 | after n characters the hash lies within n times (2^31 + 0x110000) of zero, since each step adds at most 2^31 plus one character code |
| `Avatar.HashExactForShortSeeds` | frontend/src/components/TestimonialList.js:6-9 | for seeds up to 2^21 characters the hash stays below 2^53, where JavaScript arithmetic is exact |
| `Avatar.Hue` | frontend/src/components/TestimonialList.js:11 | the hue is in [0, 360) |
| `Avatar.NatToString` | frontend/src/components/TestimonialList.js:12 | the template literal's decimal numeral: digits only, no leading zero, denoting exactly n, and at most three digits below 1000 |
| `Avatar.GetRandomColor` | frontend/src/components/TestimonialList.js:4-13 | the loop computes the hash of the whole seed, so the colour is a function of the seed alone, and is `hsl(h, 70%, 80%)` for some hue 0 <= h < 360 |
| `Avatar.EmptySeedColor` | frontend/src/components/TestimonialList.js:4-13 | the empty seed gives "hsl(0, 70%, 80%)" |
| `Avatar.DisplayName` | frontend/src/components/TestimonialList.js:39 | the username when present, else exactly the first name, a space and the last name ("undefined" when missing), else "Anonymous"; never empty |
| `Avatar.AvatarSeed` | frontend/src/components/TestimonialList.js:23 | the colour seed is the author's id when that is present and non-empty, else the testimonial's id; it is empty only when both are |

## Left out

- Pagination, sorting options, `populate` and the search parameter of the
  campaign and forum lists are not modelled. Search compiles the user's text as
  a regular expression, and a substring test would be a different operation.
  The list functions return the set of matching ids.
- JWT signature verification is an uninterpreted function from token to user
  id. Its failure (an exception) is a `None` result.
- `adminAuth` and `moderatorAuth` after `auth` has already answered 401 are
  not modelled. In the source they then read `req.user` of a refused request
  and answer a second time from their catch block. Only the role decision for
  a resolved user is modelled, and a refusal from `auth` passes through.
- Request bodies are typed. A JSON `null`, a non-number amount or a non-array
  `tags` value is not modelled. An absent or empty optional field is `None`
  (or `""`), which the source treats as "not supplied" because it only copies
  truthy values.
- `Campaigns.UpdateErrors` does not model the update route's
  'End date must be a valid date' validator (backend/routes/donations.js:245-247).
  The update request carries its end date as a clock reading, so an
  unparsable date cannot be posed. The create request does fold an
  unparsable date into a missing one.
- The route `GET /api/forum/categories` (backend/routes/forum.js:424-436) is
  not modelled. It returns a constant list. It is registered after
  `GET /api/forum/:id` (backend/routes/forum.js:131), so as written the
  request is taken by the `:id` handler, whose lookup of the id "categories"
  fails to cast and answers 500 from its catch block
  (backend/routes/forum.js:150-153). This was not executed.
- Money is `real`. Floating-point rounding of amounts, and the percentage's
  float division, are not modelled. Times are integer milliseconds. The clock
  is a parameter.
- The schema's `trim` on titles and tags, and the Mongoose `timestamps`, are
  not modelled.
- An empty `location` object is the record with three empty strings.
- Campaign view counting is not modelled. Campaigns have no views field; see
  Findings.
- `Forum.ForumStore.EditComment`: the `isEdited` and `editedAt` flags the
  route sets are not stored. The comment schema in
  backend/models/ForumPost.js:4-8 has only author, content and creation time,
  so only the content change is modelled.
- The cause list and create routes are not modelled. They are plain reads and
  writes with no decision logic.
- The asynchronous `register`, `login`, `logout`, `updateProfile` and
  `loadUser` wrappers in the authentication context are not modelled. They are
  HTTP, local storage and toast I/O. Only `authReducer` is modelled.
- The React rendering of the testimonial list is not modelled. Only the colour
  hash, the avatar seed choice and the display name are modelled.
- `Avatar.HashOf` uses unbounded integers outside the shift. This agrees with
  the JavaScript double arithmetic only while the hash stays below 2^53, which
  `Avatar.HashExactForShortSeeds` guarantees for seeds up to 2^21 characters.
  Characters are code points. JavaScript hashes UTF-16 code units, so the two
  differ for characters outside the Basic Multilingual Plane.
- Concurrency is not modelled. The donate, like and comment handlers read a
  document, change it in memory and save it, so two concurrent requests can
  lose an update. The model runs requests one at a time and claims no
  atomicity.
- Server errors from the database (the 500 branches of the handlers) are not
  modelled. The exceptions are the schema's length limits on save, and the
  campaign GET finding. The model reaches both by its own logic.
- Lone surrogates are not modelled. A Dafny `char` is a Unicode scalar value,
  so `Utf16Length` counts every character outside the Basic Multilingual Plane
  as one surrogate pair.
- Validator versions are not modelled. `LengthIn` counts characters, as
  validator.js `isLength` does. Newer validator.js releases also discount the
  variation selectors U+FE0E and U+FE0F, and the version the back end
  installs is not pinned here.
- `Campaigns.ListCampaigns` assumes that `Donation.paginate` exists. The route
  calls it at backend/routes/donations.js:134. backend/models/Donation.js does
  not register mongoose-paginate-v2 itself; backend/models/ForumPost.js:124
  does so for posts. The plugin may be registered globally at start-up, but
  the server entry point is not part of this model. If it is not registered,
  every campaign listing answers 500.

## Findings

| source | as written | input that shows it | evidently intended | confidence | as-written member | corrected member |
|---|---|---|---|---|---|---|
| backend/routes/donations.js:156-159 | GET of a campaign calls `donation.incrementViews()` whenever a user is signed in, but the campaign schema in backend/models/Donation.js defines no such method, so the call throws and the handler answers 500 | any stored campaign, requested with a valid bearer token | the campaign is returned with 200 to every viewer, as it is to anonymous ones | not executed | `Campaigns.GetFailsForSignedInViewers` | `Campaigns.CampaignStore.Get` |
