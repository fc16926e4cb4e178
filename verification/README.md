# tripVenture stores in Dafny

A model of the in-memory store layer of tripVenture, a small travel-catalogue
web app, with proofs about it.

- The **auth store** keeps a list of registered users and at most one session
  user. `register` refuses an email that is already taken. Otherwise it appends
  the account and logs it in. `login` needs an exact match of email and
  password. `logout` clears the session.
- The **trip store** keeps the trip catalogue. It offers free-text search,
  lookup by id and the trips of one owner. It also offers three mutations that
  need a session and, for update and delete, ownership of the trip. On first
  start it fills the catalogue with ten seed trips.
- The **router** redirects visitors away from routes that need a session, or
  need its absence, and chooses where a page scrolls to.

Files and modules:

- `wrappers.dfy` (`Wrappers`): `Option`, `Result` and `Outcome`.
- `text.dfy` (`Text`): the JavaScript string operations the stores use. These
  are `trim` with the ECMAScript whitespace set, `toLowerCase` on ASCII letters,
  `includes` and `lastIndexOf`.
- `sequences.dfy` (`Sequences`): `filter`, `findIndex`, `find` and `some` on
  sequences, with the facts the stores need about them. The main one is that
  filtering preserves order.
- `types.dfy` (`Types`): the `User` and `Trip` records, plus the data a caller
  passes to create a trip or patch one.
- `trips.dfy` (`Trips`): the pure part of the trip store. It holds the province
  helper, the short-description helper, the three queries, the trip values the
  mutations build, the load-or-seed choice and the seed trips.
- `auth.dfy` (`Auth`): the pure part of the auth store. It holds the demo
  account, the load-or-seed choice for users, email uniqueness and the lookups.
- `store.dfy` (`Store`): class `Store`, which holds `users`, `currentUser` and
  `trips` together, because every trip mutation reads the session. Its methods
  change these fields the way the source does and check their conditions in
  the same order. `FreshStartScenario` is a client that exercises the contracts.
- `router.dfy` (`Router`): the route table, the `beforeEach` guard decision and
  `scrollBehavior`.

Ids and timestamps come from the clock in the source. Here they are string
parameters of the operations that need them (`newId`, `createdAt`, `updatedAt`,
`now`). A stored snapshot from browser storage is an `Option` parameter of the
constructor.

Two behaviours of the code are easy to misread, and the model follows the code:

- `createTrip` reads the clock twice (src/stores/trips.ts:282-283), so its
  `createdAt` and `updatedAt` can differ. `CreateTrip` takes the two
  timestamps separately and claims no equality.
- Nothing enforces unique trip ids. The model does not assume them, so
  `DeleteTrip` removes every trip with the id after checking the owner of only
  the first one.

## Model

| member | source | states |
|---|---|---|
| `Text.Trim` | src/stores/trips.ts:253 | `trim` gives a slice of the query that neither starts nor ends with whitespace, with only whitespace cut from either end |
| `Text.Lower` | src/stores/trips.ts:255 | `toLowerCase` keeps the length and lower-cases each character (ASCII letters only) |
| `Text.TrimEmptyIff` | src/stores/trips.ts:253 | `query.trim()` is empty exactly when every character of the query is ECMAScript whitespace |
| `Text.Contains` | src/stores/trips.ts:257-260 | `includes` is true exactly when the needle occurs at some index of the haystack |
| `Text.LastIndexOf` | src/stores/trips.ts:27 | `lastIndexOf` gives -1 or an index holding the character, and no later index holds it |
| `Sequences.Filter` | src/stores/trips.ts:256 | `filter` keeps each element that passes the test, as many times as it appears, and nothing else |
| `Sequences.FilterConcat` | src/stores/trips.ts:256 | filtering distributes over concatenation, so the relative order is kept |
| `Sequences.Find` | src/stores/trips.ts:265 | `find` returns the first element that passes the test, or nothing exactly when none passes |
| `Sequences.FindIndex` | src/stores/trips.ts:297 | `find` locates the first element that passes the test; there is none only when no element passes |
| `Trips.ProvinceFromTagsSpec` | src/stores/trips.ts:10-21 | the result is the first tag in the ten-name vocabulary; with none, it is the last tag unless the list is empty or that tag is `""`, and then it is the sentinel; it is always a tag or the sentinel |
| `Trips.ProvinceFromTags` | src/stores/trips.ts:10-21 | the province read from a tag list is always one of the tags or the sentinel `'ไม่ระบุ'` |
| `Trips.GetProvinceFromTags` | src/stores/trips.ts:15-20 | the early-return loop computes exactly `ProvinceFromTags` |
| `Trips.CreateShortDescription` | src/stores/trips.ts:24-29 | a short enough input comes back unchanged; a longer one gives a prefix of it plus `"..."`, at most `maxLength + 3` long; that prefix ends before the last space of the first `maxLength` characters, or is all of them when no such space follows index 0 |
| `Trips.MatchesQuery` | src/stores/trips.ts:257-260 | a trip matches exactly when one of its searched fields (name, province, description, then the tags if present), lower-cased, contains the query |
| `Trips.SearchTrips` | src/stores/trips.ts:252-262 | a whitespace-only query returns the list unchanged; any other returns exactly the trips whose lower-cased name, province, description or some tag contains the lower-cased untrimmed query, each as many times as in the list |
| `Trips.SearchKeepsOrder` | src/stores/trips.ts:256-261 | search preserves the list's order |
| `Trips.UntaggedMatch` | src/stores/trips.ts:260 | a trip without tags matches only through its name, province or description |
| `Trips.GetTripById` | src/stores/trips.ts:264-266 | returns the first trip with that id, or nothing exactly when no trip has it |
| `Trips.GetUserTrips` | src/stores/trips.ts:268-270 | returns exactly the trips owned by that user, each as many times as in the list |
| `Trips.UserTripsKeepOrder` | src/stores/trips.ts:269 | the trips of one owner keep the list's order |
| `Trips.NewTrip` | src/stores/trips.ts:278-284 | the created trip carries the caller's content fields and the id, owner and timestamps the store assigns |
| `Trips.ApplyPatch` | src/stores/trips.ts:306 | merging a patch never changes id, owner or `createdAt`, and sets `updatedAt` |
| `Trips.EmptyPatchTouchesOnly` | src/stores/trips.ts:306 | an empty patch changes only `updatedAt` |
| `Trips.ApplyPatchIdempotent` | src/stores/trips.ts:306 | applying the same patch twice equals applying it once |
| `Trips.FullPatchReplacesContent` | src/stores/trips.ts:306 | a patch that supplies every content field replaces all content |
| `Trips.RemoveTrip` | src/stores/trips.ts:326 | every trip with the id is removed; every other trip is kept as many times as before; the list shrinks when the id was present |
| `Trips.RemoveKeepsOrder` | src/stores/trips.ts:326 | removal keeps the order of the trips that remain |
| `Trips.LoadTrips` | src/stores/trips.ts:32-52 | a stored non-empty list is used as is; otherwise the seed is used, so the result is never empty |
| `Trips.DefaultTrips` | src/stores/trips.ts:54-243 | ten seed trips with ids "1" to "10", all owned by `demo-user-001`, stamped with one timestamp, each with its province and tags and a short description made from its lead paragraph |
| `Trips.SeedIdsDistinct` | src/stores/trips.ts:62-224 | the seed ids are pairwise distinct |
| `Trips.SeedTagsNameProvince` | src/stores/trips.ts:60-240 | each seed trip's tags lead `ProvinceFromTags` to that trip's own province |
| `Auth.LoadUsers` | src/stores/auth.ts:10-24 | with nothing stored, the users are exactly the demo account, which trivially has distinct emails |
| `Auth.EmailTaken` | src/stores/auth.ts:42 | the `some` test holds exactly when a user has exactly that email |
| `Auth.AppendKeepsEmailsDistinct` | src/stores/auth.ts:42-52 | appending an account whose email is not taken keeps emails distinct |
| `Auth.LoginFindsTheOnlyAccount` | src/stores/auth.ts:63 | with distinct emails, the user `login` finds is the only account with that email |
| `Store.Store.constructor` | src/stores/auth.ts:27-36 | start-up loads users, restores the stored session unchecked and loads trips or the seed |
| `Store.Store.IsAuthenticated` | src/stores/auth.ts:38 | authenticated exactly when a session user is set |
| `Store.ErrorMessagesDistinct` | src/stores/trips.ts:272-328 | within one mutation, the thrown messages for no session, unknown id and foreign trip are pairwise different, so each names its refusal |
| `Store.Store.Register` | src/stores/auth.ts:40-60 | a taken email fails with `'Email already registered'` and changes nothing; otherwise exactly one account is appended and becomes the session; distinct emails are preserved |
| `Store.Store.Login` | src/stores/auth.ts:62-72 | succeeds exactly when some user matches both email and password, and the session becomes the first such user; on failure it returns `'Invalid email or password'` and keeps the session; users are never touched |
| `Store.Store.Logout` | src/stores/auth.ts:74-77 | the session is cleared, so the store is no longer authenticated; users are unchanged |
| `Store.Store.CreateTrip` | src/stores/trips.ts:272-289 | without a session it fails with `'Must be authenticated to create trips'` and the list is unchanged; otherwise it appends exactly one trip, owned by the session user and carrying the caller's content |
| `Store.Store.UpdateTrip` | src/stores/trips.ts:291-309 | fails for no session, then for an unknown id, then for another owner, each with its own message, leaving the list unchanged; on success only the first trip with the id changes, to the patched trip |
| `Store.Store.DeleteTrip` | src/stores/trips.ts:311-328 | the same failures in the same order, where only the first trip with the id is checked for ownership; on success every trip with the id is removed |
| `Router.Guard` | src/router/index.ts:51-61 | redirect to login exactly when the route needs a session and there is none; otherwise redirect home exactly when it needs a guest and there is a session; otherwise proceed |
| `Router.GuardRoute` | src/router/index.ts:18-47 | the decision for a named route is the guard applied to that route's table entry |
| `Router.RouteTableFlags` | src/router/index.ts:18-47 | only `dashboard` needs a session; only `login` and `register` need a guest; route names are distinct |
| `Router.GuardPerRoute` | src/router/index.ts:18-61 | `home` and `trip-detail` always proceed; `dashboard` goes to login without a session; `login` and `register` go home with one |
| `Router.RedirectTargetsProceed` | src/router/index.ts:54-57 | the target of a redirect is always a route that the same session may enter |
| `Router.ScrollBehavior` | src/router/index.ts:11-17 | returns the saved position when there is one, else the top of the page |

## Left out

- Browser storage: the reads and writes to `localStorage` and the JSON
  encoding (`saveTrips`, the `setItem` and `removeItem` calls). The constructor
  takes the stored snapshot as `Option` values. For trips, a stored value that
  fails to parse is `None`, the same as a missing key, because that parse is
  caught (src/stores/trips.ts:35-45).
- A malformed stored user list or session makes the auth store's start-up
  throw, because those parses are not caught (src/stores/auth.ts:13 and 30).
  That failure is not modelled: the constructor's `storedUsers` and
  `storedSession` stand for values that parsed.
- The clock: `Date.now()` and `new Date().toISOString()` become parameters. The
  model makes no claim that ids are unique or that timestamps are ordered.
- `Text.Lower`: does not model Unicode case mapping, only ASCII `A`-`Z`. The
  seed's only cased letters are ASCII, which the model lower-cases.
- String lengths count Unicode scalar values, not UTF-16 code units. They differ
  only for characters outside the Basic Multilingual Plane.
- `Store.Store.UpdateTrip`: does not model the in-place `Object.assign` on the
  shared trip object. The updated trip replaces the element at its index. A
  reference a caller obtained earlier, for example from `getTripById`, is not
  modelled as seeing the change.
- `Trips.ApplyPatch`: the patch models only defined values for the keys the
  patch type allows. `Object.assign` copies every own key of the runtime
  object, so two cases are not modelled. One is an explicit `undefined` for a
  required field such as `name`, which a later search would then fail on. The
  other is an object carrying `id`, `userId` or `createdAt`, which would
  overwrite them.
- `Types.TripPatch` leaves out `updatedAt`. The source's patch type allows that
  key, but the store always overwrites it with the current time.
- The seed trips' names, descriptions, image URLs and coordinates are a
  parameter (`Trips.SeedText`). Their ids, owner, provinces, tags and
  short-description rule are modelled.
- `createShortDescription` takes `maxLength` as a natural number. The source
  only ever calls it with the default of 150.
- Map coordinates are carried as opaque `real` pairs. No floating-point
  arithmetic is done on them.
- Framework plumbing: Pinia stores, Vue reactivity, vue-router's `next`
  callback and the view components. The guard returns a decision value
  instead. `console` logging is also left out.
- Passwords are compared as plain strings, as in the source. No hashing exists
  to model.
