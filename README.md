# simple-tracker store layer in Dafny

This project models the document-store layer of simple-tracker, a donation
tracker whose state lives in chain-tree documents of a shared community.

The layer works in a few steps:

- Every registry is a document. Its did is derived from a name and a
  namespace, and it is found on first use or started empty.
- Handles are refreshed to the store's latest state before each write.
- A write is a batch of `setData` / `setOwnership` transactions. The store
  accepts a batch only on the latest tip and only from an owner.

The modelled parts, module by module:

- `Json`: the document data tree and its `/`-separated paths (`setData`
  and `resolveData`).
- `Store`:
  - the community of documents (class `Community`, whose `docs` map the
    writes update);
  - `getLatest`;
  - `playTransactions`, with its conflict and authorisation refusals.
- `OpenTree`: the find-or-create and refresh policy (`openTree.ts`, also
  repeated in `collection.ts`). Promises are `Async` values, and `Pending`
  stands for a promise that never settles.
- `Collection`: the app-wide donation collection (`AppCollection`), whose
  entry markers are `false` for unowned or the driver's did.
- `DidList`, `Drivers`, `Recipient`: the did-list registries of drivers
  and recipients. They read, push and write back.
- `Identity`: accounts keyed by username, ownership handed to a
  password-derived key, login by ownership, and the `User` class.
- `AppRecipient`: recipient accounts under an application prefix.
- `Resolvers`: the GraphQL resolvers of `src/store/index.ts`. These are
  `User.collection`, `Trackable.name/image`, the edges of a collection,
  `TrackableEdge.node`, `me`, `createTrackable` and `register`.
- `TrackerStore`: the local trackable collection of `src/store.tsx`, its
  reducer, and `addTrackable` / `addExistingTrackable`.
- `Trackables`: preparing a trackable's updates for display
  (`enhanceUpdates`, `sortUpdates`).
- `TrackableSlice`: the redux slice of trackable names.

Store calls that can fail for reasons outside the model (the network, the
signing service) take an explicit `fault: Option<Error>` parameter. "Not
found" arises from the document's absence.

Key derivation is a `KeyScheme` value with uninterpreted did, address and
private-key functions. Where a property needs two derived dids or addresses
to differ, the lemma requires it explicitly.

Where the code and its documentation disagree, the model follows the code:

- `getTrackables` on a collection without a `trackables` object fails with
  a TypeError (`Object.keys(undefined)`), rather than listing nothing.
- `register` returns a `User` that has not been loaded: its did is unset.
- Once a refresh of a handle has been rejected, later refreshes of that
  handle never settle (the rejection is thrown inside a promise executor).
  The handle is not left usable as it was.
- The store reducer initialises a missing `trackables` map for every
  action, including unsupported ones.
- `findUserAccount` yields no account for any lookup failure, not only
  "not found". The tip stays unset and nothing is thrown.

## Model

| member | source | states |
|---|---|---|
| Json.Resolve | src/store/identity.ts:162-163 | a resolution has a value exactly when no part of the path is left unresolved |
| Json.RemainderIsSuffix | src/store/identity.ts:162-163 | what stays unresolved is always a tail of the requested path |
| Json.SplitWhole | src/store/index.ts:52 | splitting a string without a separator gives the string itself as the only piece |
| Json.SplitConcat | src/store/drivers.ts:31 | splitting `a/b` gives the pieces of `a` followed by the pieces of `b` |
| Json.SplitThree | src/store/drivers.ts:31 | three separator-free pieces joined with `/` split back into exactly those pieces |
| Json.DecodeThree | src/store/appRecipient.ts:12-25 | a three-part data path decodes to its three segments |
| Json.DecodeConcat | src/store/collection.ts:95 | a path `a/b` decodes to the segments of `a` followed by those of `b` |
| Json.ResolveSetAt | src/store/collection.spec.ts:40-42 | read-your-write: resolving the path just written yields the written value with nothing left over |
| Json.SetChild | src/store/collection.ts:95 | writing under key `k` of an object keeps every former child of that object and maps `k` to the value |
| Json.SetAtElsewhere | src/store/appRecipient.ts:35-37 | a write does not change what any diverging path resolves to |
| Store.GetLatest | src/store/openTree.ts:18-27 | a document is returned exactly when the call does not fail and the store holds the did; without a call failure the error is "not found" |
| Store.Play | src/store/drivers.ts:59-64 | a batch is accepted exactly when the call does not fail, the handle is at the latest tip and its key may sign; an accepted batch keeps id and key and advances the tip by one; otherwise the refusal is a conflict or unauthorised |
| Store.OwnersAfter | src/store/identity.ts:127-134 | a batch ending in `setOwnership` leaves exactly those owners |
| Store.PlaySetData | src/store/drivers.ts:60 | an accepted single `setData` leaves the written path resolving to the written value |
| Store.PlayLeavesCurrent | src/store/collection.ts:89-96 | after an accepted write the written handle is again at the store's latest tip |
| Store.Community.PlayTransactions | src/store/recipient.ts:63 | the store records exactly an accepted batch and is unchanged after a refusal |
| OpenTree.FindOrCreateTree | src/store/openTree.ts:7-29 | the handle always has the derived did and key; it holds the stored document when there is one, an empty one after "not found", and any other failure is passed on |
| OpenTree.Discoverable | src/store/openTree.ts:12-13 | the same name and namespace open the same document with the same key, whatever the store holds |
| OpenTree.UpdateTree | src/store/openTree.ts:31-59 | a refresh keeps id and key and takes the store's latest state; "not found" keeps the handle; other failures reject; a rejected or pending handle never settles |
| OpenTree.RefreshIdempotent | src/store/openTree.ts:31-59 | with no failure and no write in between, refreshing twice is refreshing once |
| OpenTree.RejectionHangs | src/store/openTree.ts:35-52 | once a refresh is rejected, any later refresh of that handle never settles |
| OpenTree.RefreshMakesCurrent | src/store/openTree.ts:40-43 | a refreshed handle is at the latest tip, so a write on it is not refused as stale |
| OpenTree.RefreshAfterOwnWrite | src/store/openTree.ts:40-55 | refreshing a handle right after its own accepted write gives back the same handle |
| OpenTree.PlayOn | src/store/collection.ts:92-95 | an accepted write on an awaited handle keeps that handle's id and key |
| Collection.ListTrackables | src/store/collection.ts:71-87 | the listing fails with a TypeError exactly when `trackables` is missing or null; otherwise it has one record per key, with empty updates and a driver exactly when the marker is truthy |
| Collection.EntryPathSegments | src/store/collection.ts:95 | `trackables/<did>` is two segments when the did has no `/` |
| Collection.MarkWritten | src/store/collection.ts:95 | writing a marker sets that entry and keeps every other entry |
| Collection.AddedIsListed | src/store/collection.spec.ts:21-23 | after an accepted add, the listing holds the did without a driver plus every earlier entry |
| Collection.AddedIsUnowned | src/store/collection.spec.ts:40-42 | after an accepted add, the store's latest state reads `false` at `trackables/<did>` |
| Collection.OwnedIsListed | src/store/collection.ts:98-106 | after an accepted claim, the listing reports the claimer's did as driver (none for an empty did, which is falsy) and keeps every entry |
| Collection.AddAccepted | src/store/collection.ts:89-96 | on a current handle signed by the derived key, before ownership is set, adding a did is accepted and sets exactly that one entry to `false` |
| Collection.FreshHasNoEntries | src/store/collection.ts:71-87 | a newly created collection document has no `trackables` entries |
| Collection.TwoCollectionsConverge | src/store/collection.spec.ts:45-70 | when the store lacks the document, two collection objects opened on it each add a different did, and both writes are accepted; once refreshed, each object lists exactly those two dids |
| Collection.BothSeeBoth | src/store/collection.spec.ts:65-70 | two handles on a document whose latest state holds exactly two entries both list exactly those once refreshed |
| Collection.SeesLatest | src/store/collection.ts:47-69 | a handle refreshed against a store holding a newer state lists what that state lists |
| Collection.MarkingKeepsEntries | src/store/collection.ts:89-106 | adding and claiming never drop an entry and keep every marker `false` or a did string |
| Collection.AppCollection.constructor | src/store/collection.ts:23-45 | the collection's handle is the find-or-create outcome for its name and namespace |
| Collection.AppCollection.UpdateTree | src/store/collection.ts:47-69 | the handle is replaced by its refresh and keeps the collection's did and key |
| Collection.AppCollection.GetTrackables | src/store/collection.ts:71-87 | listing succeeds exactly when the handle holds a tree whose `trackables` is an object; its keys are the entry dids; a handle failure passes through |
| Collection.AppCollection.Mark | src/store/collection.ts:89-106 | refresh then one write; the store records exactly an accepted write and the handle advances to it |
| Collection.AppCollection.AddTrackable | src/store/collection.ts:89-96 | the write marks the did unowned; once accepted, the listing holds the did without a driver |
| Collection.AppCollection.OwnTrackable | src/store/collection.ts:98-106 | the write marks the did with the user's did; once accepted, the listing names that did as driver |
| DidList.Pushed | src/store/drivers.ts:53-57 | a missing or falsy list starts empty; the result is the old entries plus the did; a truthy non-list throws a TypeError |
| DidList.OrEmpty | src/store/recipient.ts:68-73 | a present, truthy value is returned unchanged; a missing or falsy value gives the empty list `[]` |
| DidList.ListOf | src/store/recipient.ts:66-74 | a list is read exactly when the refresh resolves; it is the value at the path when that is truthy and `[]` when it is missing or falsy; a rejection passes through and a pending refresh stays pending |
| DidList.AppendOnAppends | src/store/recipient.ts:54-64 | an accepted append leaves at the path the old entries, in order, followed by exactly the new did |
| DidList.AppendGrowsByOne | src/store/drivers.ts:53-57 | the list grows by one and the old entries keep their places |
| DidList.NoDeduplication | src/store/drivers.ts:57 | pushing the same did twice lists it twice |
| DidList.AppendThenRead | src/store/recipient.ts:54-74 | after an accepted append, a refresh changes nothing and reads a list holding the did |
| Drivers.GraftPath | src/store/drivers.ts:27-33 | the graft path splits into the registry's did segments followed by `tree`, `data` and the list's path |
| Drivers.Done | src/store/drivers.ts:59-66 | the driver call resolves exactly when the write does, and a refused write's error passes through |
| Drivers.Drivers.constructor | src/store/drivers.ts:18-25 | the registry's handle is the find-or-create outcome for region and namespace; the list lives at `drivers` |
| Drivers.Drivers.GraftableOwnership | src/store/drivers.ts:27-33 | two entries: the registry's did, and a path naming the `drivers` list inside the registry's data |
| Drivers.Drivers.UpdateTree | src/store/drivers.ts:43-46 | the handle is replaced by its refresh and keeps the registry's did and key |
| Drivers.Drivers.AddDriver | src/store/drivers.ts:48-68 | refresh, push and write; the store records exactly an accepted write; once accepted, the handle's list holds the driver's did |
| Recipient.SameAsPrefixed | src/store/recipient.ts:10-13 | the fixed recipient paths are the prefixed ones for the prefix `givingchain` |
| Recipient.AddressValue | src/store/recipient.ts:23 | the stored address object holds exactly the fields that are set |
| Recipient.CreateRecipientTree | src/store/recipient.ts:16-28 | the recipient account is created and, once written, its address and instructions read back as given |
| Recipient.RecipientCollection.constructor | src/store/recipient.ts:35-39 | the registry's handle is the find-or-create outcome for the region in the recipient namespace |
| Recipient.RecipientCollection.UpdateTree | src/store/recipient.ts:41-44 | the handle is replaced by its refresh and keeps the registry's did and key |
| Recipient.RecipientCollection.Add | src/store/recipient.ts:54-64 | refresh, push and write; once accepted, a later refresh without failure reads a list holding the did |
| Recipient.RecipientCollection.GetAll | src/store/recipient.ts:66-74 | the handle becomes its refresh; a resolved refresh gives the value at the recipient list path when that is truthy and `[]` when it is missing or falsy; a rejection passes through |
| Recipient.NewRegionListsNone | src/store/recipient.ts:66-74 | a registry for a region the store has not seen lists `[]` |
| Identity.FindUserAccount | src/store/identity.ts:48-74 | an account is found exactly when the lookup does not fail and the username's did is stored; it carries no key |
| Identity.Authenticate | src/store/identity.ts:80-100 | a TypeError exactly when the account exists without owners; a match exactly when the password key's address is an owner, and it signs with that key |
| Identity.NamedTree | src/store/identity.ts:102-139 | an existing name is refused; a lookup failure other than "not found" passes on; otherwise success exactly when the write goes through, giving the username's did signed by the password key |
| Identity.NamedBatch | src/store/identity.ts:127-134 | the creating batch hands ownership to the password key alone and caches the username |
| Identity.NamedTreeHolds | src/store/identity.ts:127-136 | a created account is owned by the password key alone, caches the name and is at tip 1 |
| Identity.RegisterThenVerify | src/store/identity.ts:80-100 | right after creation, verifying the same username and password finds exactly the created handle |
| Identity.WrongPasswordRefused | src/store/identity.ts:92-98 | a password whose key has another address is refused |
| Identity.NameTakenOnce | src/store/identity.ts:111-115 | creating the same name again, with any password, fails with "account already exists" |
| Identity.UsernameKeyLosesControl | src/store/identity.ts:127-131 | after creation, the key derived from the username alone can no longer write to the account |
| Identity.ResolveUsername | src/store/identity.ts:160-168 | the cached name when the path resolves fully, `""` otherwise |
| Identity.CreatedNameResolves | src/store/identity.ts:133 | the name an account was created with is the name read back from it |
| Identity.CreateNamedTree | src/store/identity.ts:102-139 | returns the creation outcome; the store records exactly the accepted creating batch |
| Identity.User.constructor | src/store/identity.ts:185-190 | a new user holds the given name, tree and community, with its did unset |
| Identity.User.Load | src/store/identity.ts:192-204 | loading records the tree's did and leaves the tree as it was |
| Identity.User.Find | src/store/identity.ts:177-183 | "no tree found" when the account lookup yields nothing; otherwise a fresh, unloaded user on the found tree |
| Identity.VerifyAccount | src/store/identity.ts:80-100 | a loaded user signing with the password key exactly when authentication matches; `[false, undefined]` when it does not; a TypeError when there are no owners |
| Identity.Register | src/store/identity.ts:148-155 | creation's error, or a fresh, unloaded user on the created tree; the store records exactly the creating batch |
| AppRecipient.FieldUnder | src/store/appRecipient.ts:12-25 | a field under a one-segment prefix's namespace is three segments deep |
| AppRecipient.FieldSegments | src/store/appRecipient.ts:12-25 | the name, address and instructions paths differ only in their last segment |
| AppRecipient.NamespacesSeparate | src/store/appRecipient.ts:8-10 | different prefixes give different recipient namespaces |
| AppRecipient.UsernameSegments | src/store/identity.ts:14 | the username path is `givingchain` then `username` |
| AppRecipient.RecipientOutcome | src/store/appRecipient.ts:27-40 | a created recipient has the account's did and the password key; a failed creation's error passes on |
| AppRecipient.CreatedTreeWritable | src/store/identity.ts:136-138 | the handle creation returns can write at once |
| AppRecipient.TwoWrites | src/store/appRecipient.ts:35-37 | two writes in one batch apply in order and leave ownership alone |
| AppRecipient.FieldPathsDiverge | src/store/appRecipient.ts:12-25 | the address, instructions and username paths part ways pairwise |
| AppRecipient.FieldsAfterWrites | src/store/appRecipient.ts:35-37 | after both writes, address and instructions read back as written and the cached username is untouched |
| AppRecipient.RecipientTreeHolds | src/store/appRecipient.ts:27-40 | a created recipient holds the address, the instructions and the name, and is owned by the password key alone |
| AppRecipient.CreateUnder | src/store/appRecipient.ts:27-40 | returns the recipient outcome; the store records exactly the two accepted batches |
| AppRecipient.CreateRecipientTree | src/store/appRecipient.ts:27-40 | the same, with the address stored as a string |
| Resolvers.RootedPath | src/store/index.ts:33-35 | a path written with a leading `/` has the segments of the rest |
| Resolvers.ThreeSegments | src/store/index.ts:33-35 | three separator-free pieces joined by `/` split back into those pieces |
| Resolvers.NamespacePathSegments | src/store/index.ts:33-35 | for a namespace without `/`, the collection path is `apps`, the namespace, `collection` |
| Resolvers.CollectionOf | src/store/index.ts:39-48 | the account is fetched first; no collection without a namespace; otherwise the value recorded at the namespace's collection path |
| Resolvers.EdgeTarget | src/store/index.ts:52 | an edge did without `/` has no target |
| Resolvers.EdgeRoundTrip | src/store/index.ts:51-88 | taking a node's did apart gives back the did it was built from |
| Resolvers.TrackableField | src/store/index.ts:51-60 | a field is read from the latest state of the document the edge names; a did without target is invalid |
| Resolvers.NodeFieldReadsTarget | src/store/index.ts:51-60 | a node's fields are read from the document its edge points at |
| Resolvers.EdgesOf | src/store/index.ts:72-77 | one edge per timestamp key, naming the stored did twice |
| Resolvers.NoEdgesWhenAbsent | src/store/index.ts:69-71 | a missing or falsy `updates` value gives no edges |
| Resolvers.Edges | src/store/index.ts:63-78 | edges exactly when the collection is found, one per key of its `updates` map |
| Resolvers.Node | src/store/index.ts:81-88 | the document's data spread into an object, with `did` replaced by the edge's node did and nothing dropped |
| Resolvers.Me | src/store/index.ts:91-106 | a user exactly when one is logged in, with that user's did and name, the namespace, and logged in |
| Resolvers.DecimalString | src/store/index.ts:140 | a non-empty string of decimal digits |
| Resolvers.DecimalRoundTrip | src/store/index.ts:140 | reading the digits of `${now}` back gives `now` |
| Resolvers.DecimalInjective | src/store/index.ts:140 | different creation times give different `updates` keys |
| Resolvers.InputValue | src/store/index.ts:137 | the stored input object has the input's name under `name` |
| Resolvers.CollectionHandle | src/store/index.ts:130-133 | the collection found under the account's recorded did, at its latest state, signed by the user's key |
| Resolvers.CreateTrackable | src/store/index.ts:109-151 | nothing without a user; a TypeError without a key; a lookup failure passes on; otherwise both writes are attempted, the store records exactly the accepted ones, and the payload names both documents |
| Resolvers.SingleWrite | src/store/index.ts:140 | a single write changes only the data, at its path |
| Resolvers.TrackableBatch | src/store/index.ts:136-139 | the creation batch leaves the input at the root and the creator as only owner |
| Resolvers.InputFieldReads | src/store/index.ts:51-60 | a one-segment field of a document holding the input reads the input's entry |
| Resolvers.CreatedTrackableHolds | src/store/index.ts:135-141 | the created trackable holds the input, is owned by its creator alone, and its node's `name` reads the input's name |
| Resolvers.NameReads | src/store/index.ts:51-55 | once written, a trackable's node reads its name from the input |
| Resolvers.SameNameRefused | src/store/index.ts:118-123 | creating a trackable of the same name again derives the same document, and the write is refused as stale |
| Resolvers.UpdatePathSegments | src/store/index.ts:140 | `updates/<now>` is two segments |
| Resolvers.UpdatesSegment | src/store/index.ts:66 | `updates` is one segment |
| Resolvers.UpdatesAfterWrite | src/store/index.ts:140 | the collection write adds one timestamp key to `updates` and keeps the others |
| Resolvers.CreatedTrackableListed | src/store/index.ts:63-78 | after the collection write, the edges include one keyed by the creation time that names the new trackable |
| Resolvers.RegisterCollection | src/store/index.ts:173-213 | nothing without a user; a TypeError without a key; otherwise both writes are attempted, the store records exactly the accepted ones, and the user comes back logged in |
| Resolvers.OwnershipOnly | src/store/index.ts:201 | a batch that only sets ownership leaves exactly those owners |
| Resolvers.RegisteredCollectionFound | src/store/index.ts:187-201 | once both registration writes are accepted, `User.collection` reads the new collection's did, and `createTrackable`'s lookup finds it current and writable with the user's key |
| TrackerStore.Reduced | src/store.tsx:80-92 | `ADD` sets the trackable under its id and keeps every other entry; any other action leaves the (initialised) map as it was |
| TrackerStore.AddIdempotent | src/store.tsx:85-88 | the same `ADD` twice leaves what it left once |
| TrackerStore.ReplayLastAddWins | src/store.tsx:80-92 | after a sequence of events, an id holds the last trackable added under it |
| TrackerStore.ReplayKeeps | src/store.tsx:80-92 | events that never add under an id leave its entry as it was |
| TrackerStore.TrackableCollectionDoc.constructor | src/store.tsx:36-39 | a collection document holds the given user did and trackables |
| TrackerStore.TrackableCollectionDoc.Reduce | src/store.tsx:80-92 | the reducer's new `trackables` are the reduced map; the user did is unchanged |
| TrackerStore.AddExistingTrackable | src/store.tsx:51-54 | dispatches one `ADD` and hands the trackable back |
| TrackerStore.TrackableValue | src/store.tsx:61-67 | the stored record has the trackable's id and name |
| TrackerStore.CollaboratorsValue | src/store.tsx:68 | one stored object per collaborator, in order, with that collaborator's `name`, and a `did` field exactly when the collaborator has a did, holding that did |
| TrackerStore.AddTrackable | src/store.tsx:56-77 | the setup batch is played on a freshly keyed document; the record is dispatched only once the write is accepted, and a refusal dispatches nothing |
| TrackerStore.SetupAccepted | src/store.tsx:70-74 | a freshly keyed trackable's setup is accepted and leaves the creator as the only owner |
| Trackables.FindImage | src/store/trackables.ts:10 | the value of the first `image` entry; none when every entry is present and none is the image; a TypeError when a null entry comes before the first image entry |
| Trackables.EnhanceUpdates | src/store/trackables.ts:5-13 | a TypeError without an `updates` connection; none without edges; otherwise every update, in order, with its date and image, and a TypeError exactly when some edge is null or its image search reaches a null entry |
| Trackables.Insert | src/store/trackables.ts:16-18 | inserting adds exactly that element: the length grows by one and the multiset gains it |
| Trackables.InsertWithDate | src/store/trackables.ts:16-18 | the inserted element goes ahead of every element of its own date and the others of that date keep their order |
| Trackables.SortStep | src/store/trackables.ts:16-18 | one insertion step keeps the input order among elements of equal date |
| Trackables.InsertSorted | src/store/trackables.ts:16-18 | inserting into a date-ordered list keeps it ordered |
| Trackables.SortByDate | src/store/trackables.ts:16-18 | the result is ordered by date, is a permutation of the input, and keeps elements of equal date in their input order (stable, as `Array.prototype.sort` is) |
| Trackables.SortUpdates | src/store/trackables.ts:15-19 | a failure of `enhanceUpdates` passes through; none without edges; otherwise the enhanced updates, ordered by date, as a permutation that keeps equal dates in input order |
| TrackableSlice.TrackableSlice.constructor | src/trackable/trackable_slice.ts:9 | the slice starts empty |
| TrackableSlice.TrackableSlice.AddObject | src/trackable/trackable_slice.ts:11-14 | the payload's name is appended and nothing else changes |

## Left out

- Concurrency is not modelled. This covers the `SimpleSyncer` queue in `drivers.ts`, interleavings, and the two-write `Promise.all` of `createTrackable` and `register`. Each is modelled as sequential calls.
- Resolvers.CreateTrackable: when both writes fail, the model reports the first write's error, while `Promise.all` rejects with whichever fails first in time.
- Resolvers.RegisterCollection: the same order is chosen for the two registration writes.
- Resolvers.RegisterCollection: `appUser.register` (the ambient-react user wrapper) and `load()` are represented by the given `Session`. That wrapper is not part of this model.
- The `login` and `logout` mutations (`src/store/index.ts:152-172`, `214-227`) are left out. They only call the ambient-react `appUser`, which is not part of this model.
- The `afterRegister` hook of `src/store.tsx:99-112` is left out. It creates an ambient-stack `Database`, which is not part of this model.
- `useTrackableCollection` is left out. It is a React hook around that database.
- Key derivation, dids, addresses and signatures are uninterpreted functions. Properties that need two derived values to differ state it as a precondition rather than assuming a cryptographic property.
- Store failures other than "not found" are one explicit `fault` parameter per call, not a model of the network.
- Tips are counters, not content identifiers, and `latestTip` is stored as that counter.
- `new Date(u.timestamp)` is a parameter, `dateOf`, from the optional timestamp to an integer.
- Trackables.SortUpdates: every timestamp, missing or not, is taken to give a number. In the source, a missing or unparseable timestamp gives an invalid date whose `getTime()` is NaN. The comparator then returns NaN, which the sort treats as equal, so it is inconsistent and the order is implementation-defined. That order is not modelled.
- Trackables.EnhanceUpdates: `null` and `undefined` are one case (`None`). The image of an entry whose `value` is null is therefore reported as missing.
- `createTrackable`'s clock (`new Date().getTime()`) is a parameter, `now`.
- `EcdsaKey.generate()` in `addTrackable` is a parameter, `seed`.
- Collection.ListTrackables: a `trackables` value that is truthy but not an object is taken to have no keys. For a string or an array, `Object.keys` in the source lists its index keys ("0", "1", ...), and the model does not.
- Resolvers.Node: spreading document data that is a string or an array gives index-keyed fields in the source. The model takes such data to have no fields, and keeps only `did`.
- Resolvers.Edges: `Object.keys` of a truthy `updates` value that is not an object is taken to give no keys. Strings and arrays in that position are not modelled.
- Identity.User.Load: the "invalid did" failure of `setDid` is not modelled. A handle always has a did here.
- Drivers.Drivers.AddDriver: the driver is known by its did. A driver whose did is unset (`undefined` pushed onto the list) is not modelled.
- TrackerStore.AddTrackable: a user handle without a key fails with a TypeError before anything is written. The source would instead pass `undefined` as the owner's address.
- The GraphQL `TrackableStatus` values and other schema types without behaviour are left out.
- `community.ts`, `user.ts`, `queries.ts`, `schema.ts`, the Skynet upload client and the React pages and components are outside the store layer and left out.
- Recipient.CreateRecipientTree: the GraphQL `Address` input is modelled as its two optional string fields.
