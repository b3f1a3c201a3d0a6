# Local-first sync adapters, date walkers and the MMKV table cache

This project models the repository's own logic around an offline-first
data store that syncs two collections (`Client`, `Todo`) with an Amplify
GraphQL backend:

- **The CRUD adapter** of `methods/Amplify.ts` (`syncedAmplify`). Each
  `list` call is one step of a paginated pull sweep driven by two
  per-collection cursors, `currentSync` (the `updatedAt` bound captured
  when a sweep starts) and `nextToken` (the backend's continuation token).
  The sync library calls `list` again whenever the previous call invoked
  `refresh()`. The mutation callbacks stamp their input record in place,
  and `delete` is a soft delete sent as an update. `subscribe` opens three
  change feeds and returns their teardown. `listFromObject`, `countKeys`
  and the `Todo.list` ordering complete the module.
- **The earlier adapter** of `app/index3.tsx` (`amplifyCrud`). It keeps
  only `nextToken` and recomputes an inclusive
  `between [lastSync || 0, 2099]` filter on every page. Its mutation
  callbacks also record the time in `Todo.touched`. Its `count` and
  `Todo.list` (oldest first) are modelled too. Lemmas compare it with the
  first adapter.
- **The date walkers** of `methods/Date.ts`. `fromString` replaces, in
  place, every string of a nested object tree that has the ISO-8601 shape
  with a date. `toString` replaces every date with its ISO text.
- **The MMKV table cache** of `plugins/mmkv2.ts`. `getTable` is a memoised
  load from a string store, with a fallback to `init` and a parse-failure
  path. `save` writes the cached table back or deletes its key.

Layout:
- `common.dfy` (`Common`): `Option`, `Result`, record fields, the
  collection names, `x || 0` and the `refresh` callback.
- `array_sort.dfy` (`ArraySort`): the engine's stable `sort` with a
  numeric comparator.
- `amplify.dfy` (`Amplify`): the first adapter.
- `index3.dfy` (`Index3`): the earlier adapter.
- `iso_date.dfy`: `IsoDate`, the pattern and the walkers as functions on
  value trees; `IsoDateHeap`, the in-place walkers over a heap of objects.
- `mmkv.dfy` (`PersistMMKV`): the table cache.

Each backend is a function parameter, so the model can reason about any
backend. It maps a query to a thrown error or a page
`{data, errors, nextToken}`. A sweep is a function `RunSweep` of a call
budget `fuel`, and the `Pull` methods drive `List` in a loop that is
proved equal to it. Luxon's `fromISO`/`toISO` and `JSON.parse`/`stringify`
are also function parameters; the date type is a type parameter.

Where the code is more precise than a plain reading of line 3 of
`methods/Date.ts`, the model follows the code. The unescaped `.` at
position 19 of the pattern matches any character except the JavaScript
line terminators (`\n`, `\r`, U+2028, U+2029), since the regular
expression has no `s` flag. Without the `u` flag the pattern also reads
UTF-16 code units, while a Dafny `char` is a whole Unicode scalar value.
A character outside the Basic Multilingual Plane is two code units, so
it can never fill position 19, and the model's `.` excludes it.

## Model

| member | source | states |
|---|---|---|
| Common.OrZero | methods/Amplify.ts:46 | `lastSync \|\| 0`: an undefined number gives 0, any other number is kept |
| Common.Refresher.Refresh | methods/Amplify.ts:71 | calling `refresh()` is recorded exactly once per call |
| ArraySort.SortBy | methods/Amplify.ts:208-211 | the sort with a numeric comparator returns a permutation of its input, ordered by the key in the comparator's direction |
| ArraySort.SortByIsStable | methods/Amplify.ts:208-211 | the sort is stable: the elements with any one key keep their relative order |
| Amplify.ListStep | methods/Amplify.ts:43-82 | one `list` call. `currentSync` is set to `lastSync \|\| 0` only when undefined. The query uses the stored bound (`gt`, never `lastSync` once a bound is stored), the stored token, `accountId` `poc`, the collection's limit and descending order. A throw or an `errors` response fails, leaving both cursors as they stood after the capture, and `refresh` is not called. A truthy token is stored, `refresh` is called once and `currentSync` is kept. Otherwise both cursors become undefined. The data returned is exactly the page's `data` |
| Amplify.SweepKeepsCursor | methods/Amplify.ts:45-63 | every page of a sweep is queried for the same collection and account, with the bound captured on the first call |
| Amplify.SweepFollowsTokens | methods/Amplify.ts:62-71 | the first page is asked for with the stored token. Each later page uses the token the previous page returned, and every page but the last succeeded with a truthy token |
| Amplify.SweepCollectsPages | methods/Amplify.ts:67-77 | a sweep sends at most `fuel` queries. It hands back, page by page, the `data` of each successful response; only an aborting call adds none |
| Amplify.SweepLeavesCursors | methods/Amplify.ts:67-80 | a completed sweep clears both cursors. A sweep that threw leaves the captured bound and the token of the page that failed. A sweep cut off by the budget still holds the captured bound |
| Amplify.SweepIgnoresLastSync | methods/Amplify.ts:45-55 | once `currentSync` is stored, the `lastSync` argument has no effect on the sweep |
| Amplify.RetryResumesSweep | methods/Amplify.ts:45-80 | after a sweep that threw, the next sweep starts from the failed page's token and keeps the first sweep's bound, whatever the new `lastSync` and backend |
| Amplify.DataStore.List | methods/Amplify.ts:43-82 | the `list` callback updates `data$[name]`'s cursors and calls `refresh` exactly as `ListStep` says; other collections are untouched |
| Amplify.DataStore.Pull | methods/Amplify.ts:69-71 | the library's loop of `list` calls while `refresh` was requested: the pages it collects, the cursors it leaves and how it ends are those of `RunSweep` |
| Amplify.DataStore.PullRound | methods/Amplify.ts:43-82 | one round of that loop: a `list` call either ends the sweep as `RunSweep` does, or hands over to the sweep from the new cursors with one call fewer |
| Amplify.Stamped | methods/Amplify.ts:85 | the input gains `accountId = 'poc'`; every other field is kept |
| Amplify.SoftDeleted | methods/Amplify.ts:115-116 | the input gains `accountId = 'poc'` and `deleted = true`; every other field is kept |
| Amplify.StampingIsIdempotent | methods/Amplify.ts:85-116 | stamping twice is stamping once, and the soft delete is the stamp of a record marked deleted |
| Amplify.MutationResult | methods/Amplify.ts:88-92 | a mutation succeeds exactly when the client answered without `errors`, and returns its `data`. An `errors` response rethrows those errors, and a client throw is rethrown as is |
| Amplify.Create | methods/Amplify.ts:83-97 | `create` stamps the input in place and sends the stamped record as a create |
| Amplify.Update | methods/Amplify.ts:98-112 | `update` stamps the input in place and sends the stamped record as an update |
| Amplify.Delete | methods/Amplify.ts:113-128 | `delete` stamps `accountId` and `deleted = true` in place and sends the record as an update, never as a remote delete |
| Amplify.ChangeFeed.Subscribe | methods/Amplify.ts:129-133 | `subscribe` opens the create, update and delete feeds |
| Amplify.ChangeFeed.Event | methods/Amplify.ts:131-133 | an event on an open feed calls `refresh` once; one on a closed feed does nothing |
| Amplify.ChangeFeed.Unsubscribe | methods/Amplify.ts:134-138 | the teardown closes all three feeds |
| Amplify.ObjectKeyCount | methods/Amplify.ts:174-175 | an object has as many entries as `Object.keys` lists |
| Amplify.CountKeys | methods/Amplify.ts:174-175 | 0 for a null or undefined table, otherwise its number of keys |
| Amplify.ListFromObject | methods/Amplify.ts:171-172 | `Object.values`: one element per key, in key order, each the value under its key; every value appears; empty for a missing table |
| Amplify.TodoList | methods/Amplify.ts:208-211 | `Todo.list` holds exactly the collection's records. When every record has a `createdAt`, they are newest first; otherwise the comparator gives NaN and the order is the engine's |
| Index3.ListStep | app/index3.tsx:65-102 | one `list` call. The query is `between [lastSync \|\| 0, 2099]` with the stored token, `accountId` `poc`, the collection's limit and descending order. A throw or `errors` fails, leaving the token and not calling `refresh`. A truthy token is stored and `refresh` is called. Otherwise the token becomes undefined. The data returned is the page's `data` |
| Index3.SweepRangeFromLastSync | app/index3.tsx:74-79 | every page of a sweep is queried with the range computed from `lastSync`; no cursor is captured |
| Index3.SweepFollowsTokens | app/index3.tsx:83-92 | first page with the stored token, each later page with the previous page's token |
| Index3.SweepLeavesToken | app/index3.tsx:88-95 | a completed sweep clears the token; a sweep that threw leaves the token of the failed page |
| Index3.WatermarkRecord | app/index3.tsx:74-79 | from an empty cursor, the first adapter's strict `gt` never asks for a record updated exactly at `lastSync \|\| 0`, while this adapter's inclusive range always does |
| Index3.RetryUsesNewRange | app/index3.tsx:74-95 | a retry after a throw resumes at the failed page's token, but with the range of the new `lastSync` |
| Index3.Count | app/index3.tsx:174 | 0 for a falsy object, otherwise its key count; the same as `countKeys` |
| Index3.StoreCount | app/index3.tsx:181-182 | a collection's `count` is 0 until the sync state is loaded. Once it is loaded, `count` is the key count of `all`, and 0 when the table is missing |
| Index3.TodoList | app/index3.tsx:192-195 | `Todo.list` holds exactly the collection's records. When every record has a `createdAt`, they are oldest first; otherwise the order is the engine's |
| Index3.DataStore.List | app/index3.tsx:65-102 | the `list` callback updates `nextToken` and calls `refresh` exactly as `ListStep` says; `touched` is untouched |
| Index3.DataStore.Pull | app/index3.tsx:90-92 | the driver loop of `list` calls collects the pages, leaves the token and ends as `RunSweep` does |
| Index3.DataStore.PullRound | app/index3.tsx:65-102 | one round of that loop: a `list` call either ends the sweep as `RunSweep` does, or hands over to the sweep from the new token with one call fewer |
| Index3.DataStore.Create | app/index3.tsx:103-117 | `touched` becomes now; the input is stamped in place and sent as a create |
| Index3.DataStore.Update | app/index3.tsx:118-132 | `touched` becomes now; the input is stamped in place and sent as an update |
| Index3.DataStore.Delete | app/index3.tsx:133-148 | `touched` becomes now; `accountId` and `deleted = true` are stamped and the record is sent as an update |
| IsoDate.FullMatchPositionwise | methods/Date.ts:3 | an anchored fixed-length pattern matches exactly the strings of its length whose every character is in the class at its position |
| IsoDate.Iso8601Shape | methods/Date.ts:3 | the pattern accepts exactly the 24-character strings with ASCII digits at 0-3, 5-6, 8-9, 11-12, 14-15, 17-18 and 20-22, `-` at 4 and 7, `T` at 10, `:` at 13 and 16, `Z` at 23, and at 19 any character that is one UTF-16 code unit and not a line terminator |
| IsoDate.SupplementaryDotDoesNotMatch | methods/Date.ts:3 | a timestamp whose fraction dot is an emoji, two UTF-16 code units, does not match |
| IsoDate.FromStringValue | methods/Date.ts:10-17 | a matching string becomes `fromISO` of it. A non-matching string, `null` and every other primitive are kept. An object keeps its keys |
| IsoDate.ToStringValue | methods/Date.ts:29-35 | a date becomes its ISO text, or `null` when `toISO` gives none. Every other primitive is kept. An object keeps its keys |
| IsoDate.FromStringKeepsShape | methods/Date.ts:7-17 | `fromString` keeps every object and every key set of the tree; only leaves change |
| IsoDate.ToStringKeepsShape | methods/Date.ts:25-35 | `toString` keeps every object and every key set of the tree; dates are leaves and are not recursed into |
| IsoDate.FromStringConvertsAll | methods/Date.ts:5-21 | after `fromString` no string anywhere in the tree has the timestamp shape, and a second `fromString` changes nothing |
| IsoDate.ToStringConvertsAll | methods/Date.ts:23-39 | after `toString` no date is left anywhere in the tree, and a second `toString` changes nothing |
| IsoDateHeap.FromString | methods/Date.ts:5-21 | rewrites the object tree in place, returns the very object it was given and leaves it as `FromStringValue` of its old tree |
| IsoDateHeap.FromStringProperty | methods/Date.ts:8-18 | one round of the `for...in` loop: only property `k`'s tree changes, to `FromStringValue` of it |
| IsoDateHeap.FromStringChild | methods/Date.ts:14-17 | the recursive call on a nested object rewrites that object's tree and leaves every other property of the parent as it was |
| IsoDateHeap.SetLeaf | methods/Date.ts:13 | the assignment `obj[key] = ...` of a primitive over a primitive changes only that property's tree |
| IsoDateHeap.ToString | methods/Date.ts:23-39 | rewrites the object tree in place, returns the very object it was given and leaves it as `ToStringValue` of its old tree |
| IsoDateHeap.ToStringProperty | methods/Date.ts:26-36 | one round of the `for...in` loop: only property `k`'s tree changes, to `ToStringValue` of it |
| IsoDateHeap.ToStringChild | methods/Date.ts:32-35 | the recursive call on a nested object rewrites that object's tree and leaves every other property of the parent as it was |
| PersistMMKV.Lookup | plugins/mmkv2.ts:22 | a key's value, undefined exactly when the key is absent |
| PersistMMKV.Load | plugins/mmkv2.ts:12-22 | the cache after `getTable`. A hit is kept. On a miss, a missing or empty stored string caches `init` and a string that parses caches the parsed value. A parse failure leaves the table uncached rather than falling back to `init`. No other table changes |
| PersistMMKV.GetTableResult | plugins/mmkv2.ts:12-22 | `getTable` returns the cached value on a hit. On a miss it returns `init` for a missing or empty string, and otherwise the parse result (undefined on failure) |
| PersistMMKV.Saved | plugins/mmkv2.ts:25-37 | `save` writes `stringify` of a cached table under its key, leaves the store as it was when `stringify` throws, and deletes the key of an uncached table; no other key changes |
| PersistMMKV.LoadIsIdempotent | plugins/mmkv2.ts:14-22 | loading twice is loading once, and repeated `getTable` calls agree |
| PersistMMKV.CachedTableSurvivesSave | plugins/mmkv2.ts:14-31 | once a table is cached, `save` followed by `getTable` returns the cached value without regard to the store |
| PersistMMKV.SaveThenLoad | plugins/mmkv2.ts:14-36 | a table saved by one run is what a later run with an empty cache loads, when its JSON text is non-empty and parses back to it. A table saved while uncached loads as `init` |
| PersistMMKV.Plugin.GetTable | plugins/mmkv2.ts:12-23 | the method leaves the store unchanged, updates the cache to `Load` and returns `GetTableResult` |
| PersistMMKV.Plugin.Save | plugins/mmkv2.ts:25-38 | the method leaves the cache unchanged and updates the store to `Saved` |

## Left out

- The sync library's internals are not modelled: the retry policy, how `lastSync` advances, `waitFor` gating, the `assign` merge, `updatePartial`, `onSaved`, batching and change notification. Only `refresh` is modelled, as a call counter that the driver loops read.
- The Amplify client is a function parameter. Network, authentication and the GraphQL layer are not modelled. The `onCreate`/`onUpdate`/`onDelete` subscriptions are reduced to open or closed channels.
- Amplify.RunSweep and Index3.RunSweep: a sweep is bounded by a call budget `fuel`. An endless stream of pages is therefore seen only as a sweep that ends with `OutOfFuel`.
- Timestamps are integers in milliseconds, and the ISO strings built from them are not modelled. The first adapter sends its bound as UTC text (`DateTime.fromMillis(...).toUTC().toISO()`, methods/Amplify.ts:55-57). The earlier adapter sends both ends of its range in the device's local zone with an offset (`DateTime.fromMillis(lastSync || 0).toISO()` and `future.toISO()`, app/index3.tsx:76-77). Index3.Future is 2099-01-01T00:00Z, and the local time zone that `DateTime.fromObject` uses is ignored.
- Index3.WatermarkRecord: "the inclusive range always asks for the record at `lastSync || 0`" holds for millisecond instants. The backend compares `updatedAt` as strings. A local-zone bound with an offset need not compare with a UTC stored `updatedAt` as the instants do, so the claim may not hold for that string comparison.
- The model is sequential. A `list` call awaits the backend between reading and writing the collection's cursors (methods/Amplify.ts:51, app/index3.tsx:69). The change subscriptions call `refresh` on every remote change (methods/Amplify.ts:131-133), so the library may start a second `list` on the same collection mid-sweep. Amplify.SweepKeepsCursor, Amplify.RetryResumesSweep and the other sweep lemmas hold only for calls that do not interleave.
- Amplify.RunSweep and Index3.RunSweep hand every call of a sweep the same `lastSync`. The library may advance `lastSync` between the calls of one sweep, and that is not modelled.
- `DateTime.now()` is the parameter `now` of the Index3 mutation methods.
- The persistence plugin configuration, `Platform.select` and the IndexedDB plugin are not modelled.
- The `isLoaded` flag of the sync state is a parameter of Index3.StoreCount.
- Index3's `subscribe` has the same shape as the first adapter's and is not modelled separately.
- Amplify.TodoList and Index3.TodoList: the order of a list that holds a record without `createdAt` is the engine's, for which `sort` promises only a permutation. The model takes that order as a parameter and proves only the multiset. The sort key is `None` both for a missing `createdAt` and for one that `new Date` cannot parse.
- IsoDate: a JavaScript string may hold a lone surrogate, but a Dafny string cannot. Strings are sequences of Unicode scalar values.
- The record schema is not modelled: records are maps from field names to strings, booleans, integers or null.
- Object key order is the stored key sequence of Amplify.Object. The engine's rule that integer-like keys come first is not modelled.
- IsoDate and IsoDateHeap: dates are leaves. `fromString` would recurse into the fields of a Luxon `DateTime` that is already in the tree; the model does not, since those internals are not visible. Arrays are objects whose keys are their indices. Inherited enumerable properties (the `hasOwnProperty` filter) do not arise, because model objects have only own properties.
- IsoDateHeap: `for...in` visits the integer-like keys first, in ascending numeric order, and then the other keys in insertion order. The model visits them in an arbitrary order. The proved final state is the same for every order.
- IsoDateHeap: object trees are modelled without sharing or cycles. Two properties referring to the same object, which JavaScript allows, are outside the model.
- Luxon's output format is not visible, so no round trip between `fromString` and `toString` is claimed. `toISO` may answer `null` for an invalid date.
- Logging is not modelled. This covers the adapters' `console.error` on a thrown or failed call (methods/Amplify.ts:79,94,109,125; app/index3.tsx:99,114,129,145), the `console.log({lastSync})` of app/index3.tsx:66, and PersistMMKV's `console` logging.
- PersistMMKV: `getStorage(config)` is a single store. `JSON.stringify` returning `undefined` rather than throwing is not distinguished from a successful write.
