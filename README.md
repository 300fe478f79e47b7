# Image history cache and session store

A Dafny model of two client-side state modules of a web application that generates images:

- **History cache** (`localDB.js`, module `HistoryCache` in `history_cache.dfy`). A most-recent-first list of generated-image records, kept in a browser key-value store under the fixed key `"images"`. `updateHistory` turns a batch of images into records `{image, prompt, apiType}`. `apiType` falls back to `"anime"` when the batch's value is falsy. The new records go in front of the stored list, the list is cut to 25 entries, and the result is written back. `fetchHistory` reads the list. `clearHistory` clears the whole store.
- **Session store** (`store.js`, module `SessionStore` in `session_store.dfy`). A class `UserStore` with the four state fields `usersCollection`, `user`, `initialLoadComplete` and `imageVariation`. It has the derived `stripeLink` getter and the actions `fetchUser`, `fetchInitialData` and `logUserOut`.

Shared helpers are in `wrappers.dfy` (`Option`, `Result`, `Outcome`, `Min`) and `js_values.dfy` (JavaScript truthiness, `||`, template interpolation of `undefined`).

How external calls are modelled:

- The key-value store is a class `KeyValueStore` whose one field is a map from key to stored list. `get`, `set` and `clear` each take an `Outcome` parameter. The parameter says whether the underlying storage call resolves or rejects.
- `getCurrentUser()` is a `Result<AuthUser>` parameter.
- The Firestore read is a function parameter from (collection, document id) to `Result<UserProfile>`.
- `signOut()` is an `Outcome` parameter.
- The router reduces to two things: the current route name, which is an input, and the path an action pushes, which is an `Option<string>` output.

Three behaviours of the code that are easy to misread:

- `fetchUser` assigns `this.user` before it calls `setUserId`. So a failing analytics call still leaves the new profile stored.
- `logUserOut` resets the state and navigates only when `signOut` resolves. A rejection is not caught, so it reaches the caller before either step happens.
- `clearHistory` clears every key of the store, not only `"images"`. It has no `catch`.

## Model

| member | source | states |
|---|---|---|
| HistoryCache.ApiTypeOf | localDB.js:11 | a record's api type is the batch's when truthy, otherwise `"anime"`; it is never the empty string |
| HistoryCache.Records | localDB.js:8-12 | one record per batch image, same length and order, each with that image, the batch prompt and the batch api type |
| HistoryCache.Cap | localDB.js:19-20 | `splice(25)` leaves a prefix of the list of length min(length, 25) |
| HistoryCache.NewHistory | localDB.js:7-20 | the written list has length min(N + previous, 25); its first positions are the new records in batch order, and every later position is the old record shifted by N; an absent history counts as empty (`PriorList`, the `if (history)` branch) |
| HistoryCache.StoredHistory | localDB.js:7 | `get('images')` is present exactly when the key is in the store, and is then its value |
| HistoryCache.UpdatedEntries | localDB.js:5-26 | a rejected read or write leaves the store unchanged; otherwise `"images"` holds the new list; every other key keeps its value |
| HistoryCache.FetchResult | localDB.js:28-34 | the fetch returns a list exactly when the read succeeds and the key is present, and that list is the stored one |
| HistoryCache.KeyValueStore.Get | localDB.js:7 | a rejected read yields a rejection; otherwise the value stored under the key, or absent when the key is missing |
| HistoryCache.KeyValueStore.Set | localDB.js:22 | a successful write stores the value under the key and changes no other key; a rejected write changes nothing |
| HistoryCache.KeyValueStore.Clear | localDB.js:37 | a successful clear empties the whole store; a rejected one changes nothing and reports the rejection |
| HistoryCache.UpdateHistory | localDB.js:5-26 | the store afterwards is exactly `UpdatedEntries` of the store before |
| HistoryCache.FetchHistory | localDB.js:28-34 | returns what is stored under `"images"`, or absent when the key is missing or the read rejects |
| HistoryCache.ClearHistory | localDB.js:36-38 | on success every key is gone and a later fetch returns absent; a rejection is passed to the caller and nothing changes |
| HistoryCache.FetchAfterUpdate | localDB.js:22-30 | right after a successful update, a fetch returns the list just written |
| HistoryCache.FetchAfterClear | localDB.js:28-38 | after a clear, a fetch returns absent |
| HistoryCache.FirstBatchExample | localDB.js:5-22 | three images into an empty history give three `"anime"` records with the shared prompt, in order |
| HistoryCache.UpdateKeepsCap | localDB.js:19-22 | if the stored history had at most 25 records, it still does after any update, whatever the outcome |
| HistoryCache.SurvivingOldRecords | localDB.js:14-20 | with N >= 25 new images no old record survives; otherwise exactly the 25 - N newest old records follow the new ones (24 old + 4 new drops the 3 oldest) |
| HistoryCache.CapAbsorbs | localDB.js:15-20 | cutting the old list to 25 before prepending gives the same result as cutting only once afterwards |
| HistoryCache.ApplyLast | localDB.js:5-22 | after one more successful update, the stored history is the new list computed from the previous one |
| HistoryCache.SlidingWindow | localDB.js:5-22 | after any series of successful updates the history is the first 25 of all records ever added, newest batch first, followed by what was stored before |
| SessionStore.StripeLinkFor | store.js:21-23 | the link starts with the fixed payment prefix, and the text after the prefix is the text of the user id (`undefined` when absent) |
| SessionStore.StripeLinkEndsInId | store.js:22 | the link of a user with an id ends in exactly that id's raw text after the prefix; different ids give different links |
| SessionStore.SignedOutStripeLink | store.js:16-22 | in the initial state the link ends in the text `undefined` |
| SessionStore.AfterFetchUser | store.js:26-40 | only `user` can change, and only to the document read from `usersCollection` under the signed-in uid; a rejected auth lookup or document read leaves the state unchanged |
| SessionStore.AfterInitialLoad | store.js:41-44 | `initialLoadComplete` is true afterwards whether or not the fetch succeeded; `user` is what the fetch left; the other fields do not change |
| SessionStore.RedirectAfterLoad | store.js:46-49 | the action pushes a path exactly when `user.id` is truthy and the route name is `auth`, and the path is `/` |
| SessionStore.FetchUserIdempotent | store.js:26-40 | fetching twice with the same outcomes is the same as fetching once |
| SessionStore.FailedLoadStaysOnSignIn | store.js:41-49 | from the initial state, a load whose fetch fails never navigates |
| SessionStore.UserStore.constructor | store.js:11-19 | the store starts with `usersCollection = 'users'`, `user = {}`, `initialLoadComplete = false`, `imageVariation = null` |
| SessionStore.UserStore.StripeLink | store.js:21-23 | the getter is derived from the current `user.id`: it starts with the fixed prefix, and the text after it is the id text |
| SessionStore.UserStore.Reset | store.js:53-54 | every field equals its initial value afterwards |
| SessionStore.UserStore.FetchUser | store.js:26-40 | the new state is `AfterFetchUser` of the old one |
| SessionStore.UserStore.FetchInitialData | store.js:41-50 | the new state is `AfterInitialLoad` of the old one, and the pushed path is `RedirectAfterLoad` of the fetched user and the current route |
| SessionStore.UserStore.LogUserOut | store.js:51-56 | if sign-out succeeds, the state equals the initial state and `/auth` is pushed; if it rejects, the rejection reaches the caller, nothing changes and nothing is pushed |

## Left out

- Persistence, serialization and the IndexedDB internals behind `get`, `set` and `clear`. The store is a map. Every key holds a list of records, because this code only ever reads and writes `"images"`.
- HistoryCache.KeyValueStore.Clear: a rejected clear is modelled as changing nothing. A storage backend that removed some keys before rejecting is not modelled.
- HistoryCache.KeyValueStore.Set: a rejected write is modelled as changing nothing. A storage backend that applied part of the write is not modelled.
- The lost-update race between two `updateHistory` calls that run at once. Each call is one atomic step.
- Console logging of swallowed errors.
- A batch whose `images` is not an array, and `apiType` or `id` values that are not strings (numbers, `null`). Truthiness and template text are modelled for `undefined` and strings only.
- SessionStore.UserStore.FetchUser: a missing document is not modelled. In the code, `data()` then returns `undefined`, `this.user` becomes `undefined`, and a later `this.user.id` throws, in `fetchUser` (swallowed) and in `fetchInitialData` (not caught). In the model a resolved read always yields a profile object.
- SessionStore.UserStore.FetchUser: the model does not distinguish "`getCurrentUser` resolved with no user" from a rejection. In the code, `user.uid` then throws and the error is caught, so both cases have the same effect.
- `getFirestore`, `doc`, `getAnalytics` and `setUserId` are not modelled. The analytics call has no effect on the store's state, and `this.user` is assigned before it.
- SessionStore.StripeLinkFor: the id is put into the URL without URL-encoding, and query-string parsing is not modelled. So the model says nothing about the `client_reference_id` the payment page reads: an id containing `&`, `#`, `%`, `+` or a space reaches it changed.
- Router internals: in the model, pushing a path does not change the current route name. The pushed path is returned to the caller.
- The `userStore()` singleton that `logUserOut` resets, as opposed to `this`. The model has a single instance, so the two are the same.
- pinia's `defineStore`, reactivity and direct writes of `imageVariation` by components. `imageVariation` is a public field and appears in the state snapshot.
