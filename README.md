# Bookmark app client state, in Dafny

This project models the client-side state layer of a bookmarking web app. The
layer has three parts:

- The **folder store** (`src/stores/folder.js`). It holds the folder list, the
  selected folder id, and a separately stored pointer to the selected folder. It
  also holds a link cache keyed by folder id, a fetch timestamp per folder, and
  two loading flags. Its actions fetch, create, update and delete folders and
  links.
- The **session store** (`src/stores/user.js`). It holds the bearer token and the
  user profile. It also keeps the token in a persisted storage slot.
- The **navigation guard** (`src/router/index.js`). Before every view change it
  reads the session and the persisted token, may recover the session from that
  token, and then allows the change or redirects to `folders` or to `login`.

Each store is a Dafny `class` whose fields are the store's state. Each action is
a `method`. Nothing here touches a network or a clock: every request's result is
an `Outcome` parameter (`Ok(data)` or `Err(Failure(status, message))`), and the
current time is a parameter `now`. A ghost field `requests` in each class logs
the requests an action sends, so that "sends no request" can be stated. Each
action runs to completion with the outcomes it is given.

The actions are proved against pure functions. These are the filter over the
server's folder list, the lookup by id (`FindById`), the freshness rule
(`IsFresh`), what one link fetch does to the cache (`LinksAfterFetch`,
`StampsAfterFetch`, `FetchResult`), the reselection rule (`Reselect`), the session
transitions (`AfterAuth`, `AfterFetchUser`, `AfterInit`, `AfterLogout`) and the
guard decision (`Guard`). Lemmas then state what the code promises about those
functions.

The transport client (`src/utils/api.js`) appears only through its one effect on
state. A response with status 401 removes the persisted token but not the token
in memory (`src/utils/api.js:29-31`). This effect is modelled in the session
store.

JavaScript truthiness is kept where the code relies on it:

- An id `""` counts as "no selection" (`Truthy`).
- A fetch timestamp of `0` never counts as fresh (`IsFresh`).
- A token `""` is not authenticated.

Behaviour kept exactly as the code has it:

- `fetchAllFolders` does not await its `setSelectedFolder` call. So a failure of
  that link fetch changes only the link cache, and the action does not see it.
- `createFolder` and `deleteFolder` do await `setSelectedFolder` inside their
  `try`. So a link-fetch failure makes them report failure after the folder list
  has already changed, and `deleteFolder` then skips purging the id from `links`
  and `lastFetched`.
- `setSelectedFolder(null)` empties `links` but keeps `lastFetched`. A later
  fetch of a still-fresh folder is then answered with `[]` from the cache, and
  no entry is added.
- A non-array folder list empties `folders` but leaves the selection as it was.
  When the selected id is still in a freshly fetched list, `selectedFolder` is
  not recomputed either. So `SelectionConsistent` is re-established only where
  the code re-selects. The weaker `SelectionResolves` does hold after every
  array fetch.
- `updateFolder` reports success even when no folder has the id.
- A failed login or registration with status 401 removes the persisted token
  (the transport client's effect). Other failures leave the persisted token as
  it was.

## Model

| member | source | states |
|---|---|---|
| Api.Truthy | src/stores/folder.js:106 | defines JavaScript truthiness of a nullable string (`!!x`): `null` and `""` are falsy, every other string is truthy |
| Api.Unauthorized | src/utils/api.js:29 | defines the interceptor's test `error.response?.status === 401` |
| Api.MessageOr | src/stores/folder.js:158-159 | the reported message is the server's message when it is non-empty, and the fixed fallback otherwise |
| Seqs.FindIndex | src/stores/folder.js:173 | `findIndex` by id returns -1 or an index of the sequence |
| Seqs.FindIndexSpec | src/stores/folder.js:173 | `findIndex` by id: -1 exactly when no element has the id; otherwise the index of the first element with it |
| Seqs.FilterOut | src/stores/folder.js:198 | filtering by `_id !== id` never lengthens the sequence |
| Seqs.FilterOutMembers | src/stores/folder.js:198 | filtering by `_id !== id` keeps exactly the elements with another id |
| Seqs.FilterOutAppend | src/stores/folder.js:287 | the filter keeps the order of what it keeps (it distributes over concatenation) |
| Seqs.FindIndexAfterFilterOut | src/stores/folder.js:198-200 | removing one id does not change which element another id finds |
| Seqs.FindIndexAfterAppend | src/stores/folder.js:152-154 | after a push, the pushed element's id finds the earlier element with that id if any, and the pushed one otherwise |
| Seqs.FindIndexAfterReplace | src/stores/folder.js:173-175 | writing an element with the same id at the found index keeps that index the first match |
| Seqs.FindIndexSameKeys | src/stores/folder.js:173 | the search depends only on the ids at each index |
| FolderModel.IsJsWhitespace | src/stores/folder.js:57 | defines the characters `String.prototype.trim` removes: ECMAScript white space and line terminators |
| FolderModel.IsBlank | src/stores/folder.js:57 | defines `name.trim() === ''`: every character of the name is white space (the empty name included) |
| FolderModel.Keep | src/stores/folder.js:52-59 | defines the filter's test: a non-null entry with a truthy `_id`, a string non-blank `name` and a defined `description` |
| FolderModel.FilterFolders | src/stores/folder.js:51-59 | the filtered list is no longer than the server's and holds only folders with a truthy id and a non-blank name |
| FolderModel.FilterFoldersMembers | src/stores/folder.js:52-59 | a folder is kept exactly when some entry with a truthy `_id`, a string non-blank `name` and a defined `description` denotes it |
| FolderModel.FilterFoldersAppend | src/stores/folder.js:52-59 | the kept entries stay in the server's order (the filter distributes over concatenation) |
| FolderModel.FilterFoldersSingle | src/stores/folder.js:52-59 | a single entry is kept (converted) exactly when it passes every test of the filter |
| FolderModel.ToFolder | src/stores/folder.js:52-59 | an entry that passes the filter becomes a well-formed folder with the entry's id, name and description |
| FolderModel.FindById | src/stores/folder.js:20-22 | `getFolderById` returns a folder of the list with the id, and nothing exactly when no folder has it or the id is null |
| FolderModel.FindByIdIsFirst | src/stores/folder.js:20-22 | the folder `getFolderById` returns is the first with the id: every folder before it has another id |
| FolderModel.FirstId | src/stores/folder.js:66 | the fallback selection is the first folder's id, or null for an empty list |
| FolderModel.Reselect | src/stores/folder.js:62-67 | with no selection and a non-empty list the first folder is selected; a selection that no longer resolves falls back to the first folder or null; a resolving one is kept |
| FolderModel.ReselectResolves | src/stores/folder.js:62-67 | after reconciliation a truthy selection resolves in the list, and a non-empty list always ends with a truthy selection |
| FolderModel.FindByIdAfterRemove | src/stores/folder.js:198-203 | deleting one id leaves what every other selected id resolves to unchanged |
| FolderModel.FindByIdAfterAppend | src/stores/folder.js:152-154 | the folder `createFolder` appends is what its id then resolves to, unless an earlier folder has that id |
| FolderModel.FindByIdAfterReplace | src/stores/folder.js:173-179 | after replacing the first folder with an id by one with the same id, that id resolves to the new folder |
| FolderModel.FindByIdAfterReplaceOther | src/stores/folder.js:173-175 | replacing a folder by one with the same id leaves every other id's lookup unchanged |
| FolderModel.UpdatedSelection | src/stores/folder.js:176-179 | the pointer changes only to the response's folder and only when its id is selected; a selected id that is found always takes the new folder |
| FolderModel.UpdatedFolders | src/stores/folder.js:173-175 | the update keeps the length of the folder list |
| FolderModel.UpdatedFoldersElsewhere | src/stores/folder.js:173-175 | the update changes no folder with another id |
| FolderModel.UpdateKeepsSelection | src/stores/folder.js:173-179 | an update whose response keeps the id keeps the pointer equal to what the selected id resolves to |
| FolderModel.IsFresh | src/stores/folder.js:110-111 | defines the cache test: a truthy (non-zero) timestamp less than 300000 ms before `now` |
| FolderModel.LinkFetchRequested | src/stores/folder.js:106-113 | defines when a link fetch sends a request: the id is truthy and its cache entry is not fresh |
| FolderModel.LinkRequests | src/stores/folder.js:106-117 | a link fetch sends one `GET /api/links/:id` exactly when the id is truthy and its timestamp is not fresh, and none otherwise |
| FolderModel.LinksAfterFetch | src/stores/folder.js:116-136 | after a request the id's entry holds the data (or `[]`) on success and `[]` on failure; without a request the cache is unchanged |
| FolderModel.StampsAfterFetch | src/stores/folder.js:124-127 | the id is stamped with `now` only after a successful request |
| FolderModel.FetchResult | src/stores/folder.js:106-128 | a falsy id returns nothing; a fresh id returns the cached links or `[]`; otherwise the response is passed on |
| FolderModel.FetchError | src/stores/folder.js:129-137 | the fetch throws exactly when it sent a request and that request failed, and throws that request's error |
| FolderModel.LinksAfterSelect | src/stores/folder.js:94-98 | selecting a falsy id empties the whole link cache; a truthy id runs the link fetch |
| FolderModel.FetchTouchesOnlyItsKey | src/stores/folder.js:119-136 | a link fetch leaves every other folder's links and timestamp as they were |
| FolderModel.RequestedFetchLeavesEntry | src/stores/folder.js:129-136 | a failed request leaves the folder present with `[]` and its timestamp unchanged |
| FolderModel.SecondFetchIsCached | src/stores/folder.js:108-113 | after a successful request at a non-zero time, a second fetch within 300000 ms sends no request and returns the stored data |
| FolderStore.Store.constructor | src/stores/folder.js:6-16 | the store starts empty, with no selection, empty maps and both flags false |
| FolderStore.Store.CurrentFolderName | src/stores/folder.js:24-26 | the selected folder's name, or the fixed "no folder" text |
| FolderStore.Store.CurrentFolderDescription | src/stores/folder.js:28-30 | the selected folder's description (possibly null), or the fixed hint text |
| FolderStore.Store.CurrentFolderLinks | src/stores/folder.js:32-36 | the cached links of a truthy selection, and `[]` when nothing is selected or nothing is cached |
| FolderStore.Store.BeginFetchAllFolders | src/stores/folder.js:44-48 | a call made while a fetch is in flight does not start and changes nothing else; otherwise the flag is raised |
| FolderStore.Store.CompleteFetchAllFolders | src/stores/folder.js:49-82 | an array becomes the filtered list and the selection is reconciled (selection and pointer together); non-array data empties the list and keeps the selection; a failed request changes nothing; the flag always ends false |
| FolderStore.Store.FetchAllFolders | src/stores/folder.js:43-83 | with the flag set nothing changes and no request is sent; otherwise as the completed fetch, ending with the flag false |
| FolderStore.Store.SetSelectedFolder | src/stores/folder.js:89-99 | sets the id and the pointer to the folder it resolves to; loads that folder's links, or empties `links` (keeping `lastFetched`) for a falsy id; passes on the fetch error |
| FolderStore.Store.FetchLinksByFolder | src/stores/folder.js:105-141 | no request and no change for a falsy id or a fresh cache entry; otherwise one request whose result replaces only that folder's entry |
| FolderStore.Store.CreateFolder | src/stores/folder.js:147-161 | after the server confirms, appends its folder and selects its id, so the pointer is set and consistent; a failed request changes nothing and reports the message or the fallback |
| FolderStore.Store.UpdateFolder | src/stores/folder.js:168-187 | after the server confirms, replaces the first folder with the id (and the pointer when it is selected), and reports success even without a match; a response that keeps the id keeps the pointer consistent |
| FolderStore.Store.DeleteFolder | src/stores/folder.js:193-213 | after the server confirms, removes every folder with the id and re-selects if it was selected; on success the id is absent from both link maps |
| FolderStore.Store.AddLink | src/stores/folder.js:219-243 | without a selection it fails with no request; on success it appends to a cached list, or loads the folder's links when none are cached |
| FolderStore.Store.UpdateLink | src/stores/folder.js:250-271 | without a selection it fails with no request; on success it replaces the first cached link with the id and changes no other key |
| FolderStore.Store.DeleteLink | src/stores/folder.js:277-295 | without a selection it fails with no request; on success it filters the id out of the cached list and changes no other key |
| FolderStore.Store.Reset | src/stores/folder.js:300-309 | empties the list and both maps, clears the selection and pointer, and lowers both flags |
| UserStore.Initial | src/stores/user.js:9-12 | defines the initial session: no user, the persisted token when it is truthy (else null), and the slot as read; `InitialState` states its properties |
| UserStore.AfterTransportError | src/utils/api.js:29-31 | defines the interceptor's effect: a 401 removes the persisted token and nothing else; other failures change nothing |
| UserStore.AfterLogout | src/stores/user.js:90-94 | defines the logged-out session; `LogoutIdempotent` states its properties |
| UserStore.AfterAuth | src/stores/user.js:25-36 | defines the login and registration transition; `AuthSuccess` and `AuthFailure` state its properties |
| UserStore.AuthResult | src/stores/user.js:31-36 | defines what login and registration return; `AuthSuccess` and `AuthFailure` state its properties |
| UserStore.AfterFetchUser | src/stores/user.js:59-71 | defines the `fetchUser` transition; `FetchUserOutcomes` states its properties |
| UserStore.AfterInit | src/stores/user.js:74-87 | defines the recovery transition; `InitOutcomes` states its properties |
| UserStore.InitialState | src/stores/user.js:9-12 | the session starts without a user and is authenticated exactly when a truthy token was persisted |
| UserStore.LogoutIdempotent | src/stores/user.js:90-94 | logout clears token, user and the persisted slot, and a second logout changes nothing |
| UserStore.AuthSuccess | src/stores/user.js:25-30 | a successful login or registration adopts the response's token and user, persists the token, and returns success |
| UserStore.AuthFailure | src/stores/user.js:31-36 | a failed login or registration keeps token and user, removes the persisted token only on a 401, and returns the server message or the fallback |
| UserStore.FetchUserOutcomes | src/stores/user.js:59-71 | `fetchUser` sets only the user on success, logs out on a 401 and changes nothing on other failures |
| UserStore.InitOutcomes | src/stores/user.js:74-87 | recovery sets the token first; success adds the user; a 401 leaves no token and no user; other failures keep the token and the user |
| UserStore.UserNeedsTokenPreserved | src/stores/user.js:23-94 | login, registration, recovery and logout keep "a user only with a token"; `fetchUser` does so when a token is held |
| UserStore.Store.constructor | src/stores/user.js:9-12 | the initial state is read from the persisted slot |
| UserStore.Store.IsAuthenticated | src/stores/user.js:16 | authenticated exactly when the token is truthy, whatever the user |
| UserStore.Store.Login | src/stores/user.js:23-38 | one login request; the state and the result follow the authentication transition |
| UserStore.Store.Register | src/stores/user.js:41-56 | one registration request; the state and the result follow the authentication transition |
| UserStore.Store.FetchUser | src/stores/user.js:59-71 | one profile request; never throws; reports success exactly when the request succeeded |
| UserStore.Store.InitializeFromToken | src/stores/user.js:74-87 | one profile request; the state follows the recovery transition and the error is re-thrown in every failure |
| UserStore.Store.Logout | src/stores/user.js:90-94 | clears token, user and the persisted slot and nothing else |
| Router.RequiresAuth | src/router/index.js:12-54 | defines the route table's `meta.requiresAuth`, read as a truth value; `RouteTable` states which routes have it |
| Router.CallsInit | src/router/index.js:82 | defines when the guard attempts recovery: a protected route, no authentication, a truthy persisted token and no user |
| Router.Guard | src/router/index.js:58-99 | on a route without `requiresAuth` an authenticated session goes to `folders` and anyone else is let through, with no recovery and no change; on a protected route an authenticated session passes unchanged; a recovery passes exactly when the profile request succeeds and otherwise goes to `login`, logged out after a 401 only and keeping the token otherwise; with no persisted token or a user already held it goes to `login` unchanged |
| Router.RouteTable | src/router/index.js:12-54 | exactly `folders` and `folder-detail` require authentication; `login` does not |
| Router.GuardSettles | src/router/index.js:63-97 | following the guard's redirects reaches "allow" within two further runs, and those runs send no request |
| Router.BeforeEach | src/router/index.js:58-99 | the guard's decision and the session it leaves are those of `Guard`; the profile request is sent exactly when recovery is attempted |

## Left out

- Toast messages and console logging are not modelled. They have no effect on state.
- The folder store does not model the transport client's 401 effect on the persisted token. That slot is modelled only in the session store.
- The bearer header that the transport client adds to each request is not modelled. It has no effect on store state.
- The cache-busting `?t=` query on the folder-list request is not modelled. It is transport detail.
- Endpoint URL building is not modelled. Each request is logged as its method and resource.
- Concurrency is not modelled: each action runs to completion with its outcomes. `fetchAllFolders` is split into `BeginFetchAllFolders` and `CompleteFetchAllFolders` so that its in-flight guard is visible. A stale response that arrives after newer state is not modelled.
- FolderStore.Store.CompleteFetchAllFolders: the unawaited link fetch is applied within the action. In the program it completes later.
- No bound on concurrent link requests is claimed. `loadingLinks` is set and cleared but guards nothing.
- Aliasing is not modelled: the cached array that `fetchLinksByFolder` returns is the same array later pushed to in place. The model uses value semantics, as for Vue's reactive copies.
- `$reset` also writes an `isFetchingFolders` property that nothing declares or reads. That write is not modelled.
- Server payloads are assumed well-shaped: folders and links returned by create/update calls, login and registration data, and profiles. Only the folder list is filtered, so only it gets a raw form.
- A folder-list entry whose `_id` is a non-string truthy value is not modelled: ids are strings or absent.
- A `name` that is present but not a string is represented as `null`, since the filter drops both.
- `localStorage.setItem` converting a non-string token to a string is not modelled. Tokens are strings.
- The `currentUser` getter returns the `user` field unchanged, so it has no member of its own.
- The `home` route is not modelled: the router redirects it to `folders` before any guard runs. Lazy component loading and the history mode are not modelled either.
- `src/main.js` and the axios configuration in `src/utils/api.js` are not part of this model.
