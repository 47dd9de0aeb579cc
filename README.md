# GoMate state model in Dafny

GoMate is a React Native travel and transit app. Its state lives in Redux
slices, which are records updated in place by reducers. Each network request
drives three lifecycle cases: `pending`, then `fulfilled` or `rejected`. A
small key-value store persists the favourites list, the session credentials
and the theme. This project models that state layer:

- `async_storage.dfy` (`AsyncStorage`): the storage wrapper. It is a
  `KeyValueStore` class over `map<string, string>`. Writing `null` or
  `undefined` deletes the key.
- `favourites.dfy` (`Favourites`): the favourite bus stops, keyed by ATCO
  code. There is one method per reducer. Every accepted change writes the
  whole list under `"favourites"`. The `find` and `filter` calls are loop
  methods, proved against the specification functions `HasCode` and
  `Without`.
- `auth.dfy` (`Auth`): the session slice backed by the login endpoint. It
  also has the bodies of `loginAsync` and `checkAuthStatus`, with their
  storage effects.
- `mock_auth.dfy` (`MockAuth`): the earlier session slice, which checks one
  built-in account itself.
- `bus.dfy` (`Bus`) and `destinations.dfy` (`Destinations`): the catalogue
  slices. Several requests share one `loading` flag and one `error` string.
- `theme.dfy` (`Theme`): the light/dark flag and its persistence under
  `"app_theme"`.
- `wrappers.dfy`, `types.dfy` and `thunk.dfy` hold shared helpers:
  - `Option`/`Result`.
  - The records from the app's type declarations.
  - How a request body's thrown error becomes a rejection carrying only the
    message.

Each slice is a class with one field per state field. Its `Dispatch` method
assigns fields, one `match` arm per reducer or lifecycle case. Each case is an
explicit action value, so a run of the app is a sequence of actions applied
in settlement order. `Dispatch` is proved against a pure `Reduce` on a state
record. `Run` folds `Reduce` over a sequence of actions, and the lemmas about
orderings are stated over `Run`. Examples are "last settled wins" and "any
settlement clears `loading`".

The session state keeps only one direction of "signed in iff a user and a
token are held". A failed login after a successful one clears
`isAuthenticated` but keeps the user and the token. `Auth.ReachableConsistent`
proves the direction that holds. `Auth.FailedReloginKeepsUser` exhibits the
run where the converse fails.

The login endpoint's response is not checked, so the user's `token` is
optional in the model. A response without a token makes `setItem("token",
undefined)` delete the stored token, and the fulfilment still sets
`isAuthenticated` with no token held (`Auth.TokenlessLoginSignsIn`).
`Auth.ReachableConsistent` therefore assumes every login response carries a
token, as the declared `User` type says.

## Model

| member | source | states |
|---|---|---|
| `AsyncStorage.Put` | GoMate/src/utils/asyncStorage.ts:8-17 | after `setItem(k, v)`, `getItem(k)` yields `v`, and a null `v` leaves `k` absent; every other key keeps its value |
| `AsyncStorage.Erase` | GoMate/src/utils/asyncStorage.ts:23-25 | after `removeItem(k)`, `getItem(k)` yields null; every other key keeps its value |
| `AsyncStorage.PutNullIsErase` | GoMate/src/utils/asyncStorage.ts:12-13 | setting null is exactly removing the key |
| `AsyncStorage.Lookup` | GoMate/src/utils/asyncStorage.ts:19-21 | what `getItem(k)` yields from given contents: the stored string exactly when `k` is present, else null |
| `AsyncStorage.KeyValueStore.SetItem` | GoMate/src/utils/asyncStorage.ts:8-17 | the store's new contents are `Put` of the old ones |
| `AsyncStorage.KeyValueStore.GetItem` | GoMate/src/utils/asyncStorage.ts:19-21 | returns the stored string exactly when the key is present, else null |
| `AsyncStorage.KeyValueStore.RemoveItem` | GoMate/src/utils/asyncStorage.ts:23-25 | the store's new contents are `Erase` of the old ones |
| `AsyncStorage.KeyValueStore.Clear` | GoMate/src/utils/asyncStorage.ts:27-29 | afterwards every key reads as null |
| `Thunk.RejectWithMessage` | GoMate/src/redux/slices/busSlice.ts:13-18 | a returned value fulfils with that value; a thrown error rejects with its message |
| `Thunk.OnlyMessageReachesReducer` | GoMate/src/redux/slices/busSlice.ts:16-18 | two errors with the same message give the same rejection, so nothing but the message reaches a reducer |
| `Favourites.Without` | GoMate/src/redux/slices/favouritesSlice.ts:39-42 | the filtered list holds exactly the entries whose code differs; no entry has the code; an absent code leaves the list unchanged |
| `Favourites.WithoutAppend` | GoMate/src/redux/slices/favouritesSlice.ts:40-42 | filtering distributes over concatenation, so kept entries keep their relative order |
| `Favourites.AppendKeepsUnique` | GoMate/src/redux/slices/favouritesSlice.ts:34-35 | appending a stop with a new code to a list with unique codes keeps codes unique |
| `Favourites.WithoutKeepsUnique` | GoMate/src/redux/slices/favouritesSlice.ts:39-42 | removal keeps codes unique |
| `Favourites.Added` | GoMate/src/redux/slices/favouritesSlice.ts:30-37 | a known code leaves the list unchanged; a new code appends exactly that stop at the end; earlier entries and their order are kept |
| `Favourites.Toggled` | GoMate/src/redux/slices/favouritesSlice.ts:45-55 | the stop's code is present afterwards iff it was absent before; other codes keep their presence; an absent code appends the stop |
| `Favourites.AddKeepsUnique` | GoMate/src/redux/slices/favouritesSlice.ts:30-38 | adding keeps codes unique |
| `Favourites.ToggleKeepsUnique` | GoMate/src/redux/slices/favouritesSlice.ts:45-57 | toggling keeps codes unique |
| `Favourites.ToggleTwiceRestores` | GoMate/src/redux/slices/favouritesSlice.ts:45-55 | toggling an absent stop twice gives back exactly the original list |
| `Favourites.ToggleTwiceSameCodes` | GoMate/src/redux/slices/favouritesSlice.ts:45-55 | toggling any stop twice gives back the same set of codes |
| `Favourites.EditsKeepCodesUnique` | GoMate/src/redux/slices/favouritesSlice.ts:30-57 | any sequence of adds, removes and toggles on a list with unique codes keeps them unique |
| `Favourites.Find` | GoMate/src/redux/slices/favouritesSlice.ts:31-33 | finds a stop iff one with the code exists, and it is the first such stop |
| `Favourites.Filter` | GoMate/src/redux/slices/favouritesSlice.ts:40-42 | the loop computes `Without` |
| `Favourites.FavouritesSlice.constructor` | GoMate/src/redux/slices/favouritesSlice.ts:21-24 | starts with no favourites and not loading |
| `Favourites.FavouritesSlice.SetFavourites` | GoMate/src/redux/slices/favouritesSlice.ts:26-29 | the list becomes the payload as-is, with no de-duplication: it has unique codes exactly when the payload does; the store's `"favourites"` holds its serialisation |
| `Favourites.FavouritesSlice.AddToFavourites` | GoMate/src/redux/slices/favouritesSlice.ts:30-38 | the list becomes `Added`; a known code writes nothing; a new code persists the new list; unique codes stay unique |
| `Favourites.FavouritesSlice.RemoveFromFavourites` | GoMate/src/redux/slices/favouritesSlice.ts:39-44 | the list becomes `Without`, and the new list is persisted; unique codes stay unique |
| `Favourites.FavouritesSlice.ToggleFavourite` | GoMate/src/redux/slices/favouritesSlice.ts:45-57 | the list becomes `Toggled`, and the new list is persisted; unique codes stay unique |
| `Favourites.FavouritesSlice.LoadFavouritesBody` | GoMate/src/redux/slices/favouritesSlice.ts:8-17 | with nothing stored, or the empty string, yields `[]`; otherwise yields the parse of the stored text, which may throw |
| `Favourites.FavouritesSlice.LoadPending` | GoMate/src/redux/slices/favouritesSlice.ts:61-63 | sets `loading` and keeps the list |
| `Favourites.FavouritesSlice.LoadFulfilled` | GoMate/src/redux/slices/favouritesSlice.ts:64-67 | clears `loading` and replaces the list with the payload |
| `Favourites.FavouritesSlice.LoadRejected` | GoMate/src/redux/slices/favouritesSlice.ts:68-70 | clears `loading` and keeps the list |
| `Favourites.FavouritesSlice.LoadFavourites` | GoMate/src/redux/slices/favouritesSlice.ts:59-70 | after the load, `loading` is false; nothing stored gives `[]`; a parse failure keeps the old list |
| `Auth.Reduce` | GoMate/src/redux/slices/authSlice.ts:50-92 | per field, which actions write it: `user`/`token` only by the fulfilments and logout, `isAuthenticated` true only by a fulfilment and false only by a rejection or logout, `error` set only by a login rejection; logout and `clearError` leave `loading`; the consistency invariant is kept by every action except a login fulfilment without a token, which breaks it |
| `Auth.ReachableConsistent` | GoMate/src/redux/slices/authSlice.ts:43-92 | in every state reachable from the initial one through login responses that carry a token, signed in implies a user and a token are held |
| `Auth.AuthenticatedFollowsLastDecision` | GoMate/src/redux/slices/authSlice.ts:54-92 | over any run, `isAuthenticated` is decided by the last fulfilment, rejection or logout |
| `Auth.FailedReloginKeepsUser` | GoMate/src/redux/slices/authSlice.ts:69-79 | a failed login after a successful one leaves the user and the token while clearing `isAuthenticated` |
| `Auth.TokenlessLoginSignsIn` | GoMate/src/redux/slices/authSlice.ts:69-74 | a login response without a token still signs in, leaving no token in the state |
| `Auth.AuthSlice.constructor` | GoMate/src/redux/slices/authSlice.ts:43-49 | starts signed out, not loading, with no error |
| `Auth.AuthSlice.Dispatch` | GoMate/src/redux/slices/authSlice.ts:50-92 | the new state is `Reduce` of the old one; logout removes `"token"` and `"user"` and nothing else |
| `Auth.AuthSlice.LoginBody` | GoMate/src/redux/slices/authSlice.ts:7-19 | success writes `"token"` = the user's token (deleting the key when the token is missing) and `"user"` = the serialised user, then fulfils with the user; a throw writes nothing and rejects with the message |
| `Auth.AuthSlice.CheckAuthStatusBody` | GoMate/src/redux/slices/authSlice.ts:22-39 | fulfils with the parsed user and the token only when both stored values test true and the user parses; otherwise rejects |
| `Auth.AuthSlice.LoginAsync` | GoMate/src/redux/slices/authSlice.ts:65-79 | a successful login signs in with the user and the user's token, and the store gets exactly the two writes of the body; a failed one sets the error, signs out and keeps user, token and store |
| `Auth.AuthSlice.CheckAuthStatus` | GoMate/src/redux/slices/authSlice.ts:80-92 | signs in exactly when a usable token and user are stored, restoring the parsed user and the stored token; otherwise keeps user and token; never sets an error or writes the store |
| `MockAuth.Reduce` | GoMate/redux/slices/authSlice.ts:57-98 | per field, which actions write it, as in the newer slice; the status-check rejection sets no error |
| `MockAuth.ReachableConsistent` | GoMate/redux/slices/authSlice.ts:50-98 | in every reachable state, signed in implies a user and a token are held |
| `MockAuth.MockAuthSlice.constructor` | GoMate/redux/slices/authSlice.ts:50-56 | starts signed out, not loading, with no error |
| `MockAuth.MockAuthSlice.Dispatch` | GoMate/redux/slices/authSlice.ts:57-98 | the new state is `Reduce` of the old one; logout removes only `"token"` |
| `MockAuth.MockAuthSlice.LoginBody` | GoMate/redux/slices/authSlice.ts:15-26 | fulfils iff the user name is "emilys" and the password "emilyspass", writing `"token"` = "mock-token" and returning that user and token; otherwise rejects with "Invalid credentials" and writes nothing |
| `MockAuth.MockAuthSlice.CheckAuthStatusBody` | GoMate/redux/slices/authSlice.ts:33-45 | fulfils with user "emilys" and the stored token iff that token tests true, else rejects with "No token" |
| `MockAuth.MockAuthSlice.LoginAsync` | GoMate/redux/slices/authSlice.ts:71-85 | signed in iff the built-in credentials were given, and then the store gets exactly the `"token"` write; a failure sets "Invalid credentials" and keeps user, token and store |
| `Bus.Reduce` | GoMate/src/redux/slices/busSlice.ts:109-208 | every pending sets `loading`, clears `error` and keeps the data; each fulfilment clears `loading` and replaces only its own field; every rejection clears `loading`, sets `error` and keeps the data; each plain reducer changes one field |
| `Bus.LastSettledStopsWin` | GoMate/src/redux/slices/busSlice.ts:136-156 | over any run, `stops` is the payload of the last stops fulfilment applied, whichever was issued first |
| `Bus.LoadingFollowsLastLifecycle` | GoMate/src/redux/slices/busSlice.ts:131-208 | over any run, `loading` is decided by the last lifecycle event alone, so any settlement clears it while other requests are outstanding |
| `Bus.SettlementOrderRace` | GoMate/src/redux/slices/busSlice.ts:145-156 | two searches settling out of order: the first settlement clears `loading`, and the later-settling, earlier-issued result wins |
| `Bus.Settle` | GoMate/src/redux/slices/busSlice.ts:10-94 | each request settles with its own fulfilment or with a rejection carrying only the message |
| `Bus.BusSlice.constructor` | GoMate/src/redux/slices/busSlice.ts:98-108 | empty lists, no current items, not loading, no error, empty query |
| `Bus.BusSlice.Dispatch` | GoMate/src/redux/slices/busSlice.ts:109-208 | the new state is `Reduce` of the old one |
| `Destinations.Reduce` | GoMate/src/redux/slices/destinationsSlice.ts:67-125 | page fulfilments replace `destinations` with the page's `data`; the single fetch sets only `currentDestination` and `loading`; rejections keep the data; the category request's pending and rejected events change nothing; each plain reducer changes one field |
| `Destinations.LastSettledPageWins` | GoMate/src/redux/slices/destinationsSlice.ts:88-117 | over any run, `destinations` is the data of the last page applied |
| `Destinations.CategoryEventsKeepBookkeeping` | GoMate/src/redux/slices/destinationsSlice.ts:122-125 | category events alone change nothing but `categories` |
| `Destinations.Settle` | GoMate/src/redux/slices/destinationsSlice.ts:5-54 | each request settles with its own fulfilment or with a rejection carrying only the message |
| `Destinations.DestinationsSlice.constructor` | GoMate/src/redux/slices/destinationsSlice.ts:58-66 | empty lists, nothing selected, not loading, no error |
| `Destinations.DestinationsSlice.Dispatch` | GoMate/src/redux/slices/destinationsSlice.ts:67-126 | the new state is `Reduce` of the old one |
| `Theme.ModeFromSaved` | GoMate/src/contexts/ThemeContext.tsx:60-63 | nothing saved keeps the mode; a saved value gives dark mode exactly for "dark" |
| `Theme.ThemeName` | GoMate/src/contexts/ThemeContext.tsx:73 | the toggle saves "dark" or "light", and loading that value back gives the same mode |
| `Theme.ColorsFor` | GoMate/src/contexts/ThemeContext.tsx:79 | the dark palette exactly in dark mode, else the light one |
| `Theme.ThemeProvider.constructor` | GoMate/src/contexts/ThemeContext.tsx:52 | the mode starts light |
| `Theme.ThemeProvider.LoadTheme` | GoMate/src/contexts/ThemeContext.tsx:58-67 | the mode becomes `ModeFromSaved` of what is stored under `"app_theme"` |
| `Theme.ThemeProvider.ToggleTheme` | GoMate/src/contexts/ThemeContext.tsx:69-77 | flips the mode and writes its name under `"app_theme"`; other keys are kept |
| `Theme.ThemeProvider.ToggleThenReload` | GoMate/src/contexts/ThemeContext.tsx:60-73 | a toggle followed by a reload keeps the toggled mode |

## Left out

- Asynchronous scheduling, promises and Redux Toolkit's dispatch machinery
  are not modelled. A run is a sequence of actions applied one at a time in
  settlement order. `LoginAsync`, `CheckAuthStatus` and `LoadFavourites`
  model a single request with nothing interleaved.
- The API calls behind the requests (HTTP, the transit API's fallback demo
  data, the destination transformation with its random values) are not
  part of this model. A request body receives the call's outcome as a
  parameter.
- JSON serialisation and parsing are functions each slice is given
  (`stringify`, `parse`, `stringifyUser`, `parseUser`). No round trip is
  claimed.
- Auth.AuthSlice.CheckAuthStatusBody: the parsed user is typed. Stored text
  that parses to a non-user, such as `"null"`, is not modelled.
- Storage failures are not modelled. Writes are fire-and-forget, and a
  failing awaited write in `loginAsync` would reject. The theme context only
  logs its errors.
- The older slice calls the device store directly rather than through the
  wrapper. It only writes strings, which the wrapper forwards unchanged, so
  both use `KeyValueStore`.
- The mock login's one-second delay is not modelled.
- `toggleTheme` reads the mode captured by the current render. Two toggles
  before a re-render would both start from the same value; the model applies
  toggles one after another. The context's default value outside a provider
  is not modelled.
- The screens key favourites on a destination's `id`, while the slice keys on
  `atcocode`. Only the slice is modelled.
- `setSearchQuery` and `setSelectedCategory` take untyped payloads. They are
  modelled as a string and an optional string.
- Coordinates, prices and ratings are `real`. No floating-point arithmetic
  is done on them.
