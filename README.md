# Music-player front end: requests, session and push events

A model of the client-side core of a React front end for a music bot. It covers:

- **Request state.** Every server resource is held as a four-variant value: pending, in progress, success or error. Two hooks bind it to a request descriptor. `useRequest` uses a component-local cell; `useRecoilRequest` uses a shared Recoil atom.
- **Session.** The stored tokens live in local storage. One refresh of them may be in flight at a time. Two axios interceptors attach the bearer token, refresh expired tokens and send the user to the login page on a 401.
- **Push events.** A web-socket hook routes typed JSON frames to subscribers. It opens the connection only once valid tokens are known. Two reducers fold pushed playlist changes into the shared `playlists` cell.
- **UI state machines.** These are the playback controls, the Playlists page (filter, mount fetch, create and navigate), the header's search box, and the authentication gate.

Asynchrony is made explicit. An async procedure is split at each `await` into a method that runs up to the await and one method per way the awaited promise can settle. For example, `Hook.Fetch` and `Hook.Settle`; `Session.RefreshToken`, `RefreshResponded` and `RefreshFailed`; `SocketHook.Mount` and `RefreshSettled`. Overlapping requests and out-of-order responses then become sequences of these calls.

Modules follow the source files:

- `RequestStates`, `RequestHooks`: `useRequest.ts` and `useRecoilRequest.ts`.
- `Config`: the request-config objects the hooks merge.
- `Credentials`: the `JSON.stringify` text of the tokens and its parser.
- `Auth`: `auth.ts`.
- `Interceptors`, `Http`: `instance.ts`.
- `WebSocket`: `useWebSocket.ts`.
- `PlaylistsListener`, `PlaylistsState`, `ServersState`: the listener and the two atoms.
- `SongControls`, `PlaylistsPage`, `Header`, `AuthGuard`: the components.
- `JsStrings`, `Previous`: the library behaviour these rely on (`trim`, `includes`, `usePreviousDistinct`).

Behaviour of the code worth knowing:

- `handlePlaylistsChanged` is not guarded by the status. It writes the success flags and the data but leaves `status` alone. On a pending cell it therefore produces `isFetched` with status pending, a value outside the four variants. `PlaylistsListener.PlaylistsChangedOnDefault` exhibits this.
- A failed token refresh does not clear `refreshTokenPromise`. Later `refreshToken()` calls keep returning the same rejected promise until the page reloads.
- On a 401 the response interceptor's `redirectToLoginPage()` throws `RedirectToLoginPageError`, so the interceptor's own `throw e` is never reached. Callers see the redirect error, not the HTTP error.
- A 401 on the refresh request itself navigates to the login page twice: once in the response interceptor and once in `refreshToken`'s catch.

## Model

| member | source | states |
|---|---|---|
| RequestStates.Consistent | src/utils/useRequest.ts:8-36 | the correspondence the union type declares: fetching iff in progress, fetched iff success, data iff success, error iff error; it never has both flags set or both data and error |
| RequestStates.Initial | src/utils/useRequest.ts:47-53 | the initial cell is the pending variant: both flags false, no data, no error |
| RequestStates.Started | src/utils/useRequest.ts:62-68 | `fetch` first writes the in-progress variant, dropping any data and error |
| RequestStates.Succeeded | src/utils/useRequest.ts:75-81 | a resolved request writes the success variant carrying the response body |
| RequestStates.Failed | src/utils/useRequest.ts:82-90 | a rejected request writes the error variant carrying the error, with `isFetched` false |
| RequestStates.Settled | src/utils/useRequest.ts:70-90 | a settlement gives success iff the request resolved, with its body; otherwise the error; never fetching |
| RequestStates.ConsistentIffVariant | src/utils/useRequest.ts:8-36 | a state satisfies the flag/status/data/error correspondence iff it is one of the four literals the hook writes |
| RequestStates.Step | src/utils/useRequest.ts:60-104 | a fetch leaves the cell fetching with no data or error; a settlement leaves it not fetching and fetched iff the request resolved; both give one of the four variants |
| RequestStates.Run | src/utils/useRequest.ts:60-104 | no event leaves the cell as it was; a history ending in a fetch or a settlement ends in one of the four variants |
| RequestStates.RunAppend | src/utils/useRequest.ts:60-104 | the cell's history composes: events `a` then `b` act as `a + b` |
| RequestStates.RunKeepsConsistent | src/utils/useRequest.ts:60-104 | fetches, settlements and recipes that keep the variants never leave the four variants |
| RequestStates.LastSettleWins | src/utils/useRequest.ts:70-90 | there is no request generation guard: whatever came before, the last request to settle decides the state |
| RequestStates.RefetchDiscards | src/utils/useRequest.ts:62-68 | a re-fetch from any state, success or error included, clears data and error at once |
| RequestStates.OutOfOrderResponses | src/utils/useRequest.ts:60-93 | two overlapping fetches whose responses arrive in reverse order leave the older request's outcome in the cell |
| RequestHooks.Cell.Set | src/utils/useRecoilRequest.ts:51 | a setter call replaces the cell's value |
| RequestHooks.Hook.Local | src/utils/useRequest.ts:47-58 | `useRequest` owns a fresh cell in the pending variant and remembers its config |
| RequestHooks.Hook.Shared | src/utils/useRecoilRequest.ts:51-56 | `useRecoilRequest` reads and writes the given atom, left as it was |
| RequestHooks.Hook.Render | src/utils/useRequest.ts:55-58 | `configRef` is replaced iff the new config is not deep-equal to it; the counter of replacements grows by one exactly then |
| RequestHooks.Hook.Fetch | src/utils/useRequest.ts:60-74 | the cell becomes in progress and the request issued is the call's override merged over `configRef` |
| RequestHooks.Hook.Settle | src/utils/useRequest.ts:75-90 | one in-flight request settles: the cell holds its outcome whatever it held before, and that request leaves the in-flight list |
| RequestHooks.Hook.UpdateState | src/utils/useRequest.ts:95-104 | `updateState` applies the recipe to the current value and changes nothing else |
| RequestHooks.SharedCellRace | src/utils/useRecoilRequest.ts:51-91 | two hooks over one atom: the request settling last decides what both components see |
| Config.Merge | src/utils/useRequest.ts:71-74 | `{...configRef.current, ...(config ?? {})}`: override keys win, base-only keys are kept, no other key appears |
| Config.MergeIdempotent | src/utils/useRequest.ts:71-74 | merging the same override twice is merging it once |
| Config.MergeEmptyOverride | src/utils/useRequest.ts:73 | an empty override leaves the base config unchanged |
| PlaylistsState.PlaylistsDefault | src/state/playlists.ts:21-30 | the `playlists` atom starts in the pending variant |
| ServersState.ServersDefault | src/state/servers.ts:10-19 | the `servers` atom starts in the pending variant |
| Credentials.NatText | src/utils/auth.ts:44 | the decimal text of a number is non-empty and all digits |
| Credentials.IntText | src/utils/auth.ts:44 | the text of an integer is non-empty and starts with a minus sign exactly when the integer is negative |
| Credentials.ParseInt | src/utils/auth.ts:37-39 | an integer literal that is read is non-empty; a negative value comes only from a text with a minus sign, and a text without one reads as a non-negative value |
| Credentials.DigitsValueOfNatText | src/utils/auth.ts:37-44 | reading back the decimal text of `n` gives `n` |
| Credentials.ParseIntText | src/utils/auth.ts:37-44 | reading back the text of any integer, negative included, gives it back |
| Credentials.ParseNegative | src/utils/auth.ts:37-44 | a minus sign followed by a JSON digit run reads as the negated value |
| Credentials.ParseDigits | src/utils/auth.ts:37-44 | a JSON digit run reads as its value |
| Credentials.LeadingZeroRejected | src/utils/auth.ts:37-39 | a digit run of two or more digits starting with `0`, signed or not, is not a number, as `JSON.parse` throws on it |
| Credentials.NatTextOfDigits | src/utils/auth.ts:37-44 | a digit run without leading zeros is the decimal text of its own value |
| Credentials.NegativeText | src/utils/auth.ts:37-44 | a minus sign before a digit run not starting with `0` is the text `JSON.stringify` writes for the negated value |
| Credentials.ParseIntOnlyCanonical | src/utils/auth.ts:37-44 | every integer text that is read is the text `JSON.stringify` writes for its value, or `-0` |
| Credentials.HexValueOfDigit | src/utils/auth.ts:37-44 | a hexadecimal digit written by the escaper reads back as its value |
| Credentials.EscapeChar | src/utils/auth.ts:43-45 | the literal text of one character is non-empty and holds no raw control character |
| Credentials.Escape | src/utils/auth.ts:43-45 | the body `JSON.stringify` writes for a string is at least as long as it and holds no raw control character |
| Credentials.Quote | src/utils/auth.ts:43-45 | a string literal opens and closes with a quote and holds no raw control character |
| Credentials.Unescape | src/utils/auth.ts:37 | an escape sequence consumes at least its two leading characters and stays within the text |
| Credentials.ParseEscapedChar | src/utils/auth.ts:37-44 | the escape of one character reads back as that character, then the rest of the text |
| Credentials.ParseEscaped | src/utils/auth.ts:37-44 | the string body `JSON.stringify` writes for `x` reads back as `x` up to its closing quote |
| Credentials.ParseQuotedQuote | src/utils/auth.ts:37-44 | a quoted string reads back as itself, leaving the rest of the text |
| Credentials.DropPrefix | src/utils/auth.ts:37 | a dropped prefix is exactly the start of the text |
| Credentials.DropPrefixOfConcat | src/utils/auth.ts:37-44 | dropping a prefix from prefix + rest gives rest |
| Credentials.Encode | src/utils/auth.ts:43-45 | the stored item is never the empty string, so `getJWT` never takes it for absent |
| Credentials.Decode | src/utils/auth.ts:37-39 | only a text that opens with the `idToken` key is read as tokens |
| Credentials.LeadingZeroExpiryField | src/utils/auth.ts:37-39 | the expiry field with a leading-zero number is not read |
| Credentials.LeadingZeroExpiryUnreadable | src/utils/auth.ts:37-39 | a record whose expiry is written with a leading zero is not read, as `JSON.parse` throws on it |
| Credentials.DecodeEncode | src/utils/auth.ts:31-45 | `JSON.parse(JSON.stringify(tokens))` gives the same id token, refresh token and expiry |
| Auth.ReadItem | src/utils/auth.ts:31-41 | `getJWT`: nothing for an absent or empty item, otherwise the parsed tokens, nothing when the parse fails |
| Auth.ReadWhatWasWritten | src/utils/auth.ts:31-45 | `getJWT()` after `setJWT(t)` gives `t` |
| Auth.RefreshRequest | src/utils/auth.ts:69-74 | the refresh request carries `Authorization: Bearer <refreshToken>` and does not skip auth |
| Auth.RefreshRequestIsNotIntercepted | src/utils/auth.ts:69-74 | the refresh request passes the request interceptor untouched, so it never triggers a second refresh |
| Auth.Session.Valid | src/utils/auth.ts:51-57 | the session invariant, which every session method keeps: the refresh marker names a created promise; a request on the wire implies a marker; a promise is unsettled exactly when it is the marker's and its request is on the wire, so at most one refresh is in flight; there are no more refresh requests than promises |
| Auth.Session.constructor | src/utils/auth.ts:51 | a page load starts with no refresh marker, no promises and no redirects |
| Auth.Session.GetJWT | src/utils/auth.ts:31-41 | `getJWT()` returns the stored tokens and changes nothing |
| Auth.Session.SetJWT | src/utils/auth.ts:43-45 | `setJWT(t)` stores the text that reads back as `t` |
| Auth.Session.RemoveJWT | src/utils/auth.ts:47-49 | `removeJWT()` empties the slot |
| Auth.Session.RedirectToLoginPage | src/utils/auth.ts:17-29 | a redirect navigates once and throws `RedirectToLoginPageError` |
| Auth.Session.RefreshToken | src/utils/auth.ts:53-93 | while a marker is set, the marker's promise is returned and nothing else happens; otherwise a new promise becomes the marker; with no tokens it is rejected with the redirect error after one redirect and no request; else one refresh request with the refresh token is sent |
| Auth.Session.RefreshResponded | src/utils/auth.ts:81-86 | the new tokens are stored, the promise resolves with them and the marker is cleared |
| Auth.Session.RefreshFailed | src/utils/auth.ts:75-79 | the tokens are removed; redirects grow by two on a 401 and one otherwise; the promise rejects with the redirect error; the marker stays |
| Auth.SingleFlight | src/utils/auth.ts:54-57 | two calls while a refresh is on the wire share one promise, and one request is sent |
| Interceptors.Decide | src/utils/instance.ts:15-34 | pass through iff `skipAuth` or an Authorization header; else redirect iff no tokens; else refresh iff expired; else attach the stored tokens |
| Interceptors.IsExpired | src/utils/instance.ts:23 | `moment.unix(expiresAt).isSameOrBefore()`: the tokens are expired iff the expiry second is at or before the current whole second |
| Interceptors.WithBearer | src/utils/instance.ts:28-31 | the headers gain `Authorization: Bearer <idToken>`; every other header and config key is kept |
| Interceptors.PassThroughReadsNoTokens | src/utils/instance.ts:16 | a pass-through does not depend on the token slot or the clock |
| Interceptors.BearerRequestPassesThrough | src/utils/instance.ts:16-31 | a request the interceptor has dressed goes through it again untouched |
| Interceptors.OnResponseError | src/utils/instance.ts:36-41 | the interceptor redirects iff the status is 401, and then what is thrown is the redirect error; otherwise the original error |
| Http.InterceptRequest | src/utils/instance.ts:15-34 | the effect of each decision on the session: a pass-through or attach changes nothing; a redirect rejects with the redirect error after one redirect and changes nothing else; a refresh suspends on the single refresh promise, sending a request only when no marker was set |
| Http.ResumeRequest | src/utils/instance.ts:24-31 | after the refresh resolves, the new tokens are stored and attached; after it rejects, the request rejects with the same reason |
| Http.OnResponseRejected | src/utils/instance.ts:36-41 | on a rejected response a 401 redirects once, and the thrown error is as `OnResponseError` says |
| Http.ExpiredTokenScenario | src/utils/instance.ts:23-31 | with expired tokens exactly one refresh request goes out, and the request is sent with the new id token |
| WebSocket.DeclaredTypes | src/utils/useWebSocket.ts:83-84 | a single declared type is the one-element list; a list is itself |
| WebSocket.OnMessage | src/utils/useWebSocket.ts:68-90 | an event reaches a subscriber only from a string payload that parses to it, and only when its type is declared |
| WebSocket.OnMessageDelivers | src/utils/useWebSocket.ts:68-90 | the handler gets `e` iff the payload is a string that parses to `e` and `e`'s type is declared |
| WebSocket.BinaryPayloadDropped | src/utils/useWebSocket.ts:75-80 | non-string payloads are dropped whatever is declared |
| WebSocket.SingleIsOneElementList | src/utils/useWebSocket.ts:83-84 | declaring one type is the same as declaring the list holding it |
| WebSocket.SocketHook.constructor | src/utils/useWebSocket.ts:66 | a hook starts with the connection disabled |
| WebSocket.SocketHook.QueryToken | src/utils/useWebSocket.ts:128-130 | the connection's `Authorization` parameter is the stored id token, and is missing exactly when no tokens are stored |
| WebSocket.SocketHook.Mount | src/utils/useWebSocket.ts:98-117 | no tokens: one redirect, the connection stays off and nothing else changes; expired: it awaits the single refresh promise, with the tokens kept and one new refresh request sent only when no marker was set; valid: the connection is enabled and the session is untouched |
| WebSocket.SocketHook.RefreshSettled | src/utils/useWebSocket.ts:105-116 | a resolved refresh enables the connection; a rejection leaves it off and redirects only when the reason is not the redirect error |
| WebSocket.SocketHook.OnError | src/utils/useWebSocket.ts:92-96 | any socket error redirects to the login page |
| PlaylistsListener.FindById | src/components/ws-listeners/PlaylistsListener.tsx:36-38 | the index of the first playlist with the id, or none iff no playlist has it |
| PlaylistsListener.PatchItems | src/components/ws-listeners/PlaylistsListener.tsx:36-41 | only the first match gets the items: same length, every other position unchanged; no match leaves the list as it was |
| PlaylistsListener.PatchItemsOnlyTouchesItems | src/components/ws-listeners/PlaylistsListener.tsx:39-41 | no field but `items` changes, and only on a playlist with that id |
| PlaylistsListener.HandlePlaylistsChanged | src/components/ws-listeners/PlaylistsListener.tsx:14-28 | after `playlistsChanged` the list is the pushed one, not fetching, fetched, no error, whatever the state; `status` is unchanged |
| PlaylistsListener.HandlePlaylistItemsChanged | src/components/ws-listeners/PlaylistsListener.tsx:30-46 | a no-op unless the status is success; in success only the matching playlist's items change |
| PlaylistsListener.PlaylistsChangedConsistentIff | src/components/ws-listeners/PlaylistsListener.tsx:14-28 | on a well-formed state the unguarded reducer keeps the variants iff the status was already success |
| PlaylistsListener.PlaylistsChangedOnDefault | src/components/ws-listeners/PlaylistsListener.tsx:16-25 | applied to the default cell it yields `isFetched` with status pending, outside the four variants |
| PlaylistsListener.ItemsChangedKeepsConsistent | src/components/ws-listeners/PlaylistsListener.tsx:34-41 | the guarded reducer keeps every well-formed state well-formed |
| PlaylistsListener.PlaylistsChangedReplaces | src/components/ws-listeners/PlaylistsListener.tsx:21-23 | a playlist the push does not carry does not survive: the list is replaced, not merged |
| PlaylistsListener.OnFrame | src/components/ws-listeners/PlaylistsListener.tsx:48-60 | a binary frame leaves the cell alone, and no frame takes a success state out of the success variant |
| PlaylistsListener.OnFrameDispatch | src/components/ws-listeners/PlaylistsListener.tsx:48-60 | each reducer runs only for its own event type; binary, unparsable and queue frames leave the cell alone |
| PlaylistsListener.Receive | src/components/ws-listeners/PlaylistsListener.tsx:16-17 | the listener writes the reduced state back into the shared atom |
| JsStrings.TrimStart | src/components/Header.tsx:61 | the result is a suffix; every dropped character is white space and the first kept one is not |
| JsStrings.TrimEnd | src/components/Header.tsx:61 | the result is a prefix; every dropped character is white space and the last kept one is not |
| JsStrings.Trim | src/components/Header.tsx:61 | `trim()` is never longer than its input and neither starts nor ends with white space |
| JsStrings.TrimIsMiddle | src/components/Header.tsx:61 | `trim()` is the contiguous slice of its input that starts where the leading white space ends |
| JsStrings.TrimDropsTrailingWhiteSpace | src/components/Header.tsx:61 | everything after that slice is white space |
| JsStrings.TrimEmptyIff | src/components/pages/Playlists/index.tsx:45 | a string trims to the empty string iff it is all white space |
| JsStrings.TrimIdempotent | src/components/Header.tsx:66-70 | trimming twice is trimming once |
| JsStrings.Includes | src/components/pages/Playlists/index.tsx:52-54 | a name includes only filters no longer than itself |
| JsStrings.IncludesIffOccurs | src/components/pages/Playlists/index.tsx:52-54 | `includes` holds iff the substring occurs at some position |
| JsStrings.IncludesEmpty | src/components/pages/Playlists/index.tsx:52-54 | every name includes the empty filter |
| Previous.FirstRender | src/components/Header.tsx:41 | on the first render nothing is remembered |
| Previous.Observe | src/components/Header.tsx:41 | a render with a different value remembers the old current one; the same value changes nothing |
| Previous.ObserveKeepsDistinct | src/components/pages/Playlists/index.tsx:40-42 | the remembered value is never the current one |
| Previous.PreviousChangesIffValueChanges | src/components/Header.tsx:110-120 | the remembered value changes iff the observed value does |
| Previous.Renders | src/components/Header.tsx:41 | after any run of renders the tracker holds the last value and a distinct previous one |
| SongControls.IndexOf | src/components/SongControls.tsx:44 | `indexOf`: the first index holding the mode, -1 iff it is absent |
| SongControls.NextRepeatMode | src/components/SongControls.tsx:42-46 | the next mode is always one of the table's |
| SongControls.RepeatCycle | src/components/SongControls.tsx:17-26 | the cycle is none, then one, then all, then none |
| SongControls.UnknownModeResets | src/components/SongControls.tsx:44 | a mode outside the table goes to the first mode |
| SongControls.ThreeTogglesReturn | src/components/SongControls.tsx:42-46 | three repeat toggles return to the starting mode |
| SongControls.ActiveIffRepeating | src/components/SongControls.tsx:17-26 | the repeat icon is active for one and all, not for none |
| SongControls.PauseButton | src/components/SongControls.tsx:80-82 | Resume/play_arrow when paused, Pause/pause otherwise |
| SongControls.QueueButtonTitle | src/components/SongControls.tsx:109 | "Hide queue" when the queue is shown, "Show queue" otherwise |
| SongControls.Controls.constructor | src/components/SongControls.tsx:34-36 | the controls start playing, with repeat off and shuffle off |
| SongControls.Controls.TogglePause | src/components/SongControls.tsx:38-40 | pause is negated and nothing else changes, so two toggles restore it |
| SongControls.Controls.ToggleRepeatMode | src/components/SongControls.tsx:42-46 | the mode advances one step in the cycle |
| SongControls.Controls.ToggleShuffleMode | src/components/SongControls.tsx:48-50 | shuffle is negated and nothing else changes |
| PlaylistsPage.FilterByName | src/components/pages/Playlists/index.tsx:52-54 | a playlist is kept iff its name contains the filter |
| PlaylistsPage.FilterAppend | src/components/pages/Playlists/index.tsx:52-54 | filtering a concatenation filters each part in turn, so the original order is kept |
| PlaylistsPage.EmptyFilterKeepsAll | src/components/pages/Playlists/index.tsx:25 | the initial empty filter keeps the whole list |
| PlaylistsPage.FilteredPlaylists | src/components/pages/Playlists/index.tsx:49-57 | a state without data is unchanged; otherwise only `data.playlists` changes, to the filtered list |
| PlaylistsPage.FilteredKeepsConsistent | src/components/pages/Playlists/index.tsx:49-57 | filtering neither makes nor breaks one of the four variants |
| PlaylistsPage.ShouldFetchOnMount | src/components/pages/Playlists/index.tsx:59-63 | on a well-formed state the mount fetches iff no list is loaded and none is on its way |
| PlaylistsPage.ShouldFetchOnMountIff | src/components/pages/Playlists/index.tsx:59-63 | on a well-formed state the mount fetches iff nothing is fetched or fetching |
| PlaylistsPage.CreateOverride | src/components/pages/Playlists/index.tsx:44-47 | no request iff the name trims to empty; otherwise `data.name` is the untrimmed name |
| PlaylistsPage.NavigationTarget | src/components/pages/Playlists/index.tsx:65-69 | navigation happens iff the previous distinct `isFetched` was false and data is there, to `/playlist/<id>` |
| PlaylistsPage.Cards | src/components/pages/Playlists/index.tsx:111-112 | cards render iff `isFetched`, listing the filtered playlists |
| PlaylistsPage.ErrorShown | src/components/pages/Playlists/index.tsx:97 | on a well-formed state the error text never shows beside a list or a spinner |
| PlaylistsPage.ShownIffStatus | src/components/pages/Playlists/index.tsx:97-112 | on a well-formed state cards show iff success and the error text iff error |
| PlaylistsPage.SourceTitle | src/components/pages/Playlists/index.tsx:122-140 | imported playlists get the YouTube or Spotify badge title; others none |
| PlaylistsPage.Page.constructor | src/components/pages/Playlists/index.tsx:21-42 | the page binds the shared atom and a fresh create cell, with empty inputs and no navigation |
| PlaylistsPage.Page.SetNewPlaylistName | src/components/pages/Playlists/index.tsx:81 | typing in the new-playlist input sets the name and nothing else |
| PlaylistsPage.Page.SetPlaylistsFilter | src/components/pages/Playlists/index.tsx:94 | typing in the filter input sets the filter and nothing else |
| PlaylistsPage.Page.Mount | src/components/pages/Playlists/index.tsx:59-63 | the list is fetched with the page's config iff the guard holds, leaving the config alone; otherwise nothing changes |
| PlaylistsPage.Page.HandleNewPlaylistCreate | src/components/pages/Playlists/index.tsx:44-47 | a blank name sends nothing and changes nothing; otherwise the create request carries the name and the config is left alone |
| PlaylistsPage.Page.AfterRender | src/components/pages/Playlists/index.tsx:40-42 | the tracker observes `isFetched`; a path is pushed only when the remembered value changed and the target exists |
| PlaylistsPage.SubmitNewPlaylist | src/components/pages/Playlists/index.tsx:40-47 | from a fresh page, submitting a non-blank name starts exactly one create request and navigates nowhere yet |
| PlaylistsPage.CreateThenNavigate | src/components/pages/Playlists/index.tsx:44-69 | from a fresh page, a successful create navigates exactly once, to the new playlist |
| Header.TypeTag | src/components/Header.tsx:16-37 | a track result carries the track tag and a playlist result the playlist tag |
| Header.AreSearchResultsShown | src/components/Header.tsx:60-63 | the results panel shows iff the query holds a character that is not white space |
| Header.SearchOverride | src/components/Header.tsx:65-73 | no request iff the trimmed query is empty; otherwise `params.q` is the trimmed query |
| Header.SearchIgnoresPadding | src/components/Header.tsx:65-73 | a query padded with white space searches for the same thing |
| Header.ResetLookup | src/components/Header.tsx:112-118 | the reset recipe gives the pending variant whatever the state |
| Header.LookupMarkup | src/components/Header.tsx:75-102 | nothing before a response; "No results found." iff the result is null; else the view chosen by the type tag |
| Header.HintShown | src/components/Header.tsx:137-144 | on a well-formed lookup the hint shows iff the query is non-empty and nothing has been requested |
| Header.SearchingShown | src/components/Header.tsx:145 | on a well-formed lookup "Searching..." shows iff a request is in progress, with no result yet |
| Header.PanelShowsOneThing | src/components/Header.tsx:135-146 | with results shown and a well-formed lookup: hint iff pending, "Searching..." iff in progress, a result iff success |
| Header.ShouldFetchServers | src/components/Header.tsx:104-108 | on a well-formed servers cell the mount fetches iff no server is loaded |
| Header.HeaderBar.constructor | src/components/Header.tsx:40-58 | an empty query, a fresh lookup cell and the servers atom |
| Header.HeaderBar.Mount | src/components/Header.tsx:104-108 | servers are fetched iff not already fetched, leaving the config alone; otherwise nothing changes |
| Header.HeaderBar.SetSearchQuery | src/components/Header.tsx:110-120 | typing resets the lookup cell exactly when the previous distinct query changed and is defined |
| Header.HeaderBar.HandleSearch | src/components/Header.tsx:65-73 | a blank query sends nothing; otherwise the lookup is fetched with the trimmed query and the config is left alone |
| Header.QueryChangeResets | src/components/Header.tsx:110-120 | every change of the query after the first render triggers the reset |
| Header.SameQueryKeepsResult | src/components/Header.tsx:110-120 | setting the same query again triggers nothing |
| AuthGuard.LoginRequest | src/components/AuthGuard.tsx:27-33 | the login request posts `{code}` with `skipAuth` and no Authorization header |
| AuthGuard.LoginRequestPassesThrough | src/components/AuthGuard.tsx:27-33 | the login request goes out untouched, without tokens, refresh or redirect |
| AuthGuard.Guard.constructor | src/components/AuthGuard.tsx:14 | the auth state starts pending |
| AuthGuard.Guard.RendersChildren | src/components/AuthGuard.tsx:54-58 | the children render only in the success state; otherwise nothing renders |
| AuthGuard.Guard.Mount | src/components/AuthGuard.tsx:17-52 | a non-empty query is stripped; query and code: the login is posted; otherwise stored tokens give success without a request; no tokens: one redirect |
| AuthGuard.Guard.LoginSucceeded | src/components/AuthGuard.tsx:35-37 | the tokens are stored and the state becomes success |
| AuthGuard.Guard.LoginFailed | src/components/AuthGuard.tsx:49-51 | the gate stays closed; a 401 redirects once through the response interceptor |
| AuthGuard.LoginCallback | src/components/AuthGuard.tsx:19-38 | a callback URL with a code and a successful login opens the gate, with the query gone and the new tokens stored |

## Left out

- Network, local storage, `location`, `history`, Recoil, React scheduling, immer and styled-components are replaced by fields and explicit calls. Real concurrency is replaced by sequences of explicit settlement calls.
- JSON: `Credentials.Decode` accepts the text `JSON.stringify` writes for a token record, with any JSON integer literal as the expiry (so `-0` too, and no leading zeros). Other valid JSON (reordered keys, white space, extra fields, `\u` escapes of surrogate halves, fractions and exponents) is read as unparsable. A record of the wrong shape, which the code would return as cast, is left out.
- Web-socket frames: `JSON.parse` of a frame is a parameter. A throwing parse is taken as "no dispatch"; in the code it is an uncaught exception in the message handler.
- `useWebSocket` without an `events` option forwards to its own `onMessage` and recurses. Subscribers always pass `events`, so that path is left out, as are the `share: true` connection sharing and the socket itself.
- The clock: `moment.unix(expiresAt).isSameOrBefore()` is `expiresAt * 1000 <= nowMs`, with `nowMs` a parameter.
- `console` logging and `useLog` are left out.
- TypeError crashes are modelled as "nothing happens": reading `data.playlists` of a success state without data, `createPlaylistState.data!` without data, and `getJWT()!` without tokens when the socket hook renders.
- Header.LookupMarkup requires `isFetched` to imply data. The lookup cell is only ever written with well-formed values, so the TypeError the code would raise otherwise is not modelled.
- Presentational components (`LongText`, `Input`, `CollapsableInput`, `Track`, `Playlist`, `Icon`, `TrackCover`, `Queue`, `App`, routes) are not part of this model.
- `usePreviousDistinct` and `String.prototype.trim` come from outside the repository. They are modelled by their documented behaviour: `trim` removes the ECMAScript white-space and line-terminator characters.
- `indexOf` compares by reference. The model compares repeat modes by value, which agrees because the three table entries are distinct values.
