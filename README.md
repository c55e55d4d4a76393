# OhanaDoc realtime channel and dashboard state, in Dafny

This project models the browser side of the OhanaDoc provider-network
dashboard. Its core is the reconnecting real-time channel of the
`useWebSocket` hook (`channel.dfy`). The channel holds:

- one transport at a time;
- the `isConnected` and `isAuthenticated` flags;
- a counter of consecutive reconnect attempts;
- the reconnect timers;
- a registry from event names to the handlers subscribed to them.

The channel is the class `Channel.RealtimeChannel`. Its methods are the
calls and callbacks the event loop runs:

- `connect`, `disconnect`, `send`, subscribe and unsubscribe;
- transport open, transport closing, inbound message, transport close;
- a reconnect timer firing;
- the auto-connect and re-authentication effects, and a session change.

Around the channel sit the sequential state updates of the hooks and pages
that consume it:

- the notification list of `useNotifications` (`notifications.dfy`);
- the matching panel's bounded request list and match map, and accepting a
  match (`matching.dfy`);
- the services, providers and states pages: filters, add / update / delete,
  and the demo catalogues (`services.dfy`, `providers.dfy`, `states.dfy`);
- the organization page's merge-on-save and statistics (`organization.dfy`);
- the dashboard's session guard and its three stats subscribers
  (`dashboard.dfy`);
- the demo sign-in and one-time-code flow (`signin.dfy`);
- the dashboard shell's navigation highlight, theme and sign-out
  (`layout.dfy`);
- the edge middleware's nonce and Content-Security-Policy header
  (`middleware.dfy`).

The shared helpers are:

- `json.dfy`: JSON values and JavaScript truthiness;
- `text.dfy`: ASCII case mapping, substrings, number printing and parsing;
- `seqs.dfy`: order-preserving filter;
- `storage.dfy`: `localStorage` as a map;
- `base.dfy`: `Option`.

Each source file keeps its own form:

- Code that mutates refs or state step by step is a class with `modifies`
  clauses: the channel, the sign-in page and the theme/sign-out part of the
  shell.
- Loops are methods with loop invariants: dispatch, `generateMockServices`
  and `loadStats`.
- `filterServices` and `filterProviders` reassign `filtered` in stages. Each
  is a method that applies the order-preserving `Seqs.Filter` once per stage,
  and lemmas prove the stages equal to one filter by the combined condition.
- Copy-on-write updaters (`map`, `filter`, spreads, `slice(-10)`) are
  functions from the previous state to the next.

I/O is replaced by parameters and outputs:

- `Date.now()`, `new Date().toISOString()` and `crypto.randomUUID()` are
  parameters.
- Random draws are functions from a position to the drawn values.
- The transport is its ready state plus the log of envelopes written to it.
- `JSON.parse` of an inbound frame is an already parsed `Inbound` value.
- Storage and the router's pushes are fields or results.

Several behaviours of the code are easy to miss; the model proves each of
them as the code does it:

- `connect` is a no-op only while the held transport is OPEN. It opens a
  second transport while one is CONNECTING or CLOSING.
- `disconnect` closes with 1000 and clears the stored timer. But a transport
  that is still CONNECTING reports 1006 when closed (section 7.1.5 of
  RFC 6455). The close handler stays attached and schedules a reconnect
  (`Channel.DisconnectWhileConnectingReconnects`).
- A timer whose handle was overwritten by a later close is not cleared by
  `disconnect` (`Channel.OverwrittenTimerSurvivesDisconnect`), so a
  reconnect can still follow a deliberate disconnect.
- The connection state is two flags, `isConnected` and `isAuthenticated`,
  plus the transport's ready state; the model keeps exactly those.
- The attempt counter resets on every open, so the ceiling bounds only
  consecutive failures.
- With a non-empty token, `auth` can be written twice after one open: once
  by the open handler and once by the re-authentication effect. An empty
  token is falsy and writes no `auth` at all.
- `auth:success` and `auth:error` also reach the handlers subscribed to
  them.
- Evicting a request through the ten-request cap leaves its match in the
  map, so the map is not bounded by the cap.
- `handleAddState` accepts a code already in the list. Only the form's
  option filter prevents duplicates.
- The navigation highlights an item for any path that begins with its
  href, with no segment boundary: `/dashboard/statesman` highlights States.
- A date in the future reads as a negative number of "days ago".
- A state whose revenue is a non-empty string turns the organization's
  total revenue into text.

## Model

| member | source | states |
|---|---|---|
| Channel.AddHandler | src/hooks/useWebSocket.ts:57-61 | subscribing adds the handler to its event's set, creating the key if needed; every other event keeps its handlers; a registry without empty sets stays so |
| Channel.RemoveHandler | src/hooks/useWebSocket.ts:64-72 | unsubscribing removes exactly that handler from its event; the key is dropped exactly when the set becomes empty; other events and keys are untouched |
| Channel.SubscribeThenUnsubscribeRestores | src/hooks/useWebSocket.ts:57-72 | subscribing a handler not yet registered and calling the returned function gives back the registry unchanged |
| Channel.SubscribeTwiceIsOnce | src/hooks/useWebSocket.ts:58-61 | the handler set deduplicates: subscribing the same handler twice equals subscribing it once |
| Channel.SharedRegistration | src/hooks/useWebSocket.ts:61-67 | two subscriptions of one handler share one registration: one unsubscribe removes it |
| Channel.UnsubscribeTwiceIsOnce | src/hooks/useWebSocket.ts:64-72 | calling a returned unsubscribe function a second time changes nothing |
| Channel.Dispatch | src/hooks/useWebSocket.ts:90-99 | every handler of the event's set is invoked exactly once with the message's data; a throwing handler is caught, reported, and does not stop the others |
| Channel.SchedulesReconnect | src/hooks/useWebSocket.ts:139 | the close handler's condition: the code is not 1000 and attempts remain |
| Channel.AttemptsAfterClose | src/hooks/useWebSocket.ts:139-140 | one close raises the attempt counter by at most one and never past the maximum |
| Channel.ReconnectCeiling | src/hooks/useWebSocket.ts:139-145 | closes with no open in between schedule at most `max - attempts` reconnects |
| Channel.FreshBudget | src/hooks/useWebSocket.ts:139-145 | from a counter reset by an open, `n` unplanned closes schedule exactly `min(n, max)` reconnects |
| Channel.NormalClosuresNeverReconnect | src/hooks/useWebSocket.ts:139 | closes with code 1000 never schedule a reconnect, whatever the counter |
| Channel.HasToken | src/hooks/useWebSocket.ts:121 | the truthy-token guard: a token is present and is not the empty string |
| Channel.MergeOptions | src/hooks/useWebSocket.ts:27-31 | every option the caller gives wins; an option left out takes its default: connect on mount, 3000 ms, 5 attempts |
| Channel.RealtimeChannel.constructor | src/hooks/useWebSocket.ts:33-42 | the hook starts with no transport, both flags false, counter 0, no timer and an empty registry, with the caller's options merged over the defaults |
| Channel.RealtimeChannel.Send | src/hooks/useWebSocket.ts:45-54 | `send` writes exactly one envelope `{type, data, timestamp}` when the transport is OPEN and writes nothing otherwise |
| Channel.RealtimeChannel.Subscribe | src/hooks/useWebSocket.ts:57-61 | the registry becomes the old one with the handler added; the channel invariant holds |
| Channel.RealtimeChannel.Unsubscribe | src/hooks/useWebSocket.ts:64-72 | the registry becomes the old one with the handler removed; no empty set is left behind |
| Channel.RealtimeChannel.Connect | src/hooks/useWebSocket.ts:106-152 | an OPEN transport makes `connect` a no-op; otherwise a new CONNECTING transport replaces the held one, even a CONNECTING one; a creation that throws changes nothing |
| Channel.RealtimeChannel.TransportOpen | src/hooks/useWebSocket.ts:115-124 | on open the channel is connected with counter 0, and an `auth` envelope carrying the token is written exactly when the token is present and not empty (truthy) |
| Channel.RealtimeChannel.TransportClosing | src/hooks/useWebSocket.ts:107-109 | a transport in its closing handshake is held but not OPEN, so `send` skips it and `connect` replaces it |
| Channel.RealtimeChannel.Message | src/hooks/useWebSocket.ts:76-103 | `auth:success` sets authenticated, `auth:error` clears it, other types keep it; every parsed message reaches exactly its type's handlers with its data; an unparseable payload reaches nobody and changes nothing |
| Channel.RealtimeChannel.TransportClose | src/hooks/useWebSocket.ts:132-147 | on close both flags drop and the transport is forgotten; a reconnect timer is scheduled and the counter raised exactly when the code is not 1000 and attempts remain; the counter stays within the maximum |
| Channel.RealtimeChannel.TimerFire | src/hooks/useWebSocket.ts:143-145 | a due reconnect timer is spent and runs `connect` |
| Channel.RealtimeChannel.Disconnect | src/hooks/useWebSocket.ts:156-168 | the stored timer is cleared and only that one; the transport is forgotten and both flags drop; the close code is 1000 for an open transport and 1006 for a connecting one |
| Channel.RealtimeChannel.Reauthenticate | src/hooks/useWebSocket.ts:182-186 | while connected with a truthy (present, non-empty) token and not authenticated, `auth` is sent again, and written only if the transport is open |
| Channel.RealtimeChannel.SessionChanged | src/hooks/useWebSocket.ts:182-186 | a new session token is kept and the re-authentication rule runs with it; an empty token sends nothing |
| Channel.RealtimeChannel.Mount | src/hooks/useWebSocket.ts:171-175 | with `autoConnect` the mount effect connects; without it nothing changes |
| Channel.AuthSentTwiceAfterOpen | src/hooks/useWebSocket.ts:182-186 | after one open with a non-empty token, the open handler and the re-authentication effect each write `auth` |
| Channel.EmptyTokenSendsNoAuth | src/hooks/useWebSocket.ts:121-123 | an empty token is falsy: the channel connects but neither the open handler nor the re-authentication effect writes `auth` |
| Channel.DefaultOptionsConnectOnMount | src/hooks/useWebSocket.ts:27-31 | with no options the hook connects on mount, and an unplanned close schedules a reconnect 3000 ms later |
| Channel.DisconnectWhileConnectingReconnects | src/hooks/useWebSocket.ts:156-168 | a disconnect while connecting is followed by a 1006 close that schedules one reconnect |
| Channel.DisconnectWhileOpenStaysDown | src/hooks/useWebSocket.ts:156-168 | a disconnect of an open transport leaves no timer and the channel disconnected |
| Channel.CeilingBoundsOnlyConsecutiveFailures | src/hooks/useWebSocket.ts:118-145 | an example run: with a maximum of 2, three failures each followed by a reopen all schedule a reconnect; the all-inputs statement is `Channel.FreshBudget` |
| Channel.ConsecutiveFailuresExhaustBudget | src/hooks/useWebSocket.ts:139-145 | with a maximum of 2 and no reopen, the third unplanned close schedules nothing |
| Channel.OverwrittenTimerSurvivesDisconnect | src/hooks/useWebSocket.ts:143-159 | a timer whose handle a later close overwrote is still pending after `disconnect` |
| Notifications.IsUnread | src/hooks/useNotifications.ts:32 | an entry is unread when its `read` field is falsy or missing |
| Notifications.UnreadCount | src/hooks/useNotifications.ts:32 | the unread count never exceeds the list length |
| Notifications.UnreadCountCounts | src/hooks/useNotifications.ts:32 | the unread count counts the entries whose `read` is falsy: 0 when all are read, the length when none is |
| Notifications.OnNew | src/hooks/useNotifications.ts:54-55 | `notification:new` puts the entry first and keeps the old entries after it, in order |
| Notifications.OnNewUnreadCount | src/hooks/useNotifications.ts:54-55 | a new entry raises the unread count by one exactly when it is unread |
| Notifications.FromBroadcast | src/hooks/useNotifications.ts:71-78 | a broadcast entry has every payload field, and the defaults (fresh id, `current-user`, unread, now) for the fields the payload lacks |
| Notifications.OnBroadcast | src/hooks/useNotifications.ts:71-80 | the completed broadcast entry goes first and the old entries follow in order |
| Notifications.BroadcastArrivesUnread | src/hooks/useNotifications.ts:71-80 | a broadcast without `read` raises the unread count by one |
| Notifications.SetRead | src/hooks/useNotifications.ts:96-100 | entries with the id get the given `read` and keep every other field; all other entries and the length are unchanged |
| Notifications.MarkRead | src/hooks/useNotifications.ts:110-114 | after `notification:read` or `markAsRead` every entry with the id is read, and the length is kept |
| Notifications.RevertRead | src/hooks/useNotifications.ts:120-125 | after a failed PATCH every entry with the id is unread, whatever it was |
| Notifications.MarkReadIdempotent | src/hooks/useNotifications.ts:96-100 | marking an id read twice equals marking it once |
| Notifications.RevertUndoesMark | src/hooks/useNotifications.ts:110-125 | an optimistic mark followed by its revert equals the revert alone |
| Notifications.MarkReadLowersUnread | src/hooks/useNotifications.ts:110-114 | marking read never raises the unread count |
| Notifications.MarkAllRead | src/hooks/useNotifications.ts:134-136 | `markAllAsRead` keeps length, order and every field but `read` |
| Notifications.MarkAllReadClearsUnread | src/hooks/useNotifications.ts:130-136 | after `markAllAsRead` the unread count is 0 |
| Notifications.UnreadIds | src/hooks/useNotifications.ts:131 | one PATCH id per unread entry: the id of every unread entry is sent, and every id sent belongs to an unread entry |
| Notifications.UnreadIdsInOrder | src/hooks/useNotifications.ts:131 | the ids are sent in list order: the first entry's id (when it is unread) comes before the ids of the rest |
| Notifications.Delete | src/hooks/useNotifications.ts:152-154 | `deleteNotification` removes every entry with the id and keeps every other one |
| Notifications.DeleteIdempotent | src/hooks/useNotifications.ts:152-154 | deleting an id twice equals deleting it once |
| Notifications.DeletePreservesOrder | src/hooks/useNotifications.ts:152-154 | deletion distributes over concatenation, so the survivors keep their relative order |
| Notifications.ClearAll | src/hooks/useNotifications.ts:157-159 | `clearAll` leaves an empty list with nothing unread |
| Matching.AddRequest | src/components/ProviderMatchingPanel.tsx:89 | the new request is last; below ten entries nothing is dropped; at ten the oldest is dropped and the length stays ten |
| Matching.AddRequestsBounded | src/components/ProviderMatchingPanel.tsx:89 | any run of arrivals keeps the list at most ten long, at exactly `min(old + arrivals, 10)` |
| Matching.FromMatchNew | src/components/ProviderMatchingPanel.tsx:75-88 | a request built from `match:new` copies the payload's id and fields and starts with waiting time 0 |
| Matching.OnMatchNew | src/components/ProviderMatchingPanel.tsx:74-89 | after `match:new` the list holds 1 to 10 requests, the newest last with waiting time 0 |
| Matching.OnMatchScore | src/components/ProviderMatchingPanel.tsx:96-107 | `match:score` sets or overwrites the entry for a truthy `requestId` and changes nothing otherwise; other keys are untouched |
| Matching.ElapsedSeconds | src/components/ProviderMatchingPanel.tsx:181 | the waiting time is the whole number of seconds elapsed, floored |
| Matching.UpdateWaitingTimes | src/components/ProviderMatchingPanel.tsx:178-183 | the refresh keeps length, order and every field but `waitingTime`, which becomes the floored seconds since the request's timestamp |
| Matching.UpdateWaitingTimesIdempotent | src/components/ProviderMatchingPanel.tsx:178-183 | refreshing twice at one instant equals refreshing once |
| Matching.FormatWaitTime | src/components/ProviderMatchingPanel.tsx:185-189 | `<s>s` below 60 seconds, otherwise `<s div 60>m <s mod 60>s` |
| Matching.FormatWaitTimeRoundTrip | src/components/ProviderMatchingPanel.tsx:185-189 | `formatWaitTime` writes `<s>s` below a minute and `<m>m <r>s` from a minute on, and reading it back gives the seconds |
| Matching.FormatWaitTimeInjective | src/components/ProviderMatchingPanel.tsx:185-189 | distinct non-negative wait times never display alike |
| Matching.FindRequest | src/components/ProviderMatchingPanel.tsx:208 | `find` returns the first request with the id, or nothing exactly when no request has it |
| Matching.AcceptMatch | src/components/ProviderMatchingPanel.tsx:207-228 | `match:accept` is sent exactly when both the request and its match exist, carrying the request's patient and the match's provider, score and profit; the requests with the id and the match are removed in every case |
| Matching.AcceptTwiceSendsOnce | src/components/ProviderMatchingPanel.tsx:207-228 | accepting the same id again sends nothing and changes nothing |
| Matching.RequestsAfterShape | src/components/ProviderMatchingPanel.tsx:89 | after `n` arrivals the list holds the last `min(n, 10)` of them in arrival order |
| Matching.MatchesAfterShape | src/components/ProviderMatchingPanel.tsx:96-107 | after `n` scores, one per request, the map holds exactly those `n` keys |
| Matching.EvictionKeepsMatch | src/components/ProviderMatchingPanel.tsx:89-106 | past ten arrivals the first request is evicted from the list while its match stays, and the map grows past the cap |
| Services.Selected | app/dashboard/services/page.tsx:137-149 | a service passes when a non-empty state selector equals its state and a non-empty category selector equals its category; an empty selector imposes nothing |
| Services.FilterServices | app/dashboard/services/page.tsx:137-149 | the filtered list is the services matching every non-empty selector, in order: each kept one matches, and none that matches is lost |
| Services.NoSelectorShowsAll | app/dashboard/services/page.tsx:137-149 | with both selectors empty the whole catalogue is shown in order |
| Services.AddService | app/dashboard/services/page.tsx:161-171 | one service is appended last with the form's fields, no providers and no volume; the existing services are unchanged |
| Services.DeleteService | app/dashboard/services/page.tsx:206-207 | every service with the id is removed and every other one kept |
| Services.AddThenDeleteRestores | app/dashboard/services/page.tsx:161-207 | adding under a fresh id and deleting that id gives back the catalogue |
| Services.UpdateService | app/dashboard/services/page.tsx:188-203 | with nothing edited nothing changes; otherwise every service with the edited id is replaced by the edit, length and order are kept, and editing ends |
| Services.UpdateIdempotent | app/dashboard/services/page.tsx:188-203 | saving the same edit twice equals saving it once |
| Services.UpdateKeepsIds | app/dashboard/services/page.tsx:197-199 | an update keeps every position's id |
| Services.MarginColorOf | app/dashboard/services/page.tsx:221-225 | green exactly from 30, yellow exactly from 15 to 29, red exactly below 15 |
| Services.MarginColorMonotone | app/dashboard/services/page.tsx:221-225 | a higher margin never gets a worse colour |
| Services.MockAt | app/dashboard/services/page.tsx:104-128 | the service pushed `k`-th: state `k div 16`, category `(k div 4) mod 4`, name `k mod 4`, id `state-category-index`, code `CPT(99200 + k)`, and the random fields and push time drawn for position `k` |
| Services.GenerateMockServices | app/dashboard/services/page.tsx:104-128 | the three nested loops push 5 x 4 x 4 = 80 services, the `k`-th built from its state, category and name index |
| Services.MockAtParts | app/dashboard/services/page.tsx:111-117 | the service pushed for state `s`, category `c`, name `x` has id `state-category-x`, code `CPT(99200 + k)` and its category's name |
| Services.MockCodesDistinct | app/dashboard/services/page.tsx:114 | no two demo services share a code |
| Services.MockStateBlocks | app/dashboard/services/page.tsx:108-117 | each state holds exactly one contiguous block of sixteen positions: the `k`-th service has state `s` if and only if `16s <= k < 16s + 16` |
| Providers.Shown | app/dashboard/providers/page.tsx:136-154 | a provider passes when the term is empty or its lowercase form occurs in the lowercased name, email or specialty, and each non-empty state, specialty and status filter matches exactly |
| Providers.FilterProviders | app/dashboard/providers/page.tsx:133-157 | a provider is kept exactly when the search term is empty or found case-insensitively in name, email or specialty, and every non-empty exact filter matches; order is kept |
| Providers.NoFilterShowsAll | app/dashboard/providers/page.tsx:133-157 | with all four filters empty the roster is unchanged |
| Providers.SearchIgnoresCase | app/dashboard/providers/page.tsx:136-141 | a term matches exactly when its lowercase form does |
| Providers.NameMatchShows | app/dashboard/providers/page.tsx:136-141 | a term found in the lowercased name shows the provider |
| Providers.CredentialStatusOf | app/dashboard/providers/page.tsx:177-186 | expired exactly when either status is expired, pending exactly when neither is expired and one is pending, active otherwise |
| Providers.CredentialStatusSymmetric | app/dashboard/providers/page.tsx:177-186 | license and DEA status weigh alike |
| Providers.ExpiredDominates | app/dashboard/providers/page.tsx:179-181 | an expired license makes the credentials expired whatever the DEA status |
| Providers.DiffInDays | app/dashboard/providers/page.tsx:208 | the day count is the floored number of whole days between the date and now |
| Providers.TimeAgoOf | app/dashboard/providers/page.tsx:205-215 | 0 days is Today, 1 is Yesterday, other values below 7 are days ago, 7 to 29 are `floor(d/7)` weeks ago, and 30 on is the formatted date |
| Providers.FutureDateReadsNegativeDays | app/dashboard/providers/page.tsx:208-212 | a date more than a day in the future is shown as a negative number of days ago |
| Providers.MockProvider | app/dashboard/providers/page.tsx:74-91 | the `i`-th demo provider: id `i + 1`, name, specialty, state and email cycled from fixed tables, status, credentials and payroll by `i` modulo small numbers, and the random fields drawn |
| Providers.MockProviders | app/dashboard/providers/page.tsx:74-97 | the demo roster has twelve providers, each built from its position |
| Providers.MockIds | app/dashboard/providers/page.tsx:75 | demo ids read back as position plus one, so they are "1" to "12" and distinct |
| Providers.MockBoardCertifiedIffNotInactive | app/dashboard/providers/page.tsx:81-89 | a demo provider is board certified exactly when it is not inactive |
| Providers.MockCredentialStatus | app/dashboard/providers/page.tsx:88-90 | a demo provider's credentials are expired exactly at positions divisible by 4 or 5 |
| States.FindOption | app/dashboard/states/page.tsx:87 | the lookup finds an available state with the code, or nothing exactly when none has it |
| States.HandleAddState | app/dashboard/states/page.tsx:84-107 | an unknown code changes nothing; a known one appends a state with that entry's name and code and all counters 0, closes the modal and clears the selection |
| States.OfferedOptions | app/dashboard/states/page.tsx:293-294 | the form offers exactly the available states whose code is not in the list |
| States.OfferedAddKeepsCodesDistinct | app/dashboard/states/page.tsx:84-107 | adding an offered code appends one state and keeps codes distinct |
| States.DuplicateCodeAccepted | app/dashboard/states/page.tsx:87-101 | the handler itself appends a code already in the list |
| States.RemoveState | app/dashboard/states/page.tsx:109-110 | every state with the id is removed and every other one kept |
| States.AddThenRemoveRestores | app/dashboard/states/page.tsx:101-110 | adding under a fresh id and removing it gives back the list |
| States.SubmitDisabled | app/dashboard/states/page.tsx:313 | the add button is disabled exactly while no state is selected |
| States.OfferedSelectionAdds | app/dashboard/states/page.tsx:313 | with an offered state selected the submit button is enabled and submitting adds one state |
| States.ThemeKey | app/dashboard/states/page.tsx:116 | the key has no whitespace and no upper-case letter and is no longer than the name |
| States.ThemeOf | app/dashboard/states/page.tsx:115-118 | a key in the table gets its entry, any other key the gray default |
| States.ThemeKeyIdempotent | app/dashboard/states/page.tsx:116 | a key is already normalised |
| States.NewYorkKey | app/dashboard/states/page.tsx:116 | "New York" gives the key "newyork" |
| States.NewYorkTheme | app/dashboard/states/page.tsx:44-47 | "New York" gets the purple theme |
| States.IllinoisKey | app/dashboard/states/page.tsx:116 | "Illinois" gives the key "illinois" |
| States.UnlistedStateIsGray | app/dashboard/states/page.tsx:115-118 | "Illinois", absent from the table, gets the gray default |
| Organization.Initial | app/dashboard/organization/page.tsx:40-49 | the page starts with no profile, not editing, an empty form and loading |
| Organization.LoadOrganization | app/dashboard/organization/page.tsx:56-64 | a stored profile is shown and copied into the form; without one both stay; loading ends either way |
| Organization.HandleEdit | app/dashboard/organization/page.tsx:84-87 | editing opens the form filled with the profile, or `{}` |
| Organization.HandleCancel | app/dashboard/organization/page.tsx:89-92 | cancelling closes the form, resets it to the profile and leaves the profile unchanged |
| Organization.KeptOr | app/dashboard/organization/page.tsx:100-101 | the profile's field when truthy, the fallback otherwise |
| Organization.Merged | app/dashboard/organization/page.tsx:97-102 | form fields override the profile, profile fields absent from the form are kept, and `id`/`createdAt` are kept or freshly made |
| Organization.HandleSave | app/dashboard/organization/page.tsx:94-106 | saving shows and stores the merged profile and ends editing |
| Organization.SaveKeepsIdentity | app/dashboard/organization/page.tsx:100-101 | an existing id and creation date survive a save whatever the form says |
| Organization.FirstSaveStamps | app/dashboard/organization/page.tsx:100-101 | the first save stamps the fresh id and the current time |
| Organization.SaveIdempotent | app/dashboard/organization/page.tsx:94-106 | saving again with the same form changes nothing |
| Organization.UntouchedSaveKeepsProfile | app/dashboard/organization/page.tsx:84-106 | edit or cancel followed by save keeps the profile as it was |
| Organization.RevenueOf | app/dashboard/organization/page.tsx:73 | a missing or falsy revenue adds 0, a number adds itself, and text turns the total into text |
| Organization.AddTotal | app/dashboard/organization/page.tsx:73 | adding stays numeric exactly when both sides are numbers, and then it is the sum |
| Organization.SumRevenue | app/dashboard/organization/page.tsx:71-74 | the total after `forEach` adds each state's revenue, or 0 when it is falsy, in list order, starting from 0 |
| Organization.LoadStats | app/dashboard/organization/page.tsx:66-82 | the stats count the stored states and providers and sum the states' revenue in order |
| Organization.SumRevenueAppend | app/dashboard/organization/page.tsx:72-74 | the total over two lists one after the other is the total of their concatenation |
| Organization.MissingRevenueAddsNothing | app/dashboard/organization/page.tsx:73 | a state without revenue leaves the total unchanged |
| Organization.TextRevenuePoisonsTotal | app/dashboard/organization/page.tsx:73 | one non-empty text revenue makes the whole total text |
| Organization.NonNegativeRevenues | app/dashboard/organization/page.tsx:71-74 | non-negative numeric revenues give a non-negative numeric total |
| Json.Truthy | app/dashboard/page.tsx:64-70 | JavaScript truthiness: `null`, `false`, `0` and `""` are falsy and everything else is truthy |
| Dashboard.OnStats | app/dashboard/page.tsx:57-62 | `dashboard:stats` overrides exactly the payload's keys and keeps the others |
| Dashboard.TruthyOr | app/dashboard/page.tsx:67 | the payload's field when truthy, the previous figure otherwise |
| Dashboard.OnRevenue | app/dashboard/page.tsx:64-70 | `revenue:update` takes revenue and growth from the payload only when truthy, and changes nothing else |
| Dashboard.OnProviderCount | app/dashboard/page.tsx:72-77 | `provider:count` takes the provider figure from a truthy `count` and changes nothing else |
| Dashboard.ZeroRevenueIgnored | app/dashboard/page.tsx:67 | a revenue of 0 keeps the previous figure, as a missing one does |
| Dashboard.ZeroCountIgnored | app/dashboard/page.tsx:75 | a count of 0 leaves the figures unchanged |
| Dashboard.OnStatsIdempotent | app/dashboard/page.tsx:57-62 | applying one stats payload twice equals applying it once |
| Dashboard.FiguresStayPresent | app/dashboard/page.tsx:32-77 | none of the three events removes one of the six figures |
| Dashboard.Mount | app/dashboard/page.tsx:43-77 | without a stored user and organization the page redirects to `/` and subscribes nothing; otherwise it loads the demo figures and subscribes one handler to each of the three events |
| Dashboard.Cleanup | app/dashboard/page.tsx:79-83 | the cleanup removes the three handlers from their events and touches no other event |
| Dashboard.MountThenCleanupRestores | app/dashboard/page.tsx:57-83 | mounting a signed-in dashboard and cleaning up gives back the registry |
| Storage.GetOr | app/dashboard/layout.tsx:45 | a stored truthy value, or the fallback |
| Storage.SignedIn | app/page.tsx:23-31 | both `user` and `organization` are stored with a truthy value: the session both the sign-in page and the dashboard look for |
| SignIn.NameFor | app/page.tsx:65 | the demo account's name, or `User` for any other address |
| SignIn.AcceptedPairs | app/page.tsx:9-12 | only the two demo email/password pairs are accepted |
| SignIn.SignInPage.constructor | app/page.tsx:15-21 | the form starts empty, with no error, not loading and on the first step |
| SignIn.SignInPage.Mount | app/page.tsx:23-31 | a stored user and organization send the page to `/dashboard`; otherwise nothing is pushed |
| SignIn.SignInPage.EnterEmail | app/page.tsx:175-176 | typing sets the email |
| SignIn.SignInPage.EnterPassword | app/page.tsx:190-191 | typing sets the password |
| SignIn.SignInPage.EnterOtp | app/page.tsx:106-110 | the code field keeps at most six characters |
| SignIn.SignInPage.Back | app/page.tsx:139-141 | the back button returns to the first step |
| SignIn.SignInPage.HandleSignIn | app/page.tsx:33-51 | the code step opens exactly for an accepted pair; otherwise the error is set; loading is false afterwards |
| SignIn.SignInPage.HandleOTPVerify | app/page.tsx:53-80 | only `123456` stores the user with its name and routes to `/onboarding` without a stored organization, else `/dashboard`; a wrong code sets the error and neither stores nor routes; loading is false afterwards |
| SignIn.FirstSignIn | app/page.tsx:33-74 | a first visit with the admin account stores the admin user and goes to onboarding |
| SignIn.WrongInputsStoreNothing | app/page.tsx:41-77 | a wrong password never opens the code step, and a wrong code stores no user |
| SignIn.ReturningVisitor | app/page.tsx:23-31 | a stored session goes straight to the dashboard |
| SignIn.SignInPage.VerifyEnabled | app/page.tsx:126 | the verify button is enabled when not loading and exactly six characters are typed |
| SignIn.VerifyNeedsSixCharacters | app/page.tsx:126 | five typed characters leave the verify button disabled; a longer paste is cut to six and enables it |
| Layout.IsActive | app/dashboard/layout.tsx:91-92 | an item is highlighted on its exact path, and every item but `/dashboard` also under any path that begins with its href |
| Layout.DashboardOnlyExact | app/dashboard/layout.tsx:91-92 | the home item is highlighted exactly on `/dashboard` |
| Layout.PrefixActivates | app/dashboard/layout.tsx:91-92 | any other item is highlighted under every path that begins with its href |
| Layout.SiblingPathHighlightsStates | app/dashboard/layout.tsx:91-92 | `/dashboard/statesman` highlights States: no segment boundary is checked |
| Layout.AtMostOneActive | app/dashboard/layout.tsx:23-31 | no path highlights two items of the navigation |
| Layout.ActiveStartsWith | app/dashboard/layout.tsx:169-170 | a highlighted item's href always begins the path |
| Layout.NextTheme | app/dashboard/layout.tsx:54 | `dark` toggles to `light` and anything else to `dark` |
| Layout.ToggleInvolution | app/dashboard/layout.tsx:54 | toggling twice restores `light` and `dark`, and gives `light` from anything else |
| Layout.Shell.constructor | app/dashboard/layout.tsx:38 | the shell starts with the `light` theme over the given storage and document |
| Layout.Shell.LoadTheme | app/dashboard/layout.tsx:43-51 | the stored theme, `light` by default, is shown and set on the document; the `dark` class is only ever added |
| Layout.Shell.ToggleTheme | app/dashboard/layout.tsx:53-63 | the next theme is shown and stored, and the `dark` class is present exactly for `dark` |
| Layout.Shell.SignOut | app/dashboard/layout.tsx:65-70 | exactly `user` and `organization` are removed from storage and `/` is pushed |
| Layout.ToggleTwiceRestores | app/dashboard/layout.tsx:53-63 | two toggles restore the theme, the stored value and the class |
| Layout.LightLoadKeepsDarkClass | app/dashboard/layout.tsx:43-51 | loading `light` onto a document with the `dark` class leaves the class on |
| Layout.SignOutKeepsTheme | app/dashboard/layout.tsx:65-70 | sign-out keeps every other key, the theme among them |
| Middleware.Nonce | middleware.ts:7 | the nonce has no dash and only characters of the UUID |
| Middleware.CanonicalNonce | middleware.ts:7 | a canonical UUID gives its five groups concatenated, 32 characters |
| Middleware.Directives | middleware.ts:10-17 | the six directives in order, the second `script-src 'self' 'nonce-<nonce>'` |
| Middleware.Csp | middleware.ts:10-17 | the directives joined by `"; "` |
| Middleware.CspShape | middleware.ts:10-17 | the policy is a fixed head, the nonce, and a fixed tail |
| Middleware.CspBeginsWithDefault | middleware.ts:10-17 | the policy begins with `default-src 'self'` |
| Middleware.CspCarriesNonce | middleware.ts:12 | the nonce is read back from the script-src directive |
| Middleware.Respond | middleware.ts:4-20 | the response has `x-csp-nonce` equal to the nonce and a policy carrying the same nonce; all other headers are untouched |
| Middleware.DistinctNoncesDistinctPolicies | middleware.ts:7-18 | distinct nonces give distinct policies |

## Left out

- React mechanics are not modelled: rendering, state batching and effect re-runs on dependency changes. Effects are explicit method or function calls.
- A session change re-creates `connect` and re-runs the auto-connect effect (its cleanup disconnects, then it connects again). That is React dependency mechanics. Channel.RealtimeChannel.SessionChanged models only the token update and the re-authentication rule.
- The stale-socket race is not modelled. When `connect` replaces a CONNECTING transport, the old transport's close handler later forgets the new one. The model holds one transport; a close event may arrive in any state.
- Channel.Dispatch: the handler set is fixed for one dispatch. JavaScript iterates the live `Set`, so a handler that subscribes or unsubscribes during dispatch can change who runs.
- Channel.RealtimeChannel.Message: the order handlers run in is the set's choice, not insertion order.
- JSON encoding and decoding are not modelled; inbound frames are an already parsed `Inbound` value and outbound messages an `Envelope` record.
- Console logging and toasts are left out: they are output only.
- The `onerror` callback is left out: it only logs.
- The notification list load by `fetch` and the PATCH requests are network calls. A failed PATCH is an input event (`RevertRead`); the ids sent are `UnreadIds`.
- Subscriber payloads are taken to be JSON objects. A message whose `data` is missing or is not an object is left out: a field read on it throws inside the handler, which dispatch's per-handler catch swallows, and a spread of a string payload would add index keys. This concerns Dashboard.OnStats, Dashboard.OnRevenue, Dashboard.OnProviderCount, Matching.FromMatchNew, Matching.OnMatchScore, Notifications.OnNew and Notifications.FromBroadcast.
- A service's `basePrice` and `reimbursementRate` are `real`, as `parseFloat` reads them, and are only copied. `NaN` from an empty input is not modelled.
- `calculateProfitMargin`, `calculateMonthlyRevenue`, `Intl` currency and date formatting, and every random draw are left out (floating point, randomness and locale). A demo service's margin and random fields are inputs, as are a demo provider's random fields, the formatted date and the new ids and timestamps.
- Services.GenerateMockServices: the margin is drawn with the other inputs. The source computes it from the price and rate after the loops.
- Services.AddService: the margin is a parameter. The source computes it from the draft.
- The matching panel's `matching:metrics` subscriber is left out: it copies the payload. So are the demo request generator and `generateMatchScore` (random). A generated match enters the map as a `match:score` does.
- Matching.FromMatchNew: `new Date(data.timestamp)` is given as milliseconds; date parsing is not modelled.
- Matching.FormatWaitTimeRoundTrip: stated for non-negative seconds. A negative wait time (a future timestamp) prints as `-Ns`.
- Case mapping is ASCII only: `toLowerCase` of a non-ASCII letter is not modelled. Whitespace removal uses JavaScript's full `\s` set.
- JavaScript `NaN`, prototype keys of plain objects and UTF-16 lengths are not modelled.
- `null` and `undefined` are one JSON `Null`.
- Organization.RevenueOf: `true` counts as 1 and `false` as 0, as `+=` does. A revenue that is an array or object is treated like text.
- Organization.LoadStats: the stored states and providers are given parsed, and every stored state is an object. A stored value that is not an array is left out, and so is a state that is `null` or not an object: reading its `revenue` throws and `loadStats` stops.
- Organization.LoadOrganization: the stored profile is given parsed.
- The sign-in handlers' one-second delay and the loading window it opens are left out; each handler runs to completion.
- SignIn.SignInPage.HandleOTPVerify: it is stated for the flow as rendered. The name's fallback to `User` holds for any address.
- The dashboard shell's mobile menu is left out: it is presentation only. So are the user menu and the page content.
- Channel.MergeOptions: an option key given with the value `undefined` is treated as left out. The spread would copy the `undefined` and override the default.
- The middleware's `/admin` matcher configuration is routing configuration and is left out.
- The UUID's randomness is left out: the UUID is a parameter.
- The real transport's closing handshake is left out: the close code of a disconnect is returned for the caller to deliver as a close event.
- app/onboarding, the analytics pages, the provider and state detail pages, the matching page's settings, the WebSocket context, the connection status and notification bell components, the UI components, the auth callback route and the root layout are not part of this model.
