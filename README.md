# Quick Poll client core, in Dafny

A model of the browser client of the Quick Poll application: a Next.js front
end where visitors create polls, vote, like, and watch counts change live.
The model covers:

- the endpoint configuration;
- the HTTP client and its `x-session-id` handling;
- the session provider that creates or reuses the stored session id;
- the socket connection manager, with its pending and confirmed poll subscriptions;
- the socket context provider and the global subscription store;
- the query hooks: how they build request URLs and unwrap responses, and what each mutation invalidates;
- the socket hooks that fold pushed poll events into the cached detail entry and the cached `/polls` pages;
- the create-poll form's editing and validation;
- the home feed's vote and like choices, "load more", and its subscription effect.

The query cache (react-query) is a value of four typed maps, one per
query-key family, held by a `QueryClient` object. JavaScript `Set`s that keep
insertion order are duplicate-free sequences. The transport, the clock, the
UUID generator and browser storage are parameters or small objects.

| file | module | models |
|---|---|---|
| optional.dfy | Optional | `Option` and `Result` |
| types.dfy | PollTypes | polls, options, votes, likes, filters, pages, the API envelope |
| js_strings.dfy | JsStrings | `trim`, `includes` and integer-to-string conversion |
| url_encoding.dfy | UrlEncoding | `URLSearchParams` serialisation, with its decoder |
| config.dfy | Config | src/config.ts |
| api_client.dfy | ApiClient | src/api/client.ts |
| session_provider.dfy | SessionProvider | src/components/providers/SessionProvider.tsx |
| socket_service.dfy | SocketService | src/lib/socket.ts |
| socket_provider.dfy | SocketProvider | src/components/providers/SocketProvider.tsx |
| poll_store.dfy | PollStore | src/store/pollStore.ts |
| query_cache.dfy | QueryCache | the query cache the hooks share |
| reconcile.dfy, reconcile_properties.dfy | Reconcile, ReconcileProperties | src/hooks/useSocket.ts |
| use_polls.dfy | UsePolls | src/hooks/usePolls.ts |
| create_poll_modal.dfy | CreatePollModal | src/components/ui/CreatePollModal.tsx |
| home_feed.dfy | HomeFeed | src/components/pages/HomeFeed.tsx |

Where the code departs from what its types and comments describe, the model
follows the code:

- A `poll_updated` event for the detail hook's poll writes the pushed record even when nothing was cached.
- Every cached `/polls` entry gets a fresh `updatedAt` on every collection event, including entries the event does not match.
- The session-list hooks read `response.data` as the whole page, as their declared `ApiResponse<PaginatedResponse<T>>` type says. `usePolls` instead reads `data` as the list and takes `pagination` from the envelope. Both readings are modelled as written.

## Model

| member | source | states |
|---|---|---|
| JsStrings.TrimStart | src/components/ui/CreatePollModal.tsx:55 | result is a suffix of the input; it starts with a non-white-space char or is empty; the dropped prefix is all white space |
| JsStrings.TrimEnd | src/components/ui/CreatePollModal.tsx:55 | result is a prefix of the input; it ends with a non-white-space char or is empty; the dropped suffix is all white space |
| JsStrings.Trim | src/components/ui/CreatePollModal.tsx:55 | `trim()` is the string with a blank prefix and a blank suffix cut off; it is empty exactly when the string is all white space; it never starts or ends with white space; an already trimmed string is kept |
| JsStrings.TrimIsPadded | src/components/ui/CreatePollModal.tsx:55 | removing a blank prefix and then a blank suffix leaves a contiguous middle of the string with only white space around it |
| JsStrings.Includes | src/config.ts:11 | `includes` holds iff the substring occurs at some index |
| JsStrings.DigitChar | src/hooks/usePolls.ts:22 | a digit below ten spells as a character '0'..'9' |
| JsStrings.NatToDecimal | src/hooks/usePolls.ts:22-23 | the decimal spelling is non-empty, all digits, and has no leading zero |
| JsStrings.DecimalRoundTrip | src/hooks/usePolls.ts:22-23 | reading the decimal spelling of n back gives n |
| JsStrings.IntToString | src/hooks/usePolls.ts:22-23 | `toString()` of a negative number is '-' followed by the spelling of its magnitude; otherwise it is the plain decimal spelling |
| Config.IsProduction | src/config.ts:2-16 | a set API variable means production; otherwise, in a browser, production iff the host name contains "vercel.app" or "quick-poll"; on the server, production iff NODE_ENV is "production" |
| Config.Resolve | src/config.ts:19-28 | each set variable is used verbatim; an unset one falls back to the production or local origin, with "/api" for the API URL; with neither set, the API URL is the socket URL plus "/api"; with only the API variable set, the socket URL is the production origin |
| Config.VercelHostIsProduction | src/config.ts:9-11 | a Vercel preview host with no variables uses the production backend for both URLs |
| Config.LocalhostIsDevelopment | src/config.ts:9-11 | localhost with no variables uses the local backend for both URLs, whatever NODE_ENV is |
| ApiClient.ApiClient.constructor | src/api/client.ts:5-16 | a new client has the configured base URL and no session id |
| ApiClient.ApiClient.Intercept | src/api/client.ts:18-24 | the request carries `x-session-id` exactly when the client holds a non-empty id; every other header, the verb, the URL and the body are unchanged |
| ApiClient.ApiClient.AdoptedSessionId | src/api/client.ts:31-35 | a held id is kept; otherwise a present, non-empty offered id is adopted; otherwise nothing changes |
| ApiClient.ApiClient.OnResponse | src/api/client.ts:30-36 | after a response the held id is the adopted one |
| ApiClient.ApiClient.SetSessionId | src/api/client.ts:44-46 | `setSessionId` overwrites the held id |
| ApiClient.ApiClient.Send | src/api/client.ts:18-41 | one intercepted request; a 2xx returns the body and runs the response interceptor; a network failure or non-2xx status rejects and keeps the session id |
| ApiClient.ApiClient.GetRequest | src/api/client.ts:48-51 | a GET goes out with the interceptor's headers; a transport failure is rejected as a network error and a non-2xx status as a status error, once and without retry, keeping the session id; a 2xx returns the body and adopts an offered session id only while none is held |
| ApiClient.ApiClient.PostRequest | src/api/client.ts:53-56 | the same three outcomes as GetRequest, for POST with a body |
| ApiClient.ApiClient.PutRequest | src/api/client.ts:58-61 | the same three outcomes as GetRequest, for PUT with a body |
| ApiClient.ApiClient.DeleteRequest | src/api/client.ts:63-66 | the same three outcomes as GetRequest, for DELETE |
| ApiClient.FirstSessionIdSticks | src/api/client.ts:31-35 | after two responses offering different ids, the first id is still held |
| SessionProvider.GetOrCreate | src/components/providers/SessionProvider.tsx:18-30 | in a browser, a stored non-empty id is reused and storage is untouched; otherwise the generated id is used and stored; on the server the generated id is used and storage is untouched; the chosen id is never empty |
| SessionProvider.GetOrCreateStable | src/components/providers/SessionProvider.tsx:20-26 | running get-or-create again in the browser returns the same id and storage, whatever the generator yields |
| SessionProvider.UseSession | src/components/providers/SessionProvider.tsx:47-53 | `useSession` fails with its message exactly when there is no provider, and otherwise returns the context |
| SessionProvider.LocalStorage.constructor | src/components/providers/SessionProvider.tsx:21 | storage starts with the given items |
| SessionProvider.SessionProvider.constructor | src/components/providers/SessionProvider.tsx:14 | the context state starts empty |
| SessionProvider.SessionProvider.RunEffect | src/components/providers/SessionProvider.tsx:16-35 | the mount effect leaves the get-or-create id in both the client and the context, and the get-or-create storage in the window |
| SessionProvider.StoredSessionReachesRequests | src/components/providers/SessionProvider.tsx:20-33 | once the effect has run with a stored id, every outgoing request carries exactly that id |
| SocketService.Add | src/lib/socket.ts:72 | `Set.add` keeps insertion order: the old elements come first, the new one is added once, and no duplicates appear |
| SocketService.Remove | src/lib/socket.ts:84-86 | `Set.delete` removes exactly that id; the others keep their order, and no duplicates appear |
| SocketService.Joins | src/lib/socket.ts:39-47 | one `join_poll` per id, in order |
| SocketService.JoinsOncePerId | src/lib/socket.ts:39-47 | replaying a duplicate-free pending list emits exactly one join per pending id, and only joins |
| SocketService.SocketService.constructor | src/lib/socket.ts:5-9 | no connection, no flag, nothing pending or joined |
| SocketService.SocketService.IsSocketConnected | src/lib/socket.ts:63-65 | usable exactly when the handler flag is set, and then a connection exists |
| SocketService.SocketService.Connect | src/lib/socket.ts:11-37 | returns the live connection when there is one; otherwise opens a new, not yet connected one; the subscriptions are untouched |
| SocketService.SocketService.RejoinAllPolls | src/lib/socket.ts:39-47 | while connected, appends one join per pending id in insertion order; otherwise emits nothing |
| SocketService.SocketService.OnConnect | src/lib/socket.ts:23-26 | sets the flag and replays every pending join; neither set changes |
| SocketService.SocketService.OnDisconnect | src/lib/socket.ts:28-30 | clears the flag and keeps both sets for the next replay |
| SocketService.SocketService.Disconnect | src/lib/socket.ts:49-57 | with a connection, drops it and forgets every subscription; without one, does nothing |
| SocketService.SocketService.JoinPoll | src/lib/socket.ts:67-81 | a confirmed poll is a no-op; otherwise the id is added to pending, a connection is opened if none exists, and one join is emitted if connected |
| SocketService.SocketService.LeavePoll | src/lib/socket.ts:83-91 | unconfirms the id, removes it from pending unless asked not to, and emits one leave if connected |
| SocketService.SocketService.OnJoinedPoll | src/lib/socket.ts:135-142 | the confirmed id joins `joinedPolls` and stays pending |
| SocketService.SubscribeAcrossReconnect | src/lib/socket.ts:23-47 | subscribe, lose the connection, get it back: exactly one join on subscribing, exactly one replayed on reconnecting, and the poll is joined after confirmation |
| SocketProvider.UseSocket | src/components/providers/SocketProvider.tsx:65-71 | `useSocket` fails with its message exactly when there is no provider |
| SocketProvider.SocketProvider.constructor | src/components/providers/SocketProvider.tsx:10-14 | empty state, disconnected; mounting leaves the manager holding a socket: the connected one it already had, or else a freshly opened one; the subscriptions and emitted events are untouched |
| SocketProvider.SocketProvider.TransportConnected | src/components/providers/SocketProvider.tsx:16-19 | both flags are set and the pending joins are replayed |
| SocketProvider.SocketProvider.TransportDisconnected | src/components/providers/SocketProvider.tsx:16-20 | both flags are cleared; the subscriptions stay |
| SocketProvider.SocketProvider.JoinPoll | src/components/providers/SocketProvider.tsx:28-35 | `connectedPolls` gains the id even when the manager ignored it; the manager's pending list and emissions change as its own `joinPoll` says |
| SocketProvider.SocketProvider.LeavePoll | src/components/providers/SocketProvider.tsx:37-44 | the id leaves `connectedPolls`, pending and joined; one leave is emitted if connected |
| SocketProvider.SocketProvider.SetConnected | src/components/providers/SocketProvider.tsx:46-48 | only the flag changes |
| PollStore.Joined | src/store/pollStore.ts:8-14 | the id is connected; every other poll and the flag are as before |
| PollStore.Left | src/store/pollStore.ts:16-22 | the id is gone; every other poll and the flag are as before |
| PollStore.WithConnected | src/store/pollStore.ts:24-26 | only the flag changes |
| PollStore.JoinIdempotent | src/store/pollStore.ts:8-14 | joining twice is joining once |
| PollStore.JoinThenLeave | src/store/pollStore.ts:8-22 | joining a new poll and leaving it restores the state |
| PollStore.PollStore.constructor | src/store/pollStore.ts:5-6 | no polls, disconnected |
| PollStore.PollStore.JoinPoll | src/store/pollStore.ts:8-14 | the state becomes `Joined` |
| PollStore.PollStore.LeavePoll | src/store/pollStore.ts:16-22 | the state becomes `Left` |
| PollStore.PollStore.SetConnected | src/store/pollStore.ts:24-26 | the state becomes `WithConnected` |
| QueryCache.MarkAll | src/hooks/usePolls.ts:88-89 | same keys and data; every entry is flagged invalidated |
| QueryCache.Invalidate | src/hooks/usePolls.ts:88-89 | flags exactly the entries the key prefix matches; data and key sets are unchanged |
| QueryCache.QueryClient.constructor | src/hooks/usePolls.ts:79 | the cache starts empty |
| QueryCache.QueryClient.SetPollData | src/hooks/useSocket.ts:40 | writes one fresh detail entry |
| QueryCache.QueryClient.SetCollectionData | src/hooks/useSocket.ts:166-169 | writes one fresh collection entry |
| QueryCache.QueryClient.RemovePoll | src/hooks/useSocket.ts:128 | drops one detail entry |
| QueryCache.QueryClient.InvalidateQueries | src/hooks/usePolls.ts:88-89 | the state becomes `Invalidate` of the old state |
| Reconcile.Recount | src/hooks/useSocket.ts:50-53 | each option keeps its place and identity and takes the pushed count, or 0 when none is pushed |
| Reconcile.RecountOptional | src/hooks/useSocket.ts:50-53 | an absent options list becomes empty; otherwise each option is kept whole except that its vote count becomes the pushed count, or 0 when none is pushed |
| Reconcile.DetailUpdate | src/hooks/useSocket.ts:44-124 | `vote_added` adds one vote and records the session vote; `vote_changed` keeps the total; `vote_removed` takes one away, never below 0, and clears the vote; all three recount the options; like events set the pushed like total and the session's liked flag and nothing else |
| Reconcile.DetailsAfter | src/hooks/useSocket.ts:38-131 | only the hook's own poll is touched; `poll_updated` writes the pushed record; `poll_deleted` removes the entry; vote and like events rewrite a cached entry and leave an uncached one absent |
| Reconcile.HandleDetailEvent | src/hooks/useSocket.ts:38-131 | the detail map becomes `DetailsAfter`; nothing else changes |
| Reconcile.SummaryUpdate | src/hooks/useSocket.ts:173-270 | on a list page, `poll_updated` replaces the summary; vote events move the counters as on the detail entry; like events set the like total; the session fields are never written |
| Reconcile.UpdateMatching | src/hooks/useSocket.ts:177-179 | same length and order; exactly the polls with the event's id are rewritten |
| Reconcile.PageUpdate | src/hooks/useSocket.ts:165-169 | pagination is kept; matching polls are rewritten and the others are unchanged |
| Reconcile.CollectionsAfter | src/hooks/useSocket.ts:163-171 | every cached page is rewritten by `PageUpdate` and stamped now; no page is added or dropped |
| Reconcile.UpdatePollsQuery | src/hooks/useSocket.ts:163-171 | the collection map becomes `CollectionsAfter`; nothing else changes |
| Reconcile.HandleCollectionsEvent | src/hooks/useSocket.ts:173-270 | `poll_deleted` changes nothing on list pages; every other event updates every cached page |
| ReconcileProperties.RecountSum | src/hooks/useSocket.ts:50-53 | after recounting, the option votes add up to the pushed counts of those options |
| ReconcileProperties.RecountIdempotent | src/hooks/useSocket.ts:50-53 | recounting twice with the same map is recounting once |
| ReconcileProperties.VoteEventsKeepTally | src/hooks/useSocket.ts:44-95 | when the pushed counts agree with the event, the detail's total equals the sum of its option counts |
| ReconcileProperties.SummaryVoteEventsKeepTally | src/hooks/useSocket.ts:184-244 | the same for list summaries |
| ReconcileProperties.VoteAddedReplayBreaksTally | src/hooks/useSocket.ts:44-60 | a `vote_added` delivered twice leaves the total one above the option sum |
| ReconcileProperties.OverwritingEventsIdempotent | src/hooks/useSocket.ts:62-124 | `vote_changed` and the like events are idempotent, on details and on summaries |
| ReconcileProperties.LikeThenUnlike | src/hooks/useSocket.ts:97-124 | a like followed by an unlike that reports the pre-like total restores the poll, except that the liked flag is now false |
| ReconcileProperties.UnmatchedPageUnchanged | src/hooks/useSocket.ts:165-169 | a page without the event's poll is unchanged |
| ReconcileProperties.VoteAddedScenario | src/hooks/useSocket.ts:44-60 | concrete `vote_added` on a cached detail: total 6, counts from the event, session vote recorded |
| ReconcileProperties.LikeAddedAcrossPagesScenario | src/hooks/useSocket.ts:246-257 | one `like_added` updates the poll on every cached page it appears on |
| UsePolls.TruthyString | src/hooks/usePolls.ts:18-21 | a string filter is appended only when it is present and non-empty |
| UsePolls.TruthyNumber | src/hooks/usePolls.ts:22-23 | a number filter is appended only when it is present and non-zero, and then as its decimal spelling |
| UsePolls.Entry | src/hooks/usePolls.ts:18-23 | at most one entry per filter, present exactly when the filter is truthy |
| UsePolls.FieldOfRank | src/hooks/usePolls.ts:18-23 | the filter checked in each position |
| UsePolls.EntriesFrom | src/hooks/usePolls.ts:18-23 | entries come in source order, each carrying its filter's value |
| UsePolls.EntriesFromComplete | src/hooks/usePolls.ts:18-23 | every truthy filter at or after a position contributes its entry |
| UsePolls.EntriesSplit | src/hooks/usePolls.ts:18-23 | the entries appended so far, followed by the rest, make the whole query |
| UsePolls.ToParams | src/hooks/usePolls.ts:18-23 | one name/value pair per entry, in order |
| UsePolls.AppendStep | src/hooks/usePolls.ts:18-23 | appending one filter's entries extends the prefix by one position |
| UsePolls.SearchParams.constructor | src/hooks/usePolls.ts:17 | the parameter list starts empty |
| UsePolls.SearchParams.Append | src/hooks/usePolls.ts:18-23 | `append` adds one pair at the end |
| UsePolls.SearchParams.ToString | src/hooks/usePolls.ts:25 | `toString` is empty exactly when no pair was appended |
| UsePolls.AppendFilter | src/hooks/usePolls.ts:18-23 | each guarded `append` adds exactly that filter's entry |
| UsePolls.BuildPollsUrl | src/hooks/usePolls.ts:17-25 | the URL the query function builds equals `PollsUrl(filters)` |
| UsePolls.PollsUrlShape | src/hooks/usePolls.ts:25 | the URL is a bare "/polls" iff no filter is truthy; otherwise its query string parses back to exactly the truthy filters, in order |
| UsePolls.ZeroPageAndLimitOmitted | src/hooks/usePolls.ts:22-23 | page 0 and limit 0 are dropped from the query |
| UsePolls.ListResult | src/hooks/usePolls.ts:30-33 | a missing list becomes empty; missing pagination becomes page 1, limit 20, total 0 |
| UsePolls.SessionResult | src/hooks/usePolls.ts:60 | the whole page from `data`, or an empty page with the default pagination |
| UsePolls.IntToStringUnreserved | src/hooks/usePolls.ts:59 | a number's spelling needs no percent-encoding |
| UsePolls.SessionListUrlCarriesBoth | src/hooks/usePolls.ts:53-75 | the session list URLs are the path plus the serialisation of `page` and `limit`, defaulting to 1 and 20 |
| UsePolls.AfterSuccess | src/hooks/usePolls.ts:86-206 | each mutation's success: create and update write the returned poll and flag the list and session-poll pages; delete drops the detail and flags the same; votes flag the poll, the list and session-vote pages; likes flag the poll and the list pages; nothing else changes |
| UsePolls.OnMutationSuccess | src/hooks/usePolls.ts:86-206 | the calls in source order leave the cache at `AfterSuccess` |
| UsePolls.CreateAndUpdateAgree | src/hooks/usePolls.ts:86-117 | create and update of the same returned poll leave the same cache, despite their different call order |
| UrlEncoding.Utf8 | src/hooks/usePolls.ts:25 | 1 to 4 bytes; one byte, equal to the code point, exactly below 0x80; otherwise a lead byte of at least 0xC0 and continuation bytes in 0x80..0xBF |
| UrlEncoding.Utf8String | src/hooks/usePolls.ts:25 | the UTF-8 bytes of the characters, concatenated: at least one byte per character |
| UrlEncoding.HexDigit | src/hooks/usePolls.ts:25 | an upper-case hex digit whose value is the input |
| UrlEncoding.HexValue | src/hooks/usePolls.ts:25 | the value of a hex digit, below 16 |
| UrlEncoding.PercentBytes | src/hooks/usePolls.ts:25 | three safe characters per byte |
| UrlEncoding.EncodeChar | src/hooks/usePolls.ts:25 | unreserved characters stay, a space becomes '+', anything else becomes %HH of its UTF-8 bytes |
| UrlEncoding.Encode | src/hooks/usePolls.ts:25 | all output characters are safe; a string of unreserved characters is kept |
| UrlEncoding.Serialize | src/hooks/usePolls.ts:25 | `name=value` pairs joined by '&'; empty iff there are no pairs |
| UrlEncoding.SplitOn | src/hooks/usePolls.ts:25 | splitting gives at least one piece, as `split` does |
| UrlEncoding.AsBytes | src/hooks/usePolls.ts:25 | the pairs as UTF-8 bytes, in order |
| UrlEncoding.DecodePercentBytes | src/hooks/usePolls.ts:25 | decoding %HH triples gives the bytes back |
| UrlEncoding.DecodeEncodeChar | src/hooks/usePolls.ts:25 | decoding an encoded character gives its UTF-8 bytes |
| UrlEncoding.DecodeEncode | src/hooks/usePolls.ts:25 | decoding the encoding of a string gives its UTF-8 bytes |
| UrlEncoding.SplitOnPlain | src/hooks/usePolls.ts:25 | a string without the separator is one piece |
| UrlEncoding.SplitOnFirst | src/hooks/usePolls.ts:25 | splitting `a + sep + b` puts `a` first |
| UrlEncoding.BreakAtFirst | src/hooks/usePolls.ts:25 | breaking `a + sep + b` at the separator gives `a` and `b` |
| UrlEncoding.Pieces | src/hooks/usePolls.ts:25 | one serialised `name=value` text per pair, in order |
| UrlEncoding.SplitSerialized | src/hooks/usePolls.ts:25 | splitting a non-empty serialisation on '&' gives exactly the serialised pairs, in order |
| UrlEncoding.ParsePair | src/hooks/usePolls.ts:25 | cutting one serialised pair at its first '=' and decoding both halves gives the pair's name and value as UTF-8 bytes |
| UrlEncoding.ParseSerialize | src/hooks/usePolls.ts:25 | parsing a serialisation gives every pair back, as bytes, in order |
| CreatePollModal.AddOption | src/components/ui/CreatePollModal.tsx:26-33 | one more empty option below ten options; unchanged at ten |
| CreatePollModal.WithoutIndex | src/components/ui/CreatePollModal.tsx:39 | removes the element at an index in range; an index out of range changes nothing |
| CreatePollModal.RemoveOption | src/components/ui/CreatePollModal.tsx:35-42 | drops that option when more than two are left; otherwise unchanged |
| CreatePollModal.ChangeOption | src/components/ui/CreatePollModal.tsx:44-49 | replaces the option at the index; all other options, the title and the description are unchanged |
| CreatePollModal.EditsKeepCount | src/components/ui/CreatePollModal.tsx:26-49 | no edit takes the option count outside 2..10 |
| CreatePollModal.NonBlank | src/components/ui/CreatePollModal.tsx:60 | the kept options are non-blank options of the input, untrimmed |
| CreatePollModal.NonBlankAppend | src/components/ui/CreatePollModal.tsx:60 | the filter distributes over concatenation, so order is kept |
| CreatePollModal.NonBlankKeepsFilled | src/components/ui/CreatePollModal.tsx:60 | a list without blanks is kept whole |
| CreatePollModal.Validate | src/components/ui/CreatePollModal.tsx:55-71 | "title required" iff the title is blank; "options required" iff the title is filled and fewer than two options are filled; otherwise the payload has the trimmed title, the description trimmed or absent when blank, and the filled options |
| CreatePollModal.CreatePollForm.constructor | src/components/ui/CreatePollModal.tsx:20-24 | the initial form: empty title and description, two empty options |
| CreatePollModal.CreatePollForm.HandleAddOption | src/components/ui/CreatePollModal.tsx:26-33 | the form becomes `AddOption`; the option count stays in range |
| CreatePollModal.CreatePollForm.HandleRemoveOption | src/components/ui/CreatePollModal.tsx:35-42 | the form becomes `RemoveOption`; the option count stays in range |
| CreatePollModal.CreatePollForm.HandleOptionChange | src/components/ui/CreatePollModal.tsx:44-49 | the form becomes `ChangeOption` |
| CreatePollModal.CreatePollForm.HandleSubmit | src/components/ui/CreatePollModal.tsx:51-88 | a validation error is reported and nothing is sent; otherwise the payload is sent; on success the form resets and closes; on failure it is kept open as it was |
| CreatePollModal.CreatePollForm.HandleClose | src/components/ui/CreatePollModal.tsx:90-94 | closes unless the create mutation is pending |
| HomeFeed.FeedPolls | src/components/pages/HomeFeed.tsx:28 | the page's polls, or none before the first response |
| HomeFeed.FindIndex | src/components/pages/HomeFeed.tsx:52 | the first poll with the id, or none when no poll has it |
| HomeFeed.VoteChoice | src/components/pages/HomeFeed.tsx:50-67 | withdraws iff the found poll's session vote is the clicked option; otherwise casts a vote for it |
| HomeFeed.LikeChoice | src/components/pages/HomeFeed.tsx:69-85 | unlikes iff the found poll's liked flag is true |
| HomeFeed.WithdrawIffSelected | src/components/pages/HomeFeed.tsx:50-67 | a click withdraws exactly when the clicked option is the highlighted one |
| HomeFeed.AtMostOneSelected | src/components/pages/HomeFeed.tsx:180 | at most one option is highlighted |
| HomeFeed.LikeChoiceIgnoresLikeEvents | src/hooks/useSocket.ts:246-270 | a like event pushed to the feed's page rewrites only the like total, so the next click on that poll issues the same mutation as before the event |
| HomeFeed.FindIndexSameIds | src/components/pages/HomeFeed.tsx:52 | `find` gives the same index on two lists whose ids agree position by position |
| HomeFeed.ShowLoadMore | src/components/pages/HomeFeed.tsx:249 | "load more" shows iff there is pagination and its page is before the last |
| HomeFeed.PollIds | src/components/pages/HomeFeed.tsx:33 | the ids of the polls, in order |
| HomeFeed.Dedup | src/components/pages/HomeFeed.tsx:34 | no duplicates and the same members |
| HomeFeed.DedupKeepsDistinct | src/components/pages/HomeFeed.tsx:34 | a duplicate-free list is unchanged |
| HomeFeed.DedupExtends | src/components/pages/HomeFeed.tsx:34 | deduplication keeps the order of first occurrences |
| HomeFeed.JoinDisplayedPolls | src/components/pages/HomeFeed.tsx:31-38 | while connected with polls shown, joins each distinct id once; `connectedPolls` grows by exactly those ids; each ends up pending or confirmed |
| HomeFeed.RenderByLength | src/components/pages/HomeFeed.tsx:31-39 | with the dependencies as written, the effect does nothing when the length and the flag are unchanged |
| HomeFeed.RenderByLengthMissesNewPoll | src/components/pages/HomeFeed.tsx:31-39 | a refetch that swaps one poll for another of the same count leaves the new poll unsubscribed |
| HomeFeed.RenderByIds | src/components/pages/HomeFeed.tsx:31-39 | with the effect keyed on the ids, subscriptions only grow |
| HomeFeed.SameIdsSameSet | src/components/pages/HomeFeed.tsx:33 | equal id lists give equal id sets |
| HomeFeed.RenderByIdsKeepsAllJoined | src/components/pages/HomeFeed.tsx:31-39 | keyed on the ids, every displayed poll is subscribed after each render while connected |
| HomeFeed.Feed.Filters | src/components/pages/HomeFeed.tsx:22-26 | the feed asks for the newest polls, on its page, twenty at a time |
| HomeFeed.Feed.constructor | src/components/pages/HomeFeed.tsx:17 | the feed starts on page 1 |
| HomeFeed.Feed.HandleLoadMore | src/components/pages/HomeFeed.tsx:87-89 | the page advances by one |
| HomeFeed.Feed.Render | src/components/pages/HomeFeed.tsx:31-39 | keyed on the ids: after each render while connected, every displayed poll is in `connectedPolls`, and none is dropped |

## Left out

- The network transport, timeouts and axios's `baseURL` joining: a request records its base and path, and the transport is a function parameter.
- UUID generation: the generated id is a parameter of the session effect.
- localStorage: a map of strings, with no quota errors and no other tabs.
- The clock: the cache's `updatedAt` is a parameter `now`.
- React rendering, toasts, console logging, navigation away from a deleted poll, and the percentage rounding in the feed: presentation only.
- The title and description `onChange` setters of the create form: plain field assignments.
- react-query's refetching, `staleTime`, observers, garbage collection and `enabled: !!pollId`: the cache records only data and an invalidated flag.
- `usePoll`'s query function and the mutation functions' HTTP calls: they are single `ApiClient` calls, covered by `ApiClient.ApiClient.Send`.
- Event-listener registration and removal in the socket hooks and the provider (`useSocket.ts` lines 20-34 and 133-152), and events arriving from an orphaned connection: effect plumbing. The handlers are applied one event at a time.
- The ordering of concurrent asynchronous work (mutations racing socket events): each step is atomic in the model.
- Reconcile.CountFor: a missing `updatedCounts` map throws in the source; the model covers only a present map, where a missing key reads as 0.
- Lone UTF-16 surrogates: Dafny characters are Unicode scalar values, so the URL encoder never meets one.
- UrlEncoding.Parse: decodes to bytes and does not decode UTF-8 back to characters.
- JsStrings.IntToString: JavaScript numbers (`page`, `limit`, vote and like counts) are modelled as unbounded integers, so `toString()` of a fraction, of `NaN`/`Infinity`, and the exponent form used from 1e21 up are not modelled.
- UsePolls.TruthyNumber: `NaN` is falsy in JavaScript and would be omitted from the query string; the model has no `NaN`, so that case is not represented.
- UsePolls.AppendFilter: appends only integer `page`/`limit` values; fractional, `NaN` or very large numbers and their spellings are not modelled, for the same reason.
- The creator, category and tag fields of polls and the other pages and presentation components: not part of this model.

## Findings

| source | as written | input that shows it | evidently intended | confidence | as-written member | corrected member |
|---|---|---|---|---|---|---|
| src/components/pages/HomeFeed.tsx:31-39 | the subscription effect depends on `[polls.length, isConnected, joinPoll]`, and `joinPoll` is a stable callback (src/components/providers/SocketProvider.tsx:28-35) | connected, the feed shows `[old1]`; a refetch of the same query key returns `[new1]` with a different id (for example a new poll pushing one off a full first page of 20); the length and flag are unchanged, so the effect does not run and `new1` is never joined | every displayed poll is subscribed while connected, so the effect should depend on the ids shown | not executed | HomeFeed.RenderByLength, HomeFeed.RenderByLengthMissesNewPoll | HomeFeed.RenderByIds, HomeFeed.RenderByIdsKeepsAllJoined, HomeFeed.Feed.Render |
