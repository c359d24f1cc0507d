# Accountable India — a verified model of the civic dashboard's logic

Accountable India is a React dashboard for following Indian politics and civic
life. It lists and rates leaders, audits their legal records, tracks manifesto
promises, files civic complaints, and shows live events, elections, a forum and a
notification bell. Every piece of intelligence comes from one AI query executor.
That executor asks Gemini first. When Gemini fails on a search-enabled query, it
falls back to a Serper web search followed by a DeepSeek chat completion. A small
local "API" keeps accounts, the session and complaints in the browser's key-value
store.

This project models that logic in Dafny and proves what it promises:

- **The executor and its callers** (`GeminiService`, `FallbackService`, over the wire types in `Ai`):
  - which engine answers, and which requests are sent;
  - when an error propagates;
  - how citations and maps links are filtered and ordered;
  - how the fallback builds its context, citations and messages;
  - how callers post-process the raw text: the `"null"`/`"[]"` defaults, the code-fence cut, stamping sources, dates, ids and `read: false`.
- **The list logic of each screen**, as pure functions with lemmas:
  - `LeaderDirectory`: search, filter, sort, discover, batch-load, add, follow and rate leaders.
  - `LegalWatch`: legal-record filters, badges and audits.
  - `Complaints`: the complaint filter, filing, and the location filled from a maps lookup.
  - `Promises`: merging synced promises, the category list, the filtered list and its counters.
  - `LiveEvents`: counters, the tab listing and the "time ago" text.
  - `Forum`: likes and publishing.
  - `Header`: unread count and mark-all-read.
  - `Dashboard`: the status counters.
  - `Elections`: the record filter and the date badge.
- **The component state**: a class per screen, whose handlers are methods with `modifies` clauses and full postconditions.
- **The application shell** (`AppShell`): the theme, the screen, and the view transitions.
- **The key-value store API** (`Backend`): a class over `map<string, Stored>`.

How the outside world appears in the model:

- The remote services are function parameters: the `Backends` datatype bundles Gemini, Serper and DeepSeek. An awaited call yields `Outcome<T> = Answered(value) | Threw(error)`. Each executor run also returns the list of requests it sent.
- `JSON.parse` is a `Parser` parameter. Callers rely only on it reading `"null"` and `"[]"`.
- Clocks, `Math.random` draws, generated ids, `toLocaleDateString` and rounding are parameters too.
- Each React handler is modelled as one atomic step, from its guard to its last state update. The awaited results it receives are passed in.

Shared modules:

- `Wrappers`: `Option`.
- `Text`: ASCII lower-casing, `indexOf`/`includes`, `split`/`join`, `trim`, decimal formatting.
- `Lists`: `filter`, counting, and removing duplicates while keeping first appearance.
- `Records`: the records and unions of `types.ts`.

## Model

| member | source | states |
|---|---|---|
| GeminiService.PrimaryRequest | services/geminiService.ts:19-27 | The search tool is requested iff `useSearch` is set. The JSON mime type is set iff a schema is given, and the maps tool never is. The model, contents and schema are passed through. |
| GeminiService.WebSources | services/geminiService.ts:29-33 | At most one source per chunk. Every source has a non-empty uri and title. |
| GeminiService.WebSourcesExactly | services/geminiService.ts:29-33 | Every source comes from a chunk whose `web` part has a non-empty uri and title. Every such chunk yields its `{title, uri}`. |
| GeminiService.WebSourcesAppend | services/geminiService.ts:31-33 | Source extraction distributes over concatenation, so sources keep the chunks' order. |
| GeminiService.WebSourcesAllCitable | services/geminiService.ts:31-33 | When every chunk is citable, there is exactly one source per chunk, position by position. |
| GeminiService.ExecuteWithFallback | services/geminiService.ts:11-49 | Gemini is always asked first. On success the result is its text ("" when missing) with its web sources, tagged Gemini. If Gemini throws on a search query, the fallback's requests follow and its outcome is the result. If Gemini throws on any other query, that error is rethrown after a single request. The engine is Gemini iff Gemini answered. |
| GeminiService.FallbackUnusedUnlessNeeded | services/geminiService.ts:36-47 | Unless Gemini threw on a search-enabled query, the outcome is the same whatever the fallback services do. |
| GeminiService.ParsedData | services/geminiService.ts:111-135 | `JSON.parse(data \|\| "[]")` (or `"null"`): an executor or parse error propagates; a non-empty text is parsed; an empty text yields the empty list (or null). |
| GeminiService.SourcesJson | services/geminiService.ts:164 | The citations become a JSON array of `{title, uri}` objects, one per citation, in order. |
| GeminiService.LegalStandingQuery | services/geminiService.ts:138-157 | The audit query: the flash model, a prompt naming the leader and constituency, the legal-standing schema, search enabled. |
| GeminiService.StampedStanding | services/geminiService.ts:161-165 | Every parsed field is kept except the two stamped ones. `lastUpdated` is today's date and `verificationSources` is the executor's sources. |
| GeminiService.FetchLeaderLegalStanding | services/geminiService.ts:138-166 | Executor and parse errors propagate. A falsy parsed value, including the one from an empty answer, gives null. Otherwise the parsed fields are stamped with the date and the sources. |
| GeminiService.NotificationsQuery | services/geminiService.ts:189-194 | The notifications query is search-enabled and carries the notifications schema. |
| GeminiService.StampedNotification | services/geminiService.ts:197-201 | `{...n, id, read: false}`: the spread fields are kept except `id` and `read`, which become the drawn id and false. |
| GeminiService.FetchCivicNotifications | services/geminiService.ts:168-202 | One notification per parsed item, in order, each unread and carrying the id drawn for its position. Errors propagate. A parsed non-array throws a TypeError. |
| GeminiService.MapsLinks | services/geminiService.ts:279-282 | Links come exactly from the chunks with a maps uri. The title defaults to the given text, so every link has an address and a title. |
| GeminiService.MapsLinksAppend | services/geminiService.ts:280-282 | Link extraction distributes over concatenation, so links keep the chunks' order. |
| GeminiService.RetrievalPoint | services/geminiService.ts:274 | A position is sent iff both coordinates are present and non-zero. |
| GeminiService.PlaceRequest | services/geminiService.ts:269-276 | The maps request for a place: the maps model, the Google Maps tool, no schema, and a retrieval point iff both coordinates are truthy. |
| GeminiService.SearchPlaceOnMaps | services/geminiService.ts:266-289 | Only Gemini is asked. The answer is its text and its maps links titled 'Location' by default. Any error gives "Location lookup limited." and no links. |
| GeminiService.ServicesRequest | services/geminiService.ts:294-301 | The nearby-services request: the maps model, the Google Maps tool, no schema, and the given position as retrieval point. |
| GeminiService.FindNearbyCivicServices | services/geminiService.ts:291-310 | One `{name, link}` per maps link (name defaults to 'Service'), in order; any error gives `[]`. |
| GeminiService.FencedPayload | services/geminiService.ts:413-414 | Without a json code fence the text is unchanged. Otherwise the result is exactly what follows the first json fence, cut at the next json fence and then at the first plain fence, each found by `indexOf`. So it starts right after the first json fence, contains no fence, and is followed by a fence or the end of the text. |
| GeminiService.FetchLiveEventsAndProjects | services/geminiService.ts:386-417 | Executor errors propagate. An unfenced answer is trimmed and parsed, and a parse error propagates. An empty answer parses as `[]`. The sources are the executor's. |
| FallbackService.SearchRequest | services/fallbackService.ts:14-21 | The Serper request carries the raw prompt as `q` and the country hint "in". |
| FallbackService.Block | services/fallbackService.ts:25 | Each search hit is rendered as a block starting "Title: ". |
| FallbackService.Blocks | services/fallbackService.ts:24-25 | One block per hit, in result order. |
| FallbackService.Context | services/fallbackService.ts:24-26 | The context is the placeholder iff there are no hits, because an empty join is falsy. Otherwise it is the blocks joined by blank lines. |
| FallbackService.JoinedBlocksOpenWithTitle | services/fallbackService.ts:24-26 | A non-empty join starts with "Title: ", so it is neither "" nor the placeholder. |
| FallbackService.Citations | services/fallbackService.ts:28-31 | One `{title, uri: link}` per hit, in order; `[]` when `organic` is absent. |
| FallbackService.SystemMessage | services/fallbackService.ts:34-36 | With a schema, the parser preamble followed by exactly the schema text. Without one, the fixed summariser text. |
| FallbackService.SystemMessageInjective | services/fallbackService.ts:34-36 | The system message determines whether a schema was given, and which one. |
| FallbackService.UserMessage | services/fallbackService.ts:48 | The message is exactly "CONTEXT:\n", the context, the separator "\n\nQUERY: " and the prompt, in that order. |
| FallbackService.ChatRequestFor | services/fallbackService.ts:44-51 | The model is `deepseek-chat`, with a system then a user message. The response format is `json_object` iff a schema is given. |
| FallbackService.QueryDeepSeekWithSerp | services/fallbackService.ts:11-66 | The search comes first, and its failure is rethrown before any chat request. A chat failure or an empty `choices` rethrows. An answer is the first choice's content, tagged DeepSeek+SERP, with the search citations. |
| FallbackService.FallbackCitesSearchHits | services/fallbackService.ts:28-31 | Whatever the chat model says, a fallback answer cites exactly the search hits, in order. |
| Ai.SpreadFields | services/geminiService.ts:162 | Spreading an object copies its fields. Spreading an array copies one entry per index, and spreading a string one one-character string per index. Spreading null, a boolean or a number copies nothing. |
| LeaderDirectory.Shown | components/Leaders.tsx:72-79 | The visible leaders are a subsequence of the list: every leader matching the search, party and state filters, and no other. |
| LeaderDirectory.EverythingShownWithoutFilters | components/Leaders.tsx:72-79 | An empty search with both wildcards lists every leader. |
| LeaderDirectory.SwapDown | components/Leaders.tsx:81-85 | Exchanges two neighbouring cells, leaves the rest, and keeps the multiset. |
| LeaderDirectory.SortByRating | components/Leaders.tsx:81-85 | The in-place sort leaves the array ordered by rating in the chosen direction and a permutation of its input. The order of equal ratings is not stated. |
| LeaderDirectory.FilteredLeaders | components/Leaders.tsx:72-87 | The result holds exactly the leaders matching the search (name or constituency) and both filters, each as often as in the list. It is ordered by rating, descending for 'Highest Rated'; the order of equal ratings is not stated. |
| LeaderDirectory.Scaled | components/Leaders.tsx:118-121 | `Math.floor(u * n)` lies in [0, n). |
| LeaderDirectory.Discovered | components/Leaders.tsx:112-122 | A discovered leader keeps every profile field (name, role, party, constituency, state, since-year), has rating 3.0, no votes, no standing and is not followed. Attendance is 60 plus the scaled first draw (60-99); bills, debates and questions are the scaled draws. |
| LeaderDirectory.WithDiscovered | components/Leaders.tsx:110-124 | The list is unchanged when the lower-cased name is taken. Otherwise the new leader is prepended to the unchanged list. Either way the name is then listed. |
| LeaderDirectory.DiscoveryKeepsNamesDistinct | components/Leaders.tsx:110-124 | Discovery never creates two leaders with the same lower-cased name. |
| LeaderDirectory.Batched | components/Leaders.tsx:140-149 | A batched leader keeps every profile field and has no standing. Its rating is 3.0 plus twice the rating draw, in [3, 5); its votes, attendance and counts are the scaled draws (up to 99 votes, attendance 70-99). It is not followed. |
| LeaderDirectory.FormattedBatch | components/Leaders.tsx:140-149 | One formatted leader per profile, in order. |
| LeaderDirectory.AddedManually | components/Leaders.tsx:159-168 | The manual leader has the form's fields, rating 3.0, no votes, and zero attendance, bills, debates and questions. |
| LeaderDirectory.ToggledFollow | components/Leaders.tsx:193-195 | `isFollowed` flips on the leaders with this id; every other leader is unchanged. |
| LeaderDirectory.ToggleFollowTwice | components/Leaders.tsx:193-195 | Toggling twice restores the list. |
| LeaderDirectory.RatingCounted | components/Leaders.tsx:183-192 | On the matching leaders the vote count grows by one and only the rating may change otherwise. Other leaders are unchanged. |
| LeaderDirectory.LeadersPanel.constructor | components/Leaders.tsx:40-64 | The panel starts with the given list, no search, both wildcards, highest rated first, no flags, and the initial form. |
| LeaderDirectory.ShouldAutoDiscover | components/Leaders.tsx:93 | The discovery condition: a query longer than three UTF-16 code units (`.length`) and no visible leader. Its use is `LeaderDirectory.LeadersPanel.AutoDiscoverScheduled`. |
| LeaderDirectory.LeadersPanel.AutoDiscoverScheduled | components/Leaders.tsx:90-97 | Discovery is scheduled iff the query is longer than three UTF-16 code units and no leader is visible. |
| LeaderDirectory.LeadersPanel.Listed | components/Leaders.tsx:72-87 | The screen shows the visible leaders as a multiset, in rating order. |
| LeaderDirectory.LeadersPanel.Discover | components/Leaders.tsx:104-131 | Nothing happens on a blank query or while discovering. A found profile is added unless its name is taken. A missing profile or a failure changes nothing, and the flag is lowered. |
| LeaderDirectory.LeadersPanel.LoadMore | components/Leaders.tsx:133-155 | Nothing happens while loading or after the end. A non-empty batch is appended after the unchanged list. An empty batch marks the end. The flag is lowered however the request ends (corrected, see Findings). |
| LeaderDirectory.LeadersPanel.AddManual | components/Leaders.tsx:157-172 | The form's leader is prepended, the dialog closes, and the form resets to its initial value. |
| LeaderDirectory.LeadersPanel.ToggleFollow | components/Leaders.tsx:193-195 | The list becomes `ToggledFollow` of the old list. |
| LeaderDirectory.LeadersPanel.UpdateRating | components/Leaders.tsx:183-192 | The list becomes `RatingCounted` of the old list. |
| LeaderDirectory.BatchLoadingAfterAsWritten | components/Leaders.tsx:133-155 | As written, after an attempted load the loading flag stays up iff the request threw. |
| LeaderDirectory.FailedBatchLocksLoadMore | components/Leaders.tsx:134-154 | As written, one failed batch request leaves the flag up for good, whatever later requests would return. |
| LegalWatch.Listed | components/LeaderLegalWatch.tsx:50-60 | A leader is listed when its lower-cased name or constituency contains the lower-cased query and it passes the record filter. |
| LegalWatch.FilteredLeaders | components/LeaderLegalWatch.tsx:49-62 | `filteredLeaders` is a subsequence of the leaders holding every listed leader and no other. |
| LegalWatch.FilterNarrowsSearch | components/LeaderLegalWatch.tsx:49-62 | 'All' lists exactly the search matches. Each record filter's list is the 'All' list filtered by that record test, in the same order. |
| LegalWatch.UnauditedOnlyUnderAll | components/LeaderLegalWatch.tsx:55-59 | A leader without a legal standing passes only the 'All' filter, so its case count counts as 0. |
| LegalWatch.PassesLegalFilter | components/LeaderLegalWatch.tsx:56-59 | 'All' keeps everyone; every other filter keeps only audited leaders; a leader the Jail filter keeps always shows the rendered 'J' badge. |
| LegalWatch.CriminalBadge | components/LeaderLegalWatch.tsx:200 | The 'C' badge: some case on record. Its match with the Criminal filter is `LegalWatch.BadgesMatchFilters`. |
| LegalWatch.JailBadgeAsWritten | components/LeaderLegalWatch.tsx:201 | The 'J' badge as rendered: a jail history that, lower-cased, is not "none". |
| LegalWatch.JailBadge | components/LeaderLegalWatch.tsx:201 | The corrected 'J' badge: the rendered test, with "no record" excluded too (see Findings). |
| LegalWatch.CorruptionBadge | components/LeaderLegalWatch.tsx:202 | The 'A' badge: at least one corruption allegation. Its match with the Corruption filter is `LegalWatch.BadgesMatchFilters`. |
| LegalWatch.BadgesMatchFilters | components/LeaderLegalWatch.tsx:56-58 | An audited leader shows each badge (C, A, and the corrected J: the rendered test with "no record" also excluded) iff it passes the matching filter. |
| LegalWatch.JailBadgeGap | components/LeaderLegalWatch.tsx:201 | The rendered 'J' badge and the Jail filter (line 57) disagree exactly on a history reading "no record" in any letter case; wherever the filter keeps a leader the badge shows. |
| LegalWatch.NoRecordShowsJailBadge | components/LeaderLegalWatch.tsx:201 | As written, a "No Record" jail history shows the 'J' badge although the Jail filter excludes the leader. |
| LegalWatch.SyncedLegal | components/LeaderLegalWatch.tsx:66-73 | With data, only the leaders with this id get it as their standing, and the length and all other leaders are unchanged. Null data changes nothing. |
| LegalWatch.Audited | components/LeaderLegalWatch.tsx:88-97 | The discovered leader keeps every profile field (name, role, party, constituency, state, since-year), has rating 3.0, no votes, no standing and is not followed. Attendance is 70 plus the scaled first draw; bills, debates and questions are the scaled draws. |
| LegalWatch.FindByName | components/LeaderLegalWatch.tsx:83 | The result is the first leader with that lower-cased name, and it is absent iff no leader has it. |
| LegalWatch.AfterDiscoverAsWritten | components/LeaderLegalWatch.tsx:98-102 | As written, a successful audit maps over the list from before the insertion. |
| LegalWatch.StaleAuditDropsNewLeader | components/LeaderLegalWatch.tsx:98-102 | As written, a successful audit of a new leader leaves the old list, in which the selected id is absent. |
| LegalWatch.AfterDiscover | components/LeaderLegalWatch.tsx:98-102 | Corrected: the audit applies to the list that holds the new leader, one longer than before. |
| LegalWatch.DiscoveredLeaderKept | components/LeaderLegalWatch.tsx:98-102 | The new leader stays in front, carrying its audit when there is one, and the rest of the list is unchanged. |
| LegalWatch.SyncingAfterAsWritten | components/LeaderLegalWatch.tsx:64-75 | As written, the syncing flag stays up iff the lookup threw. |
| LegalWatch.LegalWatchPanel.constructor | components/LeaderLegalWatch.tsx:30-39 | The watch starts with the given list, nothing selected, no flags, an empty search and 'All'. |
| LegalWatch.LegalWatchPanel.Sync | components/LeaderLegalWatch.tsx:64-75 | Returned data is applied by `SyncedLegal`; a failure changes nothing. The flag is lowered whatever happens (corrected, see Findings). |
| LegalWatch.LegalWatchPanel.DiscoverAndAudit | components/LeaderLegalWatch.tsx:77-111 | See below the table. |
| Complaints.FilteredComplaints | components/CivicComplaints.tsx:64-70 | The category and status filters, each 'All' or an exact value. |
| Complaints.FilteredComplaintsExactly | components/CivicComplaints.tsx:64-70 | A complaint is listed iff both filters admit it. The list keeps the stored order, and two wildcards list everything. |
| Complaints.Fileable | components/CivicComplaints.tsx:140 | The submission guard: both title and description are non-empty. `Complaints.ComplaintDesk.Submit` changes nothing when it fails. |
| Complaints.Filed | components/CivicComplaints.tsx:142-155 | A filed complaint is 'Active' with the given id and date. The typed text is kept and an empty category becomes the first category. |
| Complaints.Located | components/CivicComplaints.tsx:106-118 | With a maps link, the location is the first link's title (or the coordinates when it is empty) and the maps link is its uri. Without one, only the location changes, to the coordinates. |
| Complaints.FiledIsListedAsActive | components/CivicComplaints.tsx:138-170 | A filed complaint is listed in front under its category and 'Active'. |
| Complaints.ComplaintDesk.constructor | components/CivicComplaints.tsx:35-58 | The desk starts with the saved list, the initial form, and both wildcards. |
| Complaints.ComplaintDesk.Submit | components/CivicComplaints.tsx:138-170 | Without a title or description nothing happens. Otherwise the filed complaint is prepended to the unchanged list and the form resets. |
| Complaints.ComplaintDesk.PositionLocated | components/CivicComplaints.tsx:98-128 | The form becomes `Located`, the list is unchanged, and the busy flag is lowered. |
| Complaints.ComplaintDesk.PositionUnavailable | components/CivicComplaints.tsx:129-133 | A geolocation error only lowers the busy flag. |
| Promises.Stamped | components/PromiseTracker.tsx:83-86 | Each incoming promise gets the id drawn for its position, and nothing else changes. |
| Promises.Unseen | components/PromiseTracker.tsx:88-89 | The surviving incoming promises are a subsequence of the incoming batch: exactly those whose lower-cased title no existing promise has. |
| Promises.Merged | components/PromiseTracker.tsx:88-91 | The existing list is the unchanged suffix of the result, which grows by at most the incoming count. |
| Promises.MergeKeepsOnlyNewTitles | components/PromiseTracker.tsx:88-91 | An incoming promise is added iff its lower-cased title is not already listed. The added ones keep their incoming order. |
| Promises.BatchNotDeduplicated | components/PromiseTracker.tsx:88-89 | Titles are checked only against the existing list, so a batch of new titles goes in whole. |
| Promises.TwinTitlesBothKept | components/PromiseTracker.tsx:88-89 | Two incoming promises with one title are both kept. |
| Promises.CategoryOptions | components/PromiseTracker.tsx:101-104 | The options open with 'All Categories', hold every promise's category, and list no category twice. |
| Promises.CategoriesOf | components/PromiseTracker.tsx:102 | The categories, one per promise, in order. |
| Promises.CategoryOptionsListEachOnce | components/PromiseTracker.tsx:101-104 | 'All Categories' comes first, then every category exactly once, in order of first appearance. |
| Promises.FilteredPromises | components/PromiseTracker.tsx:106-115 | The listing is a subsequence of the promises, each admitted by the query and both filters. |
| Promises.FilteredPromisesExactly | components/PromiseTracker.tsx:106-115 | A promise is listed iff the lower-cased query occurs in its title, description or authority and both filters admit it. With no query and two wildcards, everything is listed. |
| Promises.Stats | components/PromiseTracker.tsx:117-122 | The total is the listed count. |
| Promises.StatsWithinTotal | components/PromiseTracker.tsx:117-122 | Completed, in-progress and delayed count disjoint groups, so their sum is at most the total. |
| Promises.PromiseBoard.constructor | components/PromiseTracker.tsx:44-53 | The board starts with the saved list, no query, wildcards, no sync and no sources. |
| Promises.PromiseBoard.AutoSyncScheduled | components/PromiseTracker.tsx:63-75 | Typing schedules a sync iff the query is longer than three UTF-16 code units. |
| Promises.PromiseBoard.Sync | components/PromiseTracker.tsx:77-99 | Nothing happens while syncing. The query, or the default when it is empty, is looked up. A non-empty answer merges its unseen promises in front and replaces the sources. Otherwise nothing changes, and the flag is lowered. |
| LiveEvents.Stats | components/LiveEvents.tsx:70-74 | Each counter (Live, Upcoming, Ongoing) equals the length of that tab's listing. |
| LiveEvents.CompletedUncounted | components/LiveEvents.tsx:70-74 | Live, upcoming and ongoing plus completed add up to all events, so completed events are in no counter. |
| LiveEvents.FilteredEvents | components/LiveEvents.tsx:76-78 | The tab listing is a subsequence of the events, all with the tab's status. |
| LiveEvents.FilteredEventsExactly | components/LiveEvents.tsx:76-78 | The tab lists exactly the events with its status, in stored order, as many as its counter. |
| LiveEvents.TimeAgo | components/LiveEvents.tsx:80-86 | The text is "Never" iff there was no sync. |
| LiveEvents.HoursOfMinutes | components/LiveEvents.tsx:84 | Whole hours of whole minutes are the whole hours elapsed. |
| LiveEvents.TimeAgoReadsBack | components/LiveEvents.tsx:80-86 | "Just now" iff under a minute. Under an hour the digits before "m ago" read back as the whole minutes, and from an hour on the digits before "h ago" as the whole hours. |
| LiveEvents.LiveBoard.constructor | components/LiveEvents.tsx:27-39 | The board starts with the saved events and sync time, on the 'Live' tab. |
| LiveEvents.LiveBoard.SyncOnOpen | components/LiveEvents.tsx:63-68 | Opening the board syncs iff the last sync is more than thirty minutes old. |
| LiveEvents.LiveBoard.SyncData | components/LiveEvents.tsx:46-60 | A non-empty event list replaces the events and the sources and stamps the time. Anything else leaves all three unchanged, and the flag is lowered. |
| Forum.LikedPost | components/Forum.tsx:89-93 | `isLiked` flips and the count moves by one towards it; nothing else changes. |
| Forum.Liked | components/Forum.tsx:88-95 | Posts with this id are liked or unliked; every other post is unchanged. |
| Forum.LikeTwiceRestores | components/Forum.tsx:88-95 | Liking twice restores every post, count and flag included. |
| Forum.LikeShiftsTotal | components/Forum.tsx:88-95 | The feed's total likes move by the number of matching unliked posts minus the matching liked ones. |
| Forum.Publishable | components/Forum.tsx:65 | The posting guard: the trimmed draft is non-empty or some media is selected. `Forum.ForumBoard.CreatePost` changes nothing when it fails. |
| Forum.Published | components/Forum.tsx:68-81 | The new post has the author's name and avatar, tag 'General', no likes or comments, and media iff some is selected. Its id reads back as the clock value. |
| Forum.ForumBoard.constructor | components/Forum.tsx:12-47 | The board starts with the saved posts, an empty draft and no media. |
| Forum.ForumBoard.Like | components/Forum.tsx:88-95 | The posts become `Liked` of the old posts. |
| Forum.ForumBoard.CreatePost | components/Forum.tsx:63-86 | Nothing happens without text or media. Otherwise the post is prepended to the unchanged feed, the draft and media clear, and the posting flag is up. |
| Forum.ForumBoard.PostingSettled | components/Forum.tsx:85 | The delayed reset lowers the posting flag. |
| Header.UnreadCount | components/Header.tsx:27 | The unread count never exceeds the number of notifications. |
| Header.BadgeShownIffUnread | components/Header.tsx:27 | The count is positive iff some notification is unread. |
| Header.AllRead | components/Header.tsx:46-48 | Every notification becomes read; length, order and other fields are kept. |
| Header.AllReadClearsBadge | components/Header.tsx:27-48 | After marking all read nothing is unread, and marking again changes nothing. |
| Header.NotificationBell.constructor | components/Header.tsx:21-24 | The bell starts empty and idle. |
| Header.NotificationBell.Badge | components/Header.tsx:71-75 | The badge shows the unread count and is rendered iff something is unread. |
| Header.NotificationBell.FetchNotifs | components/Header.tsx:29-37 | A fetched list replaces the whole list. A failed fetch, as written, leaves the list and a raised flag. |
| Header.NotificationBell.MarkAllAsRead | components/Header.tsx:46-48 | The list becomes `AllRead` of the old list. |
| Dashboard.Stats | components/DashboardHome.tsx:78-83 | The total is the number of promises. |
| Dashboard.StatsWithinTotal | components/DashboardHome.tsx:78-83 | Completed, in-progress and delayed count disjoint groups, so their sum is at most the total. |
| Dashboard.StatsAgainstTracker | components/DashboardHome.tsx:80-82 | Completed and delayed agree with the promise tracker's counters. The tracker's in-progress count is larger by exactly the promises 'In Progress'. |
| Dashboard.DashboardView.constructor | components/DashboardHome.tsx:14-19 | The scope starts at the Centre. The selected state is the user's state, or 'Delhi' without one. |
| Dashboard.DashboardView.StateFetchScheduled | components/DashboardHome.tsx:55-59 | State intelligence is fetched iff the scope is 'State'. |
| Elections.FilteredRecords | components/ElectionUpdates.tsx:38-40 | Without data the listing is empty; with data it is a subsequence of the records, all with the tab's status. |
| Elections.FilteredRecordsExactly | components/ElectionUpdates.tsx:38-40 | Without data nothing is listed. With data, exactly the records with the tab's status are listed, in order. |
| Elections.SnapshotRows | components/ElectionUpdates.tsx:171 | The snapshot is drawn iff results exist and are non-empty. |
| Elections.BadgeOf | components/ElectionUpdates.tsx:164-165 | The top of the badge is the first '/'-separated field. |
| Elections.BadgeOfSlashDate | components/ElectionUpdates.tsx:164-165 | A day/month/year date shows the day on top and "month year" below. |
| Elections.BadgeOfPlainDate | components/ElectionUpdates.tsx:164-165 | A date without '/' shows whole on top, over a lone space. |
| Elections.ElectionBoard.constructor | components/ElectionUpdates.tsx:14-17 | The board starts loading, without data, on the 'Ongoing' tab, so nothing is listed. |
| Elections.ElectionBoard.FetchData | components/ElectionUpdates.tsx:19-30 | An answer replaces the data and the sources; a failure keeps both. Loading ends either way. |
| AppShell.IsDark | App.tsx:44-49 | `calculateTheme`: a fixed preference decides alone (dark iff 'dark'); on 'auto' it is light exactly from 06:00 to 17:59. |
| AppShell.ThemeSchedule | App.tsx:44-49 | 'dark' and 'light' win at every hour. On 'auto' the theme changes only at 05:00 to 06:00 and 17:00 to 18:00, and it is dark for exactly twelve hours. |
| AppShell.DarkHours | App.tsx:47-48 | An hour is in the set iff 'auto' is dark then, which is before 6 or from 18 on. |
| AppShell.DarkHoursCount | App.tsx:47-48 | The number of dark hours before each hour of the day. |
| AppShell.Shell.constructor | App.tsx:13-25 | The shell starts with no user, the sign-in view and initialising. The theme is 'auto' and the language 'en' unless something is saved. |
| AppShell.Shell.AuthChanged | App.tsx:31-40 | With a user, 'auth' becomes 'welcome' and other views stay. With no user, the shell resets to 'auth'. Initialisation is over. |
| AppShell.Shell.Mount | App.tsx:29-42 | Mounting delivers the stored session once. A stored user is kept and moves the sign-in view to the welcome view, leaving other views alone; no session clears the user and shows sign-in. Initialisation ends, and theme and language are unchanged. |
| AppShell.Shell.HandleLogin | App.tsx:71-74 | The user is set and the view is 'welcome'. |
| AppShell.Shell.HandleLogout | App.tsx:76-80 | The store drops only the session; the user is cleared and the view is 'auth'. |
| AppShell.Shell.HandleStartDashboard | App.tsx:82-84 | The view is 'dashboard'. |
| AppShell.Shell.CurrentScreen | App.tsx:90-124 | The splash shows iff initialising. Sign-in shows iff there is no user or the view is 'auth'. Otherwise the welcome page or the dashboard shows. |
| Backend.FirstWithEmail | services/backend.ts:19-20 | The result is the first user with the email, and it is absent iff no user has it. |
| Backend.EarlierAccountWins | services/backend.ts:19-20 | Appending a user never changes whom a known email finds, so a duplicate sign-up is shadowed. |
| Backend.DemoUser | services/backend.ts:25-36 | The demo account has id '1', the given email, 1000 credits and role 'Citizen'. |
| Backend.NewCitizen | services/backend.ts:41-49 | A signed-up user has role 'Citizen', 500 credits and a zero impact score. |
| Backend.SocialUser | services/backend.ts:63-72 | A social account is named after the provider, with a lower-cased provider mail domain and 1000 credits. |
| Backend.Created | services/backend.ts:101-106 | A created complaint has the given id and date and status 'Active'; the other fields are as submitted. |
| Backend.LocalStore.constructor | services/backend.ts:4-8 | The store holds the given map, each API key with its kind of value. |
| Backend.LocalStore.Login | services/backend.ts:14-37 | Returns the first stored user with the email, or else the demo account, and stores it as the session. The password plays no part. |
| Backend.LocalStore.Signup | services/backend.ts:39-58 | Exactly one user is appended, earlier entries are unchanged, and the session is that user. There is no duplicate check. |
| Backend.LocalStore.SocialLogin | services/backend.ts:61-75 | The provider account becomes the session; the user list is untouched. |
| Backend.LocalStore.Logout | services/backend.ts:77-79 | Only the session key is removed. |
| Backend.LocalStore.SubscribeToAuth | services/backend.ts:81-88 | The callback gets the session user, or null when there is none. |
| Backend.LocalStore.ListComplaints | services/backend.ts:92-96 | The stored list, or `[]` when none is stored. |
| Backend.LocalStore.CreateComplaint | services/backend.ts:97-110 | The created complaint is prepended to the stored list, which keeps its order. |
| Text.Utf16Length | components/Leaders.tsx:93 | `.length` counts UTF-16 code units: between the number of characters and twice it, and equal to it when every character is in the Basic Multilingual Plane. |
| Text.TwoEmojiAreFourUnits | components/PromiseTracker.tsx:66 | Two emoji are two characters but four code units, so such a query passes the "longer than three" test. |
| Text.IncludesIff | components/Leaders.tsx:74-75 | `includes` is true iff the text occurs at some position. |
| Text.SplitJoin | components/ElectionUpdates.tsx:164-165 | Splitting a join of separator-free parts on that separator gives the parts back. |
| Text.BlankIffAllWhitespace | components/Forum.tsx:65 | A trimmed text is empty iff every character is whitespace, over the full set of characters `trim` strips (ASCII blanks, no-break space, BOM, Unicode space separators, line and paragraph separators). |
| Text.NatToStringRoundTrip | components/LiveEvents.tsx:84-85 | The decimal text of a number reads back as that number. |
| Lists.FilterIsSubsequence | components/LiveEvents.tsx:76-78 | A filter result is an order-preserving sublist. |
| Lists.CountDisjoint | components/PromiseTracker.tsx:117-122 | Counts of two disjoint tests add up to the count of either. |
| Lists.DistinctKeepsFirstAppearanceOrder | components/PromiseTracker.tsx:101-104 | Duplicate removal keeps each value once, ordered by first appearance. |

The contract of `LegalWatch.LegalWatchPanel.DiscoverAndAudit` says:

- A blank query, or a call while discovering, changes nothing.
- A name already listed is selected, and audited only when it has no standing.
- A new name is prepended, selected and audited. The audit is applied to the list that holds the new leader (corrected, see Findings).
- A failed lookup is swallowed.
- The query is cleared at the end.

## Left out

- **Remote services.** The Gemini, Serper and DeepSeek calls are function parameters (`Backends`). The model does not cover HTTP status, streaming, API keys, or the `console` logging in the catch blocks.
- **Gemini sources.** `GeminiService.WebSources` returns each web reference as `{title, uri}`. Any other fields a `web` object carries are not modelled.
- **`JSON.parse` and `JSON.stringify`.** Parsing is a `Parser` parameter, and a schema is known only by its serialised text. The model does not cover turning parsed JSON into typed records (events, notifications, promises, standings). The screens' handlers receive already-typed results instead.
- **Randomness, clocks and locale.** `Math.random` ids and draws, `Date.now()`, `new Date().toLocaleDateString()` and `toISOString` are parameters. The draws are stated to lie in [0, 1).
- **Rounding.**
  - LeaderDirectory.RatingCounted: the rounding of the mean with `toFixed(1)` is a parameter, so only the count increment and "nothing else changes" are proved.
  - The `toFixed(6)` coordinate text is passed in.
  - Seat-percentage widths and other layout arithmetic are not modelled.
- **Persistence and timers.**
  - Each screen's `localStorage` persistence of its own state is not modelled.
  - Debounce timers, `setInterval` refreshes and the 300 ms posting reset are not modelled; `Forum.ForumBoard.PostingSettled` stands for the reset.
  - `Promise.all` on the dashboard, geolocation and FileReader callbacks, and the simulated `delay` of the local API are not modelled.
- **Atomic handlers.** Each handler is one step. Interleavings of two handlers awaiting at once are not modelled, so neither is a stale closure created by a concurrent update. The one stale closure inside a single handler is modelled (see Findings).
- **Lower-casing.** `toLowerCase` is modelled on ASCII letters only; Unicode case mapping is not.
- LeaderDirectory.SortByRating: `Array.prototype.sort` is stable, but the contract states only the rating order and the permutation; the order of leaders with equal ratings is left open (so too for `LeaderDirectory.FilteredLeaders`).
- Ai.SpreadFields: a string spreads one field per character, where JavaScript gives one per UTF-16 code unit, so a character above U+FFFF would give two surrogate halves.
- **Success flag.** Every local API call answers with `success: true`, so the model returns only the data.
- **Open unions.** Statuses and categories are the closed unions of `types.ts`. Values an AI answer might place outside them are not modelled.
- Complaints.Filed: the submitted record has every field present (the form always holds strings). The `|| ''` defaults for missing fields are therefore not exercised.
- LiveEvents.LiveBoard.SyncData: the handler receives the lookup's data already read as a list of events. A non-array value passing `data.length > 0` is not modelled.
- GeminiService.FetchLiveEventsAndProjects: the fenced case is stated through `GeminiService.FencedPayload`, not spelled out in this method's own contract.
- **State intelligence.** `fetchStateIntelligence`, national and election intelligence, dashboard insights, leader search and leader comparison are not modelled beyond their shared `JSON.parse(data || ...)` step (`GeminiService.ParsedData`). Their prompts and schemas only feed rendering.
- **Rendering.** Rendering-only and configuration files (national intelligence, login form wiring, chatbot streaming, Firebase initialisation) and all JSX layout and styling are not modelled.

## Findings

| source | as written | input that shows it | evidently intended | confidence | as-written member | corrected member |
|---|---|---|---|---|---|---|
| components/LeaderLegalWatch.tsx:98-102 | A new leader is prepended. Then `handleSyncLegalData` maps over the `leaders` captured before the insertion and replaces the whole list with that result. | A search for a name not yet listed whose profile is found and whose audit returns data. The new leader disappears and the selected id matches no one. | The audit is applied to the list that holds the new leader, which stays listed with its standing. | high, not executed | LegalWatch.StaleAuditDropsNewLeader | LegalWatch.DiscoveredLeaderKept |
| components/LeaderLegalWatch.tsx:201 | The 'J' badge tests only that the jail history, lower-cased, is not "none". | A standing with `jailHistory: "No Record"`: the badge shows, yet the Jail filter (line 57) excludes the leader. | The badge shows exactly when the Jail filter keeps the leader. | medium, not executed | LegalWatch.NoRecordShowsJailBadge | LegalWatch.BadgesMatchFilters |
| components/Leaders.tsx:134-154 | The batch request is awaited without `try`/`finally`. A rejection skips `setIsBatchLoading(false)`. | `discoverBatchLeaders` rejects, for example when Gemini and the fallback both fail. Every later "load more" returns at the guard. | The loading flag is lowered however the request ends. | high, not executed | LeaderDirectory.FailedBatchLocksLoadMore | LeaderDirectory.LeadersPanel.LoadMore |
| components/LeaderLegalWatch.tsx:64-75 | The audit is awaited without `try`/`finally`. A rejection skips `setIsSyncing(false)`, and the sync button stays disabled. | `fetchLeaderLegalStanding` rejects, for example on a parse error of the answer. | The syncing flag is lowered however the audit ends. | high, not executed | LegalWatch.SyncingAfterAsWritten | LegalWatch.LegalWatchPanel.Sync |
