# Real-estate assistant mockup, verified model

This project is a Dafny model of the logic inside a single-page real-estate assistant. The application is a React mockup. A user types a prompt and gets a chat whose right-hand side shows one of seven analysis panels. Those panels are agent grid, rent analytics (two versions), average rent, listing generator, property listing, valuation and undervalued properties. Around the chat sit pages for the user's listings, notifications and connected listing platforms.

The model has two main parts.

- **Chat store** (`chat_history.dfy`). This is the persisted ordered collection of chat sessions. It covers title derivation, appending messages, documents and deduplicated artifacts, newest-first listing and lookup by id. It also models the storage backend with its failure paths.
- **Workspace** (`chat_workspace.dfy`). This is the keyword router that picks exactly one panel for a typed message. It also covers the seed path that sets every panel flag independently, the render choice in a second priority order, and the effects that record one artifact per shown panel.

Around these sit small state reducers, one module per page or component:

| Module | Source | What it covers |
|---|---|---|
| `Greeting` | `greeting.ts` | greetings |
| `AppShellLayout` | `AppShellLayout.tsx` | the sidebar shell |
| `MyListings` | `MyListings.tsx` | the listings page |
| `Notifications` | `Notifications.tsx` | notifications |
| `ConnectPlatforms` | `ConnectPlatforms.tsx` | platforms |
| `GenerateListing` | `GenerateListing.tsx` | the listing editor |
| `RentAnalytics`, `RentAnalyticsV2` | the two rent tables | sortable tables |
| `PromptChatWindow` | `PromptChatWindow.tsx` | the stored profile, greeting and submit guard |

Three modules are shared:

- `Text` models JavaScript `trim`, the `\s+` collapse, ASCII `toLowerCase`, `includes` and code-point ordering.
- `Sorting` is a stable insertion sort that stands for `Array.prototype.sort` with a consistent comparator.
- `Lists` models `Array.prototype.filter`.

The code works by changing state in two kinds of places:

- the store's collection;
- the seven panel flags and the page states.

Both are classes with fields and `modifies` clauses. Each method's new state is tied to a pure function, and the properties are proved about those functions. Clock values and fresh ids are parameters. They stand for `Date.now`, `crypto.randomUUID` and `String(Date.now())`.

When `readAll` meets stored text that does not parse, it returns the in-memory fallback collection (`ChatHistory.ReadAll`).

## Model

| member | source | states |
|---|---|---|
| Text.Trim | src/lib/chatHistory.ts:84 | the result is a slice of the input with only whitespace removed around it, and has no whitespace at either end |
| Text.BlankIffAllWhitespace | src/lib/chatHistory.ts:85 | a string trims to empty exactly when every character is whitespace |
| Text.CollapseKeepsText | src/lib/chatHistory.ts:84 | collapsing whitespace runs keeps every other character, in order |
| Text.CollapseNormalizes | src/lib/chatHistory.ts:84 | after collapsing, the only whitespace is single spaces never next to each other (with `CollapseRun`: each run becomes exactly one space) |
| Text.CollapseRun | src/lib/chatHistory.ts:84 | a whitespace run followed by a non-whitespace character or the end collapses to exactly one space, and the rest is collapsed on its own |
| Text.CollapseOfNormalized | src/lib/chatHistory.ts:84 | collapsing an already normalized string changes nothing |
| Text.ContainsScan | src/pages/ChatWorkspace.tsx:91 | the scan is true exactly when the keyword occurs at some position (`includes`) |
| Text.ContainsAny | src/pages/ChatWorkspace.tsx:91 | true exactly when some keyword of the list occurs (`some` over `includes`) |
| Text.LocaleCompare | src/components/RentAnalyticsV2.tsx:112 | sign of the comparison: 0 exactly for equal strings, non-positive exactly when the first sorts first |
| Text.LexLeTransitive | src/components/RentAnalyticsV2.tsx:110-113 | the string order used for the name column is transitive (with `LexLeTotal`, `LexLeAntisymmetric`: a total order) |
| Sorting.SortBySorted | src/lib/chatHistory.ts:91 | the stable sort of any sequence under a total preorder is ordered |
| Sorting.InsertByTied | src/lib/chatHistory.ts:91 | inserting one element puts it in front of the elements tied with any key when it is tied with that key, and keeps their order otherwise |
| Sorting.SortByStable | src/lib/chatHistory.ts:91 | elements the comparator ranks equal keep their relative order |
| Sorting.SortByAllTied | src/components/RentAnalytics.tsx:141-142 | a comparator that ranks every pair equal leaves the sequence as it is |
| Lists.FilterAppend | src/pages/MyListings.tsx:247 | filtering distributes over concatenation, so the kept elements keep their order |
| Lists.FilterPartition | src/pages/ConnectPlatforms.tsx:163-164 | a predicate and its negation split a sequence: the two filtered lengths add up to its length |
| ChatHistory.NormalizeText | src/lib/chatHistory.ts:84 | the normalized text is empty exactly for blank input and has no whitespace at either end |
| ChatHistory.DeriveTitleFromText | src/lib/chatHistory.ts:83-87 | blank text gives "New chat"; a normalized text of at most 48 characters is the title; a longer one becomes its first 48 characters plus "…" (49 in all) |
| ChatHistory.DerivedTitleShape | src/lib/chatHistory.ts:83-87 | every derived title is non-empty, at most 49 characters, normalized and trimmed |
| ChatHistory.DeriveTitleIdempotent | src/lib/chatHistory.ts:83-87 | deriving a title from a derived title gives it back |
| ChatHistory.TrimKeepsText | src/lib/chatHistory.ts:84 | trimming removes whitespace only: the non-whitespace characters are kept in order |
| ChatHistory.NormalizeKeepsText | src/lib/chatHistory.ts:84 | normalizing removes whitespace only: the non-whitespace characters are kept in order |
| ChatHistory.DerivedTitleKeepsText | src/lib/chatHistory.ts:83-87 | a title that is not truncated keeps every non-whitespace character of the text |
| ChatHistory.NextTitle | src/lib/chatHistory.ts:159-164 | a non-blank title other than "New chat" never changes; otherwise a user message names the chat and an assistant message leaves the title |
| ChatHistory.CustomTitleIsFinal | src/lib/chatHistory.ts:159-164 | once a chat has a custom title, no sequence of messages changes it |
| ChatHistory.AssistantsKeepTitle | src/lib/chatHistory.ts:159-164 | a run of assistant messages leaves any title as it is |
| ChatHistory.UserMessageNamesChat | src/lib/chatHistory.ts:159-164 | a user message on an unnamed chat sets the derived title, and no later message changes it |
| ChatHistory.PromptSession | src/lib/chatHistory.ts:99-121 | the new session has the given id and clock value as both times and the derived title, with no documents or artifacts; it has no messages exactly for a blank prompt, and otherwise holds the untrimmed prompt as one user message |
| ChatHistory.EmptySession | src/lib/chatHistory.ts:128-141 | the new session is "New chat" with no messages, documents or artifacts, created and updated now |
| ChatHistory.WithMessage | src/lib/chatHistory.ts:152-172 | the message goes at the end, the title follows the title rule, `updatedAt` is now; id, creation time, documents and artifacts are kept |
| ChatHistory.WithDocument | src/lib/chatHistory.ts:177-192 | one document with the cleaned title goes at the end and `updatedAt` is now; everything else is kept |
| ChatHistory.FirstUserMessageNamesChat | src/lib/chatHistory.ts:159-164 | on a chat titled "New chat" or blank, any run of assistant messages leaves the title, and the first user message after them gives the derived title, which later messages keep unless it is "New chat" itself |
| ChatHistory.BlankPromptIsEmptyChat | src/lib/chatHistory.ts:99-145 | a chat created from a blank prompt has no messages and equals the empty chat |
| ChatHistory.DocumentTitle | src/lib/chatHistory.ts:177-195 | the stored document title is the trimmed title, or "Untitled document" when blank; never blank |
| ChatHistory.WithArtifact | src/lib/chatHistory.ts:197-219 | a title already present up to case leaves the session unchanged, `updatedAt` included; otherwise exactly one artifact is appended and `updatedAt` is now |
| ChatHistory.ArtifactIdempotent | src/lib/chatHistory.ts:197-219 | adding the same artifact twice is the same as adding it once |
| ChatHistory.ArtifactPresentAfterAdd | src/lib/chatHistory.ts:197-219 | after adding, the session holds an artifact with the cleaned title |
| ChatHistory.ArtifactTitlesStayDistinct | src/lib/chatHistory.ts:197-219 | artifact titles that were distinct up to case stay distinct |
| ChatHistory.ArtifactTitlesKept | src/lib/chatHistory.ts:197-219 | titles already present stay present |
| ChatHistory.GetChat | src/lib/chatHistory.ts:94-97 | a result exactly when some session has the id, and then it is the first such session |
| ChatHistory.NewerFirstIsPreorder | src/lib/chatHistory.ts:91 | the newest-first comparator is consistent (total and transitive) |
| ChatHistory.ListChats | src/lib/chatHistory.ts:89-92 | a permutation of the stored sessions, in non-increasing `updatedAt`, with sessions of equal `updatedAt` in stored order |
| ChatHistory.UpdateUnknownIsNoOp | src/lib/chatHistory.ts:147-175 | an update for an id no session has leaves the collection equal |
| ChatHistory.GetChatAfterUpdate | src/lib/chatHistory.ts:147-175 | after an id-preserving update, looking up the id gives the updated first session |
| ChatHistory.ReadAll | src/lib/chatHistory.ts:57-68 | no window or a throwing read gives the fallback; a missing entry or a non-array gives []; unparseable text gives the fallback; an array is returned |
| ChatHistory.WriteAll | src/lib/chatHistory.ts:70-81 | without a window or when `setItem` throws, only the fallback is assigned; otherwise the entry is replaced |
| ChatHistory.WriteThenReadWhenStorageWorks | src/lib/chatHistory.ts:57-81 | with working storage, or no window, a write is read back |
| ChatHistory.FailedWriteIsLost | src/lib/chatHistory.ts:57-81 | with `getItem` working and `setItem` failing, a written collection is not read back |
| ChatHistory.WriteAllFallback | src/lib/chatHistory.ts:70-81 | every write lands in the fallback; a failed `setItem` switches later reads over to it |
| ChatHistory.FallbackRoundTrip | src/lib/chatHistory.ts:57-81 | with the corrected backend, every write is read back whatever the storage does |
| ChatHistory.ChatStore.CreateChatFromPrompt | src/lib/chatHistory.ts:99-126 | one session in front of the unchanged old ones, found by its id; ids stay unique for a fresh id |
| ChatHistory.ChatStore.CreateEmptyChat | src/lib/chatHistory.ts:128-145 | one "New chat" session with nothing in it in front of the old ones; returns its id |
| ChatHistory.ChatStore.AppendMessage | src/lib/chatHistory.ts:147-175 | only the sessions with the id change, each gaining the message; an unknown id changes nothing |
| ChatHistory.ChatStore.AddDocument | src/lib/chatHistory.ts:177-195 | only the sessions with the id change, each gaining the document |
| ChatHistory.ArtifactAdded | src/lib/chatHistory.ts:197-219 | only the sessions with the id change, each as `WithArtifact` says; the length is kept |
| ChatHistory.ChatStore.AddArtifact | src/lib/chatHistory.ts:197-219 | the collection becomes `ArtifactAdded` of the old one; an unknown id changes nothing and unique ids stay unique |
| ChatHistory.Prepended | src/lib/chatHistory.ts:123-124 | a session put in front is what looking up its id finds, and ids stay unique when its id was new |
| ChatWorkspace.ArtifactNamesAreClean | src/pages/ChatWorkspace.tsx:115-148 | the fixed panel titles are stored unchanged by `addArtifact`'s cleaning |
| ChatWorkspace.SeedFlags | src/pages/ChatWorkspace.tsx:66-75 | each panel flag is set exactly when the seed mentions that panel, independently of the others |
| ChatWorkspace.FirstUserContent | src/pages/ChatWorkspace.tsx:61 | the content of the first user message when there is one (the `find`), "" when there is none; a non-empty result is that first user message's content |
| ChatWorkspace.SeedText | src/pages/ChatWorkspace.tsx:58-63 | empty without a chat id or when the chat is missing; otherwise the first user message's content when non-empty, else the chat title |
| ChatWorkspace.Route | src/pages/ChatWorkspace.tsx:91-112 | a routed panel is mentioned by the message; no route means no panel is mentioned |
| ChatWorkspace.RouteIsFirstMatch | src/pages/ChatWorkspace.tsx:91-112 | the route is the first panel in routing order that the message mentions |
| ChatWorkspace.Only | src/pages/ChatWorkspace.tsx:80-112 | exactly the one panel is shown |
| ChatWorkspace.Render | src/pages/ChatWorkspace.tsx:150-206 | the rendered panel is shown; no panel means none is shown |
| ChatWorkspace.RenderIsFirstShown | src/pages/ChatWorkspace.tsx:150-206 | the rendered panel is the first shown one in render order |
| ChatWorkspace.RenderShowsRoutedPanel | src/pages/ChatWorkspace.tsx:80-206 | after a routed message, the render shows the routed panel |
| ChatWorkspace.SingleMentionAgrees | src/pages/ChatWorkspace.tsx:66-112 | a seed mentioning exactly one panel routes and renders to that panel |
| ChatWorkspace.PromptChatSeed | src/pages/ChatWorkspace.tsx:58-63 | a chat created from a prompt seeds with the prompt, or "New chat" when it was blank |
| ChatWorkspace.OrdersDisagree | src/pages/ChatWorkspace.tsx:91-206 | routing order and render order pick different panels from the same flags exactly when none of the first four flags is set and the property listing is set with the valuation or undervalued flag, or those two are set together; routing then picks the listing (else the valuation), rendering the undervalued panel (else the valuation) |
| ChatWorkspace.SeedAndRouteDisagree | src/pages/ChatWorkspace.tsx:66-206 | typing a text as a message and seeding the panels from the same text show different panels exactly when the orders split on the text's mentions, as `OrdersDisagree` states |
| ChatWorkspace.RecordEffectsSound | src/pages/ChatWorkspace.tsx:115-148 | the artifact effects change only the open chat and keep its ids, keep artifact titles distinct, and record every shown panel's title |
| ChatWorkspace.RecordEffects | src/pages/ChatWorkspace.tsx:115-148 | the effects keep the number of sessions and leave every session without the open chat's id as it was |
| ChatWorkspace.ShownPanelsRecorded | src/pages/ChatWorkspace.tsx:115-148 | every shown panel's artifact is present in the open chat afterwards |
| ChatWorkspace.Workspace.ResetPanels | src/pages/ChatWorkspace.tsx:80-89 | every flag is false |
| ChatWorkspace.Workspace.ShowOnly | src/pages/ChatWorkspace.tsx:80-112 | exactly the given panel is shown and the chat id is kept |
| ChatWorkspace.Workspace.SetPanels | src/pages/ChatWorkspace.tsx:66-75 | the flags become the given ones and the chat id is kept |
| ChatWorkspace.Workspace.HandleChatMessage | src/pages/ChatWorkspace.tsx:77-113 | a routed message leaves exactly its panel shown; otherwise the flags are unchanged |
| ChatWorkspace.Workspace.ApplySeed | src/pages/ChatWorkspace.tsx:65-75 | with a chat open each flag is set from the seed independently |
| ChatWorkspace.Workspace.InitChat | src/pages/ChatWorkspace.tsx:44-56 | an existing chat id is reused; otherwise a chat is created from a non-blank prompt or an empty chat; the chat then exists |
| ChatWorkspace.Workspace.RecordArtifacts | src/pages/ChatWorkspace.tsx:115-148 | the collection becomes the result of the seven effects in declaration order |
| Greeting.TimeOfDayGreeting | src/lib/greeting.ts:6-21 | morning 5-11, evening 17-20, "Hello night Owl" at night only without a location, "Hello, name" otherwise |
| Greeting.LocationMattersOnlyAtNight | src/lib/greeting.ts:6-21 | whether a location is known changes the greeting exactly at hours 21-4 |
| Greeting.GreetingEndsWithName | src/lib/greeting.ts:6-21 | every greeting but the night-owl one ends with the name |
| Greeting.LocationSlangGreeting | src/lib/greeting.ts:23-38 | no or empty label gives none; "hawaii" or "spain" after trimming and lower-casing give "Aloha, " or "Ola, " plus the name; nothing else does |
| Greeting.NormalizeLabel | src/lib/greeting.ts:30 | no longer than the label, empty exactly for a blank label, and without upper-case ASCII letters |
| Greeting.MatchLocationFromCoords | src/lib/greeting.ts:40-50 | "Hawaii" exactly in its inclusive box, "Spain" exactly in its box, none outside both |
| Greeting.MatchedLocationHasSlang | src/lib/greeting.ts:23-50 | a location found from coordinates always has a slang greeting |
| AppShellLayout.GetActiveItem | src/layouts/AppShellLayout.tsx:11-17 | a "/notifications" prefix gives notifications; otherwise a "/platforms" prefix gives platforms; otherwise a "/my-listings" prefix gives my-listings; a result that is no section means no section prefixes the path, and then it is the home item |
| AppShellLayout.ActiveItemOf | src/layouts/AppShellLayout.tsx:37-41 | settings if open, else history if open, else the route's item |
| AppShellLayout.SectionRouteHighlightsSection | src/layouts/AppShellLayout.tsx:11-17 | a section's own route highlights that section |
| AppShellLayout.Shell.Navigate | src/layouts/AppShellLayout.tsx:31-35 | a path change to anywhere but the notifications page resets the unread count to 2 |
| AppShellLayout.Shell.HandleItemClick | src/layouts/AppShellLayout.tsx:43-74 | never both panels open; the clicked item is highlighted; settings and history open their panel; sections navigate keeping the home item; other items become the home item and go home |
| AppShellLayout.Shell.CloseSettings | src/layouts/AppShellLayout.tsx:96-99 | settings closed and the home item back to "api" |
| AppShellLayout.Shell.CloseHistory | src/layouts/AppShellLayout.tsx:108-111 | history closed and the home item back to "api" |
| AppShellLayout.Shell.OpenChat | src/layouts/AppShellLayout.tsx:112-115 | the path becomes "/chat", the query carries the chat id, and history closes |
| MyListings.FilteredListings | src/pages/MyListings.tsx:247-253 | every kept listing passes the status tab and has the query in its lower-cased title or address; every listing that passes both is kept |
| MyListings.EmptySearchShowsAll | src/pages/MyListings.tsx:247-253 | the "all" tab with an empty query shows the whole list |
| MyListings.StatusCountsSum | src/pages/MyListings.tsx:255-258 | the draft, active, sold and archived counts add up to the "all" count |
| MyListings.StatusCount | src/pages/MyListings.tsx:255-258 | the "all" count is the list length; a status count is the number of listings the status tab shows with no query |
| MyListings.DuplicateOf | src/pages/MyListings.tsx:264-275 | the copy has the new id, " (Copy)" after the title, draft status, no platforms, views or inquiries, today's dates, and the original's other fields |
| MyListings.DuplicateCounts | src/pages/MyListings.tsx:264-281 | duplicating adds one to the "all" and draft counts and leaves the other counts |
| MyListings.ToggledArchive | src/pages/MyListings.tsx:287 | the new status is draft exactly for an archived listing and archived otherwise |
| MyListings.ArchiveTwice | src/pages/MyListings.tsx:283-298 | archiving twice ends in draft unless the listing was archived; an active listing does not come back |
| MyListings.ArchiveIn | src/pages/MyListings.tsx:283-290 | only listings with the id change, and only in their status |
| MyListings.ArchiveUnknownIsNoOp | src/pages/MyListings.tsx:283-290 | an unknown id changes nothing |
| MyListings.DeleteIn | src/pages/MyListings.tsx:300-301 | the survivors are exactly the listings without the id |
| MyListings.DeleteIdempotent | src/pages/MyListings.tsx:300-301 | deleting twice is deleting once |
| MyListings.DeleteKeepsOrder | src/pages/MyListings.tsx:300-301 | deleting distributes over concatenation, so survivors keep their order |
| MyListings.MyListingsPage.HandleDuplicate | src/pages/MyListings.tsx:264-281 | the copy goes in front of the unchanged list |
| MyListings.MyListingsPage.HandleArchive | src/pages/MyListings.tsx:283-290 | the listings become `ArchiveIn` of the old ones for the listing's id |
| MyListings.MyListingsPage.HandleDelete | src/pages/MyListings.tsx:300-301 | the listings become `DeleteIn` of the old ones, and no listing with that id remains |
| Notifications.UnreadCount | src/pages/Notifications.tsx:139 | at most the list length, and zero exactly when every notification is read |
| Notifications.MarkAsReadIn | src/pages/Notifications.tsx:129-133 | only notifications with the id change, becoming read |
| Notifications.MarkAllAsReadIn | src/pages/Notifications.tsx:135-137 | the same notifications in the same order, each marked read |
| Notifications.MarkAsReadIdempotent | src/pages/Notifications.tsx:129-133 | marking twice is marking once |
| Notifications.MarkAsReadLowersUnread | src/pages/Notifications.tsx:129-139 | the unread count drops by the number of unread notifications with the id |
| Notifications.MarkAllClearsBadge | src/pages/Notifications.tsx:135-139 | after marking all read the unread count is 0 |
| Notifications.FilteredNotifications | src/pages/Notifications.tsx:141-144 | the whole list on "all", else exactly the notifications of that kind |
| Notifications.TabCount | src/pages/Notifications.tsx:200-204 | a tab's count is the length of the list that tab shows; "all" counts every notification |
| Notifications.TabCountsSum | src/pages/Notifications.tsx:200-204 | the four kind tabs add up to the "all" tab |
| Notifications.TogglePreference | src/pages/Notifications.tsx:146-148 | exactly the one switch flips |
| Notifications.ToggleTwice | src/pages/Notifications.tsx:146-148 | toggling twice restores the preferences |
| Notifications.ItemClickTarget | src/pages/Notifications.tsx:115-127 | no navigation exactly for "notifications"; platforms and my-listings go to their routes; every other item goes to "/" |
| Notifications.NotificationsPage.MarkAllAsRead | src/pages/Notifications.tsx:135-137 | every notification read and the badge at 0 |
| Notifications.NotificationsPage.MarkAsRead | src/pages/Notifications.tsx:129-133 | the list becomes `MarkAsReadIn` of the old one, the unread count does not grow, and tab, preferences and item are kept |
| Notifications.NotificationsPage.TogglePreferenceKey | src/pages/Notifications.tsx:146-148 | the preferences become `TogglePreference` of the old ones; nothing else changes |
| Notifications.NotificationsPage.HandleItemClick | src/pages/Notifications.tsx:115-127 | the item is highlighted and the navigation target is `ItemClickTarget` of it; the list, tab and preferences are kept |
| ConnectPlatforms.FilteredPlatforms | src/pages/ConnectPlatforms.tsx:157-161 | exactly the platforms whose lower-cased name contains the query and whose region passes the filter |
| ConnectPlatforms.ConnectedPlatforms | src/pages/ConnectPlatforms.tsx:163 | exactly the shown platforms that are connected |
| ConnectPlatforms.AvailablePlatforms | src/pages/ConnectPlatforms.tsx:164 | exactly the shown platforms that are not connected |
| ConnectPlatforms.DescriptionNotSearched | src/pages/ConnectPlatforms.tsx:157-161 | changing only the description never changes whether a platform is shown |
| ConnectPlatforms.SplitIsPartition | src/pages/ConnectPlatforms.tsx:163-164 | every shown platform is in exactly one of connected and available |
| ConnectPlatforms.ConnectIn | src/pages/ConnectPlatforms.tsx:175-181 | platforms with the id become connected, synced "Just now"; others unchanged; order and identity kept |
| ConnectPlatforms.DisconnectIn | src/pages/ConnectPlatforms.tsx:189-196 | platforms with the id become disconnected with no sync time; others unchanged |
| ConnectPlatforms.SyncIn | src/pages/ConnectPlatforms.tsx:203-208 | only the sync time of the id changes; connection state kept |
| ConnectPlatforms.SyncKeepsSplit | src/pages/ConnectPlatforms.tsx:157-164 | after a sync, the connected list is the old connected list with that platform synced, and the same holds for the available list; no platform moves between them and the order is kept |
| ConnectPlatforms.FilterSyncIn | src/pages/ConnectPlatforms.tsx:157-164 | a filter that ignores the sync time commutes with syncing |
| ConnectPlatforms.ConnectThenDisconnect | src/pages/ConnectPlatforms.tsx:172-201 | connecting then disconnecting leaves the platform disconnected with no sync time |
| ConnectPlatforms.ConnectPlatformsPage.HandleConnect | src/pages/ConnectPlatforms.tsx:166-170 | the platform is selected, the dialog open and the key empty |
| ConnectPlatforms.ConnectPlatformsPage.HandleConfirmConnect | src/pages/ConnectPlatforms.tsx:172-187 | nothing without a selection; otherwise the selected id is connected and the dialog closes, whatever key was typed |
| ConnectPlatforms.ConnectPlatformsPage.HandleDisconnect | src/pages/ConnectPlatforms.tsx:189-196 | the platforms become `DisconnectIn` of the old ones; dialog, selection, key, query and region are kept |
| ConnectPlatforms.ConnectPlatformsPage.HandleSync | src/pages/ConnectPlatforms.tsx:203-208 | the platforms become `SyncIn` of the old ones; dialog, selection, key, query and region are kept |
| GenerateListing.InitialFeaturesDistinct | src/components/GenerateListing.tsx:91 | the initial features are free of duplicates |
| GenerateListing.FeaturesAfterAdd | src/components/GenerateListing.tsx:110-118 | a non-blank input's trimmed text ends up among the features; when it was new it is appended once; otherwise nothing changes |
| GenerateListing.InputAfterAdd | src/components/GenerateListing.tsx:110-118 | the input is cleared exactly when its text was added as a new feature (or it was already empty); otherwise it stays |
| GenerateListing.AddKeepsDistinct | src/components/GenerateListing.tsx:110-118 | adding keeps the features free of duplicates |
| GenerateListing.FeaturesAfterRemove | src/components/GenerateListing.tsx:120-125 | exactly the other features remain |
| GenerateListing.RemoveUndoesAdd | src/components/GenerateListing.tsx:110-125 | removing a feature just added restores the list |
| GenerateListing.RemoveKeepsDistinct | src/components/GenerateListing.tsx:120-125 | removing keeps the features free of duplicates |
| GenerateListing.SelectedCount | src/components/GenerateListing.tsx:104 | at most the number of platforms, and zero exactly when none is selected |
| GenerateListing.PublishEnabled | src/components/GenerateListing.tsx:498 | publishing is enabled exactly when some platform is selected |
| GenerateListing.ToggleIn | src/components/GenerateListing.tsx:127-131 | only the platforms with the id flip their selection |
| GenerateListing.ToggleTwice | src/components/GenerateListing.tsx:127-131 | toggling twice is the identity |
| GenerateListing.SelectAllCounts | src/components/GenerateListing.tsx:133-139 | select-all counts every platform; deselect-all counts none and disables publishing |
| GenerateListing.Editor.HandlePublish | src/components/GenerateListing.tsx:146-153 | status published and the dialog closed |
| GenerateListing.Editor.HandleSaveDraft | src/components/GenerateListing.tsx:141-144 | status draft, nothing else changes |
| GenerateListing.Editor.HandleAddFeature | src/components/GenerateListing.tsx:110-118 | the features become `FeaturesAfterAdd` and the input `InputAfterAdd` of the old state; platforms and dialog kept; distinct features stay distinct |
| GenerateListing.Editor.HandleRemoveFeature | src/components/GenerateListing.tsx:120-125 | the features become `FeaturesAfterRemove` of the old ones; everything else kept; distinct features stay distinct |
| GenerateListing.Editor.HandleTogglePlatform | src/components/GenerateListing.tsx:127-131 | the platforms become `ToggleIn` of the old ones; everything else kept |
| GenerateListing.Editor.HandleSelectAll | src/components/GenerateListing.tsx:133-135 | every platform is selected, so the count is the number of platforms; everything else kept |
| GenerateListing.Editor.HandleDeselectAll | src/components/GenerateListing.tsx:137-139 | no platform is selected, so the count is 0; everything else kept |
| RentAnalytics.NextSort | src/components/RentAnalytics.tsx:132-139 | the clicked column is selected; the same column flips direction; a new one starts descending |
| RentAnalytics.ClickCycle | src/components/RentAnalytics.tsx:132-139 | a new column clicked twice is ascending, and a third click returns to descending |
| RentAnalytics.SortHeader.HandleSort | src/components/RentAnalytics.tsx:132-139 | a header click changes the sort state exactly as `NextSort` says (the second table's `handleSort` is the same) |
| RentAnalytics.Comparator | src/components/RentAnalytics.tsx:141-147 | NaN exactly on the name column; 0 with no column |
| RentAnalytics.NumericIsPreorder | src/components/RentAnalytics.tsx:143-146 | on a number column the comparator is consistent |
| RentAnalytics.SortRows | src/components/RentAnalytics.tsx:141 | the sorted table is a permutation of its rows |
| RentAnalytics.DeclaredOrderWithoutNumericColumn | src/components/RentAnalytics.tsx:141-146 | with no column, or the name column, the rows keep their declared order |
| RentAnalytics.NumericColumnOrdered | src/components/RentAnalytics.tsx:143-146 | ascending gives non-decreasing values, descending non-increasing |
| RentAnalytics.NumericColumnStable | src/components/RentAnalytics.tsx:141-147 | rows with equal values keep their declared order |
| RentAnalytics.GetPeriodData | src/components/RentAnalytics.tsx:158-160 | none exactly when no period has the name; otherwise the first period with it |
| RentAnalyticsV2.Comparator | src/components/RentAnalyticsV2.tsx:106-116 | 0 with no column; on the name column, non-positive exactly when the names are in order for the direction |
| RentAnalyticsV2.ComparatorIsPreorder | src/components/RentAnalyticsV2.tsx:106-116 | every column gives a consistent comparator |
| RentAnalyticsV2.SortRows | src/components/RentAnalyticsV2.tsx:106 | the sorted table is a permutation of its rows |
| RentAnalyticsV2.DeclaredOrderWithoutColumn | src/components/RentAnalyticsV2.tsx:106-107 | with no column the rows keep their declared order |
| RentAnalyticsV2.NameColumnOrdered | src/components/RentAnalyticsV2.tsx:110-113 | names in alphabetical order ascending, reverse order descending |
| RentAnalyticsV2.NumericColumnOrdered | src/components/RentAnalyticsV2.tsx:114-115 | ascending gives non-decreasing values, descending non-increasing |
| RentAnalyticsV2.SortIsStable | src/components/RentAnalyticsV2.tsx:106-116 | rows the comparator ranks equal keep their declared order |
| PromptChatWindow.CleanField | src/components/PromptChatWindow.tsx:101-108 | a non-blank string field is trimmed; anything else gives the default |
| PromptChatWindow.LoadProfile | src/components/PromptChatWindow.tsx:73-128 | unusable storage gives the default with the user name; a missing or unparseable entry gives the default and writes it; a parsed entry is cleaned field by field |
| PromptChatWindow.LoadParsed | src/components/PromptChatWindow.tsx:101-121 | the cleaned profile is written back exactly when a field differs from what was parsed |
| PromptChatWindow.LoadedProfileIsTrimmed | src/components/PromptChatWindow.tsx:83-121 | with usable storage the loaded name and location are non-empty and trimmed |
| PromptChatWindow.LoadIsStable | src/components/PromptChatWindow.tsx:101-121 | loading the loaded profile again returns it and writes nothing: cleaning happens once |
| PromptChatWindow.ResolvedName | src/components/PromptChatWindow.tsx:142 | the trimmed first name, else the user name, else "there"; never empty |
| PromptChatWindow.ComputeGreeting | src/components/PromptChatWindow.tsx:141-152 | the slang greeting when there is one, else the time-of-day greeting with a non-empty location counted |
| PromptChatWindow.DefaultProfileSaysAloha | src/components/PromptChatWindow.tsx:141-152 | the default profile is greeted "Aloha, User" at every hour |
| PromptChatWindow.ProfileAfterFix | src/components/PromptChatWindow.tsx:193-205 | the name is kept; a profile whose location already names the place up to case is unchanged; otherwise the location becomes exactly the matched label |
| PromptChatWindow.FixIsIdempotent | src/components/PromptChatWindow.tsx:193-205 | a second fix on the same place changes nothing |
| PromptChatWindow.HawaiiFixSaysAloha | src/components/PromptChatWindow.tsx:182-206 | after a fix in the Hawaii box the greeting is "Aloha" |
| PromptChatWindow.PromptWindow.HandleSubmit | src/components/PromptChatWindow.tsx:234-240 | a non-blank prompt goes out untrimmed and is cleared exactly when a handler exists and no animation runs |
| PromptChatWindow.PromptWindow.HandleGeoSuccess | src/components/PromptChatWindow.tsx:182-206 | a cancelled, unmatched or same-place fix changes nothing; otherwise the location is replaced and the profile saved |

## Left out

- Browser storage is a field, not a real store. The model does not cover JSON encoding and decoding, the update event, the cross-tab `storage` listener or the last-writer-wins races between tabs.
  - `ChatHistory.ChatStore` holds the collection as the corrected backend keeps it.
  - The storage failure paths are modelled separately by `ReadAll`/`WriteAll`.
- Clocks and ids are parameters. These include `Date.now`, `crypto.randomUUID`, the `Math.random` fallback id, `new Date().getHours()`, and the ISO date of a duplicated listing.
- Strings are sequences of code points:
  - lower-casing covers the ASCII letters only;
  - `localeCompare` is code-point lexicographic order;
  - lengths count code points, not UTF-16 units.
  - Only the 48-character title cut could tell these apart.
- The decimal year-on-year changes are integers in tenths of a percent. Prices and counts are integers. Subtracting these decimals as doubles keeps their order, so the comparisons are the same.
- The following are left out: rendering and styling, dialogs and toasts, number and currency formatting, the generated rent history (random and trigonometric), `window.print`, and haptics.
- Timers and animation are left out: the typing animation, the hint chips and the simulated chat reply. `isAnimating` is a field that `HandleSubmit` reads.
- The geolocation and permissions APIs are left out. `HandleGeoSuccess` takes the coordinates and a `cancelled` flag.
- ChatWorkspace.Workspace.RecordArtifacts: React runs an artifact effect only when its flag changes. The model runs all seven in declaration order every time. Because `addArtifact` is idempotent (`ChatHistory.ArtifactIdempotent`), the difference is only in how often an unchanged session is rewritten.
- ChatWorkspace.Workspace.InitChat: the URL rewrite after creating a chat (`setSearchParams`) is out of scope. The chat id it installs is the `chatId` field.
- AppShellLayout.Shell.OpenChat: takes the chat id already URI-encoded; `encodeURIComponent` is out of scope.
- ChatHistory.ChatStore.AppendMessage, ChatHistory.ChatStore.AddDocument, ChatWorkspace.Workspace.RecordArtifacts: each call takes one new id per item and gives it to every session with the chat id. The source draws a fresh id for each matching session, and `addArtifact` reads the clock once per call where `RecordArtifacts` uses one clock value for all seven effects. The ids differ only when session ids repeat. The store keeps ids unique (`Prepended`, `AddArtifact`), but the model does not require it.
- The `setUnreadCount` shared through the shell context is only the `unreadCount` field. The badge rendering is out of scope.
- The pages' own sidebar handlers are out of scope, except for the notifications page (`Notifications.ItemClickTarget`). This covers My Listings, Connect Platforms and their settings panel, and "edit"/"new listing" navigation.
- The save-draft link from the workspace is out of scope. `GenerateListing` takes no properties, so its save-draft only sets the status. `handleInputChange`, the image picker and the preview tab are also out of scope.
- GenerateListing.Editor.HandlePublish: the handler has no guard. The button that calls it is disabled when no platform is selected (`GenerateListing.PublishEnabled`), and the handler's contract does not repeat that.
- The mock data is out of scope: listings, notifications, platforms, agents, properties and bedroom periods. The constants the proofs use are kept: the initial features, the neighbourhood rows and the default profile.
- `ChatPanel` is out of scope. It only forwards to `appendMessage`.

## Findings

| source | as written | input that shows it | evidently intended | confidence | as-written member | corrected member |
|---|---|---|---|---|---|---|
| src/lib/chatHistory.ts:57-81 | when `setItem` throws (e.g. quota exceeded) while `getItem` works, `writeAll` only assigns `memoryFallback`; `readAll` returns the stored entry and never consults the fallback, so the update is silently lost | storage holding `[]`, `setItem` throwing, `writeAll([s])`, then `readAll()` returns `[]` instead of `[s]` | a failed write is still visible to later reads in the same page session | medium, not executed | ChatHistory.FailedWriteIsLost | ChatHistory.FallbackRoundTrip |
