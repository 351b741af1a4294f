# AI War Room dashboard core, in Dafny

This project models the client-side core of the AI War Room dashboard, a React and TypeScript app.
The dashboard shows strategic news stories that a backend has analysed.
The model covers these parts:

- **API service** (`src/services/api.ts`).
  - Loading the module requires a non-empty base URL.
  - The shared `request` follows a fixed order: transport failure, non-2xx status, the HTML sniff, then JSON parsing.
  - Endpoints are built, including the query string of `getArticles`.
- **Data transforms** (`src/utils/dataTransforms.ts`).
  - API stories become story cards: placeholders for missing fields, a 100-unit excerpt, one synthesised source.
  - Article details become cards with their connections.
  - The processing status becomes dashboard stats.
  - The 32-bit string hash is modelled.
  - `transformApiThreadsToStrategicThreads` is modelled. It groups connection records by label, or by position in groups of three, into an insertion-ordered `Map`. Each bucket becomes one thread.
- **The dashboard hook** (`src/hooks/useDashboardData.ts`). A load either replaces stories, threads and stats, or records the failure. It also covers refresh, settings update and the refresh period.
- **The timeline** (`src/components/TimelineView.tsx`). Story rows and thread-event rows are merged into one stable newest-first list. Per-level counts are taken.
- **The settings dialog** (`src/components/DashboardSettings.tsx`). It covers the slider ranges, the save guards in order, and `formatTime`.
- **The auth page** (`src/pages/Auth.tsx`). It covers the sign-up guards, the request sent, the resulting notice, the loading flag and the mode toggle.
- **The header** (`src/components/DashboardHeader.tsx`). The "last updated" label is bucketed into just now, minutes, hours or a date.

Modelling choices:

- JavaScript strings are sequences of UTF-16 code units (`JsText.Text`).
- `||` defaults are written with `Option` and JavaScript truthiness.
- Timestamps are integer milliseconds.
- Several things are parameters: the clock reading (`now`), the network's answer, the authentication backend's reply, the JSON parser, `URLSearchParams`' percent-encoding and the locale's date label.
- State that the source updates in place is a class:
  - the hook's dashboard state;
  - the settings dialog's draft and password fields;
  - the auth form.

  Their methods state the whole new state in terms of specification functions.
- Loops in the source are methods with loop invariants:
  - the `forEach` that fills the thread map;
  - the event collection of `getAllEvents`;
  - the hash loop.

  Each is proved equal to a specification function.

Where the code and its comments disagree, the model follows the code:

- `importance_level` is defaulted to `MEDIUM` only when it is falsy. Any other text passes through unchanged.
- The save check only enforces the story-count range 1..10.
- A manual refresh is exactly one more load, with no cooldown.
- A payload without `top_stories` or `processing_status` takes the load's error path. Reading those fields throws inside the `try`.

## Model

| member | source | states |
|---|---|---|
| JsText.Decimal | src/utils/dataTransforms.ts:196 | the digits `toString` gives a non-negative integer: at least one code unit, all decimal digits |
| JsText.DecimalRoundTrip | src/utils/dataTransforms.ts:196 | reading the digits back gives the number, so the rendering loses nothing |
| JsText.DecimalInjective | src/utils/dataTransforms.ts:196 | distinct numbers get distinct renderings |
| JsText.SignedDecimal | src/services/api.ts:200-201 | `toString` of any integer: a minus sign exactly for negatives, then the digits of the magnitude |
| JsText.SignedDecimalInjective | src/components/DashboardSettings.tsx:93-95 | distinct integers render differently |
| JsText.OrElse | src/utils/dataTransforms.ts:27-30 | `o \|\| fallback` on a string: the value when it is present and non-empty, otherwise the fallback |
| JsText.TrimStart | src/services/api.ts:160 | removes exactly the leading white space: the result is a suffix, every dropped unit is white space, and the result does not start with white space |
| JsText.TrimEnd | src/services/api.ts:160 | removes exactly the trailing white space: the result is a prefix, every dropped unit is white space, and the result does not end with white space |
| JsText.Trim | src/services/api.ts:160 | `trim()` never lengthens a string, and a non-empty result neither starts nor ends with white space |
| JsText.TrimSpec | src/services/api.ts:160 | `trim()` is the contiguous slice left after dropping white space at both ends; it neither starts nor ends with white space |
| JsText.TrimEmptyIff | src/pages/Auth.tsx:77 | a string trims to nothing exactly when every unit is white space |
| JsText.TrimIdempotent | src/pages/Auth.tsx:92-93 | trimming a trimmed string changes nothing |
| DashboardTypes.LevelNamesDistinct | src/types/dashboard.ts:3 | the three importance levels have distinct wire names |
| Hashing.ToInt32 | src/utils/dataTransforms.ts:193-194 | ECMA-262 ToInt32: the value in [-2^31, 2^31) congruent to its argument modulo 2^32 |
| Hashing.ToInt32Congruent | src/utils/dataTransforms.ts:193-194 | arguments congruent modulo 2^32 wrap to the same 32-bit value |
| Hashing.HashStepIsMultiplyAdd | src/utils/dataTransforms.ts:193-194 | one loop step, `((h << 5) - h) + c` then `h & h`, is the 32-bit wrap of 31h + c |
| Hashing.HashCodeIsWrappedPolynomial | src/utils/dataTransforms.ts:189-195 | the hash of a string is the 32-bit wrap of the polynomial sum of c_i * 31^(n-1-i), the Java-style string hash |
| Hashing.HashOf | src/utils/dataTransforms.ts:196 | the hash id is a non-empty run of decimal digits |
| Hashing.HashOfBounds | src/utils/dataTransforms.ts:196 | `Math.abs` of the hash lies in [0, 2^31], so the id never has a minus sign; the empty string hashes to "0" |
| Hashing.HashString | src/utils/dataTransforms.ts:189-197 | the character loop computes exactly the specified hash id |
| Api.LoadBaseUrl | src/services/api.ts:1-5 | module load succeeds exactly when the configured base URL is a non-empty string; otherwise it fails with the fixed message |
| Api.Request | src/services/api.ts:133-179 | the URL is base plus endpoint, and the result follows the order transport failure, non-2xx status with the body, HTML sniff, then the parser's value or its error |
| Api.HtmlSniffSkipsLeadingSpace | src/services/api.ts:160 | leading white space never changes the HTML sniff |
| Api.HtmlSniffIsCaseSensitive | src/services/api.ts:160 | `<HTML>` is not sniffed as HTML but `<html>` is |
| Api.JsonBodyIsNotHtml | src/services/api.ts:160 | a body whose trimmed text opens with `{` or `[` is never taken for HTML |
| Api.QueryParamsSpec | src/services/api.ts:195-201 | the appended parameters are exactly the truthy filters, with their values, in the fixed order importance, category, status, limit, offset, and at most five |
| Api.ZeroLimitOmitted | src/services/api.ts:200-201 | a limit of 0 gives the same parameters as an absent limit, and an offset of 0 the same as an absent offset, whatever the other filters |
| Api.QueryParams | src/services/api.ts:196-201 | at most five parameters are appended, and none exactly when no filter is truthy |
| Api.LooksLikeHtml | src/services/api.ts:160 | a body is only ever sniffed as HTML when its first non-white-space unit is `<` |
| Api.Serialize | src/services/api.ts:203 | the serialised query is empty exactly when no parameter was appended |
| Api.ArticlesEndpoint | src/services/api.ts:188-208 | the `getArticles` endpoint is the bare path when no filter is truthy, otherwise the path, `?` and the serialised parameters of QueryParams |
| Api.ProcessingStatusEndpoint | src/services/api.ts:223-227 | the session id is appended raw after `?session_id=` exactly when it is non-empty |
| Api.ArticleDetailEndpoint | src/services/api.ts:211-214 | the detail endpoint is the fixed prefix followed by the article id, unencoded |
| Api.ArticleConnectionsEndpoint | src/services/api.ts:230-233 | the connections endpoint is the fixed prefix followed by the article id |
| DataTransforms.Dimensions | src/utils/dataTransforms.ts:26-31 | each analysis text is kept when truthy and otherwise replaced by its own placeholder; none is empty |
| DataTransforms.Excerpt | src/utils/dataTransforms.ts:37-41 | a takeaway over 100 units becomes its first 100 units plus `...`; a shorter one is kept whole; never longer than 103 |
| DataTransforms.Takeaway | src/utils/dataTransforms.ts:38 | the takeaway is the payload's when truthy, else the placeholder; never empty |
| DataTransforms.SynthesizedSource | src/utils/dataTransforms.ts:43-49 | the one source carries the story id, the fixed name, the URL or `#`, the excerpt of the takeaway and the publication date or `now` |
| DataTransforms.TransformApiStory | src/utils/dataTransforms.ts:16-69 | every card field is the payload field or its default (title `Untitled`, importance `MEDIUM`, score 0, date `now`); no connected stories; exactly one source, dated like the card |
| DataTransforms.TransformKeepsLevel | src/utils/dataTransforms.ts:54 | when the payload's level is one of the three or missing, the card's importance is one of the three levels |
| DataTransforms.LongTakeawayExcerpt | src/utils/dataTransforms.ts:39-41 | a long takeaway's excerpt is exactly its first 100 units and `...`, 103 units long |
| DataTransforms.ConnectedStoryOf | src/utils/dataTransforms.ts:153-159 | a connection keeps its id and title, with relative time `Recently`, the given day and importance `MEDIUM` |
| DataTransforms.TransformArticleDetail | src/utils/dataTransforms.ts:143-186 | the detail card is the story card of the same fields plus one connected story per connection, in order |
| DataTransforms.TransformStats | src/utils/dataTransforms.ts:124-140 | stats count the recent analyses, report 156 sources and the active sessions as alerts, and stamp the last update in milliseconds |
| ThreadGrouping.ThreadKey | src/utils/dataTransforms.ts:87 | a record's key is never empty, and an unlabelled record's key starts with `thread-` |
| ThreadGrouping.UnlabelledKeyReadsBack | src/utils/dataTransforms.ts:87 | the digits after `thread-` in an unlabelled record's key read back as its index divided by three, rounded down |
| ThreadGrouping.Threads | src/utils/dataTransforms.ts:72-121 | for a non-empty input there is one thread per distinct key, and thread j carries the j-th key in first-seen order as its id |
| ThreadGrouping.AddConnection | src/utils/dataTransforms.ts:86-101 | one iteration of the `forEach` advances the map and its key order from record `index` to record `index + 1` as the specification defines them |
| ThreadGrouping.FillThreadMap | src/utils/dataTransforms.ts:80-101 | after the loop the insertion order is the distinct keys in first-seen order, and every entry holds its bucket and its story ids |
| ThreadGrouping.TransformApiThreads | src/utils/dataTransforms.ts:72-121 | the method returns exactly the specified threads: none for no records, otherwise one thread per map entry in insertion order |
| ThreadGrouping.MapUpToMatches | src/utils/dataTransforms.ts:86-101 | the map after n records has exactly the first-seen keys, each entry holding that key's records in order and their distinct title hashes |
| ThreadGrouping.MapEntriesAreThreads | src/utils/dataTransforms.ts:103-117 | mapping the map's entries in insertion order gives the specified threads, one per key |
| ThreadGrouping.BucketSeen | src/utils/dataTransforms.ts:89-97 | a key has records exactly when it is among the keys seen so far |
| ThreadProperties.KeysDistinct | src/utils/dataTransforms.ts:89-94 | no key is inserted into the map twice |
| ThreadProperties.KeysSeen | src/utils/dataTransforms.ts:87-94 | a key is in the map exactly when some record so far has that key |
| ThreadProperties.KeyCount | src/utils/dataTransforms.ts:86-101 | there are at most as many keys as records, and at least one once there is a record |
| ThreadProperties.ThreadCount | src/utils/dataTransforms.ts:75-78 | no records give no threads; otherwise 1 to \|records\| threads whose ids are the keys in first-seen order |
| ThreadProperties.BucketIndicesSpec | src/utils/dataTransforms.ts:96-97 | a bucket holds exactly the records with its key, at increasing positions, none left out |
| ThreadProperties.BucketsPartition | src/utils/dataTransforms.ts:86-101 | the buckets of all keys together hold every record exactly once |
| ThreadProperties.ThreadEventsCoverRecords | src/utils/dataTransforms.ts:110-114 | the threads' timelines together have one event per input record |
| ThreadProperties.IndicesSeen | src/utils/dataTransforms.ts:89-94 | a key has record positions exactly when it is in the map, and its first position precedes n |
| ThreadProperties.FirstSeenOrder | src/utils/dataTransforms.ts:103 | threads come in the order of their keys' first appearance in the input |
| ThreadProperties.StoryIdsSpec | src/utils/dataTransforms.ts:99-100 | a thread's story ids have no repeats, number at most two per record, and are exactly the hashes of its records' titles |
| ThreadProperties.StrengthSumBounds | src/utils/dataTransforms.ts:104 | with strengths in [0, 1], their sum lies in [0, count] |
| ThreadProperties.BucketRecords | src/utils/dataTransforms.ts:87-97 | a bucket holds only input records, and a labelled record only sits in its own label's bucket |
| ThreadProperties.AverageInUnitRange | src/utils/dataTransforms.ts:104 | the average of strengths in [0, 1] is in [0, 1] |
| ThreadProperties.ThreadStrengthInUnitRange | src/utils/dataTransforms.ts:104 | with input strengths in [0, 1], every thread's strength is in [0, 1] |
| ThreadProperties.LabelledThreadTitle | src/utils/dataTransforms.ts:107-108 | a thread is never empty, and when its first record is labelled, its title and id are that label |
| ThreadProperties.GroupKeyInjective | src/utils/dataTransforms.ts:87 | distinct groups of three get distinct `thread-N` keys |
| ThreadProperties.UnlabelledKeys | src/utils/dataTransforms.ts:87 | with no labels, the keys after n records are `thread-0` to `thread-(ceil(n/3)-1)` |
| ThreadProperties.UnlabelledThreads | src/utils/dataTransforms.ts:87-108 | with no labels there are ceil(n/3) threads, the j-th with id `thread-j` and title `Strategic Thread j+1` |
| DashboardHook.SliceEnd | src/hooks/useDashboardData.ts:55-56 | `slice(0, end)` stops at min(end, length) for a non-negative end and counts back from the length for a negative one |
| DashboardHook.Load | src/hooks/useDashboardData.ts:34-109 | a load succeeds exactly when the request succeeds and the payload has stories and a processing status; it then shows the sliced stories, counts the recent analyses and has one timeline event per connection record |
| DashboardHook.RefreshPeriodMs | src/hooks/useDashboardData.ts:129-132 | the timer period is the refresh interval in whole minutes, between 5 and 60 minutes for slider values |
| DashboardHook.TopStories | src/hooks/useDashboardData.ts:55-60 | never more cards than payload stories, nor than a non-negative count; card i carries the id of payload story i |
| DashboardHook.ShownStories | src/hooks/useDashboardData.ts:55-60 | a count n >= 0 shows min(n, available) stories, each exactly the transform of the payload story at the same position |
| DashboardHook.NegativeCountDropsFromEnd | src/hooks/useDashboardData.ts:56 | a negative count drops that many stories from the end |
| DashboardHook.MoreStoriesExtendFewer | src/hooks/useDashboardData.ts:55-60 | raising the count never hides a shown story: the shorter list is a prefix of the longer |
| DashboardHook.DashboardStore.constructor | src/hooks/useDashboardData.ts:19-32 | the initial state: nothing loaded, zero counts stamped now, loading, no error |
| DashboardHook.DashboardStore.BeginLoad | src/hooks/useDashboardData.ts:37 | only the loading flag is raised |
| DashboardHook.DashboardStore.CompleteLoad | src/hooks/useDashboardData.ts:40-108 | a usable payload replaces stories, threads and stats, stamps the time and clears the error; anything else keeps them and records the failure; loading ends either way |
| DashboardHook.DashboardStore.LoadDashboardData | src/hooks/useDashboardData.ts:34-109 | one whole load, with the outcome above, keeping at most the hook's story count |
| DashboardHook.DashboardStore.RefreshDashboard | src/hooks/useDashboardData.ts:111-114 | a manual refresh is exactly one more load |
| DashboardHook.DashboardStore.UpdateUserSettings | src/hooks/useDashboardData.ts:116-122 | only the stored settings change |
| DashboardHook.UpdateThenLoad | src/hooks/useDashboardData.ts:116-122 | after a settings update a load still slices by the story count the hook was called with |
| Timeline.Insert | src/components/TimelineView.tsx:62 | one insertion step of the sort lengthens the list by exactly one row |
| Timeline.SortNewestFirst | src/components/TimelineView.tsx:62 | the sort keeps the number of rows |
| Timeline.InsertSpec | src/components/TimelineView.tsx:62 | inserting into a newest-first list keeps it newest first and adds exactly the new row |
| Timeline.InsertOnDate | src/components/TimelineView.tsx:62 | inserting a row puts it first among the rows of its date and changes no other date's rows |
| Timeline.SortSpec | src/components/TimelineView.tsx:62 | the sorted list is newest first and a permutation of the input |
| Timeline.SortIsStable | src/components/TimelineView.tsx:62 | rows of equal date keep their input order, as the stable `Array.prototype.sort` requires |
| Timeline.GetAllEvents | src/components/TimelineView.tsx:35-63 | the collected rows are the stories then each thread's events, sorted newest first; one row per story and per thread event |
| Timeline.ThreadEventsCount | src/components/TimelineView.tsx:50-59 | there is one thread row per timeline event |
| Timeline.ThreadEventShape | src/components/TimelineView.tsx:52-57 | a thread row has no importance and no story id and carries the id of one of the threads |
| Timeline.TimelineRowShapes | src/components/TimelineView.tsx:39-59 | every timeline row is either exactly the row of one of the stories, or a thread row carrying one thread's id |
| Timeline.CountLevel | src/components/TimelineView.tsx:225 | a level's count never exceeds the number of stories |
| Timeline.LevelCountsSum | src/components/TimelineView.tsx:225-253 | when every story has one of the three levels, the three counts add up to the number of stories |
| SettingsDialog.RefreshSliderValues | src/components/DashboardSettings.tsx:246-249 | the refresh slider offers exactly 5, 10, ..., 60 |
| SettingsDialog.StoriesSliderWithinSaveRange | src/components/DashboardSettings.tsx:168-171 | every story count the slider offers passes the save check's range test |
| SettingsDialog.SaveCheck | src/components/DashboardSettings.tsx:37-74 | a save goes through exactly when the count is in 1..10 and, if any password field is filled, the new passwords match, have 6 or more units and the current one is given |
| SettingsDialog.StoryCountCheckedFirst | src/components/DashboardSettings.tsx:39-46 | a bad count is reported whatever the password fields hold |
| SettingsDialog.MismatchBeforeLength | src/components/DashboardSettings.tsx:49-65 | with a valid count, a mismatch is reported exactly when the passwords differ, and too-short exactly when they match, a change is attempted and they are short |
| SettingsDialog.OnlyStoryCountChecked | src/components/DashboardSettings.tsx:37-74 | the feed hours and the refresh interval never affect the save check |
| SettingsDialog.SettingsDialog.constructor | src/components/DashboardSettings.tsx:32-35 | the draft starts as the given settings with empty password fields |
| SettingsDialog.SettingsDialog.SetMorningFeedHour | src/components/DashboardSettings.tsx:129-134 | the slider replaces only the morning hour, which stays in 5..11 |
| SettingsDialog.SettingsDialog.SetEveningFeedHour | src/components/DashboardSettings.tsx:145-149 | the slider replaces only the evening hour, which stays in 13..20 |
| SettingsDialog.SettingsDialog.SetTopStoriesCount | src/components/DashboardSettings.tsx:167-171 | the slider replaces only the story count, which stays within the save range |
| SettingsDialog.SettingsDialog.SetRefreshInterval | src/components/DashboardSettings.tsx:245-249 | the slider replaces only the refresh interval, a multiple of 5 in 5..60 |
| SettingsDialog.SettingsDialog.SetPasswords | src/components/DashboardSettings.tsx:195-227 | typing sets the three password fields and nothing else |
| SettingsDialog.SettingsDialog.HandleSave | src/components/DashboardSettings.tsx:37-89 | the outcome is the save check of the current state; on success the draft is published unchanged, the password fields are cleared and the dialog closes; otherwise nothing changes |
| SettingsDialog.FormatTime | src/components/DashboardSettings.tsx:91-96 | hours below 12 read `h AM`, with 12 for midnight; hours from 12 read `h PM`, with 12 for noon and h - 12 after |
| SettingsDialog.FormatTimeInjective | src/components/DashboardSettings.tsx:91-96 | distinct hours of the day get distinct labels |
| SettingsDialog.SliderLabels | src/components/DashboardSettings.tsx:138-153 | morning slider labels read `h AM` and evening ones `h-12 PM`, with h-12 in 1..8 |
| Auth.SignUpRejection | src/pages/Auth.tsx:59-84 | sign-up is refused exactly when the passwords differ, the password is shorter than 6 units or the trimmed first name is empty; the reason is one of the three guards |
| Auth.RequestFor | src/pages/Auth.tsx:45-96 | sign-in always sends e-mail and password; sign-up sends a request exactly when no guard fires, with the trimmed, non-empty first name and the trimmed last name |
| Auth.ReplyNotice | src/pages/Auth.tsx:51-118 | an error reply shows its message, or the fixed text when the message is empty; a successful sign-in shows the welcome back |
| Auth.MismatchReportedFirst | src/pages/Auth.tsx:59-66 | a mismatch is reported whatever the length and the first name |
| Auth.LengthBeforeName | src/pages/Auth.tsx:68-75 | matching short passwords are refused for length before the name is looked at |
| Auth.BlankFirstNameRefused | src/pages/Auth.tsx:77-84 | a first name of spaces only is refused |
| Auth.SignInSkipsGuards | src/pages/Auth.tsx:45-57 | sign-in sends its request even with an empty confirmation and name, while the same short password is refused at sign-up |
| Auth.AuthForm.constructor | src/pages/Auth.tsx:11-18 | the page starts in sign-in mode with empty fields, not loading |
| Auth.AuthForm.HandleAuth | src/pages/Auth.tsx:41-122 | the request sent is RequestFor of the form; a refused sign-up ends with the guard's notice, a sent request with the reply's notice; the loading flag is raised then lowered on every path; the fields are untouched |
| Auth.AuthForm.ToggleMode | src/pages/Auth.tsx:301-306 | the toggle flips the mode and clears the passwords and names but keeps the e-mail |
| Auth.ToggleTwice | src/pages/Auth.tsx:301-306 | toggling twice restores the mode with only the e-mail kept |
| Header.AgeOf | src/components/DashboardHeader.tsx:28-35 | the four label kinds split the differences into disjoint, exhaustive ranges: under a minute, 1 to 59 whole minutes, 1 to 23 whole hours, a day or more |
| Header.FormatMatchesAge | src/components/DashboardHeader.tsx:25-36 | `formatLastUpdate` (modelled by `FormatLastUpdate`): the component's nested floors give, for every difference, the label of the millisecond ranges |
| Header.FutureIsJustNow | src/components/DashboardHeader.tsx:29-31 | a future timestamp, or one less than a minute old, reads `Just now` |
| Header.AgeMonotone | src/components/DashboardHeader.tsx:31-35 | an older timestamp never gets an earlier kind of label, nor a smaller number within one kind |
| Header.LabelReadsBack | src/components/DashboardHeader.tsx:32-34 | the digits before `m ago` or `h ago` read back as the whole minutes or hours elapsed |

## Left out

- Logging (`console.*`) and all rendering are left out. The only rendering modelled is the timeline counts and the header and slider labels.
- Toasts are not modelled as a side effect. The auth page's and the settings dialog's toasts appear as result values (`Notice`, `SaveOutcome`). The hook's toasts are left out.
- The clock and dates:
  - `Date.now()` and `new Date()` become a `now` parameter in milliseconds, and one load reads it once. The source reads the clock afresh for each story, source and thread event.
  - ISO strings are integer milliseconds. `toISOString` on an invalid date, which throws, is not modelled.
  - `toLocaleDateString` is a parameter.
- Numbers:
  - Strengths and scores are `real`; NaN is not modelled.
  - An empty thread never exists, so its 0/0 does not arise.
  - `toString` is modelled for integers only, and magnitudes of 10^21 and more (exponent notation) are not distinguished.
- The refresh timer (`setInterval`/`clearInterval` and the effect's dependencies) is modelled only as its period (`RefreshPeriodMs`) and as whole loads.
- Concurrency between overlapping loads, React's batching of state updates, and unmounting are not modelled.
- Network and parsing are parameters:
  - `fetch` and `JSON.parse` are functions passed to `Request`;
  - the shape check of the JSON is not modelled; payloads are already typed values, and a field the code tests for presence or gives a default is `Option`;
  - `primary_title` and `connected_title` of a connection record are plain text: the hash reads them without a default, so in the source a missing title throws and the dashboard load takes its error path, which the model does not represent;
  - request headers and options are left out.
- `URLSearchParams` percent-encoding is a parameter `encode`. Its duplicate handling is not needed, since each name is appended at most once.
- The authentication backend (Supabase) is not modelled:
  - its reply is a parameter;
  - the session listener, redirects and `navigate` of the auth page are left out;
  - the show-password toggle and the e-mail input are plain field updates and are not modelled separately.
- The API methods `getDashboardData` and `getCategories` are fixed endpoint constants passed to `Request`. They have no operation of their own.
- Unused payload fields are left out: `content`, `category_name`, `analyzed_at`, and the primary and connected takeaways.
- `Array.prototype.sort` is a library call. The model specifies its result as a stable insertion sort on values (`SortNewestFirst`), not as an in-place algorithm.
- Non-integer settings values are not modelled. The sliders only emit their grid.
- A connection label that is literally `thread-N` shares the `Map` entry of the N-th unlabelled group, as in the source. No lemma beyond the general ones speaks about this case.
- The header's alert count display (`alertsCount > 0`) is presentation and is not modelled.
- DataTransforms.TransformStats: its contract lists the four fields one by one. Its meaning is carried by `DashboardHook.Load`, which ties the analysed count to the payload.
