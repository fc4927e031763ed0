# Neon CRM events plugin — a verified model

This project models the logic of a WordPress plugin that shows Neon CRM events.
It covers two front-end widgets, the server-side proxy they call, the settings
screen, and two older front ends that are still shipped:

- `Tea` (tea.dfy) is the small Elm-style runtime that the event list is built on.
  It holds one current model and runs `update` for each message. It rejects a new
  model that brings a top-level key the initial model lacked. It then runs the
  command and the view, and reconciles keyed subscriptions.
- `ListWidget` (list.dfy) is the paginated event list. It models:
  - the reducer over a closed message set, and the commands the reducer names;
  - the two-step protocol for past events: count the results, then fetch the
    last page;
  - the campaign filter and the date order;
  - the direction toggle, and what the view decides to show.
- `CalendarWidget` (plugin.dfy) is the month calendar. It models:
  - its own dispatcher and reducer;
  - the projection of upstream events;
  - the sorted campaign list with "All" first, and the campaign filter;
  - the all-day rule;
  - the case where the view throws because no calendar is mounted.
- `RestProxy` (rest.dfy) is the REST endpoint. It models:
  - a cache-aside lookup over WordPress transients, keyed by namespace and URL
    digest, with a 300-second TTL;
  - the configuration checks, the login call and the events listing.
- `Admin` (admin.dfy) is the settings sanitiser, which keeps the stored API key
  when the submitted one is blank, and the masked display of that key.
- `OptionsMemo` (options.dfy) is the option accessor, which reads the stored
  options once per request and answers from that copy afterwards.
- `LegacyCalendar` (legacy_calendar.dfy) and `LegacyScript` (legacy_script.dfy)
  are the older front ends:
  - field projection, and lookup by name among name/value pairs;
  - sorted distinct categories;
  - category radios and buttons;
  - the category filter, with its list of removed entries.
- `Text` (text.dfy) holds the string machinery the modules share:
  - one lexicographic order, used wherever the code sorts or calls
    `localeCompare`;
  - a stable sort, reversal, and sorted distinct values;
  - ASCII case-insensitive substring search;
  - PHP `trim` and `empty`, `str_repeat`, and `slice`.
- `Wrappers` (wrappers.dfy) defines `Option`, which stands for JavaScript's
  `undefined` and for absent keys.

Whatever the runtimes do with the outside world is an input or a recorded
effect:
- the clock, `md5`, `sanitize_text_field`, and the upstream HTTP responses are
  inputs;
- commands, views, subscription starts and stops, and calendar entry removals
  are appended to ghost traces in the order the code performs them.

## Model

| member | source | states |
|---|---|---|
| Text.BelowTotal | assets/js/list.js:30 | the order used to sort start dates and names compares any two strings |
| Text.BelowAntisymmetric | assets/js/list.js:30 | two strings each ordered before the other are equal |
| Text.BelowTransitive | assets/js/list.js:30 | the sort order is transitive |
| Text.SortByKey | assets/js/list.js:28-30 | sorting by a key gives a key-ordered permutation of the input, and the elements sharing a key keep their input order (`sort` is stable) |
| Text.BelowReflexive | assets/js/list.js:30 | a string compares equal to itself, so an equal key never moves ahead |
| Text.InsertByKeyKeepsKeyOrder | assets/js/list.js:28-30 | an inserted element goes before every element with the same key, and the others sharing that key keep their order |
| Text.Reversed | assets/js/list.js:31-33 | `reverse` puts element i at position n-1-i and keeps the same elements |
| Text.SortedDistinct | assets/js/plugin.js:148-155 | the keys of the accumulator object, sorted: strictly ascending, holding exactly the input's values |
| Text.Filter | assets/js/plugin.js:91 | `Array.prototype.filter` returns no more elements than it was given, each one admitted by the predicate |
| Text.FilterCounts | assets/js/plugin.js:91 | each admitted element is kept exactly as often as it occurs, and every other one is dropped |
| Text.FilterAppend | assets/js/list.js:27 | filtering a concatenation is the concatenation of the filtered parts, so the kept elements keep their order |
| Text.FilterReversed | assets/js/list.js:27-33 | filtering a reversed list gives the filtered list reversed |
| Text.FilterKeepsAll | assets/js/calendar.js:99 | a filter that admits every element returns the sequence unchanged |
| Text.Lower | assets/js/list.js:27 | the `i` flag folds each ASCII capital to lower case, position by position |
| Text.ContainsIgnoringCase | assets/js/list.js:27-29 | the test succeeds exactly when the pattern occurs at some position of the text, ignoring case |
| Text.Repeat | includes/admin.php:102-104 | `str_repeat` gives n copies of the character |
| Text.TrimStart | includes/admin.php:62 | `trim` drops exactly the leading run of PHP whitespace |
| Text.TrimEnd | includes/admin.php:62 | `trim` drops exactly the trailing run of PHP whitespace |
| Text.TrimBlank | includes/admin.php:62-63 | a submitted key trims to "" exactly when it is all whitespace |
| Text.SliceTo | assets/js/plugin.js:57-58 | `slice(0, 10)` is a prefix of at most ten characters |
| Tea.AddedKeys | assets/js/tea.js:15-18 | `diff` holds exactly the new model's keys that the initial keys lack |
| Tea.ShapeCheckIsSubset | assets/js/tea.js:15-23 | the shape check passes exactly when the new keys are a subset of the initial keys; dropping keys passes |
| Tea.StopEffects | assets/js/tea.js:36-39 | the stop pass makes at most one call per active record, and only stop calls |
| Tea.StartEffects | assets/js/tea.js:41-44 | the start pass makes at most one call per desired record, and only start calls |
| Tea.Reconcile | assets/js/tea.js:33-44 | one reconciliation makes only stop and start calls, every stop before every start |
| Tea.StopEffectsExactly | assets/js/tea.js:36-39 | the stop pass stops exactly the active records with a `stop` whose key is no longer desired |
| Tea.StartEffectsExactly | assets/js/tea.js:41-44 | the start pass starts exactly the desired records whose key was not active |
| Tea.ReconcileExactly | assets/js/tea.js:33-44 | one reconciliation stops and starts exactly those records, and no others |
| Tea.ContinuingKeyUntouched | assets/js/tea.js:37-44 | a key active before and desired after is neither stopped nor restarted |
| Tea.StartedListenerNeverStopped | assets/js/tea.js:46 | as written: the record started first is replaced by its successor, and removing the key later stops nothing |
| Tea.KeepStarted | assets/js/tea.js:46 | corrected half of the tea.js:46 finding, not what line 46 does: the list that should be kept, with the desired keys and the started record for every continuing key |
| Tea.KeptRecordsWereStarted | assets/js/tea.js:42-46 | every record kept active was already active or has just been started |
| Tea.KeepingStartedStopsListener | assets/js/tea.js:36-46 | keeping the started record, removing the key stops the listener that was started |
| Tea.App.constructor | assets/js/tea.js:9-11 | the initial model and its keys are captured; nothing is active and nothing has run |
| Tea.App.RefreshSubscriptions | assets/js/tea.js:33-47 | the trace grows by the stops and then the starts of one reconciliation, the active list becomes the desired list itself, and the model is unchanged |
| Tea.App.Dispatch | assets/js/tea.js:13-28 | a throw from `update` or the shape check changes nothing; otherwise the new model is committed, update, command, view and reconciliation run in that order, and the active list becomes the new model's desired list; the model never gains a key |
| Tea.App.Start | assets/js/tea.js:49-51 | `init` dispatches its messages in order, and the first update sees the first message and the current model |
| ListWidget.KeepMatching | assets/js/list.js:27-29 | each event is kept as often as it occurs when its campaign name matches the campaign, and dropped otherwise |
| ListWidget.MatchesCampaign | assets/js/list.js:27-29 | an event matches iff the campaign occurs in its campaign name ignoring case, an absent name reading as "undefined"; an absent campaign matches every event |
| ListWidget.FilterAndSort | assets/js/list.js:26-35 | exactly the matching events, ascending by start date for Future and descending for Past; the events of any one day come in fetch order for Future and in reverse fetch order for Past |
| ListWidget.SameDayEventsKeepFetchOrder | assets/js/list.js:26-35 | two matching events on the same day are listed as fetched for Future and swapped for Past |
| ListWidget.PastIsFutureReversed | assets/js/list.js:31-33 | the Past list is the Future list reversed |
| ListWidget.Update | assets/js/list.js:89-167 | every fetch the reducer asks for uses the configured URL and the new model's direction; a page-count request happens only in Past; only INIT changes the options |
| ListWidget.UpdateThrowsOnlyOnUnhandled | assets/js/list.js:89-167 | `update` throws exactly on a message outside its closed set |
| ListWidget.UpdatePassesShapeCheck | assets/js/list.js:89-163 | every model `update` returns passes the runtime's shape check; this holds by construction, because the model is a record with a fixed key set |
| ListWidget.FetchedEventsReplaceList | assets/js/list.js:105-124 | a fetched page replaces the events with the campaign's events, clears error and loading, and stores the page count |
| ListWidget.InitFetchesFirstPage | assets/js/list.js:91-98 | INIT stores the options and fetches from the new REST URL in the current direction, with no page |
| ListWidget.FetchStartClearsList | assets/js/list.js:99-104 | EVENTS_FETCH_START clears the error and the events and sets loading, with no command |
| ListWidget.TotalPagesFetchedFetchesPage | assets/js/list.js:151-162 | TOTAL_PAGES_FETCHED stores the count and fetches with it, in the current direction, from the configured URL |
| ListWidget.FetchErrorClearsList | assets/js/list.js:125-130 | a failed fetch empties the list, stops loading and keeps the message |
| ListWidget.DirectionChanges | assets/js/list.js:131-150 | both direction changes clear the list and start loading; Past asks for the page count, Future fetches at once |
| ListWidget.TotalPages | assets/js/list.js:77-78 | `Math.ceil(n / 200)`: the smallest page count whose pages hold n results |
| ListWidget.LastPage | assets/js/list.js:50 | the requested page is one less than the page count; with no count the request carries `NaN`, which `None` stands for |
| ListWidget.EventsRequest | assets/js/list.js:42-51 | Future asks from today; Past asks up to yesterday for the last page |
| ListWidget.CountRequest | assets/js/list.js:68-71 | the page-count request asks for results up to today, one per page |
| ListWidget.FetchEventsDispatches | assets/js/list.js:40-63 | the fetch command dispatches the start marker, then EVENTS_FETCHED with the page's events and page count, or EVENTS_FETCH_ERROR with the failure's message |
| ListWidget.GetTotalPagesDispatches | assets/js/list.js:67-83 | a count dispatches TOTAL_PAGES_FETCHED with ceil(n/200) pages; a failure dispatches EVENTS_FETCH_ERROR with its message |
| ListWidget.PastEventsProtocol | assets/js/list.js:131-163 | switching to Past counts the results up to today, one per page, stores ceil(n/200) pages, then fetches page ceil(n/200)-1 of the events up to yesterday |
| ListWidget.PageArithmeticExamples | assets/js/list.js:77-78 | 401 results give 3 pages and page 2; no results give page -1 |
| ListWidget.ToggleMessage | assets/js/list.js:177-187 | a click outside any toggle dispatches nothing; "Past" dispatches the Past change, anything else the Future change |
| ListWidget.EventUrl | assets/js/list.js:244 | the link names the org id in the host and in the client path, and ends with the event id |
| ListWidget.Render | assets/js/list.js:200-272 | the header shows the direction and offers the other; the banner appears iff the error is truthy; the notice appears iff idle, error-free and empty; one row per event with its link |
| ListWidget.ToggleSwitchesDirection | assets/js/list.js:210-222 | clicking the rendered toggle switches the list to the other direction |
| ListWidget.NeverAddsKeys | assets/js/list.js:276-278 | mounted on the runtime, the list throws only on unhandled messages and never trips the shape check; the second part holds by construction of the fixed-key model |
| CalendarWidget.FormatEvents | assets/js/plugin.js:158-176 | one event per upstream event, fields renamed, end date collapsed onto the start date when multi-day events are off |
| CalendarWidget.RecordedNames | assets/js/plugin.js:149-154 | exactly the non-empty campaign names, except `__proto__`, which the object assignment does not record |
| CalendarWidget.CampaignNames | assets/js/plugin.js:146-156 | "All" first, then each recorded name once, strictly ascending |
| CalendarWidget.CampaignNamesExample | assets/js/plugin.js:146-156 | campaigns B, A, B and none give All, A, B |
| CalendarWidget.FilterAfterFetch | assets/js/plugin.js:67-69 | as written: the filter becomes "All" iff it names a fetched campaign (or already is "All"); a surviving filter names no fetched campaign |
| CalendarWidget.Update | assets/js/plugin.js:44-86 | a pair comes back only for DATES_SET and ON_EVENT_CLICK; only a fetch changes the events, to the formatted fetch; only a fetch or a filter change changes the filter |
| CalendarWidget.EventsFetchedResetsFilter | assets/js/plugin.js:62-71 | a fetch replaces the events and stops loading; the filter becomes "All" when it names a fetched campaign and is kept otherwise, as written |
| CalendarWidget.DatesSetStartsFetch | assets/js/plugin.js:56-60 | the window's first ten characters become start and end, loading starts and events are fetched |
| CalendarWidget.LocalMessages | assets/js/plugin.js:46-80 | option and filter changes set one field; an event click keeps the model and opens the event |
| CalendarWidget.UpdateThrowsOnlyOnUnhandled | assets/js/plugin.js:82-84 | `update` throws exactly on an unhandled message |
| CalendarWidget.ShownEvents | assets/js/plugin.js:90-91 | exactly the events that "All" or their own campaign name admit, each as often as it occurs |
| CalendarWidget.Entries | assets/js/plugin.js:92-97 | each shown event is added unchanged, all-day iff its start and end dates differ |
| CalendarWidget.View | assets/js/plugin.js:88-129 | the view throws iff no calendar is mounted and an event is to be shown; otherwise it draws the shown events, the spinner state, and radios iff campaign filtering is on |
| CalendarWidget.RadiosFollowFilter | assets/js/plugin.js:107-128 | one radio per campaign name, "All" first, checked iff it is the filter |
| CalendarWidget.SingleDayEventsAreNeverAllDay | assets/js/plugin.js:162-164 | with multi-day events off, no entry is all-day |
| CalendarWidget.FilterResetIsInverted | assets/js/plugin.js:67-69 | as written: filter "C" over campaigns A and B survives the fetch and hides every event, while filter "A" is thrown away |
| CalendarWidget.IntendedFilterAfterFetch | assets/js/plugin.js:67-69 | the filter after a fetch is a fetched campaign or "All", and a filter naming a fetched campaign is kept |
| CalendarWidget.IntendedResetShowsEvents | assets/js/plugin.js:67-69 | with the intended reset, a non-empty fetch always shows some event |
| CalendarWidget.IntendedUpdate | assets/js/plugin.js:62-71 | corrected half of the plugin.js:67-69 finding: the reducer with the intended reset, equal to `Update` except for the filter after a fetch |
| CalendarWidget.FetchNeverEmptiesCalendar | assets/js/plugin.js:62-71 | corrected half: with the intended reducer, a fetch that brings any event shows at least one |
| CalendarWidget.App.constructor | assets/js/plugin.js:9 | the dispatcher starts from the initial model with nothing drawn |
| CalendarWidget.App.Dispatch | assets/js/plugin.js:17-27 | with the reducer as written, a throwing update changes nothing; otherwise the model is replaced, the command (if any) runs on the new model, then the view draws or throws |
| CalendarWidget.App.Init | assets/js/plugin.js:11-15 | init sets the options and mounts the calendar, without throwing |
| RestProxy.CacheKeysSeparateNamespaces | includes/rest.php:16 | keys built from underscore-free namespaces coincide only for the same namespace and digest |
| RestProxy.CacheKey | includes/rest.php:16 | the key reads as the prefix, the namespace, one underscore, then the URL's digest |
| RestProxy.GetTransient | includes/rest.php:17 | a missing or expired transient reads as `false`; a live one reads as its stored value |
| RestProxy.Classify | includes/rest.php:23-36 | a transport failure is `http_error` 500; 2xx is the decoded body; any other code is `neon_error` with that status and the body |
| RestProxy.Serve | includes/rest.php:15-37 | the upstream is called iff there is no hit; a hit returns the stored value; a fetch returns the classified response; no other key's transient changes |
| RestProxy.HitIsServedFromCache | includes/rest.php:17-21 | a live transient other than `false` is returned with no fetch and no store |
| RestProxy.OnlySuccessIsCached | includes/rest.php:32-36 | the transients change only on a 2xx response, and then only under the request's key, for 300 seconds |
| RestProxy.RepeatWithinTtlIsCached | includes/rest.php:15-37 | a repeat within 300 seconds of a success returns the same value without fetching |
| RestProxy.FailureIsRetried | includes/rest.php:25-36 | a failed call stores nothing, so the next call fetches again |
| RestProxy.CachedFalseIsFetchedAgain | includes/rest.php:19-34 | a 2xx body decoding to `false` is stored but read as a miss, so it is fetched again |
| RestProxy.ConfigurationCheckedFirst | includes/rest.php:40-49 | a missing API key, then a missing org id, is reported with status 500 before any fetch or store |
| RestProxy.LoginUrl | includes/rest.php:49 | the login URL carries the API key right after the login base and ends with the org id |
| RestProxy.SessionId | includes/rest.php:54 | the session id is the string at `loginResponse.userSessionId`, or "" when the login answer holds none |
| RestProxy.EventsUrl | includes/rest.php:57 | the listing URL carries the session id after its base and the start date after the start-date search; it ends with the end date and the page size of 200 |
| RestProxy.LoginErrorStopsRequest | includes/rest.php:50-54 | a failed login, transport failure or non-2xx, is returned unchanged, only the login is fetched and the transients do not change |
| RestProxy.EventsOutcomePassesThrough | includes/rest.php:58-63 | after a successful login, the response is the events lookup's outcome, success or error, unchanged, with the transients it leaves |
| RestProxy.HandleEvents | includes/rest.php:39-64 | at most two URLs are fetched; errors are one of the four codes; nothing is fetched and nothing succeeds without both settings |
| RestProxy.ErrorsPassThrough | includes/rest.php:50-63 | at most the login and then the listing are fetched, and with both settings present every error is an `http_error` or a `neon_error` |
| RestProxy.Proxy.GetFromCache | includes/rest.php:15-37 | the method's result, fetch and new transients are those of the cache-aside lookup |
| RestProxy.Proxy.GetEvents | includes/rest.php:39-64 | the method's result, fetches and new transients are those of the endpoint function |
| Admin.SanitizeOptions | includes/admin.php:52-70 | stored options survive; a submitted org id is sanitised in; a key is replaced only by a non-blank trimmed submission; other submitted fields are dropped |
| Admin.WhitespaceKeyIsBlank | includes/admin.php:61-67 | a whitespace-only key counts as blank |
| Admin.Mask | includes/admin.php:97-105 | same length; every character is an asterisk except the last four of a key longer than four |
| Admin.MaskExamples | includes/admin.php:98-105 | "secret" shows as "**cret"; four characters or fewer are all asterisks |
| Admin.TextInput | includes/admin.php:80-110 | the type defaults to text; a password field is never prefilled; the mask note appears iff it is a password field with a non-empty stored value |
| Admin.StoredKeyNeverPrefilled | includes/admin.php:89-90 | the API key field shows at most a mask of the key's length |
| OptionsMemo.LookupIn | includes/options.php:18-22 | a null key gives the whole array; a present key its value; an absent key the default |
| OptionsMemo.Accessor.constructor | includes/options.php:12 | nothing is memoised and nothing has been read |
| OptionsMemo.Accessor.Get | includes/options.php:11-23 | the store is read on the first call only, and every call answers from the memoised copy |
| OptionsMemo.FirstSnapshotWins | includes/options.php:12-16 | a change to the stored options after the first call is not seen |
| LegacyCalendar.FormatEvents | assets/js/calendar.js:1-18 | one event per record; id, title, dates and category read from their named columns, absent when missing; `start` and `end` join each date and time column with "T", printing a missing one as "undefined" |
| LegacyCalendar.GetEvents | assets/js/calendar.js:40-44 | no search results give no events; otherwise each result is formatted |
| LegacyCalendar.AddEvent | assets/js/calendar.js:47-52 | the event is passed on unchanged, all-day iff its dates differ |
| LegacyCalendar.AllDayOnlyAcrossDates | assets/js/calendar.js:50 | equal dates are never all-day; different dates always are |
| LegacyCalendar.Entries | assets/js/calendar.js:87 | every event is added, in order |
| LegacyCalendar.RenderCategories | assets/js/calendar.js:68-74 | nothing without a container; otherwise "All" first and checked, then the categories in order |
| LegacyCalendar.OnlyAllIsChecked | assets/js/calendar.js:54-74 | unless a category is named "All", only the first radio is checked |
| LegacyCalendar.Selected | assets/js/calendar.js:98-99 | exactly the events whose category is the selection, or all events for "All" |
| LegacyCalendar.AllSelectsEverything | assets/js/calendar.js:99 | selecting "All" shows every event in order |
| LegacyCalendar.Calendar.constructor | assets/js/calendar.js:87 | after loading, every event is on the calendar |
| LegacyCalendar.Calendar.OnChange | assets/js/calendar.js:96-101 | every entry is removed, in order, and the selected events are added |
| LegacyScript.Find | assets/js/script.js:5 | the value of the first pair with the name, or undefined when no pair has it |
| LegacyScript.FindExamples | assets/js/script.js:5 | a present name gives its value; a missing one gives undefined |
| LegacyScript.FormatEvent | assets/js/script.js:3-16 | every field is the first value paired with its name |
| LegacyScript.FormatEvents | assets/js/script.js:2 | one event per upstream event, in order |
| LegacyScript.TruthyCategories | assets/js/script.js:20-22 | exactly the present, non-empty categories |
| LegacyScript.GetCategories | assets/js/script.js:18-23 | each truthy category once, strictly ascending; "All" only if an event has it |
| LegacyScript.GetCategoriesExample | assets/js/script.js:18-23 | Workshop, Seminar, Workshop, none, none give Seminar, Workshop |
| LegacyScript.CategoryBar.constructor | assets/js/script.js:45-58 | one button per category, nothing marked active, and every event added |
| LegacyScript.CategoryBar.Click | assets/js/script.js:59-74 | a clicked button becomes the only active button; a click on the bar clears the active button and marks the bar, which later clicks never clear; every entry is removed and the events of the clicked text (or all, for "All") are added with the all-day rule |
| LegacyScript.BarStaysActive | assets/js/script.js:60-61 | after a click on the bar and then on a button, both carry `active` |
| LegacyScript.ButtonShowsItsEvents | assets/js/script.js:45-67 | clicking any category button shows at least one event, of that category |

## Left out

- Commands that dispatch synchronously from inside `command.run` are not modelled. The list's fetch dispatches its start marker before its first `await`, re-entering `dispatch` in the middle of another dispatch. The runtime records each command run instead of executing it.
- Tea.App.Start: states only that the first update sees the first init message and the current model, because later messages depend on commands that are not run.
- Asynchronous ordering, overlapping fetches and races between responses are left out. So are the DOM, `innerHTML` markup and escaping, `window.open`, and `console.error`.
- The clock is an input: today's and yesterday's dates, and the "-1 month" / "+3 month" dates. So are `md5`, `sanitize_text_field`, and every upstream HTTP response. The JSON decoding of a body is taken as already done.
- ListWidget.MatchesCampaign: the campaign is read as plain text. Regular-expression metacharacters are not interpreted.
- Case folding covers ASCII letters only.
- Sorting and `localeCompare` use one lexicographic order on characters. UTF-16 code units and locale collation are not distinguished.
- The all-day rule compares whole date strings, as the code does. The `Date` objects built from them are carried as their source text.
- RestProxy.RepeatWithinTtlIsCached: holds only for values other than `false`, because `get_transient` cannot tell a stored `false` from a miss. RestProxy.CachedFalseIsFetchedAgain states that case.
- WordPress deleting an expired transient when it is read is left out. An expired entry reads as a miss, which is what callers observe.
- RestProxy.SessionId: a missing or non-string session id becomes the empty string in the URL. PHP's conversion of other JSON types is left out.
- Admin.Mask: counts characters where PHP's `strlen` and `substr` count bytes. The two agree on ASCII keys only.
- Admin.TextInput: the settings page, the field registration and the capability check are WordPress plumbing and are left out.
- `(array)` conversion of a non-array option value in the option accessor is left out. The stored options are a string map.
- CalendarWidget.Update: the reducer's assignment to the old model's `filter` field is not modelled separately. Nothing reads the old model afterwards.
- The calendar's `loadingEl` DOM handle and its style are left out. The spinner is the `loadingShown` flag.
- CalendarWidget.FormatEvents: upstream events are taken to have all their fields. A missing field would be interpolated as "undefined".
- LegacyCalendar.GetEvents: only an absent `searchResults` is treated as falsy. Other falsy JSON values are left out.
- LegacyScript.CategoryBar.Click: the clicked text is the event target's `innerText`, taken as an input. For a button, it is required to be that button's label.

## Findings

| source | as written | input that shows it | evidently intended | confidence | as-written member | corrected member |
|---|---|---|---|---|---|---|
| assets/js/plugin.js:67-69 | the filter is reset to "All" when it IS among the fetched campaign names | filter "C", fetched events of campaigns "A" and "B": the filter stays "C" and no event is shown; filter "A" is reset to "All" | reset to "All" only when the filter names no fetched campaign | high; not executed | CalendarWidget.FilterResetIsInverted | CalendarWidget.IntendedResetShowsEvents |
| assets/js/tea.js:46 | the active list becomes the newly returned records, even for a key that continues | list records get `stop` inside `start` (assets/js/list.js:189): record 1 is started, record 2 replaces it on the next refresh, and removing the key then stops nothing, so the listener leaks | keep, for a continuing key, the record that was started | medium; not executed | Tea.StartedListenerNeverStopped | Tea.KeepingStartedStopsListener |

The reducer and the runtime model the code as written. The corrected halves sit beside them: `CalendarWidget.IntendedUpdate` for the filter reset, and `Tea.KeepStarted` for the kept subscriptions.
