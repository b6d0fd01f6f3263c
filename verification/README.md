# FaultMaven dashboard pages: loader, view projection and settings store

A Dafny model of the client-side state logic of two FaultMaven dashboard pages.

The case list page (`docs/dashboard-templates/CaseListPage.tsx`) has two parts:

- `fetchCases` loads the caller's troubleshooting cases under a bearer token. It maps
  each failure (no token, 401, 403, other non-2xx status, thrown value) to the message
  the page shows. On success it replaces the held collection wholesale.
- The page derives its visible list by a status filter followed by a stable sort on a
  copy. The sort keys are created time (newest first), updated time (newest first) and
  priority rank (critical, high, medium, low). Each date is labelled with a relative age
  (`5m ago`, `3h ago`, `2d ago`).

The settings page (`docs/dashboard-templates/SettingsPage.tsx`) holds a settings record:

- the LLM provider, model, temperature and max tokens;
- the API URL;
- a dark-mode flag.

At startup it merges the record persisted in local storage over the defaults. The form
edits the record through guarded updates. A save writes local storage first; that write
alone decides success. It then mirrors the record to the server, best effort, when a
token exists. A connection test probes `{apiUrl}/health`.

Files:

- `common.dfy`, module `Common`: `Option`, `Result`, what a `fetch` call produced
  (`HttpOutcome`), the requests the pages issue, JavaScript truthiness of stored strings,
  and the default API URL.
- `case_view.dfy`, module `CaseView`: the `Case` record, the filter, the comparator, the
  stable insertion sort, the projection and `formatDate`.
- `case_list.dfy`, module `CaseList`: the load outcome as a function (`Load`) and the
  class `CaseListPage` with `cases`, `loading`, `error`, `filter` and `sortBy`.
- `settings_model.dfy`, module `SettingsModel`: the `Settings` record, defaults,
  `modelOptions`, the shallow merge and the `onChange` updates.
- `settings_page.dfy`, module `SettingsPage`: the class `SettingsPage` with
  `settings`, `store`, `saveMessage`, `saving` and `testingConnection`.

Modelling decisions:

- Browser calls become parameters of the handlers:
  - the `auth_token` read from storage is an `Option<string>`;
  - what `fetch` produced is an `HttpOutcome`: a status, a status text and a body, or a
    thrown value;
  - whether `localStorage.setItem` throws is a `bool`.
- Local storage is the `store: map<string, Stored>` field. A stored entry is either a
  record with some of the keys (JSON that parses) or `Unparsable`. Startup and save go
  through that same field, so the save/restore round trip is stated over it. This one
  field plays the part of both the storage map and the parse result, instead of a
  `map<string, Settings>`.
- Tokens follow JavaScript truthiness: an absent token and an empty token both count as
  missing (`Truthy`).
- Timestamps are integers (milliseconds). `formatDate` is a function of the difference
  `now - date`.
- The comparator is modelled literally (`b.created - a.created`,
  `rank(a) - rank(b)`). It is a difference of per-case scores, so it is a consistent
  comparator. Section 22.1.3.27 of ECMA-262 (10th edition) requires `sort` to be stable.
  The model proves two things about its insertion sort:
  - it is stable: every run of tied elements keeps its input order;
  - any stable sorted permutation equals it, so any conforming engine gives the same list.
- The startup merge does not enforce the provider/model coupling: a stored record
  whose model belongs to another provider is kept as it is
  (`SettingsModel.MergeCanBreakModelCoupling`). The form's own edits do keep it
  (`SettingsModel.EditsPreserveWellFormed`).
- `fetchCases` has no guard that discards a response arriving after the page is torn
  down, so the model has none.

## Model

| member | source | states |
|---|---|---|
| `CaseView.Rank` | docs/dashboard-templates/CaseListPage.tsx:81 | the priority rank is 0 exactly for critical, 1 exactly for high, 2 exactly for medium and 3 exactly for low |
| `CaseView.Filter` | docs/dashboard-templates/CaseListPage.tsx:70-73 | keeps each accepted case exactly as often as it occurs in the input and no other case; the result is an order-preserving subsequence of the input |
| `CaseView.FilterAllKeepsEverything` | docs/dashboard-templates/CaseListPage.tsx:71 | the `all` filter returns the collection unchanged |
| `CaseView.Compare` | docs/dashboard-templates/CaseListPage.tsx:76-83 | the comparator is the difference of two per-case scores (negated timestamps, or priority rank), so it orders consistently |
| `CaseView.Insert` | docs/dashboard-templates/CaseListPage.tsx:75-85 | inserting into a sorted list keeps it sorted and adds exactly the one element |
| `CaseView.SortBy` | docs/dashboard-templates/CaseListPage.tsx:75-85 | the sorted copy is a permutation of its input and in comparator order |
| `CaseView.SortByIsStable` | docs/dashboard-templates/CaseListPage.tsx:75 | elements the comparator ranks equal keep their input order |
| `CaseView.StableSortIsUnique` | docs/dashboard-templates/CaseListPage.tsx:75 | two sorted permutations of one input that both keep every tie run in input order are equal |
| `CaseView.SortBySortedIsIdentity` | docs/dashboard-templates/CaseListPage.tsx:75-85 | sorting a list already in order returns it unchanged |
| `CaseView.Project` | docs/dashboard-templates/CaseListPage.tsx:70-85 | the view holds exactly the cases the filter keeps, each as often as in the filtered list, so "Showing N of M" has N <= M; every shown case passes the filter; the view is in comparator order |
| `CaseView.ProjectedOrder` | docs/dashboard-templates/CaseListPage.tsx:76-83 | by `created` and by `updated` the view's timestamps never increase; by `priority` the ranks never decrease |
| `CaseView.ProjectFilterExact` | docs/dashboard-templates/CaseListPage.tsx:70-73 | each case appears in the view exactly as often as in the collection when the filter accepts it, and not at all otherwise; a status filter shows only that status; `all` shows every case of the collection |
| `CaseView.ProjectIsIdempotent` | docs/dashboard-templates/CaseListPage.tsx:70-85 | projecting the view again with the same filter and key returns the same sequence |
| `CaseView.FormatDate` | docs/dashboard-templates/CaseListPage.tsx:107-119 | minutes below one hour, hours below one day, days below one week, otherwise the locale date; each count is the number of whole units elapsed |
| `CaseView.AgeText` | docs/dashboard-templates/CaseListPage.tsx:115-118 | the label is the decimal numeral of the bucket's count followed by `m ago`, `h ago` or `d ago`; only the locale-date bucket has no label here |
| `CaseView.RelativeLabel` | docs/dashboard-templates/CaseListPage.tsx:107-119 | a date less than an hour old is labelled with its whole minutes and `m ago`, less than a day with its whole hours and `h ago`, less than a week with its whole days and `d ago`; from a week on it has no relative label |
| `CaseView.Decimal` | docs/dashboard-templates/CaseListPage.tsx:115-117 | the rendered count is the numeral of the number: digits without a leading zero whose decimal value is the count, after a minus sign when it is negative |
| `Common.DefaultApiUrl` | docs/dashboard-templates/CaseListPage.tsx:19 | the base URL is never empty; it is the environment value whenever that is set and non-empty, and the fallback `http://localhost:8000` otherwise |
| `CaseList.ErrorText` | docs/dashboard-templates/CaseListPage.tsx:37-63 | no token shows "Authentication required. Please log in."; an expired token "Authentication failed. Please log in again."; a refusal "You do not have permission to access cases."; any other failure status "Failed to fetch cases. Please try again later."; a thrown `Error` its own message; any other thrown value "Failed to fetch cases" |
| `CaseList.Load` | docs/dashboard-templates/CaseListPage.tsx:30-67 | no token iff unauthenticated; 401 iff auth expired; 403 iff forbidden; any other non-2xx iff service unavailable; a throw or malformed body iff a transport error, which carries the thrown value; success iff a 2xx with a parsed body, giving its `cases` field or the empty sequence |
| `CaseList.CaseListPage.constructor` | docs/dashboard-templates/CaseListPage.tsx:19-24 | the page starts empty, loading, without error, filtering `all` and sorting by last update |
| `CaseList.CaseListPage.FetchCases` | docs/dashboard-templates/CaseListPage.tsx:30-68 | the GET is issued only with a token; success replaces `cases` and clears the error; every failure keeps `cases` and shows its message: the authentication-required text without a token, the authentication-failed text on 401, the permission text on 403, the try-again text on any other non-2xx status, a thrown `Error`'s own message, and "Failed to fetch cases" for any other thrown value; `loading` is false on every exit |
| `CaseList.CaseListPage.SetFilter` | docs/dashboard-templates/CaseListPage.tsx:169-172 | the status filter becomes the selected one |
| `CaseList.CaseListPage.SetSortBy` | docs/dashboard-templates/CaseListPage.tsx:190-193 | the sort key becomes the selected one |
| `CaseList.CaseListPage.SortedCases` | docs/dashboard-templates/CaseListPage.tsx:205-206 | the rendered list holds exactly the filtered cases, passes the filter and is in comparator order, while `cases` itself is left as it is |
| `SettingsModel.ModelOptions` | docs/dashboard-templates/SettingsPage.tsx:102-117 | every provider offers at least two models |
| `SettingsModel.Defaults` | docs/dashboard-templates/SettingsPage.tsx:17-26 | the initial record is openai with its first model (gpt-4), temperature 0.7, 2000 max tokens, the environment's URL (or the fallback) and dark mode off, and it is well formed |
| `SettingsModel.Merge` | docs/dashboard-templates/SettingsPage.tsx:38 | each top-level key present in the stored record overrides the current value, and every absent key keeps it |
| `SettingsModel.Serialized` | docs/dashboard-templates/SettingsPage.tsx:51 | a written record carries every top-level key |
| `SettingsModel.MergeSerializedRestores` | docs/dashboard-templates/SettingsPage.tsx:38 | a record written in full and merged over any state is recovered exactly |
| `SettingsModel.MergeIsIdempotent` | docs/dashboard-templates/SettingsPage.tsx:38 | merging one stored record twice gives the same result as merging it once |
| `SettingsModel.MergeCanBreakModelCoupling` | docs/dashboard-templates/SettingsPage.tsx:34-42 | a stored model belonging to another provider survives the startup merge |
| `SettingsModel.ChangeApiUrl` | docs/dashboard-templates/SettingsPage.tsx:176 | only the URL changes |
| `SettingsModel.ChangeProvider` | docs/dashboard-templates/SettingsPage.tsx:223-232 | the model resets to the new provider's first option, so model and provider match; temperature, max tokens, URL and dark mode are kept |
| `SettingsModel.AnthropicSelectsOpus` | docs/dashboard-templates/SettingsPage.tsx:108-111 | choosing anthropic selects claude-3-opus |
| `SettingsModel.ChangeModel` | docs/dashboard-templates/SettingsPage.tsx:250-253 | only the model changes; the provider is untouched; a model offered for the provider keeps model and provider matched |
| `SettingsModel.ChangeTemperature` | docs/dashboard-templates/SettingsPage.tsx:276-284 | a parsed value in [0,1] is applied; NaN or an out-of-range value leaves the record unchanged; the field only ever changes to an in-range value |
| `SettingsModel.ChangeMaxTokens` | docs/dashboard-templates/SettingsPage.tsx:308-316 | a parsed integer in [100,8000] is applied; NaN or an out-of-range value leaves the record unchanged; the field only ever changes to an in-range value |
| `SettingsModel.OutOfRangeInputsAreIgnored` | docs/dashboard-templates/SettingsPage.tsx:276-316 | 50 tokens, a temperature of 1.5 and NaN inputs leave the record unchanged |
| `SettingsModel.ToggleDarkMode` | docs/dashboard-templates/SettingsPage.tsx:372 | the switch flips dark mode and keeps every other field |
| `SettingsModel.ToggleTwiceRestores` | docs/dashboard-templates/SettingsPage.tsx:372 | flipping the switch twice restores the record |
| `SettingsModel.ApplyPreservesWellFormed` | docs/dashboard-templates/SettingsPage.tsx:223-316 | every edit the form offers keeps a well-formed record well formed |
| `SettingsModel.EditsPreserveWellFormed` | docs/dashboard-templates/SettingsPage.tsx:176-372 | any sequence of offered edits from a well-formed record ends well formed |
| `SettingsPage.Restore` | docs/dashboard-templates/SettingsPage.tsx:32-43 | a missing or unparsable stored entry leaves the settings unchanged; a parsable one is merged over them |
| `SettingsPage.ProbeMessage` | docs/dashboard-templates/SettingsPage.tsx:87-97 | success exactly for a 2xx answer, with "Connection successful!"; a non-2xx answer shows "Connection failed: " and the status text; a throw shows the cannot-connect text |
| `SettingsPage.ProbeReportsStatusText` | docs/dashboard-templates/SettingsPage.tsx:92 | a 503 answer reports its status text after the failure prefix |
| `SettingsPage.SettingsPage.constructor` | docs/dashboard-templates/SettingsPage.tsx:16-30 | the page starts from the defaults, with no banner and nothing in flight |
| `SettingsPage.SettingsPage.LoadSaved` | docs/dashboard-templates/SettingsPage.tsx:32-43 | the startup effect restores the stored entry over the current settings |
| `SettingsPage.SettingsPage.OnChange` | docs/dashboard-templates/SettingsPage.tsx:176-372 | an edit replaces the settings by the edited record and touches nothing else |
| `SettingsPage.SettingsPage.HandleSave` | docs/dashboard-templates/SettingsPage.tsx:45-81 | after a successful local write the store holds exactly the current settings and the banner says saved, whatever the mirror returns; the PUT is sent only with a token; a warning is logged iff the mirror threw or returned non-2xx other than 404; a failed write stores and sends nothing and reports failure; `saving` ends false |
| `SettingsPage.SettingsPage.TestConnection` | docs/dashboard-templates/SettingsPage.tsx:83-100 | one unauthenticated GET of `{apiUrl}/health`; the banner is the probe's message; `testingConnection` ends false |
| `SettingsPage.SaveThenRestoreRoundTrip` | docs/dashboard-templates/SettingsPage.tsx:34-51 | the entry a save writes, restored over any starting record, gives back exactly the saved settings |

## Left out

- JSX markup, CSS classes, icons, the badge-class tables, the empty-list text and the
  "View Details" link: presentation without behaviour.
- The real `fetch`, `localStorage`, `JSON.parse`/`JSON.stringify` and `import.meta.env`.
  They are replaced by parameters and by the `store` field. The `auth_token` is a handler
  parameter rather than an entry of `store`, because no code here writes it. Request
  headers other than the bearer token are not modelled.
- Stored JSON whose keys hold values of the wrong type is not modelled: the typed record
  cannot hold them. Stored JSON that parses to `null`, a number or a boolean is modelled
  as a record with none of the three keys, which is what the spread does with it.
- Keys other than `llm`, `apiUrl` and `darkMode`: top-level keys of a stored object that
  the record does not have, and the index keys a stored string or array spreads, are
  copied into the settings by the startup merge (`SettingsPage.tsx:38`), written back on
  save (`SettingsPage.tsx:51`) and sent in the PUT body (`SettingsPage.tsx:63`). The typed
  `Settings` record cannot hold them, so they are not modelled.
- A response body of `null` makes `data.cases` throw a `TypeError`. That case is covered
  by `Malformed`, with the thrown value as a parameter.
- Date parsing (`new Date(...)`) and `toLocaleDateString`. Timestamps are integers, and
  the locale-formatted date is the `LocaleDate` bucket with no text. Invalid date strings
  make the JavaScript comparator return NaN; this is not modelled.
- `parseFloat`/`parseInt` string parsing. The parsed value is an `Option`, with `None`
  for NaN. Temperature is an exact `real`, not an IEEE double.
- The `setTimeout` calls that clear the banner after 3 or 5 seconds.
- Overlapping clicks and late responses that overwrite newer state: these are about
  timing. React's re-render scheduling is left out for the same reason.
- `console.error`/`console.warn`. The save's warning is modelled only as the `warned`
  result of `HandleSave`.
