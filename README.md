# Feedback Collector, modelled in Dafny

Feedback Collector lets people submit product feedback. It also lists the submitted items with
filters and shows a statistics dashboard:

- **Backend** (`Backend/backend.py`, FastAPI). It classifies each text by keyword.
  POST /feedback stores the text with its sentiment. GET /feedback lists the table. GET /stats
  counts the rows by category and by sentiment.
- **Frontend** (React). The feedback list filters by search term, category and sentiment, and
  flags negative items as urgent. The submission form validates the required fields and shows a
  success banner for a while. The dashboard shows four tiles, two breakdowns and an alert about
  negative feedback. The root component switches tabs and, after each successful submission,
  bumps a refresh counter that is part of the dashboard's and the list's React keys.

Modules:

- `Text`: ASCII letter case, substring search, Python's `str.strip`, and decimal rendering of
  naturals with its parser.
- `Seqs`: JavaScript's `filter`, subsequences, and `[...new Set(xs)]` as `Distinct`.
- `Dicts`: Python dicts as insertion-ordered association lists, with `Get`, `Put` and the
  counting loop's specification `Tally`. The dashboard reads the same list, so it keeps the
  backend's key order (a JavaScript object puts array-index keys such as "7" first; see
  "## Left out").
- `Types`: the records the two sides exchange.
- `Backend`: the classifier and the `feedbacks` table as a class.
- Frontend modules: `FeedbackList`, `FilterPanel`, `FeedbackForm`, `Dashboard` and `App`. Each
  component's state is a class, and the rendered output is a function of that state.
- `Scenarios`: properties that join components, and the two worked scenarios (a submission end
  to end, and a statistics snapshot).

HTTP outcomes are parameters: `Response<T>` is `Ok(value)` or `RequestError`.

## Model

| member | source | states |
|---|---|---|
| Backend.AnalyzeSentiment | Backend/backend.py:62-68 | the sentiment is always one of "negative", "positive", "neutral" |
| Backend.AnyKeyword | Backend/backend.py:64-66 | some keyword of the list occurs in the text as a substring (`any(word in text for word in ...)`) |
| Backend.NegativeExactly | Backend/backend.py:62-65 | "negative" exactly when some negative keyword occurs in the lower-cased text |
| Backend.PositiveExactly | Backend/backend.py:62-67 | "positive" exactly when no negative keyword occurs and some positive keyword does |
| Backend.NeutralExactly | Backend/backend.py:62-68 | "neutral" exactly when no keyword of either list occurs |
| Backend.NegativeHasPriority | Backend/backend.py:64-65 | a negative keyword makes the text negative whatever positive keywords it also holds |
| Backend.SentimentIgnoresCase | Backend/backend.py:63 | classifying the lower-cased text gives the same sentiment |
| Backend.SentimentSameUpToCase | Backend/backend.py:63 | texts equal up to letter case get the same sentiment |
| Backend.NegativeKeywordsAtLeastThree | Backend/backend.py:55-59 | every negative keyword has at least three characters |
| Backend.PositiveKeywordsAtLeastThree | Backend/backend.py:49-53 | every positive keyword has at least three characters |
| Backend.NoKeywordLongerThanText | Backend/backend.py:64-66 | no keyword longer than the text occurs in it |
| Backend.ShortTextIsNeutral | Backend/backend.py:49-68 | a text of fewer than three characters is neutral |
| Backend.UnhelpfulIsNegative | Backend/backend.py:55-66 | "Unhelpful" holds the positive keyword "helpful" yet is negative |
| Backend.FlagshipIsNegative | Backend/backend.py:55-66 | keywords match inside words: "Great flagship" holds "great" yet is negative because "flagship" holds "lag" |
| Backend.NormaliseName | Backend/backend.py:103 | stored name: "Anonymous" (the schema default of line 83) when missing or blank, otherwise the stripped name; never empty, already stripped |
| Backend.StoredRecord | Backend/backend.py:101-108 | the stored row carries the given id, the normalised name, the request's fields and the computed sentiment |
| Backend.FeedbackTable.constructor | Backend/backend.py:36-45 | the table starts empty and valid |
| Backend.FeedbackTable.AddFeedback | Backend/backend.py:98-113 | exactly one row is appended, validity is kept, and the reply is the message with the sentiment |
| Backend.FeedbackTable.GetFeedback | Backend/backend.py:115-120 | returns every row in table order |
| Backend.FeedbackTable.GetStats | Backend/backend.py:122-136 | total is the row count; each breakdown lists each value once in first-occurrence order, with positive counts that sum to the total and equal the value's number of occurrences |
| Text.Lower | Backend/backend.py:63 | the same length, each character lower-cased |
| Text.LowerIdempotent | Backend/backend.py:63 | lower-casing twice is lower-casing once |
| Text.ContainsLower | frontend/src/components/FeedbackList.tsx:34-36 | an occurrence stays an occurrence after both strings are lower-cased |
| Text.NotContainsMissingChar | Backend/backend.py:64 | a word holding a character that the text lacks does not occur in it |
| Text.Strip | Backend/backend.py:103 | empty exactly for all-blank input; otherwise starts and ends with non-blank characters; never longer |
| Text.StripSlice | Backend/backend.py:103 | the stripped string is a slice of the input with only blanks cut off both ends |
| Text.StripIdempotent | Backend/backend.py:103 | stripping twice is stripping once |
| Text.NatToString | frontendFC/src/App.tsx:19-21 | the rendering is a non-empty string of digits |
| Text.ParseNatToString | frontendFC/src/App.tsx:19-21 | parsing the rendering gives the number back |
| Text.NatToStringInjective | frontendFC/src/App.tsx:19-21 | different numbers render differently |
| Dicts.Get | Backend/backend.py:129-130 | `d.get(k, default)` on the association list; its meaning is stated by `Dicts.GetSpec` |
| Dicts.Put | Backend/backend.py:129-130 | `d[k] = v`: overwrites an existing key in place, appends a new one; stated by `Dicts.GetPut` and `Dicts.KeysPut` |
| Dicts.Increment | Backend/backend.py:129-130 | `d[k] = d.get(k, 0) + 1`; stated by `Dicts.GetIncrement` |
| Dicts.Tally | Backend/backend.py:126-130 | the dict the counting loop builds from a sequence of values; stated by `Dicts.TallyShape` and `Dicts.TallyCount` |
| Dicts.GetSpec | Backend/backend.py:129 | `d.get(k, default)`: the default for an absent key, else the count of the key's entry |
| Dicts.GetPut | Backend/backend.py:129-130 | after `d[k] = v`, key k reads v and every other key reads as before |
| Dicts.KeysPut | Backend/backend.py:129-130 | assigning an existing key keeps the key order; a new key is appended |
| Dicts.SumPut | Backend/backend.py:129-130 | assigning a key changes the sum of counts by the difference |
| Dicts.GetIncrement | Backend/backend.py:129-130 | `d[k] = d.get(k, 0) + 1` adds one to k's count and leaves every other key's count alone |
| Dicts.TallyShape | Backend/backend.py:126-130 | the counting loop's result: keys in first-occurrence order, positive counts, sum equal to the length |
| Dicts.TallyCount | Backend/backend.py:128-130 | each key's count is its number of occurrences; absent keys read 0 |
| Seqs.Filter | frontend/src/components/FeedbackList.tsx:32 | keeps exactly the elements satisfying the predicate, never longer |
| Seqs.FilterIsSubsequence | frontend/src/components/FeedbackList.tsx:32 | filtering keeps the original order |
| Seqs.FilterKeepsAll | frontend/src/components/FeedbackList.tsx:32 | filtering with a predicate every element meets changes nothing |
| Seqs.FilterFilter | frontend/src/components/FeedbackList.tsx:45 | filtering twice is filtering once by the conjunction |
| Seqs.Distinct | frontend/src/components/FeedbackList.tsx:44 | no duplicates, the same members, never longer |
| Seqs.DistinctFirstOccurrenceOrder | frontend/src/components/FeedbackList.tsx:44 | the distinct values come in the order of their first occurrence |
| FeedbackList.Filtered | frontend/src/components/FeedbackList.tsx:32-42 | `filteredFeedbacks`: the fetched items that match all three filters; stated by `FeedbackList.FilteredExactly` and `FeedbackList.FilteredIsSubsequence` |
| FeedbackList.Categories | frontend/src/components/FeedbackList.tsx:44 | `[...new Set(feedbacks.map(f => f.category))]`; stated by `FeedbackList.CategoriesExactly` |
| FeedbackList.Urgent | frontend/src/components/FeedbackList.tsx:45 | the negative items of the shown list; stated by `FeedbackList.UrgentExactly` |
| FeedbackList.FilteredExactly | frontend/src/components/FeedbackList.tsx:32-42 | an item is shown exactly when it matches the search and the category and the sentiment |
| FeedbackList.FilteredIsSubsequence | frontend/src/components/FeedbackList.tsx:32-42 | the shown items keep the fetched order and are never more than the fetched ones |
| FeedbackList.EmptySearchMatchesAll | frontend/src/components/FeedbackList.tsx:33-36 | the empty search term matches every item |
| FeedbackList.SearchReadsOnlyText | frontend/src/components/FeedbackList.tsx:33-36 | the search looks only at the name, the product and the text |
| FeedbackList.SearchIgnoresCase | frontend/src/components/FeedbackList.tsx:34-36 | search terms equal up to letter case select the same items |
| FeedbackList.SearchFindsOccurrence | frontend/src/components/FeedbackList.tsx:33-36 | an occurrence of the term in any of the three texts is a match |
| FeedbackList.NoFiltersShowsAll | frontend/src/components/FeedbackList.tsx:32-42 | with all three filters empty, every fetched item is shown, in order |
| FeedbackList.CategoriesExactly | frontend/src/components/FeedbackList.tsx:44 | each category of the fetched items is offered once, in first-occurrence order |
| FeedbackList.UrgentExactly | frontend/src/components/FeedbackList.tsx:45 | the urgent items are the shown negative items; never more than the shown items; equal to filtering by "negative" when the sentiment filter is empty or "negative" |
| FeedbackList.ListState.constructor | frontend/src/components/FeedbackList.tsx:10-14 | no items, loading, all filters empty |
| FeedbackList.ListState.Screen | frontend/src/components/FeedbackList.tsx:53-117 | a spinner exactly while loading; otherwise "X of Y" with X the shown items and X <= Y, an urgent badge exactly when a shown item is negative whose number is the count of urgent shown items, the derived category options, and the clear button exactly when a category or sentiment is selected |
| FeedbackList.ListState.FetchStart | frontend/src/components/FeedbackList.tsx:20-22 | loading is set; items and filters are kept |
| FeedbackList.ListState.FetchFinish | frontend/src/components/FeedbackList.tsx:23-29 | a success replaces the items, a failure keeps them; loading ends either way |
| FeedbackList.ListState.SetSearchTerm | frontend/src/components/FeedbackList.tsx:91 | only the search term changes |
| FeedbackList.ListState.SetCategory | frontend/src/components/FeedbackList.tsx:100 | only the category filter changes |
| FeedbackList.ListState.SetSentiment | frontend/src/components/FeedbackList.tsx:101 | only the sentiment filter changes |
| FeedbackList.ListState.ClearFilters | frontend/src/components/FeedbackList.tsx:47-51 | all three filters are empty, every item is shown, and the clear button is hidden |
| FilterPanel.Capitalise | frontendFC/src/components/FilterPanel.tsx:73 | the same length, the first character upper-cased, the rest unchanged |
| FilterPanel.CapitaliseIdempotent | frontendFC/src/components/FilterPanel.tsx:73 | capitalising twice is capitalising once |
| FilterPanel.CapitaliseKeepsLowerCase | frontendFC/src/components/FilterPanel.tsx:73 | a caption differs from its value only in letter case |
| FilterPanel.CategoryOptions | frontendFC/src/components/FilterPanel.tsx:52-57 | "All Categories" with the empty value first, then one option per category, in order |
| FilterPanel.HasActiveFilters | frontendFC/src/components/FilterPanel.tsx:22 | a category or a sentiment is selected; the panel is not given the search term |
| FilterPanel.SentimentOptions | frontendFC/src/components/FilterPanel.tsx:70-75 | "All Sentiments", then each fixed sentiment with its capitalised caption; stated by `FilterPanel.SentimentOptionsExactly` |
| FilterPanel.SentimentOptionsExactly | frontendFC/src/components/FilterPanel.tsx:21-75 | the sentiment options are exactly All Sentiments, Positive, Negative, Neutral |
| FeedbackForm.RequiredFilled | frontend/src/components/FeedbackForm.tsx:31 | the guard of `handleSubmit`: product, text and category are non-empty; stated by `FeedbackForm.EmptyRequiredFieldBlocks` and `FeedbackForm.NameNotRequired` |
| FeedbackForm.NameNotRequired | frontend/src/components/FeedbackForm.tsx:31 | the name plays no part in the validation |
| FeedbackForm.EmptyRequiredFieldBlocks | frontend/src/components/FeedbackForm.tsx:31-33 | validation fails exactly when the product, the text or the category is empty |
| FeedbackForm.WithField | frontend/src/components/FeedbackForm.tsx:79-127 | an edit changes exactly the edited field |
| FeedbackForm.FormState.constructor | frontend/src/components/FeedbackForm.tsx:10-17 | empty fields, not submitting, no banner |
| FeedbackForm.FormState.Edit | frontend/src/components/FeedbackForm.tsx:79-127 | only the edited field changes |
| FeedbackForm.FormState.Submit | frontend/src/components/FeedbackForm.tsx:28-38 | with a required field empty, no request and no change; otherwise the form is the request and submitting is set |
| FeedbackForm.FormState.Complete | frontend/src/components/FeedbackForm.tsx:37-53 | on success the banner shows, the fields clear, the callback fires and a dismissal is armed; on failure the fields and banner are kept; submitting always ends |
| FeedbackForm.FormState.DismissBanner | frontend/src/components/FeedbackForm.tsx:48 | the banner hides and nothing else changes |
| Dashboard.SentimentCount | frontend/src/components/Dashboard.tsx:69-81 | a tile shows the stored count, or 0 when the sentiment is absent |
| Dashboard.TilesOf | frontend/src/components/Dashboard.tsx:61-84 | the total tile shows the snapshot's total; each sentiment tile shows its stored count, or 0 when the sentiment is absent |
| Dashboard.RowsOf | frontend/src/components/Dashboard.tsx:94-118 | one row per entry, in the entries' order, with its key and count |
| Dashboard.AlertWhenNegativeTilePositive | frontend/src/components/Dashboard.tsx:152 | the alert shows exactly when the negative tile is above 0 |
| Dashboard.ShowsAlert | frontend/src/components/Dashboard.tsx:152 | `stats.by_sentiment.negative > 0`, false for an absent key; stated by `Dashboard.AlertWhenNegativeTilePositive` |
| Dashboard.AlertText | frontend/src/components/Dashboard.tsx:161-163 | the alert sentence starts "You have " and ends " that may need immediate attention." |
| Dashboard.AlertTextPlural | frontend/src/components/Dashboard.tsx:161-163 | the alert says "items" exactly when the count exceeds one |
| Dashboard.AlertTextNamesCount | frontend/src/components/Dashboard.tsx:161 | the alert text contains the negative count |
| Dashboard.OverviewOf | frontend/src/components/Dashboard.tsx:50-168 | the total tile is the snapshot's total, the sentiment tiles have default-0 counts, the two breakdowns are the rows of the two dicts, and the alert shows exactly when the negative count is positive, with its text |
| Dashboard.DashboardState.constructor | frontend/src/components/Dashboard.tsx:15-16 | no snapshot, loading |
| Dashboard.DashboardState.FetchFinish | frontend/src/components/Dashboard.tsx:22-32 | a success stores the snapshot, a failure keeps the old one; loading ends |
| Dashboard.DashboardState.View | frontend/src/components/Dashboard.tsx:34-48 | a spinner exactly while loading, "Unable to load statistics" exactly without a snapshot, else the overview |
| App.RenderContent | frontendFC/src/App.tsx:16-27 | "submit" shows the form, "feedback" the list, and any other tab a dashboard |
| App.DashboardKey | frontendFC/src/App.tsx:19 | the dashboard's key `dashboard-${refreshKey}`; stated by `App.KeysDifferAcrossRefreshes` |
| App.ListKey | frontendFC/src/App.tsx:21 | the list's key `feedback-${refreshKey}`; stated by `App.KeysDifferAcrossRefreshes` |
| App.KeysDifferAcrossRefreshes | frontendFC/src/App.tsx:19-21 | different counter values give different dashboard keys and different list keys |
| App.RefreshRemountsKeyedViews | frontendFC/src/App.tsx:16-21 | on the dashboard and list tabs, bumping the counter changes the rendered element |
| App.AppState.constructor | frontendFC/src/App.tsx:8-9 | tab "dashboard", counter 0 |
| App.AppState.SetActiveTab | frontendFC/src/App.tsx:31 | the tab changes, the counter does not |
| App.AppState.HandleFeedbackSubmit | frontendFC/src/App.tsx:11-14 | the counter goes up by exactly one, the tab is kept |
| Scenarios.StatsOf | Backend/backend.py:122-136 | the snapshot of a table: its breakdowns sum to its total |
| Scenarios.ThreeSentimentsCover | Backend/backend.py:62-68 | when every sentiment is one of the three, their counts add up to the length |
| Scenarios.SentimentTilesCoverTotal | frontend/src/components/Dashboard.tsx:61-84 | on rows the backend wrote, the three sentiment tiles add up to the total tile |
| Scenarios.CountAtMostSum | Backend/backend.py:126-130 | with positive counts, each count is at most the sum |
| Scenarios.PercentagesWellDefined | frontend/src/components/Dashboard.tsx:94-119 | every breakdown row of a backend snapshot has 0 < count <= total; with total 0 there are no rows, so nothing divides by 0 |
| Scenarios.ListAndDashboardCategoriesAgree | frontend/src/components/FeedbackList.tsx:44 | the list's category options are the dashboard's category rows, in the same order, given the row order and key order named under "## Left out" |
| Scenarios.DashboardTilesOfTable | frontend/src/components/Dashboard.tsx:61-84 | GET /stats into the tiles: the total is the row count and the sentiment tiles add up to it |
| Scenarios.RequestOf | frontend/src/services/api.ts:4-16 | the JSON body the form posts carries the four fields unchanged |
| Scenarios.BlankNameStoredAsAnonymous | Backend/backend.py:103 | a blank name from the form is stored as "Anonymous" |
| Scenarios.CompleteSubmission | frontendFC/src/App.tsx:11-23 | the counter goes up by one per successful submission and not on a failed one |
| Scenarios.ExampleTextIsPositive | Backend/backend.py:62-68 | "This is great!" is positive |
| Scenarios.AshaRecord | Backend/backend.py:98-108 | Asha's form is stored as the record with id 1 and sentiment "positive" |
| Scenarios.AshaFillsForm | frontend/src/components/FeedbackForm.tsx:79-127 | after four edits the form holds Asha's fields |
| Scenarios.StoreInEmptyTable | Backend/backend.py:98-120 | a submission to an empty table, then a read, returns exactly the stored record |
| Scenarios.FetchIntoNewList | frontend/src/components/FeedbackList.tsx:16-42 | a remounted list whose fetch succeeds shows every fetched item |
| Scenarios.AshaSubmission | frontend/src/components/FeedbackForm.tsx:28-53 | Asha's submission: reply "positive", form cleared, banner shown then hidden, counter 1, list shows the new record |
| Scenarios.EmptyProductSendsNothing | frontend/src/components/FeedbackForm.tsx:31-33 | with the product empty, no request is issued and the form is not submitting |
| Scenarios.ExampleDashboard | frontend/src/components/Dashboard.tsx:61-163 | the 10-item snapshot shows tiles 10/3/2/5, the two category rows, the three sentiment rows and the alert for 2 |
| Scenarios.ExampleDashboardScreen | frontend/src/components/Dashboard.tsx:152-163 | after that fetch the alert mentions "2" and says "items" |

## Left out

- HTTP in `frontend/src/services/api.ts` (URL, headers, JSON parsing, status codes) is not modelled. Each call's outcome is a `Response` parameter. `Scenarios.RequestOf` models only the request body.
- The database is not modelled: engine, sessions, commits. The table is a sequence of rows.
- The id the database assigns is a parameter of `AddFeedback`. Nothing is proved about id uniqueness.
- CORS setup, the root route, the startup message, the keep-alive heartbeat thread and the uvicorn entry point are side effects with no state in the model.
- `browserTesting.js` is not modelled. It loads faker from a CDN, builds 30 random feedback records with `Math.random` and posts them to `/feedback` without waiting for the replies: randomised network traffic, not application logic.
- `StatisticsCard`, `FeedbackCard` and `Header` are presentational components and are not modelled. Styling is not modelled either: colours, bar widths.
- Percentages are not modelled: their floating-point value and `toFixed(1)`. `Scenarios.PercentagesWellDefined` bounds the counts they divide.
- Text.Lower: `str.lower()` and `toLowerCase()` also map non-ASCII letters. The model changes only ASCII letters.
- Text.UpperChar: `toUpperCase()` also maps non-ASCII letters. The model changes only ASCII letters, which is all `FilterPanel.Capitalise` is given (three fixed lower-case words).
- Text.Strip: Python's `strip()` also removes Unicode whitespace. The model strips only the ASCII whitespace characters.
- The form's 3-second `setTimeout` is the explicit `DismissBanner` event. The delay itself is not modelled.
- React scheduling is not modelled: batching, and overlapping fetches that finish out of order.
- A React remount with a new key is modelled as a fresh component state. See `App.RefreshRemountsKeyedViews` and `Scenarios.FetchIntoNewList`.
- Console logging in the catch blocks is left out.
- App.AppState.HandleFeedbackSubmit and Text.NatToString: the counter and the counts are unbounded naturals. In JavaScript `prev + 1` is a double that stops changing at 2^53, and a template literal renders numbers of 1e21 or more as "1e+21", not as digits. The dashboard's counts have the same limit. Nothing reaches these sizes in practice.
- Scenarios.ListAndDashboardCategoriesAgree: the in-order equality rests on two orders the code does not guarantee. First, `db.query(Feedback).all()` (backend.py:118 and 128, no ORDER BY) must return the rows in the same order to both handlers; the model gives both the table's sequence. Second, the object `JSON.parse` builds must keep Python's key order; a JavaScript object lists array-index keys first, so with categories "Other" then "7" the list offers "Other", "7" while the dashboard draws "7", "Other". Without these, only the sets of categories agree.
- Backend.FeedbackTable.GetStats reads `total` and the rows from a single snapshot. The source runs two queries, `count()` and `all()`, which could see different rows under concurrent writes.
- FeedbackForm.FormState.ButtonCaption and FeedbackForm.FormState.SubmitDisabled model the button caption and its disabled flag (`FeedbackForm.tsx:137-145`). They have no contract beyond their bodies.
- The form's fixed category list (`FeedbackForm.tsx:19-26`) is the constant `FeedbackForm.Categories`. Nothing is proved about it.

## Notes on the code

- A failed list refresh keeps the previous items: `fetchFeedbacks` only logs the error (`FeedbackList.ListState.FetchFinish`).
- POST /feedback replies with `{message, sentiment}`, not the stored record (`Backend.SubmitReply`).
- The dashboard does not guard against a total of 0. For a GET /stats snapshot, a total of 0 means both breakdowns are empty, so no row divides by it (`Scenarios.PercentagesWellDefined`).
