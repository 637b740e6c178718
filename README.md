# Civic waste reporting: report form, public list and profile figures

A Dafny model of the logic in a citizen waste-reporting web application. Citizens photograph a waste site, an external vision model classifies the photo, an external text model summarizes the description, and the form hands a complaint document to a hosted store. The model covers the three places where the application computes something itself:

- **The report form** (`report_form.dfy`, module `ReportForm`). The form's seven state fields form the class `ReportForm.Form`. Its handlers are methods: geolocation, classification, choosing and removing a photo, editing, and submit. Each method's `ensures` ties the new fields to a pure transition function (`AfterLocation`, `AfterAnalysis`, `AfterRemoveImage`) or to the pure submit function `Submit`. The lemmas are stated over those functions. The object invariant `Valid()` says that neither busy flag is set between handlers and that a classification exists only while its photo is attached.
- **The public report list** (`complaints_page.dfy`, module `ComplaintsPage`). This is the case-insensitive search over summary and address, plus the four tabs.
- **The profile page** (`profile_page.dfy`, module `ProfilePage`). These are the counts, the stat tiles and the badge progress values.

Shared records live in `types.dfy` (module `Types`). `sequences.dfy` holds `Array.prototype.filter` and the order-preserving sublist relation. `text.dfy` holds ASCII lower-casing and `String.prototype.includes`, with `includes` proved equal to a reference "occurs at some position" definition.

The external services, the browser and the session are inputs:

- A classifier call is `Classified(output)` or `ClassifierThrew`.
- A summarizer call is `Summarized(output)` or `SummarizerThrew`.
- A geolocation request is `NoGeolocationApi`, `PositionError` or `Position(coords, latText, lngText)`.
- The signed-in user is `Option<User>`.
- The submission time is a string.

Because the submit outcome is a function of its inputs, "the summarizer is not called when a check fails" becomes a provable statement: the outcome is the same whatever the summarizer and the clock would have produced (`RejectionIgnoresSummarizer`).

The classifier's prompt (src/ai/flows/ai-waste-detection-and-classification-flow.ts:66) asks for a null waste type and severity when no waste is detected. The stored record's type (src/lib/types.ts:21-22) makes both fields optional. The submit handler (src/components/waste/ReportForm.tsx:134-139) nevertheless always writes a type and a severity: it defaults them to `unknown` and `medium` when the classifier left them out or when no classification exists, so a record whose `wasteDetected` is false still carries both. The model follows the handler, and `ReportForm.UndetectedStillTyped` states this behaviour.

The two percentage badges are computed in the source as `Math.min((count / 10) * 100, 100)` and `Math.min((count / 5) * 100, 100)` in double precision. For counts below the cap, `count / 10` and `count / 5` rounded to a double and then multiplied by 100 give exactly 10·count and 20·count; at or above the cap the product is at least 100 and the minimum is 100. The model's integer values are therefore the same as the source's for every count.

## Model

| member | source | states |
|---|---|---|
| ReportForm.Passes | src/components/waste/ReportForm.tsx:105-120 | The image check accepts a present, non-empty photo. The address check accepts a non-empty address. The description check accepts a description that is non-empty and at least five characters long. The session check accepts a signed-in user. |
| ReportForm.FirstFailedCheck | src/components/waste/ReportForm.tsx:105-120 | The checks run in the fixed order image, address, description, session. The result is None iff every check passes. Otherwise it is a failing check, and every check ranked before it passes. |
| ReportForm.CheckBoundaries | src/components/waste/ReportForm.tsx:109-116 | A whitespace-only address passes. A 4-character description is rejected with the description toast and a 5-character one passes. An empty address is reported before a short description. |
| ReportForm.AnalysisOf | src/components/waste/ReportForm.tsx:134-139 | The stored analysis always names a type and a severity. Without a classification it is exactly (false, unknown, medium, description). Otherwise it keeps the classifier's detected flag and details, and its type and severity where given, else unknown and medium. |
| ReportForm.ReporterName | src/components/waste/ReportForm.tsx:128 | The reporter name is never empty. It is the display name when that is present and non-empty, else "Anonymous Citizen". |
| ReportForm.BuildComplaint | src/components/waste/ReportForm.tsx:126-142 | The document is pending and carries the user id, the photo, the form description and the form address. Its coordinates are the captured ones, or (0, 0) without a capture. It carries the summarizer's summary and key details, the analysis with defaults, and the submission time. |
| ReportForm.Submit | src/components/waste/ReportForm.tsx:102-161 | The submission is rejected with the first failed check iff some check fails. It fails iff all checks pass and the summarizer throws. A document is written iff all checks pass and the summarizer answers, and it is then the assembled document. |
| ReportForm.WrittenOnlyWhenAllPass | src/components/waste/ReportForm.tsx:105-144 | A document is written iff every check passes and the summarizer call returns. |
| ReportForm.RejectionIgnoresSummarizer | src/components/waste/ReportForm.tsx:105-124 | When a check fails, the outcome does not depend on the summarizer's result or the clock: neither is consulted. |
| ReportForm.WrittenRecordWellFormed | src/components/waste/ReportForm.tsx:105-142 | Every written document has a non-empty photo, a non-empty address, a description of at least 5 characters and a non-empty reporter name. It is pending and has a type and a severity. |
| ReportForm.RecordKeepsClassification | src/components/waste/ReportForm.tsx:134-139 | Read back from the document, the analysis equals the classifier output when that output named a type and a severity. Without a classification it equals the defaults. |
| ReportForm.UndetectedStillTyped | src/components/waste/ReportForm.tsx:134-139 | Without a classification the document says no waste was detected, yet it still names type unknown and severity medium. |
| ReportForm.WestTowerScenario | src/components/waste/ReportForm.tsx:126-142 | A signed-in user without a display name submits a photo, "West Tower" and "plastic bags near gate". The result is a pending document under "Anonymous Citizen" at (0, 0, "West Tower"), with the classifier's type and the summarizer's summary. |
| ReportForm.PrefilledDescription | src/components/waste/ReportForm.tsx:80-82 | A non-empty description is never replaced. The description changes only to the classifier's details, and only when waste was detected. An empty description takes the details whenever waste was detected. |
| ReportForm.CoordinatesText | src/components/waste/ReportForm.tsx:44 | The coordinates address line always contains a comma. |
| ReportForm.CapturedAddress | src/components/waste/ReportForm.tsx:43-45 | A non-empty address without a comma is kept. An empty address, or one containing a comma, becomes the coordinates text. |
| ReportForm.LaterCaptureWins | src/components/waste/ReportForm.tsx:43-45 | Capturing two positions in a row gives the same address as capturing only the second one. |
| ReportForm.AfterAnalysis | src/components/waste/ReportForm.tsx:74-100 | A classification never changes the photo, address or location. A thrown call changes nothing. A returned call stores the result and applies the description pre-fill. |
| ReportForm.AnalysisNotice | src/components/waste/ReportForm.tsx:84-96 | The "Analysis Failed" toast is shown iff the call threw. The "No Waste Detected" toast is shown iff it returned without detecting waste. Otherwise no toast is shown. |
| ReportForm.AfterLocation | src/components/waste/ReportForm.tsx:35-58 | Only a delivered position changes the form. It records the coordinates and applies the address-overwrite rule. The photo, description and classification are untouched. |
| ReportForm.LocationNotice | src/components/waste/ReportForm.tsx:36-56 | The "Location Captured" toast is shown iff a position arrived. The "Location Error" toast is shown iff the request failed (the error callback, whatever the cause). Without geolocation there is no toast. |
| ReportForm.AfterRemoveImage | src/components/waste/ReportForm.tsx:185 | Removing the photo clears the photo and the classification and keeps description, address and location. |
| ReportForm.TypedDescriptionSurvivesAnalysis | src/components/waste/ReportForm.tsx:80-82 | Text the citizen typed survives any classification outcome. |
| ReportForm.TypedAddressSurvivesCaptures | src/components/waste/ReportForm.tsx:43-45 | A typed address without a comma survives any sequence of geolocation events. |
| ReportForm.TransitionsKeepCoherent | src/components/waste/ReportForm.tsx:60-72 | Choosing a photo and classifying it, capturing a position, and removing the photo all keep "a classification only with a photo" true. |
| ReportForm.Form.CanSubmit | src/components/waste/ReportForm.tsx:289 | The submit button is enabled exactly when neither busy flag is set and the submit handler's image check accepts the photo. When it is enabled, the handler never stops at the image check, whoever is signed in. |
| ReportForm.Form.constructor | src/components/waste/ReportForm.tsx:21-27 | The form starts with no photo, empty description and address, no classification, no location and both flags clear. |
| ReportForm.Form.EditAddress | src/components/waste/ReportForm.tsx:263 | Typing in the address field replaces the address and nothing else. |
| ReportForm.Form.EditDescription | src/components/waste/ReportForm.tsx:283 | Typing in the description field replaces the description and nothing else. |
| ReportForm.Form.GetLocation | src/components/waste/ReportForm.tsx:35-58 | The new fields are AfterLocation of the old ones, the toast is LocationNotice, and the invariant is kept. |
| ReportForm.Form.RunAiAnalysis | src/components/waste/ReportForm.tsx:74-100 | The new fields are AfterAnalysis of the old ones, the toast is AnalysisNotice, and `isAnalyzing` is false again however the call ends. |
| ReportForm.Form.ChangeImage | src/components/waste/ReportForm.tsx:60-72 | Without a file nothing changes. With a file, the photo is attached, then classified, then the position is captured, and both toasts are returned in that order. |
| ReportForm.Form.RemoveImage | src/components/waste/ReportForm.tsx:185 | The new fields are AfterRemoveImage of the old ones. |
| ReportForm.Form.HandleSubmit | src/components/waste/ReportForm.tsx:102-161 | The outcome is Submit of the form fields, the session, the summarizer call and the time. The form's fields are unchanged, and `isSubmitting` is false again on every path. |
| Sequences.Filter | src/app/complaints/page.tsx:14-17 | `filter` returns an order-preserving sublist. Each element's multiplicity is kept when it satisfies the predicate and is 0 otherwise, so membership is "in the list and satisfies it". |
| Text.Lower | src/app/complaints/page.tsx:15-16 | Lower-casing keeps the length and leaves no capital letter. It maps each capital A–Z to its own small letter, by the fixed code-point offset from `A` to `a`, and keeps every other character. |
| Text.LowerIdempotent | src/app/complaints/page.tsx:15-16 | Lower-casing twice is lower-casing once. |
| Text.Includes | src/app/complaints/page.tsx:15-16 | `includes` is true for an empty needle, and false whenever the needle is longer than the text. |
| Text.IncludesIsSubstring | src/app/complaints/page.tsx:15-16 | `includes` is true iff the needle occurs in the text at some position. |
| ComplaintsPage.MatchesQuery | src/app/complaints/page.tsx:14-17 | A complaint matches exactly when the lower-cased query occurs at some position in its lower-cased summary or in its lower-cased address. |
| ComplaintsPage.FilteredComplaints | src/app/complaints/page.tsx:14-17 | The search result is an order-preserving sublist of the complaints. A complaint is in it iff it is in the list and matches the query. Every matching complaint keeps its number of occurrences, and a non-matching one has none. |
| ComplaintsPage.KeptIffSubstring | src/app/complaints/page.tsx:14-17 | A complaint is kept iff the lower-cased query is a substring of its lower-cased summary or of its lower-cased address. |
| ComplaintsPage.EmptyQueryKeepsAll | src/app/complaints/page.tsx:14-17 | An empty query keeps every complaint, in order. |
| ComplaintsPage.SearchIgnoresCase | src/app/complaints/page.tsx:15-16 | A query and its lower-cased form give the same result. |
| ComplaintsPage.AllTab | src/app/complaints/page.tsx:56-69 | The "All Reports" tab shows the no-match message iff the search result is empty, and otherwise shows exactly the search result. |
| ComplaintsPage.PendingTab | src/app/complaints/page.tsx:73 | The Pending tab is an order-preserving sublist of the search result. It holds exactly the matching complaints that are pending. Every pending match keeps its number of occurrences in the search result, and every other complaint has none. |
| ComplaintsPage.ActionTakenTab | src/app/complaints/page.tsx:81 | The Action Taken tab is an order-preserving sublist of the search result. It holds exactly the matching complaints that are in progress. Every in-progress match keeps its number of occurrences in the search result, and every other complaint has none. |
| ComplaintsPage.ResolvedTab | src/app/complaints/page.tsx:87-91 | The Resolved tab always shows a message, never cards. |
| ComplaintsPage.ResolvedTabIgnoresInputs | src/app/complaints/page.tsx:87-91 | The Resolved tab shows the same fixed message whatever the list and the query. |
| ComplaintsPage.StatusTabsAreDisjointSublists | src/app/complaints/page.tsx:73-81 | Both status tabs are order-preserving sublists of the whole list, and no complaint is on both. |
| ComplaintsPage.StatusTabsNoLongerThanAll | src/app/complaints/page.tsx:57-81 | Each status tab is no longer than the search result, which is no longer than the list. |
| ProfilePage.TotalCount | src/app/profile/page.tsx:35 | The report count is 0 iff the list is absent or empty. |
| ProfilePage.ResolvedCount | src/app/profile/page.tsx:34 | The resolved count never exceeds the report count. It is 0 iff the list is absent or holds no resolved complaint. |
| ProfilePage.CountsAppend | src/app/profile/page.tsx:34-35 | Appending a complaint adds one to the report count. It adds one to the resolved count exactly when the complaint is resolved. |
| ProfilePage.NoComplaintsNoCounts | src/app/profile/page.tsx:34-35 | An empty list gives zero reports and zero resolved. |
| ProfilePage.Stats | src/app/profile/page.tsx:62-67 | The tiles show the two counts, with resolved ≤ reports. The impact score is exactly 50 × reports. "Locations" is "Madurai" iff there is a report and "0" iff there is none. An absent list shows all zeros. |
| ProfilePage.WasteWarriorProgress | src/app/profile/page.tsx:124 | The value lies in [0, 100]. It is 10 per report below ten reports and reaches 100 iff there are at least ten. |
| ProfilePage.SpotlessScoutProgress | src/app/profile/page.tsx:125 | The value lies in [0, 100]. It is 20 per resolved report below five and reaches 100 iff at least five are resolved. |
| ProfilePage.CommunityPillarProgress | src/app/profile/page.tsx:126 | The value is 30 when there is at least one report and 0 when there is none. |
| ProfilePage.Badges | src/app/profile/page.tsx:123-127 | There are exactly three badges, in the order Waste Warrior, Spotless Scout, Community Pillar, with their titles and descriptions. Their progress values are the Warrior progress of the report count, the Scout progress of the resolved count and the Pillar progress of the report count. Every value lies in [0, 100], and all are 0 while the list is absent. |
| ProfilePage.ProgressMonotone | src/app/profile/page.tsx:124-126 | More reports, or more resolved reports, never lower a badge's progress. |
| ProfilePage.ScoutWithinTwiceWarrior | src/app/profile/page.tsx:124-125 | Spotless Scout progress is at most twice Waste Warrior progress, since resolved ≤ reports. |

## Left out

- Prompt templates and the model calls themselves (src/ai/flows/*.ts): classification and summarization cannot be modelled. Their results are inputs shaped by the declared output schemas.
- The document store and authentication are not modelled. That covers the non-blocking write, the id the store assigns, the profile query's filter by user, its ordering by creation time, and its limit of five documents. `Written(record)` is the document handed to the store; whether it is persisted is not modelled. Because of that limit (src/app/profile/page.tsx:28), the profile list in practice holds at most five complaints, so Waste Warrior cannot pass 50 and the impact score cannot pass 250. The model takes the list as given.
- Browser I/O: FileReader, `navigator.geolocation`, toasts and navigation after a successful submit. Toasts are modelled only as which one is shown (`Notice`, `SubmitOutcome`), not their text.
- Async ordering and races are not modelled. Each handler is one sequential step. `ChangeImage` runs classification and then geolocation, while the source starts both without awaiting either. The source's handlers read `description` and `address` as captured at render time. A classification that completes after the photo was removed is not modelled either.
- ReportForm.GetLocation: the four-decimal rendering of the coordinates (`toFixed(4)`) is not computed. The geolocation event carries the two rendered strings, and coordinates are `real` rather than IEEE doubles.
- Text.Lower: lower-cases the ASCII letters A–Z only; `toLowerCase` also folds other Unicode letters.
- ReportForm.FirstFailedCheck: the description length counts characters, not UTF-16 code units as JavaScript does.
- ReportForm.Form.RunAiAnalysis: `aiResult` is untyped in the source. The model assumes the classifier output matches its declared schema, so `analysisDetails` is always present and the description default applies only when there is no result at all.
- ProfilePage.Stats: the tile values are numbers; their `toString` rendering is not modelled.
- Status changes after creation, worker replies and citizen feedback are not modelled, because no code shown here performs them. Page rendering, styling, the login page and the navigation bar are not modelled either.
