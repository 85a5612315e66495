# Climate-Tech core, modelled in Dafny

Climate-Tech is a React front end for tracking CO₂ emissions of Louisiana
companies. It has three personas: company, regulatory and public. This project
models the four pieces of it that compute something.

- **The AI assistant** (`Assistant`).
  - `generateResponse` is a keyword-driven reply selector. The query is
    lowercased. Persona rules are tried first, in source order. The universal
    greeting and thanks rules come next, and a fixed default prompt closes it.
  - The company summary fills a template from the company record.
  - `Chat` models the panel's transcript, as the greeting effect and
    `handleSend` update it.
- **The past-reports modal** (`Reports`).
  - A filter by search term on period or facility, and by exact status.
  - A comparator on date, emissions or period, ascending or descending. It is
    applied by an in-place insertion sort over an array.
  - `ReportsModal` models the modal's four pieces of state, including the
    sort-order toggle.
- **The new-report form** (`ReportForm`).
  - `EmissionsReportForm` holds the field map and the error map.
  - `handleChange` clears a field's shown error.
  - `validateForm` rebuilds the error map. `FormErrors` states field by field
    what that map must be.
  - `handleSubmit` builds the new record, with status "Compliant".
- **The compliance map** (`ComplianceMap`).
  - The marker's colour and icon URL.
  - The three-way status badge.
  - The "+" prefix and the green/red colour of the year-over-year change.

`Text` models the JavaScript string operations the core uses:
- `toLowerCase`, restricted to ASCII.
- `includes`, as a substring test.
- `replace(/,/g, '')`.
- `trim`, with the ECMAScript white-space set.
- `localeCompare`, as a three-way lexicographic comparison.

`Statuses` names the three compliance statuses the records and company data
carry. `Wrappers` holds `Option` and `Result`.

Three external functions become parameters:
- `toLocaleString` is the function-typed parameter `locale`.
- A template literal's number-to-string conversion is `num`.
- The global `isNaN` is `isNaN`.

Nothing is proved about those three parameters.

## Model

| member | source | states |
|---|---|---|
| `Text.LowerIdempotent` | src/components/AIAssistant.jsx:152 | Lowercasing a query again changes nothing. |
| `Text.StripCommas` | src/components/NewEmissionReportForm.jsx:35 | The result has no comma, is no longer than the input, and keeps every non-comma character. |
| `Text.StripCommasCount` | src/components/NewEmissionReportForm.jsx:35 | Exactly the commas are deleted: every other character occurs as often as in the input. |
| `Text.StripCommasAppend` | src/components/PastReportModal.jsx:28-29 | Stripping a concatenation is concatenating the stripped parts, so the remaining characters keep their order. |
| `Text.StripCommasKeepsCommaFree` | src/components/PastReportModal.jsx:28-29 | A string without commas is left unchanged. |
| `Text.TrimEmptyIffBlank` | src/components/AIAssistant.jsx:26 | `trim` gives the empty string exactly when every character is white space. |
| `Text.LexCompareZeroIffEqual` | src/components/PastReportModal.jsx:35-37 | The period comparison returns 0 exactly for equal periods. |
| `Text.LexCompareAntisymmetric` | src/components/PastReportModal.jsx:35-37 | Swapping the operands negates the period comparison. |
| `Text.LexCompareTransitive` | src/components/PastReportModal.jsx:35-37 | The period comparison is transitive, so sorting by it is well defined. |
| `Reports.Filter` | src/components/PastReportModal.jsx:10-20 | Filtering never adds reports. |
| `Reports.FilterCount` | src/components/PastReportModal.jsx:10-20 | Each report occurs in the result as often as in the input if it matches, and not at all otherwise. |
| `Reports.FilterMembership` | src/components/PastReportModal.jsx:13-19 | A report is shown iff it is in the input, its lowercased period or facility contains the lowercased term, and the status filter is "all" or equals its status. |
| `Reports.FilterAppend` | src/components/PastReportModal.jsx:10-20 | Filtering a concatenation is concatenating the filtered parts, so order is kept. |
| `Reports.FilterKeepsAll` | src/components/PastReportModal.jsx:10-20 | When every report matches, the filter returns the list unchanged. |
| `Reports.EmptyQueryKeepsAll` | src/components/PastReportModal.jsx:13-18 | With the initial empty term and "all" status, every report is shown. The code has no separate branch for an empty term: every string includes the empty string. |
| `Reports.FilterIdempotent` | src/components/PastReportModal.jsx:10-20 | Filtering twice with the same criteria is filtering once. |
| `Reports.EmissionsCommaInsensitive` | src/components/PastReportModal.jsx:28-29 | Within figures of digits and commas, inserting a comma anywhere leaves the figure well formed and its value unchanged. |
| `Reports.EmissionsIgnoreCommas` | src/components/PastReportModal.jsx:28-29 | "12,450" is read as 12450, the value of "12450". |
| `Reports.CompareDescendingSwaps` | src/components/PastReportModal.jsx:21-39 | Every non-"asc" order compares its operands swapped, for all three keys. |
| `Reports.InOrderTotal` | src/components/PastReportModal.jsx:21-39 | Every two reports are ordered one way or the other. |
| `Reports.InOrderTransitive` | src/components/PastReportModal.jsx:21-39 | The comparator's order is transitive on sortable reports. |
| `Reports.SortedByDate` | src/components/PastReportModal.jsx:23-26 | A date-sorted list has non-decreasing dates when "asc" and non-increasing dates otherwise. |
| `Reports.SortedByEmissions` | src/components/PastReportModal.jsx:27-32 | An emissions-sorted list is ordered by parsed figure, ascending for "asc" and descending otherwise. |
| `Reports.SortedByPeriod` | src/components/PastReportModal.jsx:33-38 | Any other key orders by period, ascending for "asc" and descending otherwise. |
| `Reports.SortedReverse` | src/components/PastReportModal.jsx:26 | Reversing an ascending list gives a descending one. |
| `Reports.SortInPlace` | src/components/PastReportModal.jsx:21-39 | Sorting the array in place keeps its multiset of reports and leaves it sorted by the comparator. |
| `Reports.Query` | src/components/PastReportModal.jsx:10-39 | The displayed list is a permutation of the filtered reports and is sorted. Only the filtered reports need a parseable figure. |
| `Reports.LateSubmissionScenario` | src/components/PastReportModal.jsx:17-18 | With status filter "Late Submission", only the late Q3 2022 report is shown. |
| `Reports.Toggled` | src/components/PastReportModal.jsx:46-48 | The toggled order is always "asc" or "desc". |
| `Reports.ToggleInvolutive` | src/components/PastReportModal.jsx:46-48 | Toggling twice restores the order, toggling once changes it, and the toggled comparator is the original with its operands swapped. |
| `Reports.ReportsModal.constructor` | src/components/PastReportModal.jsx:4-7 | The modal starts with an empty term, status "all", key "date" and order "desc". |
| `Reports.ReportsModal.SetSearchTerm` | src/components/PastReportModal.jsx:120 | Sets the term and nothing else. |
| `Reports.ReportsModal.SetFilterStatus` | src/components/PastReportModal.jsx:129 | Sets the status filter and nothing else. |
| `Reports.ReportsModal.SetSortBy` | src/components/PastReportModal.jsx:144 | Sets the sort key and nothing else. |
| `Reports.ReportsModal.ToggleSortOrder` | src/components/PastReportModal.jsx:46-48 | "asc" becomes "desc" and "desc" becomes "asc"; nothing else changes. |
| `Reports.ReportsModal.Visible` | src/components/PastReportModal.jsx:10-39 | The list the modal shows for its current state is a permutation of the filtered reports, sorted by the current key and order. Only the filtered reports need a parseable figure. |
| `Assistant.Abs` | src/components/AIAssistant.jsx:157 | `Math.abs` is non-negative and equals the value or its negation. |
| `Assistant.RespondIgnoresCase` | src/components/AIAssistant.jsx:152 | The reply depends only on the lowercased query. |
| `Assistant.PersonaRuleOverridesUniversal` | src/components/AIAssistant.jsx:154-224 | Whenever a persona rule matches, the reply is never the greeting, the thanks reply or the default prompt. |
| `Assistant.HelloReportFromCompany` | src/components/AIAssistant.jsx:181-187 | "hello report" from a company matches the greeting rule, yet gets the filing-deadline reply. |
| `Assistant.SummaryBeforeDeadline` | src/components/AIAssistant.jsx:155-187 | A company query mentioning "summarize" or "summary" gets the summary, never the deadline text, even if it says "report". |
| `Assistant.NonCompliantSummaryText` | src/components/AIAssistant.jsx:156-159 | The Non-Compliant summary carries the company's emissions figure and shows it formatted. It names the status and shows abs(yoyChange)% followed by "lower" iff yoyChange < 0, else "higher". |
| `Assistant.RenderNonCompliant` | src/components/AIAssistant.jsx:157-159 | The Non-Compliant text contains the status and the change phrase. |
| `Assistant.RenderNonCompliantFigure` | src/components/AIAssistant.jsx:157 | The Non-Compliant text contains the formatted emissions figure. |
| `Assistant.UnderReviewSummaryText` | src/components/AIAssistant.jsx:160-163 | The Under Review summary carries the company's emissions figure and shows it formatted. It names the status and shows abs(yoyChange)% followed by "lower" iff yoyChange < 0, else "higher". |
| `Assistant.RenderUnderReview` | src/components/AIAssistant.jsx:161-163 | The Under Review text contains the status and the change phrase. |
| `Assistant.RenderUnderReviewFigure` | src/components/AIAssistant.jsx:161 | The Under Review text contains the formatted emissions figure. |
| `Assistant.StatusSummaryNeedsEmissions` | src/components/AIAssistant.jsx:157-163 | For Non-Compliant or Under Review, the summary fails exactly when emissions are missing (the source throws). |
| `Assistant.CompliantSummaryFields` | src/components/AIAssistant.jsx:164-169 | Otherwise the summary never fails. The figure's placeholder is used iff emissions are missing. The change's placeholder is used iff yoyChange is missing or zero. |
| `Assistant.RenderCompliant` | src/components/AIAssistant.jsx:165-169 | The compliant text shows the formatted figure when there is one, and "an acceptable amount of" when it is missing. It shows the change when there is one, and "trending positively" when it is missing. |
| `Assistant.GreetingBeforeThanks` | src/components/AIAssistant.jsx:218-224 | When no persona rule matches, a query containing "hello" or "hi " gets the greeting, even if it also says "thank". |
| `Assistant.HiThereFromRegulator` | src/components/AIAssistant.jsx:190-219 | "hi there" from the regulatory persona matches no regulatory keyword and gets the greeting through "hi ". |
| `Assistant.BareHiIsDefault` | src/components/AIAssistant.jsx:218 | A bare "hi", with no trailing space, gets the default prompt, whatever the persona and data. |
| `Assistant.UnmatchedIsDefault` | src/components/AIAssistant.jsx:226 | A query no rule matches gets the fixed default prompt. |
| `Assistant.UnknownPersonaUsesUniversalRules` | src/components/AIAssistant.jsx:154-226 | An unknown persona gets exactly the universal rules' reply. |
| `Assistant.HelloFromPublic` | src/components/AIAssistant.jsx:218-219 | "hello" from the public persona gets the greeting. |
| `Assistant.GibberishFromRegulator` | src/components/AIAssistant.jsx:190-226 | "asdkjASD" from the regulatory persona gets the default prompt. |
| `Assistant.NonCompliantScenario` | src/components/AIAssistant.jsx:155-159 | "Can you summarize my report?" from a Non-Compliant company emitting 12000 tons with a 5% rise shows the formatted 12000, the status and "5% higher". |
| `Assistant.InitialGreeting` | src/components/AIAssistant.jsx:12-22 | There is a greeting exactly for the three known personas. |
| `Assistant.Chat.constructor` | src/components/AIAssistant.jsx:5-23 | The transcript starts as the persona's single greeting, with empty input, not loading and nothing pending. |
| `Assistant.Chat.SetProps` | src/components/AIAssistant.jsx:11-23 | A changed persona resets the transcript to its greeting. The same persona leaves it untouched. |
| `Assistant.Chat.SetInput` | src/components/AIAssistant.jsx:7 | Typing sets the input and nothing else. |
| `Assistant.Chat.Send` | src/components/AIAssistant.jsx:25-37 | Blank input changes nothing. Otherwise it appends exactly one user turn, clears the input, sets loading and schedules one reply. |
| `Assistant.Chat.Deliver` | src/components/AIAssistant.jsx:38-48 | The oldest scheduled reply appends exactly one assistant turn and clears loading. A throwing reply appends nothing. |
| `ReportForm.PeriodError` | src/components/NewEmissionReportForm.jsx:27-29 | The period has an error iff it is empty, and the error is "Reporting period is required". |
| `ReportForm.FacilityError` | src/components/NewEmissionReportForm.jsx:30-32 | The facility has an error iff it is empty, and the error is "Facility is required". |
| `ReportForm.EmissionsError` | src/components/NewEmissionReportForm.jsx:33-37 | The figure has an error iff it is empty or not a number once commas are stripped. The error is "required" iff it is empty and "must be a number" otherwise, so never both. |
| `ReportForm.ErrorsOnCheckedFields` | src/components/NewEmissionReportForm.jsx:25-37 | Only period, facility and figure can carry an error. Notes never do. |
| `ReportForm.AllErrorsAtOnce` | src/components/NewEmissionReportForm.jsx:25-37 | An empty form reports all three required-field errors together. |
| `ReportForm.FormErrorsStepwise` | src/components/NewEmissionReportForm.jsx:26-37 | The per-field error map equals the one built by the three checks in turn. |
| `ReportForm.PassesIff` | src/components/NewEmissionReportForm.jsx:39 | The form passes iff period and facility are filled in and the figure is a non-empty number. |
| `ReportForm.NewReport` | src/components/NewEmissionReportForm.jsx:48-56 | The record copies period, facility, figure and notes verbatim, takes the given id and date, and has status "Compliant". |
| `ReportForm.SubmittedReportFilledIn` | src/components/NewEmissionReportForm.jsx:43-56 | A submitted record has a period, a facility and a numeric figure, and is Compliant. |
| `ReportForm.EmissionsReportForm.constructor` | src/components/NewEmissionReportForm.jsx:4-10 | The form starts with four empty fields and no errors. |
| `ReportForm.EmissionsReportForm.HandleChange` | src/components/NewEmissionReportForm.jsx:11-24 | Sets exactly the named field. Blanks that field's error only if one is showing. Every other field and error is unchanged. |
| `ReportForm.EmissionsReportForm.ValidateForm` | src/components/NewEmissionReportForm.jsx:25-40 | Replaces the errors by the per-field error map and returns true iff it is empty. The fields are unchanged. |
| `ReportForm.EmissionsReportForm.HandleSubmit` | src/components/NewEmissionReportForm.jsx:41-59 | Hands over a record iff validation passes, and then it is the record built from the fields. |
| `ComplianceMap.MarkerColor` | src/pages/ComplianceMap.jsx:19-24 | Yellow iff "Under Review", red iff "Non-Compliant", and green for every other status. |
| `ComplianceMap.IconColor` | src/pages/ComplianceMap.jsx:26 | "green" iff "Compliant", "gold" iff "Under Review", and "red" for every other status. |
| `ComplianceMap.CreateMarkerIcon` | src/pages/ComplianceMap.jsx:25-33 | The icon varies with the status only in its URL's colour segment. The shadow and sizes are fixed. |
| `ComplianceMap.BadgeClasses` | src/pages/ComplianceMap.jsx:141 | Green iff "Compliant", yellow iff "Under Review", and red for every other status. |
| `ComplianceMap.YoySign` | src/pages/ComplianceMap.jsx:134 | "+" iff yoyChange > 0, otherwise nothing. |
| `ComplianceMap.YoyColorClass` | src/pages/ComplianceMap.jsx:132 | Green iff yoyChange < 0, otherwise red, so zero is red. |
| `ComplianceMap.YoyText` | src/pages/ComplianceMap.jsx:196-200 | The figure ends in "%" and gets a "+" exactly for an increase. |
| `ComplianceMap.MarkerColorMatchesIcon` | src/pages/ComplianceMap.jsx:18-26 | For the three known statuses, the computed hex colour and the icon colour agree. |
| `ComplianceMap.UnknownStatusColors` | src/pages/ComplianceMap.jsx:18-26 | An unknown status keeps the green hex, but the icon and badge it shows are red. |
| `ComplianceMap.BadgeMatchesIcon` | src/pages/ComplianceMap.jsx:165 | The badge and the marker icon always agree on green, yellow/gold or red. |
| `ComplianceMap.YoyClassification` | src/pages/ComplianceMap.jsx:196-198 | A "+" always comes with red, green never comes with "+", and the change is zero iff it is red without a sign. |

## Left out

- JSX rendering, Tailwind markup, the Leaflet map, its tiles and GeoJSON layer, and the charts. These are presentation over foreign libraries.
- Routing, navigation, the dashboards, the landing page and the video background. They hold no logic beyond static markup.
- The assistant panel's open/close flag, `handleKeyPress` and scrolling. These are presentation only.
- The modal's selected-report detail view and its close handler. Both only set or clear a display variable.
- `toLowerCase` covers ASCII letters only. Other Unicode case mappings are not modelled.
- `localeCompare` is modelled as plain lexicographic comparison of characters (Unicode scalar values), without locale collation.
- `toLocaleString`, number-to-string conversion and `isNaN` are parameters with nothing known or proved about them.
- `Reports.SortInPlace`: the comparator's `parseFloat` is modelled only for figures made of digits and commas, as a precondition when sorting by emissions. `NaN` comparisons, decimals and signs are not modelled. For an unparseable figure the comparator yields `NaN`, which `Array.prototype.sort` reads as a tie.
- `Reports.Query`, `Reports.ReportsModal.Visible` and `Reports.SortInPlace`: stability of the sort is not stated. `Array.prototype.sort` is stable, but the contracts promise a sorted permutation only.
- `Reports.EmissionsNumber`: decimals, signs and numeric prefixes that `parseFloat` reads, such as "12.5", "-3" or "12abc", are `None` (standing for `NaN`) in the model. Only figures of digits and commas get a value.
- Report dates are integers (an abstract timestamp). Parsing dates with `new Date`, and the form's formatted date string, are left out. `NewReport` takes the date and the `Date.now()` id as arguments.
- The one-second `setTimeout` is modelled as a queue of pending replies, each captured at send time and delivered by `Chat.Deliver`. Real timing and other interleavings are not modelled.
- An uncaught exception in the reply timer is modelled as `Err(MissingEmissions)`. The transcript then stays unchanged and loading stays on. Nothing about the browser's error reporting is modelled.
- Company data values are reals or missing. A present but non-numeric value, and JavaScript's rendering of `NaN`, are abstracted to `None` and the text "NaN".
- The `color` variable in `createMarkerIcon` is computed but never used by the icon. It is modelled as `MarkerColor` so that its disagreement with the icon for unknown statuses can be stated.
