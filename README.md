# Groundwater front end — a verified model

This project models the logic inside the React front end of a groundwater
information site. Every module corresponds to one component (or its data), and
the component's React state becomes a class whose methods are its handlers:

- **Chatbot** (`chatbot.dfy`, `chart_geometry.dfy`, `knowledge_base.dfy`).
  The chat assistant answers a typed or spoken query with the first
  knowledge-base record whose lower-cased question occurs in the lower-cased
  query. It falls back to a fixed apology when no record matches. It draws the
  record's bar, pie or line chart. The nine-record knowledge base is a
  constant, so the concrete resolutions of the suggested prompts are proved.
- **Dashboard** (`dashboard.dfy`, with `csv_export.dfy`). The state table:
  - search filter and the sort toggle;
  - the comparator sort, an in-place insertion sort on a fresh array;
  - the threshold colour classes and the trend icon;
  - the KPI figures, CSV content and row selection.
- **Comparative analysis** (`comparative_analysis.dfy`). Region toggling,
  the derivation of the compared rows and the over-selection warning, the risk
  label, and CSV content.
- **Water budget** (`water_budget.dfy`). The crop × area × method × hours
  formula and its three status bands.
- **Community feedback** (`community_feedback.dfy`). Adding suggestions and
  voting on them.
- **Region selector** (`region_selector.dfy`). The state, district and block
  cascade.
- **FAQ** (`faq_page.dfy`). The case-insensitive question search.
- **Language selector** (`language_selector.dfy`). The validated selection
  and the stored choice.
- **Map** (`map_view.dfy`). Status colours and the click panel.
- **Alerts** (`alerts.dfy`). Badge, icon and border per status, and the
  staggered entry.
- **Knowledge and action** (`knowledge_action.dfy`). The per-status advice
  table.

Shared helpers:
- `wrappers.dfy`: `Option`.
- `text.dfy`: ASCII lower-casing, substring search, trimming, split/join,
  integer printing and parsing, and a total string order.
- `numeric.dfy`: `Math.round` as round-half-up on reals, and division
  facts.

Numbers are exact: chart and budget arithmetic uses `real`, and integers are
unbounded.

The resolver is modelled as the code has it: a one-directional substring test
(`query.toLowerCase().includes(question.toLowerCase())`) with `Array.find`
semantics. A record matches only by this substring test; there is no
tokenising and no keyword weighting.

## Model

| member | source | states |
|---|---|---|
| Chatbot.FindIndex | src/components/Chatbot.jsx:201-203 | the found record matches, no earlier record matches, and nothing is found iff no record matches |
| Chatbot.Matches | src/components/Chatbot.jsx:202 | a record matches when its lower-cased question occurs in the lower-cased query; `FindIndex` is stated through it |
| Chatbot.FindIndexFirst | src/components/Chatbot.jsx:201-203 | the lowest matching index is the one returned; later matches are never returned |
| Chatbot.FindIndexCaseInsensitive | src/components/Chatbot.jsx:202 | queries equal after lower-casing resolve to the same record |
| Chatbot.ExtendedQueryAnswered | src/components/Chatbot.jsx:202 | a query that contains an answered query is answered too, by the same or an earlier record |
| Chatbot.QueryOf | src/components/Chatbot.jsx:194 | the query is the custom text, else the input, else the transcript, with empty strings counting as absent; it is empty iff all three are |
| Chatbot.ChartFor | src/components/Chatbot.jsx:209-230 | a chart exists iff the record has chart data and a chart type among bar, pie and line; its kind, data and title are the record's |
| Chatbot.Reply | src/components/Chatbot.jsx:205-236 | the bot's message: the fallback text and no chart without a match, otherwise the matched record's answer and chart |
| Chatbot.ReplyChartNeedsMatch | src/components/Chatbot.jsx:209-230 | a reply carries a chart only when a record matched and that record has chart data |
| Chatbot.ChatSession.constructor | src/components/Chatbot.jsx:179-184 | the session starts with no messages, an empty input and an empty transcript |
| Chatbot.ChatSession.SetInput | src/components/Chatbot.jsx:180 | typing changes only the input |
| Chatbot.ChatSession.Hear | src/components/Chatbot.jsx:184 | speech changes only the transcript |
| Chatbot.ChatSession.HandleSend | src/components/Chatbot.jsx:193-241 | a blank query changes nothing; otherwise exactly the user message and then the reply are appended after the old messages, and input and transcript are cleared |
| Chatbot.VerbatimQuestionsResolve | src/data/faqData.js:2-87 | each of the nine questions, sent verbatim, resolves to its own record |
| Chatbot.FaqCharts | src/data/faqData.js:2-87 | records 1–5 yield their bar, pie, bar, line and bar charts with their titles and data; records 6–9 yield none |
| Chatbot.FaqChartsDrawable | src/data/faqData.js:7-65 | every knowledge-base chart meets its drawing preconditions (a positive maximum for bars, a non-zero total for the pie, at least two points with a positive range for the line) |
| Chatbot.Prompt0Resolves | src/components/Chatbot.jsx:344-345 | "Show me groundwater levels in Maharashtra" resolves to record 1 |
| Chatbot.Prompt1FallsBack | src/components/Chatbot.jsx:347 | "What's the status in Karnataka?" matches nothing and gets the fallback text with no chart |
| Chatbot.Prompt2Resolves | src/components/Chatbot.jsx:348 | "Compare state groundwater levels" resolves to record 3 |
| Chatbot.Prompt3FallsBack | src/components/Chatbot.jsx:349 | "Show conservation methods effectiveness" matches nothing and gets the fallback text with no chart |
| KnowledgeBase.FaqShape | src/data/faqData.js:2-87 | nine records, with non-empty questions; the first five carry a chart type, title and data, and the last four carry none |
| KnowledgeBase.QuestionsIndependent | src/data/faqData.js:4-83 | every question is lower case and no question occurs inside another |
| KnowledgeBase.StatusChartsTotalHundred | src/data/faqData.js:10-24 | the Maharashtra bar values and the Karnataka pie values each add up to 100 |
| KnowledgeBase.TrendSeries | src/data/faqData.js:47-51 | the trend series rises strictly year by year, from 35 to 50, with range 15 and middle label 43 |
| KnowledgeBase.TallestBars | src/data/faqData.js:31-65 | the tallest bars are 60 for the state comparison and 85 for the conservation methods |
| ChartGeometry.MaxOf | src/components/Chatbot.jsx:10 | `Math.max` over the values: one of them, and at least every one |
| ChartGeometry.MinOf | src/components/Chatbot.jsx:115 | `Math.min` over the values: one of them, and at most every one |
| ChartGeometry.BarHeights | src/components/Chatbot.jsx:24 | each bar's height is its value over the maximum, as a percentage; its bounds and order are `BarHeightsBounded` and `BarHeightsOrdered` |
| ChartGeometry.PieLayout | src/components/Chatbot.jsx:54-68 | the closed form of each slice: its percentage of the total, and its start at the sum of the earlier percentages; `PieSlices` proves the loop equal to it |
| ChartGeometry.XCoord | src/components/Chatbot.jsx:146 | the x of the i-th of n points: i/(n-1)*90+5; its span is `LineXSpan` |
| ChartGeometry.YCoord | src/components/Chatbot.jsx:147 | the y of a value: 90-(v-min)/range*80+5; its span and order are `LineYSpan` |
| ChartGeometry.LinePoints | src/components/Chatbot.jsx:143-155 | one point per data value, at `XCoord` and `YCoord` |
| ChartGeometry.MidLabel | src/components/Chatbot.jsx:127 | the middle y-axis label, `Math.round` of the mean of maximum and minimum; its position is `MidLabelBetween` |
| ChartGeometry.BarHeightsBounded | src/components/Chatbot.jsx:24 | with a positive maximum and no negative value, every bar height lies in [0, 100] and the largest bars are exactly 100 |
| ChartGeometry.BarHeightsOrdered | src/components/Chatbot.jsx:24 | bar heights are ordered exactly as the values are |
| ChartGeometry.PieSlices | src/components/Chatbot.jsx:54-68 | the loop with the running cumulative percentage yields, slice by slice, the closed-form layout |
| ChartGeometry.PieCloses | src/components/Chatbot.jsx:66-80 | the first slice starts at 0, each slice starts where the previous one ends, each dash plus its gap is 100, and the percentages add up to 100 |
| ChartGeometry.LineXSpan | src/components/Chatbot.jsx:145 | the x coordinates run strictly left to right, from 5 to 95 |
| ChartGeometry.LineYSpan | src/components/Chatbot.jsx:146 | every y lies in [15, 95], the minimum maps to 95 and the maximum to 15, and a higher value is drawn higher |
| ChartGeometry.MidLabelBetween | src/components/Chatbot.jsx:127 | the middle y-axis label lies between the minimum and the maximum, up to half a unit of rounding |
| Dashboard.InitialRowsSumToHundred | src/components/Dashboard.jsx:16-62 | in every initial row, safe, semi-critical and critical add up to 100 |
| Dashboard.TrendIconOf | src/components/Dashboard.jsx:156-165 | "improving" gets the rising icon, "worsening" the falling one, and every other trend the sideways one |
| Dashboard.StatusColor | src/components/Dashboard.jsx:168-191 | the gray class exactly for a column other than safe, semi-critical and critical; its bands are `StatusColorThresholds` |
| Dashboard.StatusColorFamily | src/components/Dashboard.jsx:168-191 | each class is its kind's colour family with shade 500, 400 or 300; an unknown kind gets gray 300 |
| Dashboard.StatusColorThresholds | src/components/Dashboard.jsx:168-191 | the shade bands: safe at 50 and 40, semi-critical at 40 and 30, critical at 30 and 20, as if-and-only-if conditions |
| Dashboard.StatusColorMonotonic | src/components/Dashboard.jsx:168-191 | a larger value never gets a lighter shade |
| Dashboard.CriticalCount | src/components/Dashboard.jsx:261 | the count of rows with critical at least 25: at most the row count, zero iff no row is alarming, all iff every row is |
| Dashboard.AverageSafe | src/components/Dashboard.jsx:248-250 | `Math.round` of the mean safe percentage; its bounds are `AverageSafeWithin` |
| Dashboard.AverageSafeWithin | src/components/Dashboard.jsx:248-250 | the rounded average of the safe shares lies within the bounds of the shares |
| Dashboard.InitialFigures | src/components/Dashboard.jsx:248-261 | on the initial data the critical count is 2 and the average safe share is 48 |
| Dashboard.Csv | src/components/Dashboard.jsx:70-82 | no rows yield no document |
| Dashboard.ParseLine | src/components/Dashboard.jsx:78-80 | reading one CSV line back succeeds iff it has five fields |
| Dashboard.CsvRoundTrip | src/components/Dashboard.jsx:70-82 | the document has one line more than the rows; the first line splits into the header, and each following line reads back as its row |
| Dashboard.FilterRows | src/components/Dashboard.jsx:195-197 | a row is kept iff its lower-cased state contains the trimmed, lower-cased search |
| Dashboard.MatchesSearch | src/components/Dashboard.jsx:195-197 | a row matches when its lower-cased state contains the trimmed, lower-cased search |
| Dashboard.FilterAppend | src/components/Dashboard.jsx:195-197 | filtering keeps the rows' order |
| Dashboard.BlankSearchKeepsAll | src/components/Dashboard.jsx:195-197 | a blank search keeps every row |
| Dashboard.SortToggled | src/components/Dashboard.jsx:207-214 | the new key is the clicked one; it is descending iff the same key was ascending before |
| Dashboard.SortToggledTwice | src/components/Dashboard.jsx:207-214 | toggling the current key twice restores the order; toggling a new key twice leaves it descending |
| Dashboard.Compare | src/components/Dashboard.jsx:198-204 | the sort comparator: by state name as a string, or by the chosen column's difference, times -1 when descending; `CompareFlip` and `PrecedesTransitive` make it an order |
| Dashboard.CompareFlip | src/components/Dashboard.jsx:198-204 | the comparator is antisymmetric, and any two rows are ordered one way or the other |
| Dashboard.PrecedesTransitive | src/components/Dashboard.jsx:198-204 | the comparator's order is transitive |
| Dashboard.SortedMeaning | src/components/Dashboard.jsx:198-204 | sorted means by state name, safe, semi-critical or critical share, ascending or descending as chosen |
| Dashboard.SortRows | src/components/Dashboard.jsx:198-204 | the array ends sorted by the comparator and is a permutation of what it held |
| Dashboard.SortedCopy | src/components/Dashboard.jsx:198 | a sorted permutation of the given rows |
| Dashboard.Clicked | src/components/Dashboard.jsx:381-384 | a click clears the selection iff it is on the selected state, and otherwise selects the clicked state |
| Dashboard.ClickedTwice | src/components/Dashboard.jsx:381-384 | two clicks on the selected row give it back; two clicks on another row leave nothing selected |
| Dashboard.DashboardView.constructor | src/components/Dashboard.jsx:64-67 | the initial data, no selection, an empty search, sorted by state ascending |
| Dashboard.DashboardView.ToggleSort | src/components/Dashboard.jsx:207-214 | only the sort order changes, to the toggled one |
| Dashboard.DashboardView.SetSearch | src/components/Dashboard.jsx:275 | only the search changes |
| Dashboard.DashboardView.ClearSearch | src/components/Dashboard.jsx:282 | the search becomes empty; nothing else changes |
| Dashboard.DashboardView.ClickRow | src/components/Dashboard.jsx:381-384 | only the selection changes, to the clicked result |
| Dashboard.DashboardView.VisibleData | src/components/Dashboard.jsx:194-205 | the visible rows are exactly the filtered rows, each as often as there, sorted by the current order |
| Dashboard.DashboardView.DetailRows | src/components/Dashboard.jsx:457-465 | the detailed view lists exactly the rows of the selected state, as `SelectState` of the data, and none without a selection |
| Dashboard.SelectState | src/components/Dashboard.jsx:463-465 | exactly the rows of the given state |
| Dashboard.SelectStateAppend | src/components/Dashboard.jsx:464-465 | selecting a state's rows keeps their order and repeats |
| ComparativeAnalysis.FirstFive | src/components/ComparativeAnalysis.jsx:69 | `slice(0, 5)`: a prefix of the data of length five, or all of it when shorter |
| ComparativeAnalysis.Regions | src/components/ComparativeAnalysis.jsx:59 | the region names, in order |
| ComparativeAnalysis.Without | src/components/ComparativeAnalysis.jsx:84 | every occurrence of the region is removed and all else is kept |
| ComparativeAnalysis.WithoutAppend | src/components/ComparativeAnalysis.jsx:84 | removal keeps the remaining entries in order |
| ComparativeAnalysis.Toggled | src/components/ComparativeAnalysis.jsx:82-88 | the region is selected afterwards iff it was not before; other regions are unaffected; an absent region is appended at the end; a present one is removed by `Without`, which keeps the others in order |
| ComparativeAnalysis.ToggledTwiceRestores | src/components/ComparativeAnalysis.jsx:82-88 | toggling an absent region twice restores the selection |
| ComparativeAnalysis.ToggledDistinct | src/components/ComparativeAnalysis.jsx:82-88 | toggling keeps a selection free of duplicates |
| ComparativeAnalysis.Picked | src/components/ComparativeAnalysis.jsx:76 | the rows whose region is selected, and only those |
| ComparativeAnalysis.PickedAppend | src/components/ComparativeAnalysis.jsx:76 | the picked rows keep the data's order, not the selection's |
| ComparativeAnalysis.Derive | src/components/ComparativeAnalysis.jsx:67-79 | the warning is on iff more than four regions are selected; an empty or unmatched selection gives the first five rows, otherwise the selected rows as `Picked` gives them, in dataset order |
| ComparativeAnalysis.DeriveNonEmpty | src/components/ComparativeAnalysis.jsx:67-79 | with data present, the comparison is never empty |
| ComparativeAnalysis.InitialSelection | src/components/ComparativeAnalysis.jsx:56-64 | the initial five regions are distinct, and deriving from them gives back the first five rows with the warning on |
| ComparativeAnalysis.RiskOf | src/components/ComparativeAnalysis.jsx:152 | "At Risk" iff extraction exceeds recharge; equality is "Stable" |
| ComparativeAnalysis.RiskMatchesStage | src/components/ComparativeAnalysis.jsx:26-46 | in the data, a row is stable iff its stage is "Safe" |
| ComparativeAnalysis.Csv | src/components/ComparativeAnalysis.jsx:91-97 | no rows yield no document |
| ComparativeAnalysis.ParseLine | src/components/ComparativeAnalysis.jsx:94-96 | reading one CSV line back succeeds iff it has four fields |
| ComparativeAnalysis.CsvRoundTrip | src/components/ComparativeAnalysis.jsx:91-97 | one line more than the rows; the header first, then each row reading back as itself |
| ComparativeAnalysis.ComparisonView.constructor | src/components/ComparativeAnalysis.jsx:49-72 | after mounting, nothing is selected, the selection effect has shown the first five rows, and no warning is on |
| ComparativeAnalysis.ComparisonView.Refresh | src/components/ComparativeAnalysis.jsx:67-79 | the effect sets comparison and warning to the derivation from the selection, which it leaves as it is |
| ComparativeAnalysis.ComparisonView.LoadInitial | src/components/ComparativeAnalysis.jsx:56-64 | after loading and the effect, the comparison is the first five rows, the selection their regions, and the warning on |
| ComparativeAnalysis.ComparisonView.ToggleRegion | src/components/ComparativeAnalysis.jsx:82-88 | the selection is toggled, stays free of duplicates, and the comparison and warning follow it |
| WaterBudget.CropRate | src/components/WaterBudget.jsx:13-17 | a rate exists iff the crop is wheat, rice or maize |
| WaterBudget.MethodFactor | src/components/WaterBudget.jsx:19-23 | a factor exists iff the method is drip, sprinkler or flood |
| WaterBudget.StatusOf | src/components/WaterBudget.jsx:31-34 | below 20000 sustainable, 20000 to 50000 inclusive semi-critical, above 50000 critical |
| WaterBudget.StatusMonotonic | src/components/WaterBudget.jsx:31-34 | more water never gives a better status |
| WaterBudget.Calculate | src/components/WaterBudget.jsx:25-40 | no result iff crop, area or method is missing, with area 0 as missing; the status is the band of the total |
| WaterBudget.CalculateLinear | src/components/WaterBudget.jsx:28-29 | the total scales linearly with the hours and with the area |
| WaterBudget.MethodOrder | src/components/WaterBudget.jsx:19-28 | for the same crop, area and hours, drip ≤ sprinkler ≤ flood |
| WaterBudget.Examples | src/components/WaterBudget.jsx:13-34 | wheat, 1 acre, drip, 8 h is 10000 and sustainable; rice, 2 acres, flood is 64000 and critical; maize, 5 acres, sprinkler is 56000 and critical |
| WaterBudget.FarmWaterBudget.constructor | src/components/WaterBudget.jsx:5-10 | empty crop, area and method; one borewell; 8 hours; no result |
| WaterBudget.FarmWaterBudget.SetCrop | src/components/WaterBudget.jsx:50 | only the crop changes |
| WaterBudget.FarmWaterBudget.SetArea | src/components/WaterBudget.jsx:64 | only the area changes, to the number entered or to missing |
| WaterBudget.FarmWaterBudget.SetMethod | src/components/WaterBudget.jsx:73 | only the method changes |
| WaterBudget.FarmWaterBudget.SetBorewells | src/components/WaterBudget.jsx:88 | only the borewell count changes |
| WaterBudget.FarmWaterBudget.SetHours | src/components/WaterBudget.jsx:98-101 | only the hours change, within 1 to 24 |
| WaterBudget.FarmWaterBudget.CalculateBudget | src/components/WaterBudget.jsx:25-40 | the result becomes the calculation, or stays as it was when inputs are missing; the borewell count plays no part |
| CommunityFeedback.Voted | src/components/CommunityFeedback.jsx:31-37 | only the votes of the items with the id change, by delta; length, order and every other field stay |
| CommunityFeedback.VoteUndo | src/components/CommunityFeedback.jsx:31-37 | a vote followed by its opposite restores the list |
| CommunityFeedback.VoteUnknown | src/components/CommunityFeedback.jsx:33-35 | a vote for an id no item has changes nothing |
| CommunityFeedback.VotesCommute | src/components/CommunityFeedback.jsx:31-37 | two votes give the same list in either order |
| CommunityFeedback.VoteTotal | src/components/CommunityFeedback.jsx:31-37 | the total of all votes moves by delta times the number of items with the id |
| CommunityFeedback.VotesCanGoNegative | src/components/CommunityFeedback.jsx:34 | votes have no floor: a downvote on a fresh item gives -1 |
| CommunityFeedback.VoteTouchesOne | src/components/CommunityFeedback.jsx:31-37 | with unique ids a vote changes at most one item and keeps the ids unique |
| CommunityFeedback.FeedbackBoard.constructor | src/components/CommunityFeedback.jsx:5-7 | empty input, empty list, not submitting |
| CommunityFeedback.FeedbackBoard.SetFeedback | src/components/CommunityFeedback.jsx:5 | only the input text changes |
| CommunityFeedback.FeedbackBoard.HandleAdd | src/components/CommunityFeedback.jsx:9-29 | blank input changes nothing; otherwise exactly one pending, zero-vote item with the untrimmed text is appended, and the input is cleared |
| CommunityFeedback.FeedbackBoard.HandleVote | src/components/CommunityFeedback.jsx:31-37 | the list becomes the voted list; input and submitting flag stay |
| RegionSelector.StatesHaveDistricts | src/components/RegionSelector.jsx:107 | for a listed state the district select is never disabled |
| RegionSelector.ThaneHasNoBlocks | src/components/RegionSelector.jsx:126 | Thane is a Maharashtra district without blocks, so choosing it disables the block select |
| RegionSelector.SummaryIffBlock | src/components/RegionSelector.jsx:138 | on a consistent region the summary shows iff a block is chosen |
| RegionSelector.BlockNeedsEnabledSelect | src/components/RegionSelector.jsx:124-126 | a chosen block lies under a chosen district whose block select is enabled |
| RegionSelector.Selector.constructor | src/components/RegionSelector.jsx:5-9 | Maharashtra, with no district and no block |
| RegionSelector.Selector.ChangeState | src/components/RegionSelector.jsx:79-86 | the new state, with district and block cleared; the region stays consistent |
| RegionSelector.Selector.ChangeDistrict | src/components/RegionSelector.jsx:103-104 | the state stays, the district is set and the block cleared; the region stays consistent |
| RegionSelector.Selector.ChangeBlock | src/components/RegionSelector.jsx:124 | only the block changes; the region stays consistent |
| FaqPage.Filtered | src/components/FAQ.jsx:7-9 | an entry is kept iff its lower-cased question contains the lower-cased, untrimmed search |
| FaqPage.FilteredAppend | src/components/FAQ.jsx:7-9 | filtering keeps the entries' order |
| FaqPage.AllTwentyListed | src/components/FAQ.jsx:47-138 | there are 20 entries and the empty search lists all of them |
| FaqPage.CaseInsensitive | src/components/FAQ.jsx:8 | a search and its lower-cased form give the same result |
| FaqPage.NarrowingSearch | src/components/FAQ.jsx:8 | a search that contains another finds no entry the shorter one misses |
| FaqPage.NoResultsIff | src/components/FAQ.jsx:36 | the "no questions found" state holds iff no entry matches |
| LanguageSelector.Find | src/components/LanguageSelector.jsx:22-24 | a found language is listed and carries the code, and none is found iff no language has it; that it is the first is `FindFirst` |
| LanguageSelector.FindFirst | src/components/LanguageSelector.jsx:22-24 | the language found is the first in list order that carries the code |
| LanguageSelector.CodesDistinct | src/components/LanguageSelector.jsx:7-20 | twelve languages with pairwise different codes |
| LanguageSelector.FindListed | src/components/LanguageSelector.jsx:22-24 | with distinct codes, each listed code finds exactly its own language |
| LanguageSelector.Selector.Current | src/components/LanguageSelector.jsx:22-24 | the current language is always found and carries the selected code |
| LanguageSelector.Selector.constructor | src/components/LanguageSelector.jsx:5 | the selection starts at English |
| LanguageSelector.Selector.LoadSaved | src/components/LanguageSelector.jsx:27-31 | a stored code is adopted iff it is non-empty and listed; otherwise the selection stays |
| LanguageSelector.Selector.HandleLanguageChange | src/components/LanguageSelector.jsx:34-36 | the selection becomes the clicked listed code |
| LanguageSelector.Selector.ApplyLanguage | src/components/LanguageSelector.jsx:38-41 | the selection is stored and kept, and the notice names its native name |
| LanguageSelector.Selector.ResetLanguage | src/components/LanguageSelector.jsx:43-47 | back to English with the stored choice removed, and the reset notice |
| MapView.GetColor | src/components/MapView.jsx:50-63 | gray iff the status is none of the four recognised spellings |
| MapView.ColorsDistinct | src/components/MapView.jsx:50-63 | the four recognised statuses get four different colours |
| MapView.ColorCaseSensitive | src/components/MapView.jsx:50-63 | differently cased statuses are not recognised |
| MapView.DataStatusesRecognised | src/components/MapView.jsx:7-48 | every state with data has a recognised status |
| MapView.Clicked | src/components/MapView.jsx:88-94 | a state with data selects its status and figures; any other selects status "Unknown" without figures |
| MapView.ClickedDisplay | src/components/MapView.jsx:125 | a state with data shows a colour and its figures; any other shows gray and no figures |
| MapView.MapPanel.constructor | src/components/MapView.jsx:67 | nothing is selected at first |
| MapView.MapPanel.ClickState | src/components/MapView.jsx:88-94 | the selection becomes the clicked state's panel |
| MapView.MapPanel.Close | src/components/MapView.jsx:112 | the selection is cleared |
| Alerts.StatusColor | src/components/Alerts.jsx:52-63 | the gray badge iff the status is not Safe, Semi-Critical or Critical |
| Alerts.StatusIcon | src/components/Alerts.jsx:65-76 | the bell iff the status is not one of the three known ones |
| Alerts.BorderColor | src/components/Alerts.jsx:130-135 | red iff critical, amber iff semi-critical |
| Alerts.KnownStatusesDistinct | src/components/Alerts.jsx:52-76 | the three known statuses get three different badges, icons and borders |
| Alerts.UnknownStatusLooksSafeAtTheBorder | src/components/Alerts.jsx:130-135 | an unknown status gets the gray badge and the bell but the same green border as "Safe" |
| Alerts.Delay | src/components/Alerts.jsx:129 | the alert at index i waits i*100 ms; `DelaysStaggered` orders them |
| Alerts.DelaysStaggered | src/components/Alerts.jsx:129 | later alerts appear later, 100 ms apart per position |
| Alerts.BodyText | src/components/Alerts.jsx:157 | the sentence under an alert, naming its status in lower case; `BodyTextNamesStatus` states what it contains |
| Alerts.BodyTextNamesStatus | src/components/Alerts.jsx:157 | the sentence contains the lower-cased status and reads the same for any casing of it |
| Alerts.SampleStatusesKnown | src/components/Alerts.jsx:11-47 | five alerts, each with a known status, so the empty state does not show |
| Alerts.Feed.constructor | src/components/Alerts.jsx:5-6 | no alerts before loading, so the empty-state message shows |
| Alerts.Feed.Load | src/components/Alerts.jsx:10-49 | the sample alerts, animated in, and the empty state gone |
| KnowledgeAction.KeysAreTheTable | src/components/KnowledgeAction.jsx:76-79 | the buttons offer exactly the table's statuses, each once, and the initial one is among them |
| KnowledgeAction.TableShape | src/components/KnowledgeAction.jsx:7-41 | every status has four actions; the colours are green, yellow and red |
| KnowledgeAction.ButtonClass | src/components/KnowledgeAction.jsx:80-84 | an unselected button starts with the pale classes of its colour |
| KnowledgeAction.PaleMatchesAlertBadge | src/components/KnowledgeAction.jsx:83 | a status's pale classes are the classes the alerts feed gives that status's badge |
| KnowledgeAction.Cards | src/components/KnowledgeAction.jsx:111-123 | one card per action, in order, numbered from one |
| KnowledgeAction.CardsNumbered | src/components/KnowledgeAction.jsx:121 | card numbers start at 1 and rise by one without gaps, and the texts are the actions unchanged |
| KnowledgeAction.Panel.constructor | src/components/KnowledgeAction.jsx:5 | the selection starts at "Semi-Critical" |
| KnowledgeAction.Panel.StatusData | src/components/KnowledgeAction.jsx:43 | the entry of the selected status is always defined and holds four actions |
| KnowledgeAction.Panel.Select | src/components/KnowledgeAction.jsx:79 | the selection becomes the clicked status and stays a table key |

## Left out

- Speech recognition and speech synthesis are browser APIs. A spoken query is the `transcript` field, set by `Hear`.
- Rendering is not modelled: JSX, Tailwind classes beyond the colour choices, SVG attributes, the pie's `+25` dash offset and rotation, and all animation flags and delays except the alert delays and the alerts' `animate` flag.
- The Recharts charts of the comparison page and the indicator page belong to a foreign library. So does the chart-type toggle.
- File output (Blob, object URLs, anchors), the JSON export, `window.open`/`print` and `alert` are I/O. Only the CSV text and the notice texts are modelled.
- `localStorage` is the `stored` field of the language selector.
- Timers are not modelled:
  - The alerts load, the comparison load and the delayed feedback add are each one step (`Load`, `LoadInitial`, `HandleAdd`).
  - `CommunityFeedback.FeedbackBoard.HandleAdd`: the `isSubmitting` flag is not shown as true while the add is pending, and the stale list captured by the delayed update is not modelled.
- `Date.now()` ids and locale-formatted dates are parameters of `HandleAdd`.
- Floating point is modelled with exact reals. JS doubles, and the rounding they bring at the budget thresholds and in `Math.round`, are not reproduced.
- `Dashboard.Compare`: `localeCompare` is modelled as code-point order (`Text.CompareStrings`), a total order, not locale collation.
- `Dashboard.SortRows` is an insertion sort, not the engine's `Array.prototype.sort`. The source's sort is stable, so rows that compare equal (semi-critical 30 three times in the initial data, critical 20 and 15 twice each) keep their filtered order; the model's contract does not state that.
- `toLowerCase` and `trim` are modelled on ASCII letters and a fixed set of whitespace characters. Unicode case mapping is not modelled.
- The trend icons of the dashboard are stored mis-encoded in src/components/Dashboard.jsx. They are modelled as three distinct icons (`TrendIcon`). The language flags and the alert and advice icons are strings or are omitted.
- Degenerate charts: empty data draws no bars, slices or points at all, since the source maps over an empty array; a maximum of 0, a total of 0, a range of 0 or fewer than two line points yield NaN in the browser. All of these are preconditions here (`MaxValue` and `Range` require non-empty data, and the pie's non-zero total excludes it), with no invented fallback.
- The map's GeoJSON fetch, Leaflet layers and hover styling are network and library code.
- `WaterBudget.Calculate`: an empty or unparseable area (0 or `NaN` in the source; the number input hands an unparseable entry over as "", which `Number` turns into 0) is missing to the component. The model writes a missing area as `None` (also the initial empty field) or `Some(0.0)`, and treats both as missing.
- The routing and static pages (src/App.jsx, src/components/Navbar.jsx, src/components/Home.jsx, src/components/About.jsx, src/components/Indicators.jsx) are not part of this model.
