# job-explorer-fe, modelled in Dafny

This project models the logic of a React analytics dashboard for job postings. The dashboard's core consists of:

- a skill-tag picker with "load more" counters, in the current panel and in an older copy;
- the aggregation of a year's monthly job counts into a ranked summary and a per-title monthly series;
- the chart-data derivations of the skill pages:
  - "Other" slice, demand label, colours and truncated labels;
  - fallbacks and slices;
  - country filtering;
  - count-sorted bars;
- the year picker;
- the URLs of the analytics service.

There is one module per source file, plus three helper modules:

| module | file | models |
|---|---|---|
| `Text` | text.dfy | the JavaScript built-ins the code relies on: `trim`, truncation with `substring`, `join`/`split` on a one-character separator, `slice(0, n)`, integers in template strings |
| `Data` | data.dfy | the records the service returns. A response is `Option<Envelope<T>>` and `Envelope.data` is an `Option`, so `!data` and `data.data?.…` can be told apart |
| `Sorting` | sorting.dfy | `Array.prototype.sort` with a comparator. `Sort` is a stable insertion sort, the reference meaning. `SortInPlace` is an in-place insertion sort on an `array`, proved to leave exactly `Sort` of the old contents |
| `Analyze` | analyze.dfy | src/services/analyze.ts |
| `JobMatch` | job_match.dfy | src/components/features/JobMatch.tsx |
| `JobsMatchLegacy` | jobs_match_legacy.dfy | src/components/layouts/JobsMatch.tsx |
| `JobsTrend` | jobs_trend.dfy | src/components/layouts/JobsTrend.tsx |
| `SearchSkills` | search_skills.dfy | src/pages/SearchSkills.tsx |
| `RecommendSkills` | recommend_skills.dfy | src/components/features/RecommendSkills.tsx |
| `SkillsByCountry` | skills_by_country.dfy | src/components/layouts/SkillsByCountry.tsx |
| `GlobalJobsChart` | global_jobs_chart.dfy | src/components/layouts/GlobalJobsChart.tsx |
| `SkillCharts` | skill_charts.dfy | src/components/layouts/VietnamSkillsChart.tsx and src/components/layouts/GlobalSkillsChart.tsx, whose logic is identical |
| `YearPicker` | year_picker.dfy | src/components/ui/year-picker.tsx |

## How the model follows the code

Component state is a Dafny `class` whose fields the handlers replace. Each handler is a `method` whose postcondition gives the full new state. The invariant a handler keeps is the class's `Valid()`:

- the chosen skills are duplicate-free, and the panel's reveal counters are never negative;
- stored search text is trimmed;
- the trend summary is ranked and its reveal counter is a multiple of twelve.

Loops in the source are `while` loops with invariants:

- the nested `forEach` that fills a `Map`;
- the month series;
- the cell list;
- the sort.

Each loop is proved against a reference function. On that function the source's promises are lemmas: totals, one entry per title, ranking, stability, and the grand total. Pure expressions are functions whose `ensures` give their meaning.

What comes from outside the code becomes a parameter:

- fetched answers become `Response` values;
- the debounced input and the current year are plain arguments;
- the palette constant is an argument;
- whether a mouse-down was inside an element is a boolean argument.

A JavaScript expression that would throw is modelled as an explicit outcome:

- `RenderError` views;
- the older picker's `thrown` result.

## Model

| member | source | states |
|---|---|---|
| Text.TrimEmptyIff | src/components/features/JobMatch.tsx:95 | `value.trim() === ""` holds exactly when every character is ECMAScript whitespace |
| Text.TrimIdempotent | src/pages/SearchSkills.tsx:53-55 | trimming a trimmed string changes nothing, so a stored trimmed value stays trimmed |
| Text.TrimEdges | src/components/features/JobMatch.tsx:106 | a non-empty trimmed string starts and ends with a non-whitespace character |
| Text.Utf16Length | src/components/features/JobMatch.tsx:55 | JavaScript's `length`: at least the number of characters and at most twice it, and equal to it exactly when no character lies beyond U+FFFF |
| Text.Truncate | src/components/layouts/SkillsByCountry.tsx:71-74 | text of at most n characters is unchanged; longer text becomes its first n characters followed by "..." |
| Text.TruncateKeepsPrefix | src/pages/SearchSkills.tsx:329-331 | a truncated label is at most n+3 long and agrees with the original on its first min(n, length) characters |
| Text.SplitJoin | src/services/analyze.ts:18 | splitting a `join(",")` on "," gives back a non-empty list none of whose elements contains "," |
| Text.SplitJoinIff | src/services/analyze.ts:28 | the `join(",")`/`split(",")` round trip gives the list back if and only if the list is non-empty and no element contains "," |
| Text.Split | src/services/analyze.ts:28 | `split` always gives at least one part, and no part contains the separator |
| Text.SplitJoinEmpty | src/services/analyze.ts:28 | the empty skill list is not recovered: it joins to "" and splits to [""] |
| Text.SplitJoinSeparatorInside | src/services/analyze.ts:28 | a skill containing "," ("C,C++") is cut in two by the round trip |
| Text.ParseNatToString | src/services/analyze.ts:9 | the decimal text of a number rendered into a template string reads back as the same number |
| Text.IntToStringPlain | src/services/analyze.ts:33 | a rendered number never contains "&", ",", "=", "?" or "#" |
| Text.Take | src/components/layouts/JobsTrend.tsx:277-278 | `slice(0, n)` is a prefix whose length is min(n, length), with a negative n counting from the end |
| Sorting.SortSorted | src/components/layouts/JobsTrend.tsx:83 | for a consistent comparator, the sorted sequence is ordered by it |
| Sorting.SortStable | src/components/layouts/JobsTrend.tsx:83 | the elements tied with any x appear in the sorted sequence in their original order |
| Sorting.InsertSorted | src/components/layouts/JobsTrend.tsx:83 | inserting into an ordered run keeps it ordered |
| Sorting.SortInPlace | src/components/layouts/VietnamSkillsChart.tsx:53 | the in-place sort of an array leaves it holding exactly the stable sort of its old contents |
| Sorting.SortFresh | src/components/layouts/GlobalSkillsChart.tsx:46 | sorting a freshly built array returns the stable sort of its elements |
| Sorting.InsertAt | src/components/layouts/VietnamSkillsChart.tsx:53 | one insertion step moves `a[i]` past exactly the preceding elements that must follow it and shifts those right by one |
| Sorting.PermutationDistinct | src/components/layouts/JobsTrend.tsx:81-83 | reordering a duplicate-free list keeps it duplicate-free |
| Analyze.ReadBack | src/services/analyze.ts:9 | when no value contains "&" or "#", the whole URL is sent (there is no fragment), and a server splitting it at "?", "&" and "=" gets back the path and every parameter in order |
| Analyze.ParseRenderQuery | src/services/analyze.ts:14 | parsing a rendered query returns its parameters, provided no value contains "&" |
| Analyze.RenderQueryFree | src/services/analyze.ts:14 | a rendered query contains a character other than "=" and "&" only if some name or value does |
| Analyze.FirstParameterSent | src/services/analyze.ts:28 | the first parameter arrives intact whatever the later values contain, provided its own value has no "&" and no "#" |
| Analyze.FirstValueCut | src/services/analyze.ts:28 | a "#" in the first value cuts the request there: only the first parameter, up to the "#", is sent |
| Analyze.FragmentCutsRequest | src/services/analyze.ts:28 | for the skills ["C#", "Java"] the request sent carries only `input_skills=C`; the other skill, `search_country` and `limit` are lost |
| Analyze.JobByCountryUrlReadsBack | src/services/analyze.ts:8-11 | the job-by-country request carries `search_country` and then `limit`, verbatim, when the country has no "&" or "#" |
| Analyze.SkillsByJobAndCountryUrlReadsBack | src/services/analyze.ts:13-16 | the skill-statistics request carries `country`, `limit` and `job_title`, in that order, when no value has "&" or "#" |
| Analyze.JobBySkillsAndCountryUrlReadsBack | src/services/analyze.ts:17-20 | the job-by-skills request carries the skills joined with ",", then `search_country` and `limit`, when no value has "&" or "#" |
| Analyze.SkillsUrlReadsBack | src/services/analyze.ts:22-25 | the skills request carries only `character` when the typed text has no "&" or "#" |
| Analyze.SkillsUrlNotEscaped | src/services/analyze.ts:23 | nothing is escaped: the prefix "R&limit=1" becomes two parameters, `character=R` and `limit=1` |
| Analyze.JobRecommendationsUrlReadsBack | src/services/analyze.ts:27-30 | the recommendations request carries the joined skills, `search_country` and `limit`, in that order, when no value has "&" or "#" |
| Analyze.JobRecommendationsSkillsRoundTrip | src/services/analyze.ts:28 | for skills without "&" or "#", whatever the country: the server's `split(",")` recovers the chosen skills if and only if there is at least one and none contains "," |
| Analyze.JobsTrendUrlReadsBack | src/services/analyze.ts:32-35 | the trend request carries `limit` and then `value` |
| Analyze.SkillsByCountryUrlReadsBack | src/services/analyze.ts:37-40 | the country-skills request carries `search_country` and then `limit` when the country has no "&" or "#" |
| Analyze.GlobalSkillsUrlReadsBack | src/services/analyze.ts:42-45 | the global-skills request carries only `limit` |
| Analyze.Escape | src/services/analyze.ts:28 | (corrected form) an escaped value contains neither "&" nor "#" |
| Analyze.UnescapeEscapeChar | src/services/analyze.ts:28 | (corrected form) a form decoder turns an escaped character followed by any text back into that character followed by the decoded text |
| Analyze.UnescapeEscape | src/services/analyze.ts:28 | (corrected form) decoding an escaped value gives the value back, for every string |
| Analyze.EscapeParams | src/services/analyze.ts:28 | (corrected form) escaping keeps names and order and leaves no value with "&" or "#" |
| Analyze.EscapedReadBack | src/services/analyze.ts:27-30 | (corrected form) with escaped values, any values arrive: the whole URL is sent, and the decoded parameters are the original names and values, in order |
| Analyze.CountriesUrlHasNoQuery | src/services/analyze.ts:3-6 | the countries path has no query |
| JobMatch.AddIfAbsent | src/components/features/JobMatch.tsx:122-125 | the list gains the skill at the end if it was absent and is otherwise unchanged; the old list is a prefix; duplicate-freedom is kept |
| JobMatch.EnterCandidate | src/components/features/JobMatch.tsx:104-110 | Enter takes the first suggestion if there is one, else the trimmed input, which is "" exactly for blank input |
| JobMatch.CommitOnEnter | src/components/features/JobMatch.tsx:112-114 | an empty candidate adds nothing; any other candidate is added if absent, compared untrimmed |
| JobMatch.RemoveAt | src/components/features/JobMatch.tsx:129-131 | removes exactly position `index` and keeps the rest in order; an out-of-range index changes nothing |
| JobMatch.RemoveAtSubset | src/components/features/JobMatch.tsx:130 | removing a tag brings in no new tag |
| JobMatch.RemoveAtDistinct | src/components/features/JobMatch.tsx:130 | removing a tag keeps the list duplicate-free |
| JobMatch.SkillsCountOf | src/components/features/JobMatch.tsx:133-135 | a missing entry or 0 reads as 6, and any other entry reads as itself |
| JobMatch.Badge | src/components/features/JobMatch.tsx:373 | the "+N" badge is a full step unless fewer items are left, and never points past the total |
| JobMatch.NextCount | src/components/features/JobMatch.tsx:143 | `min(prev + step, total)` never exceeds the total, never decreases a count within it, and is either prev+step or the total |
| JobMatch.BadgeIsNextIncrease | src/components/features/JobMatch.tsx:373 | the "+N" badge equals what the next "load more" adds |
| JobMatch.JobsCountAfterClicks | src/components/features/JobMatch.tsx:142-149 | after k ≥ 1 clicks from the reset value the jobs counter is min(3 + 3k, total) |
| JobMatch.SkillsCountAfterClicks | src/components/features/JobMatch.tsx:135-141 | for a job with at least one skill, after k clicks the skills counter is 6 for k = 0 and min(6 + 6k, total) otherwise |
| JobMatch.Suggestions | src/components/features/JobMatch.tsx:75 | `search.data?.data \|\| []`: the answer's list, or none |
| JobMatch.SuggestionsEnabled | src/components/features/JobMatch.tsx:55 | the suggestion query runs exactly when the debounced input is two or more UTF-16 code units long, as JavaScript's `length` counts; for text within the Basic Multilingual Plane that is two or more characters (the older copy uses the same guard) |
| JobMatch.AstralCharacterEnablesSuggestions | src/components/features/JobMatch.tsx:55 | a single character beyond U+FFFF ("😀") is two code units long and already starts the query |
| JobMatch.JobMatchState.constructor | src/components/features/JobMatch.tsx:40-45 | empty input, closed dropdown, country "Việt Nam", no skills, no per-job counts, and a jobs counter of 3 |
| JobMatch.JobMatchState.HandleInputChange | src/components/features/JobMatch.tsx:92-100 | stores the raw value; the dropdown opens iff the trimmed value is non-empty; nothing else changes |
| JobMatch.JobMatchState.HandleKeyDown | src/components/features/JobMatch.tsx:102-119 | Enter on visible input gives `CommitOnEnter` of the candidate, clears the input and closes the dropdown; any other key, or blank input, changes nothing; skills stay duplicate-free |
| JobMatch.JobMatchState.HandleSkillSelect | src/components/features/JobMatch.tsx:121-129 | adds the trimmed skill if absent, clears the input and closes the dropdown; skills stay duplicate-free |
| JobMatch.JobMatchState.RemoveTag | src/components/features/JobMatch.tsx:129-131 | skills become `RemoveAt(skills, index)`; nothing else changes |
| JobMatch.JobMatchState.HandleCountryChange | src/components/features/JobMatch.tsx:42-43 | replaces the country only |
| JobMatch.JobMatchState.HandleClickOutside | src/components/features/JobMatch.tsx:77-90 | a mouse-down outside closes the dropdown; one inside changes nothing |
| JobMatch.RecommendationsGate | src/components/features/JobMatch.tsx:66 | the recommendation query's flag holds exactly when a skill is chosen and the country is non-empty; both pickers use it |
| JobMatch.JobMatchState.RecommendationsEnabled | src/components/features/JobMatch.tsx:66 | the recommendation query runs exactly when a skill is chosen and the country is non-empty |
| JobMatch.JobMatchState.LoadMoreSkills | src/components/features/JobMatch.tsx:135-141 | one job's entry becomes `min(current + 6, total)`; every other job reads as before |
| JobMatch.JobMatchState.LoadMoreJobs | src/components/features/JobMatch.tsx:142-144 | the jobs counter becomes `min(prev + 3, total)` and stays within the total |
| JobMatch.JobMatchState.OnRecommendationsChanged | src/components/features/JobMatch.tsx:146-149 | a new recommendation array resets the jobs counter to 3 and keeps the per-job counts |
| JobMatch.JobMatchState.VisibleJobs | src/components/features/JobMatch.tsx:261 | the job cards shown are the prefix of length min(counter, count) |
| JobMatch.JobMatchState.ShowLoadMoreJobs | src/components/features/JobMatch.tsx:364 | "Load More Jobs" is shown exactly when some job cards are hidden |
| JobMatch.JobMatchState.ShowLoadMoreSkills | src/components/features/JobMatch.tsx:345-347 | "Load More Skills" is shown exactly when the job has more than six skills and some of them are hidden |
| JobMatch.JobMatchState.VisibleSkills | src/components/features/JobMatch.tsx:296-297 | a job's skills shown are the prefix of length min(its count, skills) |
| JobMatch.EnterWithoutSuggestionsCommitsInput | src/components/features/JobMatch.tsx:105-107 | typing "Rust" and pressing Enter before suggestions arrive commits ["Rust"] |
| JobsMatchLegacy.LegacyCommit | src/components/layouts/JobsMatch.tsx:113-115 | as written: the membership test uses the untrimmed suggestion and the trimmed one is stored; the list grows by at most one and stays trimmed |
| JobsMatchLegacy.PaddedSuggestionDuplicates | src/components/layouts/JobsMatch.tsx:113-114 | for the list ["Python"], the suggestion " Python" yields ["Python", "Python"], which has a duplicate |
| JobsMatchLegacy.LegacyJobMatchState.constructor | src/components/layouts/JobsMatch.tsx:36-41 | empty input, closed dropdown, country "Việt Nam", no skills |
| JobsMatchLegacy.LegacyJobMatchState.HandleInputChange | src/components/layouts/JobsMatch.tsx:98-106 | stores the raw value; the dropdown opens iff the trimmed value is non-empty |
| JobsMatchLegacy.LegacyJobMatchState.HandleKeyDown | src/components/layouts/JobsMatch.tsx:108-119 | Enter on visible input with a suggestion gives `LegacyCommit` of the first one and clears the input. Without a suggestion `thrown` holds and nothing changes. Otherwise nothing changes |
| JobsMatchLegacy.LegacyJobMatchState.HandleSkillSelect | src/components/layouts/JobsMatch.tsx:121-130 | adds the trimmed skill if absent, clears the input and closes the dropdown |
| JobsMatchLegacy.LegacyJobMatchState.RemoveTag | src/components/layouts/JobsMatch.tsx:132-134 | removes exactly position `index` and keeps the rest in order |
| JobsMatchLegacy.LegacyJobMatchState.HandleCountryChange | src/components/layouts/JobsMatch.tsx:39-40 | replaces the country only |
| JobsMatchLegacy.LegacyJobMatchState.RecommendationsEnabled | src/components/layouts/JobsMatch.tsx:63 | the recommendation query runs exactly when a skill is chosen and the country is non-empty |
| JobsMatchLegacy.EnterWithoutSuggestionsThrows | src/components/layouts/JobsMatch.tsx:110-114 | typing "Rust" and pressing Enter before suggestions arrive throws and leaves the list empty |
| JobsTrend.Titles | src/components/layouts/JobsTrend.tsx:81 | the keys of the `Map`, in first-insertion order, have no duplicates |
| JobsTrend.TitlesMembership | src/components/layouts/JobsTrend.tsx:75-76 | a title is a key exactly when some entry of some month carries it |
| JobsTrend.Entries | src/components/layouts/JobsTrend.tsx:81-82 | one `{job_title, count}` per key, whose count is that title's total |
| JobsTrend.AddMonth | src/components/layouts/JobsTrend.tsx:74-77 | the inner `forEach` turns the map of the months so far into the map of those months plus this one |
| JobsTrend.MapEntries | src/components/layouts/JobsTrend.tsx:81-82 | `Array.from(map.entries()).map(...)` lists `Entries` of the keys |
| JobsTrend.AggregateJobs | src/components/layouts/JobsTrend.tsx:67-83 | the nested loops and the sort compute `Aggregated(months)` |
| JobsTrend.AggregatedCounts | src/components/layouts/JobsTrend.tsx:75-76 | each ranked row's count is the sum of that title's counts over every month and entry |
| JobsTrend.AggregatedCoversTitles | src/components/layouts/JobsTrend.tsx:67-79 | every title that occurs in any month has a row with its total |
| JobsTrend.AggregatedOneEntryPerTitle | src/components/layouts/JobsTrend.tsx:81-83 | no two rows share a title |
| JobsTrend.AggregatedInOrder | src/components/layouts/JobsTrend.tsx:83 | the rows are ordered by count, largest first |
| JobsTrend.AggregatedSorted | src/components/layouts/JobsTrend.tsx:83 | for any two positions i < j, row i's count is at least row j's |
| JobsTrend.AggregatedStable | src/components/layouts/JobsTrend.tsx:83 | rows with equal counts keep their first-appearance order |
| JobsTrend.AggregatedTotal | src/components/layouts/JobsTrend.tsx:67-83 | the rows' counts add up to the sum of every count of every month |
| JobsTrend.SumPermutation | src/components/layouts/JobsTrend.tsx:83 | sorting does not change the sum of the counts |
| JobsTrend.SumEntries | src/components/layouts/JobsTrend.tsx:81-82 | the per-title totals add up to the sum of all entries |
| JobsTrend.FindCount | src/components/layouts/JobsTrend.tsx:108-114 | the first matching entry's count, or 0 when no entry of the month matches |
| JobsTrend.MonthPoints | src/components/layouts/JobsTrend.tsx:101-115 | one point per month, in response order, labelled with the month and that month's `FindCount` |
| JobsTrend.LexTotal | src/components/layouts/JobsTrend.tsx:119 | the month comparison relates every two strings |
| JobsTrend.LexTransitive | src/components/layouts/JobsTrend.tsx:119 | the month comparison is transitive |
| JobsTrend.MonthlySeries | src/components/layouts/JobsTrend.tsx:99-120 | the `forEach` with `push` and the in-place sort give `Sort(MonthPoints(...), ByMonth)` |
| JobsTrend.MonthlySeriesProperties | src/components/layouts/JobsTrend.tsx:101-119 | the series has one point per month, holds exactly the month points, and is ordered by month |
| JobsTrend.TrendChartView | src/components/layouts/JobsTrend.tsx:170-173 | loading first. An empty month list shows the empty state. An answer without `data` fails to render. Otherwise the chart |
| JobsTrend.NextSelection | src/components/layouts/JobsTrend.tsx:93-95 | the top title is selected only when none is selected and the ranking is non-empty; otherwise the selection is kept |
| JobsTrend.JobsTrendView.constructor | src/components/layouts/JobsTrend.tsx:39-44 | type "thisYear", year 2023, nothing loaded or selected, 12 rows revealed |
| JobsTrend.JobsTrendView.HandleLoadMore | src/components/layouts/JobsTrend.tsx:46-48 | the reveal counter grows by exactly 12, with no cap |
| JobsTrend.JobsTrendView.HandleTypeChange | src/components/layouts/JobsTrend.tsx:50-52 | only the type changes |
| JobsTrend.JobsTrendView.HandleValueChange | src/components/layouts/JobsTrend.tsx:54-57 | the type becomes "custom" and the year the new value |
| JobsTrend.JobsTrendView.HandleJobClick | src/components/layouts/JobsTrend.tsx:124-126 | only the selected title changes |
| JobsTrend.JobsTrendView.OnTrendData | src/components/layouts/JobsTrend.tsx:65-97 | with a month list present, the summary becomes the one year row `Aggregated(months)` and `NextSelection` applies; without one nothing changes |
| JobsTrend.JobsTrendView.ShowSummary | src/components/layouts/JobsTrend.tsx:85-95 | stores the year row labelled with the year's decimal text and applies `NextSelection` |
| JobsTrend.JobsTrendView.OnMonthlyData | src/components/layouts/JobsTrend.tsx:99-122 | with a month list and a selected title, the series is replaced by the sorted month points; otherwise it is kept |
| JobsTrend.JobsTrendView.VisibleJobs | src/components/layouts/JobsTrend.tsx:277-278 | the rows shown are the prefix of length min(counter, rows) |
| JobsTrend.JobsTrendView.ShowLoadMore | src/components/layouts/JobsTrend.tsx:312 | the button shows exactly when some rows are hidden |
| JobsTrend.JobsTrendView.TotalPostings | src/components/layouts/JobsTrend.tsx:345-350 | nothing is shown exactly when there is no summary row (`jobsByMonth[0]` is undefined) |
| JobsTrend.TotalPostingsIsSumOfMonths | src/components/layouts/JobsTrend.tsx:345-350 | after a trend answer the displayed total equals the sum of every count of every month |
| SearchSkills.TopSkills | src/pages/SearchSkills.tsx:261 | `top_skills.slice(0, 20) \|\| []`: a prefix of length min(20, length), or none without data |
| SearchSkills.TotalFrequency | src/pages/SearchSkills.tsx:263 | `total_jobs \|\| 1`: the total, or 1 when it is missing or 0 |
| SearchSkills.OtherFrequency | src/pages/SearchSkills.tsx:264 | the remainder is never negative, is 0 exactly when the top frequencies reach the total, and otherwise completes them to the total |
| SearchSkills.PieData | src/pages/SearchSkills.tsx:267-275 | the top skills followed by one "Other" entry carrying the remainder exactly when it is positive, so at most 21 entries |
| SearchSkills.OtherFillNotInPalette | src/pages/SearchSkills.tsx:291-296 | the grey of "Other" is none of the twenty palette colours |
| SearchSkills.SliceColor | src/pages/SearchSkills.tsx:298-300 | slice i gets `colors[i % 20]`, never the grey |
| SearchSkills.PieCells | src/pages/SearchSkills.tsx:285-306 | one cell per pie entry; the top cells cycle through the palette; a cell is grey exactly when it is the "Other" cell |
| SearchSkills.DemandLabel | src/pages/SearchSkills.tsx:218-219 | "High" above 100, "Medium" above 50 up to 100, "Low" otherwise or without a top skill |
| SearchSkills.DemandMonotone | src/pages/SearchSkills.tsx:218-219 | a more frequent top skill never gets a lower label |
| SearchSkills.LegendLabel | src/pages/SearchSkills.tsx:329-331 | legend text over 20 characters becomes its first 20 plus "..."; shorter text is unchanged |
| SearchSkills.SearchView | src/pages/SearchSkills.tsx:56-168 | each view holds exactly under its condition: the page loader exactly while the countries load; the search loader exactly while, after that, the search loads; then the prompt exactly for blank text; then the empty state exactly for an answer with an empty `top_skills`; the results in every other case, a missing answer included |
| SearchSkills.SearchSkillsState.constructor | src/pages/SearchSkills.tsx:31-32 | empty text and country "Việt Nam" |
| SearchSkills.SearchSkillsState.HandleSkillChange | src/pages/SearchSkills.tsx:53-55 | every keystroke stores the trimmed text; the country is kept |
| SearchSkills.SearchSkillsState.HandleCountryChange | src/pages/SearchSkills.tsx:102 | replaces the country only |
| SearchSkills.SearchSkillsState.SearchEnabled | src/pages/SearchSkills.tsx:50 | the search runs exactly when the debounced text and the country are both non-empty |
| SearchSkills.SearchSkillsState.PromptIffEmpty | src/pages/SearchSkills.tsx:146 | because the stored text is trimmed, the prompt shows exactly when it is empty |
| SearchSkills.NonWhitespace | src/pages/SearchSkills.tsx:53-55 | the non-whitespace characters of a text: never longer, never holding whitespace |
| SearchSkills.TrimNoWhitespace | src/pages/SearchSkills.tsx:54 | `trim` leaves text without whitespace unchanged |
| SearchSkills.TrimTypedWhitespace | src/pages/SearchSkills.tsx:54 | a whitespace keystroke after text without whitespace is trimmed away |
| SearchSkills.TypingDropsWhitespace | src/pages/SearchSkills.tsx:53-55 | typing key by key into the controlled input (`value={skillName}` at line 92) stores exactly the keys that are not whitespace |
| SearchSkills.TypedTextHasNoSpace | src/pages/SearchSkills.tsx:53-55 | text typed left to right at the end of an empty field is stored without any space |
| SearchSkills.InsideKeySurvives | src/pages/SearchSkills.tsx:53-55 | a key typed with the caret between the first and last character of the stored text is kept, a space included; only keys at either end are trimmed away |
| SearchSkills.RawTypingKeepsText | src/components/features/JobMatch.tsx:92-94 | (corrected form) storing the raw value, as the job-match input does, keeps the typed text exactly, spaces included |
| RecommendSkills.IsEmpty | src/components/features/RecommendSkills.tsx:133 | the empty state shows exactly when the data is absent or `top_skills` is empty |
| RecommendSkills.PanelView | src/components/features/RecommendSkills.tsx:133 | the loader exactly while loading; then the empty state exactly when `IsEmpty`; the statistics exactly when the answer has `data` with a non-empty `top_skills` |
| RecommendSkills.UniqueSkillsShown | src/components/features/RecommendSkills.tsx:163-165 | `total_unique_skills` if non-zero, else the number of top skills |
| RecommendSkills.TitleShown | src/components/features/RecommendSkills.tsx:180-182 | the answer's title, else the typed title, else "N/A"; never empty |
| RecommendSkills.CountryShown | src/components/features/RecommendSkills.tsx:197-198 | the answer's country, else the selected one |
| RecommendSkills.BarData | src/components/features/RecommendSkills.tsx:222-225 | the first min(10, length) skills |
| RecommendSkills.PieData | src/components/features/RecommendSkills.tsx:313-316 | the first min(8, length) skills |
| RecommendSkills.PieFills | src/components/features/RecommendSkills.tsx:336-354 | one cell per slice, cell i coloured `palette[i % length]` |
| RecommendSkills.TickLabel | src/components/features/RecommendSkills.tsx:265-270 | tick text over 15 characters becomes its first 15 plus "..."; shorter text is unchanged |
| RecommendSkills.PieLabel | src/components/features/RecommendSkills.tsx:323-333 | the name cut at 12 characters (with "...") followed by a space, the percentage text and "%" |
| RecommendSkills.RecommendSkillsState.constructor | src/components/features/RecommendSkills.tsx:52-53 | empty title and country "Việt Nam" |
| RecommendSkills.RecommendSkillsState.HandleJobChange | src/components/features/RecommendSkills.tsx:70-72 | every keystroke stores the trimmed title |
| RecommendSkills.RecommendSkillsState.HandleCountryChange | src/components/features/RecommendSkills.tsx:95 | replaces the country only |
| RecommendSkills.RecommendSkillsState.QueryEnabled | src/components/features/RecommendSkills.tsx:65 | the query runs exactly when the debounced title and the country are both non-empty |
| SkillsByCountry.FormattedData | src/components/layouts/SkillsByCountry.tsx:70-78 | min(20, length) bars. Bar i has the full name, the unchanged count and `palette[i % length]`. Its label is the name, cut at 20 with "..." when longer |
| SkillsByCountry.ChartView | src/components/layouts/SkillsByCountry.tsx:107-111 | the loader exactly while loading; then the empty state exactly when the answer is absent or its list is empty; the chart in every other case, an answer without `data` included |
| SkillsByCountry.SkillsByCountryState.constructor | src/components/layouts/SkillsByCountry.tsx:33-35 | country "United States" and no bars |
| SkillsByCountry.SkillsByCountryState.OnCountryChange | src/components/layouts/SkillsByCountry.tsx:53-55 | replaces the country only |
| SkillsByCountry.SkillsByCountryState.OnData | src/components/layouts/SkillsByCountry.tsx:68-83 | the bars become `FormattedData` of the answer's list, or none when the answer or its list is absent |
| Data.Enabled | src/components/layouts/SkillsByCountry.tsx:65 | the `enabled: !!a && !!b` flag of a query holds exactly when every field is non-empty; the four text-keyed queries use it |
| SkillsByCountry.SkillsByCountryState.QueryEnabled | src/components/layouts/SkillsByCountry.tsx:65 | the query runs exactly when the country is non-empty |
| GlobalJobsChart.CountryOptions | src/components/layouts/GlobalJobsChart.tsx:67-68 | every "Việt Nam" is removed and only those; the list does not grow |
| GlobalJobsChart.CountryOptionsAppend | src/components/layouts/GlobalJobsChart.tsx:68 | the filter distributes over concatenation, so the other countries keep their order |
| GlobalJobsChart.CountryOptionsKeepsOthers | src/components/layouts/GlobalJobsChart.tsx:68 | a list without "Việt Nam" is offered unchanged |
| GlobalJobsChart.CountryOptionsIdempotent | src/components/layouts/GlobalJobsChart.tsx:68 | filtering twice is filtering once |
| GlobalJobsChart.ChartArea | src/components/layouts/GlobalJobsChart.tsx:77-83 | the chart area, each case an iff: the loader exactly while loading; the empty state exactly when the answer is absent or its first series is empty; a failed render exactly for an answer without `data`; otherwise the chart, whose bars are `data.data[0].data`, or none when the list is empty |
| GlobalJobsChart.ChartView | src/components/layouts/GlobalJobsChart.tsx:52-83 | the countries loader exactly while the countries load; then a failed render exactly when the countries answer is missing or has no `data`, or the chart area fails; otherwise exactly `ChartArea` |
| GlobalJobsChart.OfferedCountries | src/components/layouts/GlobalJobsChart.tsx:67-68 | the options are `CountryOptions` of the countries list, and the expression throws exactly when that list cannot be read |
| GlobalJobsChart.ChartViewGuarded | src/components/layouts/GlobalJobsChart.tsx:52-83 | (corrected form) with optional chaining on the countries answer, a failed render happens exactly for a jobs answer without `data`, and the view agrees with `ChartView` whenever the countries answer is readable |
| GlobalJobsChart.CountriesFailureBreaksChart | src/components/layouts/GlobalJobsChart.tsx:67 | a failed countries request with a good jobs answer fails the render as written, and shows the chart in the guarded form |
| GlobalJobsChart.GlobalJobsChartState.constructor | src/components/layouts/GlobalJobsChart.tsx:32-33 | selection "United States" |
| GlobalJobsChart.GlobalJobsChartState.OnCountryChange | src/components/layouts/GlobalJobsChart.tsx:48-50 | replaces the selection |
| GlobalJobsChart.GlobalJobsChartState.QueryEnabled | src/components/layouts/GlobalJobsChart.tsx:45 | the query runs exactly when the selection is non-empty |
| SkillCharts.ChartData | src/components/layouts/VietnamSkillsChart.tsx:44-47 | one bar per answer item, with the skill and the count copied |
| SkillCharts.ChartView | src/components/layouts/VietnamSkillsChart.tsx:36-53 | each case an iff: the loader exactly while loading; the empty state exactly when the answer is absent or its list is empty; a failed render exactly for an answer without `data`; the chart exactly for a non-empty list, with the mapped bars after the in-place sort |
| SkillCharts.ChartBarsProperties | src/components/layouts/GlobalSkillsChart.tsx:37-46 | the bars are a permutation of the mapped items, non-increasing in count, and stable on equal counts |
| YearPicker.DefaultEndYear | src/components/ui/year-picker.tsx:17 | the default end year is ten years after the current one |
| YearPicker.Ascending | src/components/ui/year-picker.tsx:25-27 | `Array.from` gives start, start+1, …, with no entries for a non-positive length |
| YearPicker.Reverse | src/components/ui/year-picker.tsx:28 | `reverse()` puts element i at position length-1-i |
| YearPicker.Years | src/components/ui/year-picker.tsx:25-28 | endYear, endYear−1, …, startYear: end−start+1 years, strictly decreasing, none when end < start |
| YearPicker.YearsMembership | src/components/ui/year-picker.tsx:25-28 | a year is offered exactly when it lies in [startYear, endYear] |
| YearPicker.HighlightOnce | src/components/ui/year-picker.tsx:80-85 | at most one entry is highlighted, and one is exactly when the selected year is in range |
| YearPicker.YearPickerState.constructor | src/components/ui/year-picker.tsx:22 | the list starts closed |
| YearPicker.YearPickerState.ListenerActive | src/components/ui/year-picker.tsx:37-39 | the outside-click listener is registered exactly while the list is open |
| YearPicker.YearPickerState.Toggle | src/components/ui/year-picker.tsx:55 | the button flips the list |
| YearPicker.YearPickerState.HandleYearSelect | src/components/ui/year-picker.tsx:46-49 | reports the chosen year and closes the list |
| YearPicker.YearPickerState.HandleMouseDown | src/components/ui/year-picker.tsx:30-35 | with the listener active, a mouse-down outside closes the list; otherwise nothing changes |
| YearPicker.ToggleTwice | src/components/ui/year-picker.tsx:55 | two clicks on the button restore the list's state |

## Left out

- HTTP, caching and timing are not modelled:
  - the axios client;
  - React Query (caching, deduplication by key, stale answers, `isLoading` as anything but an input);
  - `useDebounce`.
  Answers, loading flags and debounced values are parameters.
- Rendering, CSS classes, Recharts, refs, focus and `console.log` are left out.
  - An outside click only enters as a boolean "inside the element" argument.
  - The `mousedown` listener of the job-match panel and of the year picker is modelled by its effect on the open flag. The older picker's listener (src/components/layouts/JobsMatch.tsx:83-95) is not modelled.
- Floating-point display is left out:
  - the percentages, `toFixed` and `parseFloat`;
  - the skill-weight badge thresholds;
  - the `/1000` tick formatters.
  `TopSkill` carries no percentage, and `RecommendSkills.PieLabel` takes the percentage text as an argument.
- `localeCompare` on month labels: JobsTrend.MonthlySeries orders months lexicographically by code point instead of by locale collation. The two orders agree on fixed-width labels made of digits and "-", such as `YYYY-MM`. The code does not fix the label format (`month_year` is only typed as a string), and for other labels, such as month names, mixed case or accents, the two orders can differ.
- Analyze.ReadBack: the server reads the query as plain text, with no form decoding. It turns neither "+" into a space nor `%XX` into a character. A value with "+" or "%" (for example "C++") is therefore read back unchanged here, although a form-decoding server receives it altered ("C  "). The browser's percent-encoding of spaces and non-ASCII characters ("Việt Nam"), which such a server undoes, is not modelled either.
- Text.Truncate: counts code points, while JavaScript's `length` and `substring` count UTF-16 code units. So for text with characters beyond U+FFFF it cuts later than the source does, and it never splits a surrogate pair, which the source can. A name of eleven "𝔸" (U+1D538) has JavaScript length 22 and is cut at 20, but is unchanged here. Its users inherit this: SearchSkills.LegendLabel, RecommendSkills.TickLabel, RecommendSkills.PieLabel and SkillsByCountry.FormattedData.
- TypedTextHasNoSpace: covers only keys typed left to right at the end of the field (`SearchSkills.TypeKeys`). Caret movement is modelled for a single keystroke (`SearchSkills.InsertKey`, with `InsideKeySurvives`), and a paste or any other whole new value only through `SearchSkillsState.HandleSkillChange`. So a space typed between two words, or pasted "Software Engineer", is kept, and these lemmas do not claim otherwise. Selection replacement and deletions are not modelled.
- JobMatch.SkillsCountOf: the per-job counters are a Dafny `map`, while the source keeps them in a plain object `{}`. So a job titled like an `Object.prototype` member ("constructor", "toString") is not modelled: there `visibleSkillsCount[jobTitle] || 6` reads a function, `slice` gets `NaN` and shows no skills, and "load more" stores `NaN`.
- `Number(item.count)` is the identity, since counts are integers here. A count sent as text is not parsed.
- JavaScript numbers are unbounded integers: no counter or sum here comes near 2^53.
- The project constants file (`COLORS`, `LIMIT_DATA`, the start year) is not part of this model. Its palette and its limit are parameters: `palette`, or `limit` in the request functions. The palette must be non-empty, as `i % COLORS.length` on an empty palette would give `NaN`.
- Missing answer fields are modelled as "" for text, 0 for numbers and [] for lists. A `top_skills` missing from a present answer, which would throw, is therefore not modelled.
- The outgoing GET of each service function is not modelled. Only the URL it requests is (`Analyze.*Url`), and the response is passed through unchanged.
- The older picker's `filteredSkills` state is unused by the code and is not modelled.

## Findings

| source | as written | input that shows it | evidently intended | confidence | as-written member | corrected member |
|---|---|---|---|---|---|---|
| src/components/layouts/JobsMatch.tsx:110-114 | Enter reads `searchSkillsData[0]` and calls `.trim()` on it even when there are no suggestions | type "Rust" and press Enter before the suggestion query answers: `undefined.trim()` throws a TypeError | commit the trimmed input when there is no suggestion, as src/components/features/JobMatch.tsx:105-107 does | high, not executed | JobsMatchLegacy.EnterWithoutSuggestionsThrows | JobMatch.EnterWithoutSuggestionsCommitsInput |
| src/components/layouts/JobsMatch.tsx:113-114 | the membership test uses the untrimmed suggestion but the trimmed text is stored | chosen ["Python"], first suggestion " Python": the list becomes ["Python", "Python"] | test and store the same string, so the chosen list stays duplicate-free, as JobMatch.JobMatchState.HandleKeyDown does | medium, not executed | JobsMatchLegacy.PaddedSuggestionDuplicates | JobMatch.JobMatchState.HandleKeyDown |
| src/services/analyze.ts:28 | values are pasted into the URL unescaped, so a "#" in a skill starts a fragment, which the browser does not send | skills ["C#", "Java"] and country "Canada": the request carries only `input_skills=C` | escape each value (`encodeURIComponent`), so every value reaches the server whole | high, not executed | Analyze.FragmentCutsRequest | Analyze.EscapedReadBack |
| src/components/layouts/GlobalJobsChart.tsx:67 | the options are built from `countriesData.data` with no optional chaining, before the chart area is rendered | the countries request fails: its loading flag is false and `countriesData` is undefined, so the render throws a TypeError although the jobs answer is fine | read `countriesData?.data?.filter(...)`, as src/pages/SearchSkills.tsx:107 reads its countries, so the chart still shows | medium, not executed | GlobalJobsChart.CountriesFailureBreaksChart | GlobalJobsChart.ChartViewGuarded |
| src/pages/SearchSkills.tsx:53-55 | every keystroke stores `value.trim()` into the controlled input, so a typed space is removed at once (src/components/features/RecommendSkills.tsx:70-72 does the same) | type "Software Engineer" left to right, as the placeholder suggests: the field holds "SoftwareEngineer" | store the raw value and trim it when the query is built, as src/components/features/JobMatch.tsx:92-94 does | high, not executed | SearchSkills.TypingDropsWhitespace | SearchSkills.RawTypingKeepsText |

The older picker's Enter without a suggestion is modelled as a `thrown` outcome that leaves the state as it was. It is not modelled as a precondition, so every input has a defined result.

The reset effect (src/components/features/JobMatch.tsx:146-149) resets only the jobs counter; `JobMatch.JobMatchState.OnRecommendationsChanged` keeps the per-job skills counts.
