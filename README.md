# Civic-Connect dashboard core in Dafny

This project models the logic of the Civic-Connect municipal dashboard, a
Next.js application in which staff and NGOs review citizen problem reports.
It covers:

- **Problem list** (`ProblemManagement`, over `Problems`): the search and
  select filters, the stable sort by date, upvotes or status ordinal,
  `updateProblemStatus`, the sort-header state machine and the status
  buttons of the details dialog.
- **Map page** (`MapView`): the status/type filter effect, the marker colour
  rule, the popup badge colour and Clear Filters.
- **Static translation** (`Translation`): `t(key)` walks a dotted key through
  a nested table and restarts from English on a miss.
- **Language context** (`LanguageContext`): the flat `t` lookup that falls
  back to the key, the language state and its restoration on mount.
- **Dashboard overview** (`DashboardOverview`): the rounded resolution rate,
  the most upvoted report (`reduce`) and the translation keys built from
  status, priority and category names.
- **Mock authentication** (`Auth`, `UseAuth`): the service with its cached
  `currentUser` and the storage map, and the React provider's
  `{ user, isLoading }` state.

Supporting modules:

- `Strings`: ASCII case mapping, substring search, `split`/`join`, and
  `replace` of a one-character pattern.
- `Sequences`: `filter` as an order-preserving subsequence.
- `ReactContext`: the guard `useLanguage` and `useAuth` share, which throws outside the provider.
- `StableSort`: `Array.prototype.sort` with a key comparator. Section
  23.1.3.30 of ECMA-262 (2023 edition) requires it to be stable. It is
  modelled as a stable insertion sort, proved sorted, a permutation, and
  order-preserving on equal keys. It is also proved to be the only output
  with these properties, so any conforming engine returns the same
  sequence. The in-place array version is proved equal to it.

Timestamps are integers (milliseconds). The clock and the random user id
are parameters. Browser storage is a `map<string, string>`.
`JSON.stringify` and `JSON.parse` are a pair of functions that round-trip
users, where `None` from `parse` stands for the exception.

Two translation functions exist side by side:

- The nested table of `utils/translation.ts` has the key
  "status.inprogress".
- The flat tables of `contexts/language-context.tsx` have
  "status.inProgress" instead.

The dashboard uses the flat lookup. That mismatch is the finding below.
The "Top Problem Types" list has the same mismatch: it builds
"problemType.waterissues" where the tables have "problemType.waterIssues".
This is latent, because only the first two categories are displayed
(`WaterIssuesKeyIsMissing`).

## Model

| member | source | states |
|---|---|---|
| Problems.StatusName | components/problem-management.tsx:43 | the string stored in `status` for each of the three states; `NamesDistinct` proves the mapping one-to-one and never "all" |
| Problems.TypeName | components/problem-management.tsx:42 | the string stored in `type` for each of the five categories; `NamesDistinct` proves the mapping one-to-one and never "all" |
| Problems.PriorityName | components/problem-management.tsx:44 | the string stored in `priority` for each level; `NamesDistinct` proves the mapping one-to-one and never "all" |
| Problems.ResolutionConsistent | components/problem-management.tsx:196-201 | the record invariant the update keeps: `resolvedAt` is set exactly when resolved, and not before the report (`UpdateKeepsResolutionConsistent`) |
| Problems.NamesDistinct | components/problem-management.tsx:41-43 | the stored status, type and priority strings are pairwise distinct and none is the wildcard "all" |
| Strings.Lower | components/problem-management.tsx:162 | `toLowerCase` keeps the length and lowers each character |
| Strings.LowerAbsorbs | components/problem-management.tsx:161-163 | under the model's ASCII case mapping, lowering is idempotent and lowering an upper-cased string equals lowering the original |
| Strings.Contains | components/problem-management.tsx:162 | `includes` holds iff the term occurs at some position |
| Strings.ContainsEmpty | components/problem-management.tsx:161-163 | the empty term occurs in every string |
| Strings.IndexOf | lib/auth.ts:26 | the first position of a character: it holds the character and no earlier position does |
| Strings.Split | utils/translation.ts:138 | `split` yields at least one part and no part contains the separator |
| Strings.JoinSplit | utils/translation.ts:138 | joining the parts of a split with the separator gives back the string |
| Strings.SplitJoin | utils/translation.ts:138 | splitting a join of separator-free parts gives back the parts |
| Strings.SplitHead | lib/auth.ts:26 | the first part is the prefix before the first separator, or the whole string |
| Strings.RemoveFirst | components/dashboard-overview.tsx:184 | `replace(c, "")` leaves a string without `c` unchanged and otherwise shortens it by one |
| Strings.IndexOfAfterPrefix | components/dashboard-overview.tsx:184 | the first occurrence follows a prefix free of the character |
| Strings.RemoveFirstAt | components/dashboard-overview.tsx:184 | `replace` removes exactly the first occurrence and keeps every later one |
| Sequences.Filter | components/problem-management.tsx:160 | `filter` returns no more elements than it is given, and only ones the predicate keeps |
| Sequences.FilterSpec | components/problem-management.tsx:160-169 | the result is an order-preserving subsequence with each kept element's multiplicity and no other |
| Sequences.FilterMembership | components/map-view.tsx:179-183 | an element is in the result iff it is in the input and kept |
| Sequences.FilterKeepsAll | components/map-view.tsx:180-181 | a predicate that keeps everything returns the input unchanged |
| StableSort.Insert | components/problem-management.tsx:171-188 | the reference stable sort's step: the element goes after every element whose key is not greater (`InsertSorted`, `InsertCount`, `InsertKeepsOrder`) |
| StableSort.Sort | components/problem-management.tsx:171-188 | the reference result of the engine's stable `sort` with a key comparator; `SortSorted`, `SortStable` and `SortUnique` prove it is the one sorted, order-keeping permutation |
| StableSort.InsertSorted | components/problem-management.tsx:171-188 | inserting into a sorted list keeps it sorted and adds exactly one element |
| StableSort.InsertCount | components/problem-management.tsx:171-188 | insertion adds exactly the new element to the multiset |
| StableSort.SortSorted | components/problem-management.tsx:171-188 | the sort output is non-decreasing in the key and a permutation of the input |
| StableSort.SortStable | components/problem-management.tsx:171-188 | elements with equal keys appear in their input order |
| StableSort.SortedStableEqual | components/problem-management.tsx:171-188 | two sorted, order-keeping permutations of the same input are equal |
| StableSort.SortUnique | components/problem-management.tsx:171-188 | any stable sort of the input by the key equals `Sort` |
| StableSort.InsertInPlace | components/problem-management.tsx:171 | one insertion step on the array leaves the prefix equal to the functional insertion |
| StableSort.SortInPlace | components/problem-management.tsx:171 | sorting the array in place leaves it equal to `Sort` of its old contents |
| ProblemManagement.Cleared | components/problem-management.tsx:321-324 | the filters after Clear Filters, equal to the initial ones at lines 151-154: empty search and every select "all" (`ClearedShowsAll`) |
| ProblemManagement.MatchesSearch | components/problem-management.tsx:161-163 | the lowered title or the lowered location contains the lowered term (`EmptySearchMatchesAll`, `SearchIgnoresCase`) |
| ProblemManagement.MatchesSelect | components/problem-management.tsx:164-166 | a select matches when it is "all" or equals the record's stored string |
| ProblemManagement.Matches | components/problem-management.tsx:160-169 | the filter callback: search, status, type and priority must all match (`VisibleMembers`) |
| ProblemManagement.Keep | components/problem-management.tsx:160-169 | the callback passed to `problems.filter`, as a function value |
| ProblemManagement.FieldKey | components/problem-management.tsx:174-184 | the number the comparator subtracts: the report time, the upvotes, or the status ordinal |
| ProblemManagement.Comparison | components/problem-management.tsx:171-188 | the comparator: the field difference, negated when descending (`ComparisonIsKeyDifference`) |
| ProblemManagement.SortKey | components/problem-management.tsx:171-188 | the key the comparator orders by ascending, negated for descending (`VisibleOrdered`, `VisibleStable`) |
| ProblemManagement.Visible | components/problem-management.tsx:159-191 | the rows shown: the filtered records stably sorted by `SortKey`; its meaning is given by `VisibleMembers`, `VisibleIsPermutedSubsequence`, `VisibleOrdered`, `VisibleStable` and `VisibleIsTheStableSort` |
| ProblemManagement.StatusOrder | components/problem-management.tsx:182 | the status ordinal lies in 0..2 |
| ProblemManagement.ComparisonIsKeyDifference | components/problem-management.tsx:171-188 | the comparator (with descending negation) is the difference of the sort key, so the sort is a stable sort by that key |
| ProblemManagement.FilteredAndSortedProblems | components/problem-management.tsx:159-191 | the filter-then-sort-in-place computation returns exactly `Visible` |
| ProblemManagement.VisibleMembers | components/problem-management.tsx:160-169 | a record is shown iff it is in the list and matches search, status, type and priority |
| ProblemManagement.VisibleIsPermutedSubsequence | components/problem-management.tsx:160-190 | the rows are a permutation of the order-preserving filtered subsequence; no record is added or changed |
| ProblemManagement.VisibleOrdered | components/problem-management.tsx:171-188 | ascending rows are non-decreasing in the field, descending rows non-increasing |
| ProblemManagement.VisibleStable | components/problem-management.tsx:171-188 | records with equal field values keep their filtered order in both directions |
| ProblemManagement.VisibleIsTheStableSort | components/problem-management.tsx:171-188 | any sorted, order-keeping arrangement of the filtered records equals the rows shown |
| ProblemManagement.EmptySearchMatchesAll | components/problem-management.tsx:161-163 | an empty search term matches every record |
| ProblemManagement.SearchIgnoresCase | components/problem-management.tsx:161-163 | under the model's ASCII case mapping, upper- or lower-casing the term does not change the match |
| ProblemManagement.ClearedShowsAll | components/problem-management.tsx:320-325 | every record passes the cleared filter, in list order, and the rows shown are all the records (sorted by the current sort state) |
| ProblemManagement.StatusDescending | components/problem-management.tsx:181-187 | for any records and filters, sorting by status descending shows every resolved row before every in-progress row, and every in-progress row before every pending row |
| ProblemManagement.WithStatus | components/problem-management.tsx:196-201 | the record the update writes: the new status, `resolvedAt` = `now` only when resolved, other fields kept (stated on `UpdateProblemStatus`) |
| ProblemManagement.UpdateProblemStatus | components/problem-management.tsx:193-205 | same length and ids; records with another id unchanged; the matching record gets the new status and `resolvedAt` equal to the clock `now` when resolved and absent otherwise, other fields unchanged |
| ProblemManagement.UpdateUnknownId | components/problem-management.tsx:193-205 | an id no record has changes nothing |
| ProblemManagement.UpdateIdempotent | components/problem-management.tsx:193-205 | repeating the same update changes nothing more |
| ProblemManagement.UpdateKeepsResolutionConsistent | components/problem-management.tsx:200 | `resolvedAt` stays set exactly for resolved records |
| ProblemManagement.HandleSort | components/problem-management.tsx:207-214 | the clicked field becomes the sort field |
| ProblemManagement.HandleSortTwice | components/problem-management.tsx:207-214 | the same field toggles the order (twice restores it), a new field starts descending |
| ProblemManagement.CanUpdateStatus | components/problem-management.tsx:420 | `user?.role === "municipal" \|\| user?.role === "ngo"` (`CanUpdateStatusIffSignedIn`) |
| ProblemManagement.StatusButton | components/problem-management.tsx:508-527 | a button is shown exactly when the user may update statuses, and it always targets a status other than the current one (`StatusButtonFollowsWorkflow` gives the edges) |
| ProblemManagement.CanUpdateStatusIffSignedIn | components/problem-management.tsx:420 | status updates are allowed iff a user is signed in, since both roles qualify |
| ProblemManagement.WorkflowEdges | components/problem-management.tsx:508-527 | the three button transitions: start work (pending to in-progress), mark resolved (in-progress to resolved), reopen (resolved to pending) |
| ProblemManagement.StatusButtonFollowsWorkflow | components/problem-management.tsx:508-527 | a button moves a record from one status to another iff the user may update and the pair is start work, mark resolved or reopen |
| ProblemManagement.ProblemManagementView.constructor | components/problem-management.tsx:150-156 | initial state: the given records, cleared filters, date descending |
| ProblemManagement.ProblemManagementView.Rows | components/problem-management.tsx:159-191 | the rows shown are `Visible` of the current state |
| ProblemManagement.ProblemManagementView.UpdateStatus | components/problem-management.tsx:193-205 | the records become `UpdateProblemStatus` of the old records |
| ProblemManagement.ProblemManagementView.ClickSortHeader | components/problem-management.tsx:207-214 | the sort state becomes `HandleSort` of the old one |
| ProblemManagement.ProblemManagementView.ClearFilters | components/problem-management.tsx:320-325 | the filters are cleared and every record passes them |
| ProblemManagement.ProblemManagementView.ClickStatusButton | components/problem-management.tsx:448-527 | the dialog's record supplies both the id and the status; with no button nothing changes, otherwise the records become `updateProblemStatus` to the button's status, every status that changes moves along a workflow edge, and a permitted user's click always changes the record's status |
| MapView.Shown | components/map-view.tsx:179-183 | the effect's callback: status and type each "all" or equal to the record's string |
| MapView.MapFilter | components/map-view.tsx:178-185 | the list the effect stores; `MapFilterSpec` and `MapFilterAllShowsAll` give its meaning |
| MapView.MapViewState.Valid | components/map-view.tsx:178-185 | the stored filtered list equals `MapFilter` of the current selects, which every method re-establishes |
| MapView.MapFilterSpec | components/map-view.tsx:179-184 | the filtered list is an order-preserving subsequence; a record is in it iff status and type both match |
| MapView.MapFilterAllShowsAll | components/map-view.tsx:179-183 | with both selects at "all" the list is the full list |
| MapView.Green | components/map-view.tsx:247 | the resolved marker colour "#10b981" |
| MapView.Amber | components/map-view.tsx:248 | the in-progress marker colour "#f59e0b" |
| MapView.Red | components/map-view.tsx:249 | the high-priority marker colour "#ef4444" |
| MapView.Orange | components/map-view.tsx:250 | the medium-priority marker colour "#f97316" |
| MapView.Gray | components/map-view.tsx:251 | the fallback marker colour "#6b7280" (`ColorsDistinct`) |
| MapView.MarkerColor | components/map-view.tsx:246-252 | resolved is green and in-progress amber whatever the priority; pending is red, orange or gray by priority |
| MapView.ColorsDistinct | components/map-view.tsx:247-251 | the five colours are different strings |
| MapView.MarkerColorDecodes | components/map-view.tsx:246-252 | each colour identifies its status (and its priority for pending) |
| MapView.PopupStatusColor | components/map-view.tsx:300 | the popup badge is green for resolved, amber for in-progress, red otherwise |
| MapView.PopupAgreesWithMarker | components/map-view.tsx:300 | the popup colour equals the marker colour iff the record is not pending with medium or low priority |
| MapView.MapViewState.constructor | components/map-view.tsx:169-172 | both lists start as the records given and both selects as "all" |
| MapView.MapViewState.RunFilterEffect | components/map-view.tsx:178-185 | the filtered list becomes the filter of the records by the current selects |
| MapView.MapViewState.SetStatusFilter | components/map-view.tsx:387 | the status select changes and the list is refiltered |
| MapView.MapViewState.SetTypeFilter | components/map-view.tsx:402 | the type select changes and the list is refiltered |
| MapView.MapViewState.ClearFilters | components/map-view.tsx:420-423 | both selects are "all" and the filtered list equals the full list |
| Translation.StaticLanguage | utils/translation.ts:14-24 | the saved language when in a browser and it is present and non-empty; "en" in every other case, including a saved empty language (`parsed.language \|\| "en"`) |
| Translation.English | utils/translation.ts:28-81 | the entries of the nested English table that the dashboard's keys reach, among them `status.inprogress` (`WalkEnglishStatus`) |
| Translation.Hindi | utils/translation.ts:82-135 | the entries of the nested Hindi table that the dashboard's keys reach |
| Translation.Translations | utils/translation.ts:27-136 | the nested tables by language: "en" and "hi" only, so "raj" reads English (`RajReadsEnglish`) |
| Translation.Step | utils/translation.ts:142-143 | one loop step: the child named by the segment when the value is a table that has it, else a miss |
| Translation.Walk | utils/translation.ts:141-145 | the value reached by all segments, or a miss (`WalkFromNone`, `WalkSnoc`) |
| Translation.Root | utils/translation.ts:139 | `translations[language]`, absent for a language without a table |
| Translation.TextOr | utils/translation.ts:158 | `typeof value === "string" ? value : key` |
| Translation.Lookup | utils/translation.ts:138-158 | the value of `t(key)`: the selected walk's text, or the English walk's text after a miss, or the key (`LookupIsKeyOrText`, `AbsentLanguageIsEnglish`, `MissFallsBackToEnglish`) |
| Translation.WalkFromNone | utils/translation.ts:145-154 | a walk that has missed stays missed |
| Translation.WalkSnoc | utils/translation.ts:141-144 | each further segment descends one level |
| Translation.T | utils/translation.ts:138-158 | the loop with its nested English restart and early returns computes `Lookup` |
| Translation.LookupIsKeyOrText | utils/translation.ts:141-158 | the result is the key or a string leaf of the selected or the English table |
| Translation.AbsentLanguageIsEnglish | utils/translation.ts:139-147 | a language without a table reads exactly like English |
| Translation.MissFallsBackToEnglish | utils/translation.ts:145-154 | a path that misses in the selected language is looked up again from the English root |
| Translation.NavIsATable | utils/translation.ts:158 | a key that ends on a table returns the key itself |
| Translation.SplitStatusKey | utils/translation.ts:138 | "status.inprogress" splits into "status" and "inprogress" |
| Translation.WalkEnglishStatus | utils/translation.ts:63-65 | the English walk of "status.inprogress" ends on "in progress" |
| Translation.RajReadsEnglish | utils/translation.ts:139-147 | Rajasthani, which has no nested table, reads the English string |
| LanguageContext.En | contexts/language-context.tsx:14-101 | the English flat entries the model reads, with the camel-case status keys |
| LanguageContext.Hi | contexts/language-context.tsx:102-189 | the Hindi flat entries the model reads |
| LanguageContext.Raj | contexts/language-context.tsx:190-254 | the Rajasthani flat entries the model reads; it has no "profile.title" (`RajProfileTitleIsRaw`) |
| LanguageContext.Tables | contexts/language-context.tsx:13-255 | the flat tables by language, one for each of "en", "hi" and "raj" (`LanguagesAreTotal`) |
| LanguageContext.IsLanguage | contexts/language-context.tsx:5 | the three values of the `Language` union, "en", "hi" and "raj" (`LanguagesAreTotal`) |
| LanguageContext.FlatLookup | contexts/language-context.tsx:272-274 | a non-empty entry of the current language, else the key; `None` (a TypeError) iff the language has no table |
| LanguageContext.FlatLookupIsKeyOrOwnEntry | contexts/language-context.tsx:272-274 | the result is the key or a non-empty entry of the current language's own table |
| LanguageContext.LanguagesAreTotal | contexts/language-context.tsx:13-255 | each of "en", "hi" and "raj" has a table, so `t` never throws for them |
| LanguageContext.RajProfileTitleIsRaw | contexts/language-context.tsx:190-254 | no English fallback: "profile.title" shows the raw key in Rajasthani and the English text in English |
| LanguageContext.LanguageProvider.constructor | contexts/language-context.tsx:260 | the initial language is "en" |
| LanguageContext.LanguageProvider.Mount | contexts/language-context.tsx:262-270 | the language becomes the saved one only when it is present and non-empty; otherwise it is unchanged |
| LanguageContext.LanguageProvider.SetLanguage | contexts/language-context.tsx:260 | after `setLanguage(l)` every `t` reads table `l` |
| LanguageContext.LanguageProvider.T | contexts/language-context.tsx:272-274 | `t` throws iff the current language has no table |
| LanguageContext.SwitchKeepsTotal | contexts/language-context.tsx:272-276 | after switching to one of the three languages, `t` returns a string for every key |
| LanguageContext.UncheckedSavedLanguage | contexts/language-context.tsx:262-270 | a saved language outside the union is adopted unchecked, and then `t` throws |
| ReactContext.UseContext | contexts/language-context.tsx:279-285 | the hooks' shared guard: outside a provider the result is the hook's error message, inside it the context value |
| LanguageContext.UseLanguage | contexts/language-context.tsx:279-285 | outside a provider the hook fails with its message; inside it returns the provider |
| DashboardOverview.TotalProblems | components/dashboard-overview.tsx:80 | the page's total report count, 247 |
| DashboardOverview.ResolvedProblems | components/dashboard-overview.tsx:81 | the page's resolved count, 189 (`DashboardRate`) |
| DashboardOverview.RecentProblems | components/dashboard-overview.tsx:39-76 | the recent reports with their upvotes, which the reduce runs over (`FeaturedProblem`) |
| DashboardOverview.ChartTypeNames | components/dashboard-overview.tsx:32-36 | the category names of the "Top Problem Types" list, in order, of which `slice(0, 2)` shows the first two (`ShownTypeKeysResolve`) |
| DashboardOverview.ResolutionRate | components/dashboard-overview.tsx:83 | the percentage rounded half-up: `r` is the integer with 100·resolved/total in [r − ½, r + ½); it lies in 0..100 when resolved ≤ total |
| DashboardOverview.RoundingBounds | components/dashboard-overview.tsx:83 | a Euclidean quotient lies between the neighbouring multiples |
| DashboardOverview.RateAtMostHundred | components/dashboard-overview.tsx:83 | a share of at most the whole never rounds above 100 |
| DashboardOverview.MulMonotone | components/dashboard-overview.tsx:83 | multiplying by a non-negative factor keeps the order |
| DashboardOverview.ResolutionRateUnique | components/dashboard-overview.tsx:83 | the rounded rate is the only integer with that half-up window |
| DashboardOverview.DashboardRate | components/dashboard-overview.tsx:80-83 | 189 resolved of 247 shows 77% |
| DashboardOverview.Pick | components/dashboard-overview.tsx:84 | the reduce step returns one of its two rows, the one with more upvotes, and the later row on a tie |
| DashboardOverview.ReduceMostUpvoted | components/dashboard-overview.tsx:84 | the fold returns an element with the most upvotes, and every later element has strictly fewer (a tie goes to the later one) |
| DashboardOverview.PickExtends | components/dashboard-overview.tsx:84 | one more step of the fold keeps the last maximum, the new row winning ties |
| DashboardOverview.LaterRowsHaveFewer | components/dashboard-overview.tsx:84 | rows after the last maximum have fewer upvotes |
| DashboardOverview.LastMaximumUnique | components/dashboard-overview.tsx:84 | at most one position is the last maximum |
| DashboardOverview.MostUpvoted | components/dashboard-overview.tsx:84 | `None` (the TypeError of `reduce`) iff the list is empty; otherwise the last maximum |
| DashboardOverview.FeaturedProblem | components/dashboard-overview.tsx:39-84 | the featured report is the 23-vote pothole |
| DashboardOverview.StatusKeyAsWritten | components/dashboard-overview.tsx:184 | the badge key as written, `status.` followed by the status with its first '-' removed (`InProgressKey`, `StatusKeyAgrees`) |
| DashboardOverview.InProgressBadgeShowsKey | components/dashboard-overview.tsx:184 | "in-progress" gives the key "status.inprogress", which every flat table lacks, so the raw key is shown |
| DashboardOverview.InProgressKey | components/dashboard-overview.tsx:184 | "in-progress" loses its hyphen: "status.inprogress" |
| DashboardOverview.DerivedKeysMissing | contexts/language-context.tsx:13-255 | no flat table has "status.inprogress" or "problemType.waterissues" |
| DashboardOverview.StatusKey | components/dashboard-overview.tsx:184 | corrected: the key for a status is one of the three keys the flat tables define |
| DashboardOverview.StatusKeyAgrees | components/dashboard-overview.tsx:184 | the key as written is right for pending and resolved |
| DashboardOverview.StatusLabel | components/dashboard-overview.tsx:308 | corrected: in each of the three languages the badge shows a translation, never the raw key |
| DashboardOverview.PriorityKey | components/dashboard-overview.tsx:271 | the priority badge key `priority.` followed by the stored priority |
| DashboardOverview.PriorityKeysResolve | components/dashboard-overview.tsx:271 | every `priority.${priority}` key has an entry in every language |
| DashboardOverview.TypeKeyAsWritten | components/dashboard-overview.tsx:227 | the "Top Problem Types" key as written: the lowered name with its first space removed (`WaterIssuesJoined`) |
| DashboardOverview.NoSpaceKept | components/dashboard-overview.tsx:227 | a name without a space is kept by `replace(" ", "")` |
| DashboardOverview.ShownTypeKeysResolve | components/dashboard-overview.tsx:222-227 | the two "Top Problem Types" rows shown have keys in every language |
| DashboardOverview.PotholesKey | components/dashboard-overview.tsx:227 | "Potholes" gives "problemType.potholes" |
| DashboardOverview.StreetlightsKey | components/dashboard-overview.tsx:227 | "Streetlights" gives "problemType.streetlights" |
| DashboardOverview.WaterIssuesKey | components/dashboard-overview.tsx:227 | "Water Issues" gives "problemType.waterissues" |
| DashboardOverview.WaterIssuesJoined | components/dashboard-overview.tsx:227 | the first space of "water issues" is removed |
| DashboardOverview.WaterIssuesKeyIsMissing | components/dashboard-overview.tsx:227 | the water-issues key is missing from every flat table |
| Auth.CredentialsAccepted | lib/auth.ts:22 | `email && password`: both are non-empty strings |
| Auth.NewUser | lib/auth.ts:23-29 | the user `login` builds keeps the id, email and role, takes its name from before the first '@' (`NameFromEmail`) and its organization from the role |
| Auth.LoadUser | lib/auth.ts:44-54 | the cached user wins; otherwise a non-empty stored entry is parsed and the parsed user returned, and a parse failure is the thrown error; otherwise null |
| Auth.CacheAfterLoad | lib/auth.ts:44-52 | what `currentUser` holds after `getCurrentUser`: the loaded user, or the old cache when the parse throws (`CacheWins`) |
| Auth.AuthService.Valid | lib/auth.ts:32-49 | the `JSON.stringify` the service writes is read back by `JSON.parse` as the same user |
| Auth.NameFromEmail | lib/auth.ts:26 | the name is the prefix of the email before the first "@", or the whole email |
| Auth.OrganizationFor | lib/auth.ts:28 | "Sample NGO" iff the role is ngo, "Municipal Office" iff municipal |
| Auth.LoginPersists | lib/auth.ts:31-50 | after a login the user loads back from storage alone |
| Auth.LogoutForgets | lib/auth.ts:39-53 | after logout no user is found, so `isAuthenticated` is false |
| Auth.CacheWins | lib/auth.ts:44-45 | a cached user is returned without consulting storage |
| Auth.AuthService.constructor | lib/auth.ts:15-16 | a fresh service caches nobody and sees the given storage |
| Auth.AuthService.Login | lib/auth.ts:18-37 | non-empty email and password: the new user is cached and written under "auth_user"; otherwise the error, and nothing changes |
| Auth.AuthService.Logout | lib/auth.ts:39-42 | the cache is cleared and "auth_user" removed |
| Auth.AuthService.GetCurrentUser | lib/auth.ts:44-54 | cached user, else the stored user (now cached), else null; a malformed entry throws |
| Auth.AuthService.IsAuthenticated | lib/auth.ts:56-58 | true iff `getCurrentUser` finds a user |
| UseAuth.AuthProvider.InSync | hooks/use-auth.tsx:19-37 | the provider's `user` equals the service's cached user, which mount, login and logout establish |
| UseAuth.AuthProvider.constructor | hooks/use-auth.tsx:14-17 | the initial state is no user, loading |
| UseAuth.AuthProvider.Mount | hooks/use-auth.tsx:19-22 | the user becomes `getCurrentUser()` and loading ends, in step with the service; a throwing load leaves the state |
| UseAuth.AuthProvider.BeginLogin | hooks/use-auth.tsx:25 | loading starts and the user is kept |
| UseAuth.AuthProvider.Login | hooks/use-auth.tsx:24-33 | success shows the returned user; failure shows nobody and re-raises the error; loading ends either way |
| UseAuth.AuthProvider.Logout | hooks/use-auth.tsx:35-38 | nobody is shown, loading is false, and the service agrees |
| UseAuth.ReloadAfterLogin | hooks/use-auth.tsx:19-28 | a provider mounted after a successful login, over the same storage, shows the same user |
| UseAuth.UseAuthContext | hooks/use-auth.tsx:43-49 | outside a provider the hook fails with its message; inside it returns the provider |

## Left out

- ProblemManagement.StatusDescending, ProblemManagement.ProblemManagementView.ClickSortHeader: only the Upvotes and Date headers call `handleSort` (components/problem-management.tsx:350, 356). The Status header at line 348 has no click handler, so the table never reaches the comparator's status branch (lines 181-183). `ClickSortHeader(ByStatus)` and `StatusDescending` describe that branch, not a click the page offers.
- Rendering (JSX, badges, dialogs, tabs, icons) and the recharts charts: presentation only.
- Leaflet map set-up and the marker loop (components/map-view.tsx:188-325): foreign library calls.
- `JSON.parse` and `JSON.stringify` are an abstract pair of functions. Stored text that parses to something other than a user (for example "null") is treated as a user or as an error, never as the raw value.
- Translation.StaticLanguage, LanguageContext.LanguageProvider.Mount: saved settings are `Option<SavedSettings>`, so a "municipalSettings" entry that is not valid JSON, or that parses to `null`, is not modelled. In those two cases `JSON.parse` or `parsed.language` throws (utils/translation.ts:19-20, contexts/language-context.tsx:265-266). Any other non-object (a number, a string, a boolean, an array) has no `language` property, so it behaves like saved settings without a language: "en" for the static `t`, and an unchanged state on mount. components/settings.tsx only ever writes an object there.
- Date parsing and `toISOString`: timestamps are integers and the clock is a parameter.
- `setTimeout`, `Math.random` and promise scheduling: calls run sequentially, and the user id is a parameter.
- Interleavings, such as a login that overlaps the mount effect, are not modelled.
- Strings.Lower: `toLowerCase` is modelled for ASCII letters only.
- Strings.LowerAbsorbs, ProblemManagement.SearchIgnoresCase: these hold for the ASCII case mapping only. Under Unicode case mapping, upper-casing is not undone by lowering ("ß" upper-cases to "SS", which lowers to "ss"), so an upper-cased term can stop matching a title.
- DashboardOverview.ResolutionRate: the rate is computed on exact rationals rather than doubles. The two can disagree at a half: 29 of 200 is 14.499999999999998 in doubles, so `Math.round` gives 14 where the model gives 15; the page's 189 of 247 gives 77 either way. `total` = 0 is excluded (the page would show Infinity, or NaN when both counts are 0) because the page uses the constant 247.
- LanguageContext.Tables: only the status, priority, problem-type and profile-title entries of the flat tables are reproduced. The remaining entries are not used by the modelled code.
- Property names inherited from `Object.prototype` (such as "constructor") are not modelled as table entries, for either language or key.
- The search box and the three selects of the problem list (components/problem-management.tsx:262-310): each only assigns one field of `Filters`, so the view models the state they produce rather than each setter.
- components/settings.tsx, components/login-form.tsx, components/dashboard-layout.tsx and app/: UI wiring. The saved settings enter only as the value read on mount.

## Findings

| source | as written | input that shows it | evidently intended | confidence | as-written member | corrected member |
|---|---|---|---|---|---|---|
| components/dashboard-overview.tsx:184 | the badge key is `status.${status.replace("-", "")}`, which gives "status.inprogress", but the flat tables define "status.inProgress" | a report with status "in-progress", in any of en, hi or raj | the translated label ("in progress", "प्रगति में") | high; not executed | DashboardOverview.InProgressBadgeShowsKey | DashboardOverview.StatusLabel |
