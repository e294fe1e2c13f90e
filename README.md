# Data-centre directory: a Dafny model of its list and state logic

The application is a React directory of data-centre facilities with no
backend. Behind its rendering sits a small amount of logic over finite lists
of records. This project models that logic in Dafny and proves what the
code promises about it:

- the catalogue query of the main screen (country-first ordering, the
  search and the two exact filters, the filter menus);
- the comparison dialog (a selection of at most three, best/worst
  highlighting with JavaScript's NaN rules, the "Best for" cascade);
- the analytics folds (tier and country tallies, derived series, the three
  `reduce` superlatives);
- the admin panel's record edits, including the dotted-path `updateField`
  walk that mutates shared nested objects;
- the user list and the shared `mockUsers` array it updates in place;
- the mock authentication provider and the sign-in dialog;
- the small classifiers: status and capacity colour bands, tier and status
  tables, service chips, the star row, the PUE bar and map marker placement;
- facts about the ten-record seed catalogue.

Layout: one module per source file, plus shared modules.

| file | module | what it holds |
|---|---|---|
| `wrappers.dfy` | `Wrappers` | `Option` and `Result` |
| `js_number.dfy` | `JsNumber` | numbers with NaN, `+`, `Math.max`/`Math.min`, `parseInt` |
| `js_string.dfy` | `JsString` | ASCII `toLowerCase`, `includes`, `split`/`join` on one character |
| `seqs.dfy` | `Seqs` | `filter`, `map`, `new Set` order, and lemmas about them |
| `data_center.dfy` | `DataCenterType` | the facility record |
| `seed_data.dfy` | `SeedData` | the ten shipped records |
| `app.dfy` | `App` | the catalogue screen |
| `comparison_tool.dfy` | `ComparisonTool` | the comparison dialog |
| `advanced_analytics.dfy` | `AdvancedAnalytics` | the analytics dashboard |
| `admin_panel.dfy` | `AdminPanel` | facility search, save, delete, stats, dialog state |
| `admin_edit_form.dfy` | `AdminEditForm` | `updateField` over a graph of JavaScript objects |
| `user_management.dfy` | `UserManagement` | the account list and the shared array |
| `auth_context.dfy` | `AuthContext` | `mockUsers`, login, register, logout, forgot password |
| `auth_modal.dfy` | `AuthModal` | the sign-in dialog's modes and form |
| `real_time_monitoring.dfy` | `RealTimeMonitoring` | status bands, metric thresholds, the series |
| `data_center_card.dfy` | `DataCenterCard` | tier/status colours, capacity band, chips |
| `data_center_details.dfy` | `DataCenterDetails` | tabs, stars, PUE bar |
| `data_center_map.dfy` | `DataCenterMap` | grid placement of markers |
| `seed_facts.dfy` | `SeedFilters`, `SeedFacts` | the filter shape of the seed's US group; the general lemmas applied to the seed |

Modelling choices:

- JavaScript numbers that can be NaN are `Number = NaN | Finite(real)`. `<`, `>` and `===` are false whenever NaN is involved. `+`, `Math.max` and `Math.min` return NaN as soon as any operand is NaN.
- `parseInt` skips leading white space (the ECMAScript white-space and line-terminator characters, every Unicode space separator included) and takes an optional sign, an optional `0x` prefix and the longest run of digits. It is NaN when that run is empty, so `'N/A'` and `'Hundreds of MW'` parse to NaN.
- A `reduce` without an initial value is modelled as the index it lands on. On an empty list it is `Err`, the exception JavaScript throws.
- Object literals used as counters (`acc[key] = (acc[key] || 0) + 1`) are association lists in insertion order. That is the order `Object.entries` reports for the non-numeric keys the code uses.
- React state held by a component or by the provider is a `class` whose methods are the handlers. The shared `mockUsers` array is the class `UserStore`. `AuthProvider`, `UserManagementState` and `App.AppState` all hold a reference to it, so a push through one is seen through the others. The screen's user list is that array until the admin panel installs a new one (`App.AppState.CurrentUsers`). From then on, sign-ups reach `mockUsers` but not the screen.
- The mount effect, `login`, `register` and `forgotPassword` each run as one atomic step. `Date.now()` ids and `new Date()` timestamps are parameters. `localStorage` is a map from key to user record. `confirm` is a boolean parameter.
- The detail page's tier and status colours and its capacity bar are the same tables and thresholds as the card's (src/components/DataCenterDetails.tsx:14-31 and 288-289 against src/components/DataCenterCard.tsx:11-28 and 83-85). Only the CSS strings differ, so the model uses `DataCenterCard.TierColor`, `StatusColor` and `CapacityBand` for both.

Behaviour worth knowing, as the code has it:

- The comparison table marks the LARGEST value of every numeric row as best and the smallest as worst. This includes PUE, price and latency, where smaller is better. `RowHighlightsSpec` proves the rule as written.
- A row that contains a NaN has a NaN maximum and minimum, so no cell of that row is marked. An example is a cloud region's `parseInt('N/A')` colocation price.
- On an empty catalogue the tier chart performs no division at all: with no facilities there are no entries to map over. The three `reduce` superlatives, however, throw.
- An edit saved in the user list replaces every record with that id. The shared array only has its first match replaced. The two stay equal only while ids are distinct (`SaveKeepsInSync`, `DeleteKeepsInSync`, `DuplicateIdsDrift`).
- `login` accepts either demo password for any existing email. The `lastLogin` refresh is not written back to `mockUsers`.

## Model

| member | source | states |
|---|---|---|
| App.Prioritize | src/App.tsx:36-49 | the country-first reorder; its contract is stated by PrioritizeIsPermutation and PrioritizeOrder |
| App.FilterCatalogue | src/App.tsx:51-62 | the search and exact filters; its contract is stated by FilterCatalogueSpec, FilterCatalogueIdempotent and EmptyQueryShowsAll |
| App.Locations | src/App.tsx:64 | the location menu; LocationsSpec states its contract |
| App.Tiers | src/App.tsx:65 | the tier menu; TiersSpec states its contract |
| App.UserCountryCount | src/App.tsx:84-86 | the banner count; UserCountryCountIsPrefix states its contract |
| App.PrioritizeIsPermutation | src/App.tsx:36-49 | the prioritised list is a permutation of the catalogue with the same length, whether or not a user is signed in |
| App.PrioritizeOrder | src/App.tsx:41-48 | with a user and no override the list is the home-country group followed by all others; each group is an order-preserving subsequence of the catalogue, and position i is in the user's country (compared lower-cased) iff i is below the home group's size |
| App.FilterCatalogueSpec | src/App.tsx:51-62 | a facility is shown iff it is in the prioritised list, its lower-cased name, location, city or country includes the lower-cased term, and each non-empty exact filter equals its location/tier; the result keeps the prioritised order |
| App.FilterCatalogueIdempotent | src/App.tsx:51-62 | filtering the filtered list again with the same inputs returns it unchanged |
| App.EmptyQueryShowsAll | src/App.tsx:53-58 | an empty search term and empty filters show every facility, in order |
| App.LocationsSpec | src/App.tsx:64 | the location menu has no duplicates, holds exactly the locations of the listed facilities, and lists them in order of first occurrence |
| App.TiersSpec | src/App.tsx:65 | the tier menu has no duplicates, holds exactly the tiers of the listed facilities, and lists them in order of first occurrence |
| App.UserCountryCountIsPrefix | src/App.tsx:84-86 | the banner's count k is the length of the run of home-country facilities at the head of the prioritised list: the first k are in the user's country and none after |
| App.AppState.constructor | src/App.tsx:22-33 | the screen opens on the given catalogue with an empty query, prioritisation on and both dialogs closed, and its user list is the `mockUsers` array itself |
| App.AppState.HandleAuthClick | src/App.tsx:67-73 | an admin gets the admin panel, anyone else the sign-in dialog; afterwards the admin panel renders iff the user is an admin; the catalogue, query, override and user list are untouched |
| App.AppState.ResetFilters | src/App.tsx:200-203 | the reset clears both exact filters and keeps the search term, the catalogue, the override, both dialogs and the user list |
| App.AppState.ShowAll | src/App.tsx:230 | "Show All" drops the prioritisation: the visible list is the query applied to the catalogue as stored; query, catalogue, dialogs and user list are kept |
| App.AppState.SetSearchTerm | src/App.tsx:24 | typing changes the search term and nothing else of the screen |
| App.AppState.SetLocation | src/App.tsx:198 | choosing a location changes that filter and nothing else of the screen |
| App.AppState.SetTier | src/App.tsx:199 | choosing a tier changes that filter and nothing else of the screen |
| App.AppState.UpdateDataCenters | src/App.tsx:75-77 | the admin panel's new list replaces the catalogue; query, override, dialogs and user list are kept |
| App.AppState.UpdateUsers | src/App.tsx:79-81 | the admin panel's new array replaces the user list, which no longer follows `mockUsers`; catalogue, query, override and dialogs are kept |
| App.AppState.CloseAdminPanel | src/App.tsx:96 | closing hides the admin panel and keeps the catalogue, query, override, sign-in dialog and user list |
| App.AppState.CurrentUsers | src/App.tsx:23 | the user list: the `mockUsers` array until `onUpdateUsers` installs a new one |
| App.RegisterWhileShared | src/App.tsx:23 | while the screen still holds `mockUsers`, a successful sign-up (src/contexts/AuthContext.tsx:127) appends the new account to the screen's user list, and a refused one leaves it as it was |
| App.RegisterAfterUpdate | src/App.tsx:79-81 | once `onUpdateUsers` has replaced the array, a sign-up lands in `mockUsers` only and the screen's user list is unchanged |
| ComparisonTool.WithAdded | src/components/ComparisonTool.tsx:13-17 | `addDataCenter`; AddSpec and RemoveUndoesAdd state its contract |
| ComparisonTool.WithRemoved | src/components/ComparisonTool.tsx:19-21 | `removeDataCenter`; RemoveSpec and RemoveUndoesAdd state its contract |
| ComparisonTool.AddOptions | src/components/ComparisonTool.tsx:133-135 | the "Add another..." options; AddOptionsSpec states its contract |
| ComparisonTool.Pick | src/components/ComparisonTool.tsx:125-129 | the picker's handler; PickOfferedAdds states its contract |
| ComparisonTool.AddSpec | src/components/ComparisonTool.tsx:13-17 | adding keeps the selection at most three with distinct ids; the facility's id is selected afterwards iff it was already or there was room; the selection is either unchanged or gains the facility at its end |
| ComparisonTool.RemoveSpec | src/components/ComparisonTool.tsx:19-21 | removing keeps the selection valid, leaves no entry with that id, keeps exactly the entries with other ids, in order |
| ComparisonTool.RemoveUndoesAdd | src/components/ComparisonTool.tsx:13-21 | removing a facility just added to a selection with room restores the selection |
| ComparisonTool.AddOptionsSpec | src/components/ComparisonTool.tsx:134-135 | "Add another..." offers exactly the catalogue's facilities whose id is not selected, in catalogue order |
| ComparisonTool.PickOfferedAdds | src/components/ComparisonTool.tsx:123-137 | with distinct catalogue ids, picking any offered option while the picker is shown appends that facility |
| ComparisonTool.InitialChoices | src/components/ComparisonTool.tsx:89 | the empty dialog offers the first min(6, n) facilities in order |
| ComparisonTool.NumericFlag | src/components/ComparisonTool.tsx:41-45 | one numeric cell's best/worst flags; RowFlagsSpec states its contract |
| ComparisonTool.RowFlags | src/components/ComparisonTool.tsx:23-45 | the flags of a numeric row; RowFlagsSpec, NeverBestAndWorst and SingleIsBest state its contract |
| ComparisonTool.RowFlagsSpec | src/components/ComparisonTool.tsx:41-45 | in a numeric row of at most three values a cell is best iff no value exceeds it, worst iff no value is below it and the row is not all equal; any NaN in the row marks no cell |
| ComparisonTool.NeverBestAndWorst | src/components/ComparisonTool.tsx:44-45 | no cell is marked both best and worst |
| ComparisonTool.SingleIsBest | src/components/ComparisonTool.tsx:44-45 | with one facility selected each of its numeric cells is best and not worst |
| ComparisonTool.RowValue | src/components/ComparisonTool.tsx:160-175 | a cell holds text exactly on the text rows (tier, space, power, bandwidth) and a number on every other row |
| ComparisonTool.RowNumbers | src/components/ComparisonTool.tsx:34 | a numeric row has one number per selected facility, in selection order |
| ComparisonTool.RowHighlights | src/components/ComparisonTool.tsx:40-45 | one flag per selected facility; a text row marks nothing |
| ComparisonTool.RowHighlightsSpec | src/components/ComparisonTool.tsx:160-175 | in every numeric row, PUE, price and latency included, a facility is starred iff its value is the row's largest, and marked worst iff it is the smallest of a row that is not all equal |
| ComparisonTool.BestForLabel | src/components/ComparisonTool.tsx:191-193 | the "Best for" label; BestForSpec states its contract |
| ComparisonTool.TotalScore | src/components/ComparisonTool.tsx:199-202 | the unrounded Total Score; TotalScoreAtMost100 bounds it |
| ComparisonTool.BestForSpec | src/components/ComparisonTool.tsx:191-193 | "Best for" is Efficiency iff PUE < 1.3, Reliability iff PUE ≥ 1.3 and rating > 4.7, Value iff both fail and the parsed price is a number below 400, Performance otherwise; an unparseable price is never Value |
| ComparisonTool.TotalScoreAtMost100 | src/components/ComparisonTool.tsx:199-202 | the unrounded Total Score is at most 100 for a rating ≤ 5, uptime ≤ 100, PUE ≥ 1 and used capacity ≥ 0 |
| ComparisonTool.Comparison.constructor | src/components/ComparisonTool.tsx:11 | the dialog opens with nothing selected |
| ComparisonTool.Comparison.Add | src/components/ComparisonTool.tsx:13-17 | the selection becomes the added-to selection and stays valid |
| ComparisonTool.Comparison.Remove | src/components/ComparisonTool.tsx:19-21 | the selection becomes the removed-from selection, stays valid and holds no entry with that id |
| AdvancedAnalytics.Bump | src/components/AdvancedAnalytics.tsx:13 | one `acc[key] = (acc[key] \|\| 0) + 1` step; BumpSpec states its contract |
| AdvancedAnalytics.Tally | src/components/AdvancedAnalytics.tsx:12-15 | the counting `reduce`; TallySpec states its contract |
| AdvancedAnalytics.TierCounts | src/components/AdvancedAnalytics.tsx:12-15 | `tierData`; TierCountsSpec and TierCountsTotal state its contract |
| AdvancedAnalytics.RegionCounts | src/components/AdvancedAnalytics.tsx:24-27 | `regionData`; RegionCountsSpec states its contract |
| AdvancedAnalytics.TierChartData | src/components/AdvancedAnalytics.tsx:17-21 | `tierChartData` before `toFixed`; TierPercentagesSum states its contract |
| AdvancedAnalytics.FirstWord | src/components/AdvancedAnalytics.tsx:36 | `name.split(' ')[0]`; FirstWordSpec states its contract |
| AdvancedAnalytics.BumpSpec | src/components/AdvancedAnalytics.tsx:13 | one increment adds the key at the end if new, adds one to its count and to the total, and leaves every other count alone |
| AdvancedAnalytics.TallySpec | src/components/AdvancedAnalytics.tsx:12-15 | the counter's keys are the distinct inputs in first-occurrence order, each count is the key's multiplicity, and the counts sum to the input length |
| AdvancedAnalytics.CountsByField | src/components/AdvancedAnalytics.tsx:12-27 | counting facilities by a field yields one key per value present, each counting the facilities with that value, summing to the number of facilities |
| AdvancedAnalytics.TierCountsSpec | src/components/AdvancedAnalytics.tsx:12-15 | one tier entry per tier present, each counting the facilities of that tier, summing to the number of facilities |
| AdvancedAnalytics.TierCountsTotal | src/components/AdvancedAnalytics.tsx:12-15 | the tier counts sum to the number of facilities |
| AdvancedAnalytics.RegionCountsSpec | src/components/AdvancedAnalytics.tsx:24-32 | one country entry per exact country string present, each counting its facilities, summing to the number of facilities |
| AdvancedAnalytics.SlicesSum | src/components/AdvancedAnalytics.tsx:17-21 | the slice percentages add up to the counted total over the divisor, times 100 |
| AdvancedAnalytics.TierPercentagesSum | src/components/AdvancedAnalytics.tsx:17-21 | for a non-empty catalogue the tier chart's unrounded percentages add up to exactly 100 |
| AdvancedAnalytics.FirstWordSpec | src/components/AdvancedAnalytics.tsx:36 | a chart label is the facility name up to its first space: a space-free prefix followed by the end or a space |
| AdvancedAnalytics.CapacityData | src/components/AdvancedAnalytics.tsx:35-40 | one capacity point per facility |
| AdvancedAnalytics.CapacityDataSpec | src/components/AdvancedAnalytics.tsx:35-40 | each facility's used and available bars add up to 100, its label is its first word, and a power figure that starts with a letter ("Hundreds of MW") draws a NaN bar |
| AdvancedAnalytics.CapacityPowerOfNumeral | src/components/AdvancedAnalytics.tsx:39 | a power figure written as a numeral and a unit ("25 MW") draws a bar of that numeral |
| AdvancedAnalytics.SustainabilityData | src/components/AdvancedAnalytics.tsx:43-48 | one scatter point per facility; SustainabilityDataSpec states what the points mean |
| AdvancedAnalytics.SustainabilityDataSpec | src/components/AdvancedAnalytics.tsx:43-48 | each point is labelled by its facility's first word; for a non-empty catalogue no point has a lower PUE than the "Most Efficient" facility or a higher rating than the "Highest Rated" one (lines 226-235) |
| AdvancedAnalytics.PricingData | src/components/AdvancedAnalytics.tsx:51-56 | one price point per facility |
| AdvancedAnalytics.PricingNotQuoted | src/components/AdvancedAnalytics.tsx:53 | a price quoted as "N/A" becomes a NaN bar |
| AdvancedAnalytics.Average | src/components/AdvancedAnalytics.tsx:60-66 | an average is NaN (0 / 0) exactly for the empty list |
| AdvancedAnalytics.SumRealBounds | src/components/AdvancedAnalytics.tsx:61 | a sum of values within [lo, hi] lies within [n·lo, n·hi] |
| AdvancedAnalytics.AverageBounds | src/components/AdvancedAnalytics.tsx:60-66 | the average of a non-empty list lies within any bounds of its values |
| AdvancedAnalytics.Field | src/components/AdvancedAnalytics.tsx:61 | one metric column; AveragesSpec and AverageBounds state what its average means |
| AdvancedAnalytics.Averages | src/components/AdvancedAnalytics.tsx:60-66 | `averageMetrics` before `toFixed`; AveragesSpec states its contract |
| AdvancedAnalytics.AveragesSpec | src/components/AdvancedAnalytics.tsx:60-66 | with no facilities every average is NaN, with some every average is a number, and with ratings in [0, 5] the average rating is too |
| AdvancedAnalytics.ReduceMinIndex | src/components/AdvancedAnalytics.tsx:226 | the strict-`<` reduce without an initial value; ReduceMinSpec and ReduceMinStuckOnNaN state its contract |
| AdvancedAnalytics.ReduceMaxIndex | src/components/AdvancedAnalytics.tsx:234 | the strict-`>` reduce without an initial value; ReduceMaxSpec states its contract |
| AdvancedAnalytics.ReduceMinSpec | src/components/AdvancedAnalytics.tsx:226 | from a number first element the min-reduce lands on a number that is at most every number in the list and strictly below every number before it, i.e. the first of the smallest; NaN elements are passed over |
| AdvancedAnalytics.ReduceMaxSpec | src/components/AdvancedAnalytics.tsx:234 | from a number first element the max-reduce lands on the first of the largest numbers |
| AdvancedAnalytics.ReduceMinStuckOnNaN | src/components/AdvancedAnalytics.tsx:242 | a NaN first element is never displaced by the min-reduce |
| AdvancedAnalytics.ReduceMinShown | src/components/AdvancedAnalytics.tsx:242-243 | with no NaN in the list, `Math.min` over it is the element the min-reduce picks |
| AdvancedAnalytics.MostEfficient | src/components/AdvancedAnalytics.tsx:226-227 | "Most Efficient"; MostEfficientSpec states its contract |
| AdvancedAnalytics.HighestRated | src/components/AdvancedAnalytics.tsx:234-235 | "Highest Rated"; HighestRatedSpec states its contract |
| AdvancedAnalytics.BestValue | src/components/AdvancedAnalytics.tsx:242-243 | "Best Value"; BestValueSpec states its contract |
| AdvancedAnalytics.MostEfficientSpec | src/components/AdvancedAnalytics.tsx:226-227 | "Most Efficient" throws iff the list is empty; otherwise it names a listed facility whose PUE is the shown minimum and is strictly below every earlier facility's |
| AdvancedAnalytics.HighestRatedSpec | src/components/AdvancedAnalytics.tsx:234-235 | "Highest Rated" throws iff the list is empty; otherwise it names a listed facility whose rating is the shown maximum and strictly above every earlier facility's |
| AdvancedAnalytics.BestValueSpec | src/components/AdvancedAnalytics.tsx:242-243 | "Best Value" throws iff empty; from a parseable first price it names the first facility whose price is at most every parseable price and strictly below every earlier one, and with no NaN price the figure beside it is that price; from an unparseable first price it names the first facility; the figure is NaN iff some price is unparseable |
| AdminPanel.AdminSearch | src/components/AdminPanel.tsx:47-50 | `filteredDataCenters`; AdminSearchSpec states its contract |
| AdminPanel.ReplaceById | src/components/AdminPanel.tsx:140 | the edit branch of the save; ReplaceByIdSpec and ReplaceByIdIdempotent state its contract |
| AdminPanel.SaveDataCenter | src/components/AdminPanel.tsx:135-143 | `handleSaveDataCenter`: append when creating, replace by id otherwise; CreateDoesNotCheckIds and ReplaceByIdSpec state its two branches |
| AdminPanel.DeleteById | src/components/AdminPanel.tsx:145-149 | `handleDeleteDataCenter`; DeleteByIdSpec states its contract |
| AdminPanel.AvailableCount | src/components/AdminPanel.tsx:154 | `stats.availableCapacity`; AvailableCountSpec and AppendAvailable state its contract |
| AdminPanel.TotalPower | src/components/AdminPanel.tsx:155 | `stats.totalPower`; TotalPowerSpec and AppendPower state its contract |
| AdminPanel.NewDataCenterTemplate | src/components/AdminPanel.tsx:52-133 | the "Add Data Center" template; TemplateParses and TemplateStats state what it adds |
| AdminPanel.AdminSearchSpec | src/components/AdminPanel.tsx:47-50 | the admin search keeps exactly the facilities whose lower-cased name or location includes the lower-cased term, in order |
| AdminPanel.ReplaceByIdSpec | src/components/AdminPanel.tsx:140 | saving an edit keeps length and order, puts the saved record at every position with its id, and leaves every other record as it was; an absent id leaves the list unchanged |
| AdminPanel.ReplaceByIdIdempotent | src/components/AdminPanel.tsx:140 | saving the same record twice equals saving it once |
| AdminPanel.CreateDoesNotCheckIds | src/components/AdminPanel.tsx:136-138 | creating a record whose id is present leaves two records with that id |
| AdminPanel.DeleteByIdSpec | src/components/AdminPanel.tsx:145-149 | an unconfirmed delete changes nothing; a confirmed one removes exactly the records with that id, keeps the others in order, and keeps ids distinct |
| AdminPanel.AvailableCountSpec | src/components/AdminPanel.tsx:154 | the available count is the number of records whose status is Available |
| AdminPanel.Powers | src/components/AdminPanel.tsx:155 | the parsed power figures; TotalPowerSpec states what their sum means |
| AdminPanel.TotalPowerSpec | src/components/AdminPanel.tsx:155 | the total power is NaN iff some power figure has no leading integer, and is the running sum of the parsed figures |
| AdminPanel.ParseFigure | src/components/AdminPanel.tsx:155 | a figure written as a numeral and a non-alphanumeric unit parses to the numeral |
| AdminPanel.TemplateNumerals | src/components/AdminPanel.tsx:67 | the template's "20 MW" and "400" are the numerals 20 and 400 with their units |
| AdminPanel.TemplateParses | src/components/AdminPanel.tsx:52-133 | the new-facility template's power parses to 20 and its colocation price to 400 |
| AdminPanel.AppendPower | src/components/AdminPanel.tsx:155 | appending a record adds its parsed power to the total |
| AdminPanel.AppendAvailable | src/components/AdminPanel.tsx:154 | appending a record adds one to the available count iff its status is Available |
| AdminPanel.TemplateStats | src/components/AdminPanel.tsx:151-157 | creating the template unchanged adds 20 to the total power and one to the available count |
| AdminPanel.AdminPanelState.constructor | src/components/AdminPanel.tsx:42-43 | the panel opens with no record in the dialog and not creating |
| AdminPanel.AdminPanelState.StartCreate | src/components/AdminPanel.tsx:52-133 | "Add Data Center" opens the template and sets creating |
| AdminPanel.AdminPanelState.StartEdit | src/components/AdminPanel.tsx:427 | the edit button opens that record and leaves creating as it was |
| AdminPanel.AdminPanelState.Save | src/components/AdminPanel.tsx:135-143 | the saved list is the append (creating) or the replace-by-id (editing): one longer with the record last, or the same length; the dialog closes and creating is cleared |
| AdminPanel.AdminPanelState.Cancel | src/components/AdminPanel.tsx:536-539 | cancel closes the dialog and clears creating |
| AdminEditForm.Walk | src/components/AdminPanel.tsx:571-576 | the object `current` reaches after n steps of the path, or a throw; UpdateField and WalkStaysThrown state its contract |
| AdminEditForm.ShallowCopy | src/components/AdminPanel.tsx:570 | the copy is a new object with the same properties |
| AdminEditForm.UpdateField | src/components/AdminPanel.tsx:568-579 | a one-segment path sets that property on a fresh copy and changes no existing object; a longer path leaves the copy's own properties alone, throws iff the walk does not reach an object, and otherwise sets the last key on the object it reaches, which is the nested object still shared with the listed record; no other object changes |
| AdminEditForm.WalkStaysThrown | src/components/AdminPanel.tsx:573-575 | once a step of the walk reads through undefined, every longer walk has thrown too |
| AdminEditForm.EditNestedField | src/components/AdminPanel.tsx:568-579 | editing "outer.inner" changes the nested object the listed record already holds, so the list's record sees the new value before any save |
| AdminEditForm.EditTopLevelField | src/components/AdminPanel.tsx:568-579 | editing a top-level field changes only the copy; the listed record is untouched |
| UserManagement.UserSearch | src/components/UserManagement.tsx:17-21 | `filteredUsers`; UserSearchSpec states its contract |
| UserManagement.ReplaceAllById | src/components/UserManagement.tsx:43 | the list's `map` on save; SaveKeepsInSync and DuplicateIdsDrift state its contract |
| UserManagement.ReplaceFirstById | src/components/UserManagement.tsx:44-47 | the array's `findIndex` and assignment; SaveKeepsInSync and DuplicateIdsDrift state its contract |
| UserManagement.RemoveAllById | src/components/UserManagement.tsx:54 | the list's `filter` on delete; RemoveAllWithoutMatch, RemoveAllKeepsUniqueIds and DeleteKeepsInSync state its contract |
| UserManagement.RemoveFirstById | src/components/UserManagement.tsx:55-58 | the array's `findIndex` and `splice`; DeleteKeepsInSync and RemoveAllIsRemoveFirst state its contract |
| UserManagement.UserSearchSpec | src/components/UserManagement.tsx:17-21 | the user search keeps exactly the users whose lower-cased name, email or location includes the lower-cased term, in order |
| UserManagement.NewUserTemplate | src/components/UserManagement.tsx:23-35 | a new account has role user, empty email, name, location and country, the given id and creation time, and no last login |
| UserManagement.FindIndexById | src/components/UserManagement.tsx:44 | the index found is the first with that id, or -1 iff there is none |
| UserManagement.SaveKeepsInSync | src/components/UserManagement.tsx:43-47 | with distinct ids, replacing every match in the list equals assigning the first match in the shared array, and ids stay distinct |
| UserManagement.RemoveAllWithoutMatch | src/components/UserManagement.tsx:54 | filtering out an absent id changes nothing |
| UserManagement.RemoveAllKeepsUniqueIds | src/components/UserManagement.tsx:54 | filtering out an id keeps ids distinct |
| UserManagement.DeleteKeepsInSync | src/components/UserManagement.tsx:52-59 | with distinct ids, filtering out every match equals splicing out the first match, and ids stay distinct |
| UserManagement.RemoveAllIsRemoveFirst | src/components/UserManagement.tsx:54-57 | with distinct ids, filtering out every match equals splicing out the first |
| UserManagement.DuplicateIdsDrift | src/components/UserManagement.tsx:43-47 | with two users sharing the saved id, the list gets both replaced and the shared array only the first |
| UserManagement.UserManagementState.constructor | src/components/UserManagement.tsx:13-14 | the dialog starts closed and not creating, over the shared array |
| UserManagement.UserManagementState.StartCreate | src/components/UserManagement.tsx:23-35 | "Add User" opens the blank account and sets creating |
| UserManagement.UserManagementState.StartEdit | src/components/UserManagement.tsx:167 | the edit button opens that account and leaves creating as it was |
| UserManagement.UserManagementState.Save | src/components/UserManagement.tsx:37-50 | creating appends to both the list and the shared array; editing replaces every match in the list and only the first match in the shared array, which is untouched when the id is absent; the dialog closes |
| UserManagement.UserManagementState.Delete | src/components/UserManagement.tsx:52-60 | a confirmed delete filters every match from the list and splices the first match from the shared array; an unconfirmed one changes neither |
| UserManagement.UserManagementState.Cancel | src/components/UserManagement.tsx:194-195 | cancel closes the dialog and clears creating |
| UserManagement.SaveEditInSync | src/components/UserManagement.tsx:37-50 | from a list equal to the shared array with distinct ids, an edit leaves the two equal, with distinct ids |
| UserManagement.DeleteInSync | src/components/UserManagement.tsx:52-60 | from a list equal to the shared array with distinct ids, a confirmed delete leaves the two equal, with distinct ids |
| AuthContext.EmailTaken | src/contexts/AuthContext.tsx:109 | some account has exactly this email; FindByEmail states its contract |
| AuthContext.LoginAccepted | src/contexts/AuthContext.tsx:81-82 | the login test; AuthProvider.Login states its contract |
| AuthContext.NewAccount | src/contexts/AuthContext.tsx:116-125 | the account `register` creates; AuthProvider.Register states its contract |
| AuthContext.FindByEmail | src/contexts/AuthContext.tsx:81 | an account is found iff some account has exactly that email, and it is a listed account with that email |
| AuthContext.FindByEmailIsFirst | src/contexts/AuthContext.tsx:81 | the account found is the first with that email |
| AuthContext.UserStore.constructor | src/contexts/AuthContext.tsx:35-56 | the shared array starts with the given accounts |
| AuthContext.UserStore.Push | src/contexts/AuthContext.tsx:127 | `push` appends exactly one account |
| AuthContext.UserStore.SetAt | src/components/UserManagement.tsx:46 | index assignment replaces exactly that position |
| AuthContext.UserStore.SpliceOut | src/components/UserManagement.tsx:57 | `splice(i, 1)` removes exactly that position |
| AuthContext.AuthProvider.constructor | src/contexts/AuthContext.tsx:59-61 | the provider starts with no user, loading, no error |
| AuthContext.AuthProvider.RestoreSession | src/contexts/AuthContext.tsx:63-70 | a stored session becomes the user; loading stops either way |
| AuthContext.AuthProvider.Login | src/contexts/AuthContext.tsx:72-98 | succeeds iff some account has exactly this email and the password is one of the two demo passwords; on success the user is the first such account with a fresh last login and is stored; on failure the user and storage are unchanged and the error is "Invalid email or password"; the accounts never change; loading ends |
| AuthContext.AuthProvider.Register | src/contexts/AuthContext.tsx:100-137 | succeeds iff the email is unused; on success exactly one account with role user and the given fields is appended, becomes the user and is stored; otherwise accounts and user are unchanged and the error is "User already exists"; loading ends |
| AuthContext.AuthProvider.Logout | src/contexts/AuthContext.tsx:139-142 | the user becomes none and the stored session key is removed |
| AuthContext.AuthProvider.ForgotPassword | src/contexts/AuthContext.tsx:144-167 | returns true iff the email belongs to an account, otherwise the error is "Email not found"; user, storage and accounts are unchanged; loading ends |
| AuthModal.VisibleFields | src/components/AuthModal.tsx:70-144 | the inputs each mode renders; RequestCarriesVisibleFields states what they mean |
| AuthModal.SubmitRequest | src/components/AuthModal.tsx:29-35 | what `handleSubmit` passes to the provider in each mode; RequestCarriesVisibleFields states its contract |
| AuthModal.RequestCarriesVisibleFields | src/components/AuthModal.tsx:26-46 | two forms give the same provider request iff they agree on every field the mode shows: a hidden field is never sent and every shown field is |
| AuthModal.LinkShown | src/components/AuthModal.tsx:217-256 | the mode-switch links each mode shows; AuthDialog.FollowLink states their effect |
| AuthModal.WithField | src/components/AuthModal.tsx:80-176 | an input's handler sets its own field to the typed value and leaves every other field as it was |
| AuthModal.AuthDialog.constructor | src/components/AuthModal.tsx:12-21 | the dialog opens in the given mode, login by default, with an empty form |
| AuthModal.AuthDialog.Input | src/components/AuthModal.tsx:102 | typing changes that one field; mode and closing are untouched |
| AuthModal.AuthDialog.FollowLink | src/components/AuthModal.tsx:217-256 | every mode-switch link sets its mode and clears the form |
| AuthModal.AuthDialog.HandleSubmit | src/components/AuthModal.tsx:26-46 | success is the login, register or forgot-password outcome for the mode at submit time; a successful login signs in the first account with that email with a fresh last login, a successful register appends the account built from the form and signs it in, both storing it; a successful login or register closes the dialog and clears the form, a successful forgot switches to login without closing; a failure changes neither mode, form, user, storage nor accounts; loading ends |
| RealTimeMonitoring.StatusBand | src/components/RealTimeMonitoring.tsx:23-27 | `getStatusColor`; StatusBandSpec and StatusBandMonotone state its contract |
| RealTimeMonitoring.MetricBand | src/components/RealTimeMonitoring.tsx:29-75 | each metric card's band; MetricBandSpec states its contract |
| RealTimeMonitoring.HistoricalData | src/components/RealTimeMonitoring.tsx:12-17 | `generateHistoricalData`; HistoricalDataSpec states its contract |
| RealTimeMonitoring.StatusBandSpec | src/components/RealTimeMonitoring.tsx:23-27 | green iff value ≤ good, yellow iff good < value ≤ warning, red otherwise; both boundaries are inclusive |
| RealTimeMonitoring.StatusBandMonotone | src/components/RealTimeMonitoring.tsx:23-27 | with good ≤ warning a larger value never gets a better band |
| RealTimeMonitoring.MetricBandSpec | src/components/RealTimeMonitoring.tsx:29-75 | the thresholds are temperature 23/25, humidity 50/60, power 20/30, latency 3/5, PUE 1.3/1.5, each ordered; uptime is green whatever its value |
| RealTimeMonitoring.HistoricalDataSpec | src/components/RealTimeMonitoring.tsx:12-17 | a series has 24 points labelled "0:00" to "23:00" in order, each within half the spread of the base value for draws in [0, 1) |
| RealTimeMonitoring.HourLabelsDistinct | src/components/RealTimeMonitoring.tsx:14 | different hours get different labels |
| RealTimeMonitoring.SeriesCards | src/components/RealTimeMonitoring.tsx:19-21 | exactly temperature, power and latency carry a series |
| DataCenterType.StatusName | src/types/DataCenter.ts:27 | a status is stored as "Available", "Limited" or "Full" |
| DataCenterType.StatusNameInjective | src/types/DataCenter.ts:27 | different statuses are stored as different strings |
| DataCenterType.FilterKeepsUniqueIds | src/components/AdminPanel.tsx:147 | filtering a list with distinct ids keeps them distinct |
| DataCenterCard.TierColor | src/components/DataCenterCard.tsx:11-19 | `getTierColor`; TierColorSpec states its contract |
| DataCenterCard.StatusColor | src/components/DataCenterCard.tsx:21-28 | `getStatusColor`; StatusColorSpec states its contract |
| DataCenterCard.CapacityBand | src/components/DataCenterCard.tsx:83-85 | the capacity bar colour; CapacityBandSpec states its contract |
| DataCenterCard.ShownServices | src/components/DataCenterCard.tsx:92-96 | the service chips; ChipsSpec states its contract |
| DataCenterCard.MoreBadge | src/components/DataCenterCard.tsx:97-101 | the "+k more" badge; ChipsSpec states its contract |
| DataCenterCard.TierColorSpec | src/components/DataCenterCard.tsx:11-19 | a tier is grey iff it is not one of the four tier strings, and the four get four different colours |
| DataCenterCard.StatusColorSpec | src/components/DataCenterCard.tsx:21-28 | each status has a non-grey colour of its own; any other string is grey |
| DataCenterCard.CapacityBandSpec | src/components/DataCenterCard.tsx:83-85 | the bar is red iff used > 80, yellow iff 60 < used ≤ 80, green iff used ≤ 60 |
| DataCenterCard.ChipsSpec | src/components/DataCenterCard.tsx:92-101 | the chips are the first min(3, n) services in order; the "+k more" badge appears iff n > 3, and chips plus k make n |
| DataCenterCard.CarrierCount | src/components/DataCenterCard.tsx:71 | the carriers line reads 0 exactly when no carrier is listed |
| DataCenterDetails.ShownPanel | src/components/DataCenterDetails.tsx:156-158 | the panel each tab shows; ShownPanelSpec states its contract |
| DataCenterDetails.PueBarWidth | src/components/DataCenterDetails.tsx:177 | the PUE bar width; PueBarWidthSpec states its contract |
| DataCenterDetails.ShownPanelSpec | src/components/DataCenterDetails.tsx:156-158 | each tab shows its own panel and the page opens on the overview |
| DataCenterDetails.Stars | src/components/DataCenterDetails.tsx:446 | the star row has five stars |
| DataCenterDetails.CountLitPrefix | src/components/DataCenterDetails.tsx:450 | a row whose star i is lit iff i < k lights k stars, clamped to the row |
| DataCenterDetails.StarsSpec | src/components/DataCenterDetails.tsx:446-451 | the lit stars come first and number floor(rating) clamped to 0..5 |
| DataCenterDetails.PueBarWidthSpec | src/components/DataCenterDetails.tsx:177 | the PUE bar is never negative, is empty iff PUE ≥ 2, exceeds 100% iff PUE < 1, and shrinks as PUE grows |
| DataCenterMap.CeilSqrt | src/components/DataCenterMap.tsx:13 | the column count is the least c with c·c ≥ total |
| DataCenterMap.CeilDiv | src/components/DataCenterMap.tsx:18 | the row count is the least q with q·cols ≥ total |
| DataCenterMap.GridCell | src/components/DataCenterMap.tsx:13-15 | a marker's row and column; GridCellSpec and GridCellInjective state its contract |
| DataCenterMap.MarkerPosition | src/components/DataCenterMap.tsx:17-20 | a marker's top and left percentages; MarkerPositionBounds and MarkerPositionInjective state its contract |
| DataCenterMap.GridCellSpec | src/components/DataCenterMap.tsx:13-15 | a marker's column is below the column count, row·cols + col is its index, and its row is below the row count |
| DataCenterMap.GridCellInjective | src/components/DataCenterMap.tsx:14-15 | different indices get different cells |
| DataCenterMap.MarkerPositionBounds | src/components/DataCenterMap.tsx:17-20 | top lies in [20, 80) and left in [10, 90) percent |
| DataCenterMap.MarkerPositionInjective | src/components/DataCenterMap.tsx:12-21 | different facilities get different positions |
| DataCenterMap.Markers | src/components/DataCenterMap.tsx:46-47 | the markers the map draws; MarkersSpec states its contract |
| DataCenterMap.MarkersSpec | src/components/DataCenterMap.tsx:12-47 | one marker per facility in list order, each inside the drawing area, no two at the same spot |
| JsNumber.Add | src/components/AdminPanel.tsx:155 | a sum is NaN iff an operand is |
| JsNumber.MathMax | src/components/ComparisonTool.tsx:26 | `Math.max` is NaN iff some argument is; otherwise it is an argument and no argument exceeds it |
| JsNumber.MathMin | src/components/ComparisonTool.tsx:27 | `Math.min` is NaN iff some argument is; otherwise it is an argument and no argument is below it |
| JsNumber.Sum | src/components/AdminPanel.tsx:155 | a `reduce` sum from 0 is NaN iff some element is |
| JsNumber.ParseInt | src/components/AdvancedAnalytics.tsx:39 | `parseInt(s)` in base 10 or with a `0x` prefix; ParseIntOfNumeral and ParseIntNoDigits state its contract |
| JsNumber.ParseIntOfNumeral | src/components/AdvancedAnalytics.tsx:39 | `parseInt` of a decimal numeral followed by anything that is not a letter or digit is that numeral |
| JsNumber.ParseIntNoDigits | src/components/AdvancedAnalytics.tsx:53 | a string starting with anything but white space, a sign or a digit parses to NaN |
| JsNumber.ParseIntSkipsWhiteSpace | src/components/AdvancedAnalytics.tsx:39 | any run of leading white space, U+3000 and the other Unicode space separators included, leaves the parsed value unchanged |
| JsString.ToLower | src/App.tsx:53-56 | lower-casing keeps the length, leaves no upper-case letter and keeps every other character |
| JsString.ToLowerIdempotent | src/App.tsx:42 | lower-casing twice is lower-casing once |
| JsString.IncludesEmpty | src/App.tsx:53 | every string includes the empty search term |
| JsString.Split | src/components/AdminPanel.tsx:569 | a split yields at least one piece and no piece holds the separator |
| JsString.SplitJoin | src/components/AdminPanel.tsx:569 | joining the pieces of a split with the separator gives back the path |
| JsString.SplitWithoutSeparator | src/components/AdminPanel.tsx:569 | a path without a dot is one key |
| JsString.SplitAtSeparator | src/components/AdminPanel.tsx:569 | two dot-free keys joined by a dot split into those two keys |
| SeedFacts.SeedIdsUnique | src/data/dataCenters.ts:5-798 | the ten shipped ids are pairwise distinct |
| SeedFacts.SeedRanges | src/data/dataCenters.ts:25-874 | every shipped used capacity lies in [0, 100] and every rating and sub-rating is at most 5 |
| SeedFacts.SeedTierList | src/data/dataCenters.ts:11-804 | the shipped tiers in catalogue order |
| SeedFacts.SeedTierCounts | src/data/dataCenters.ts:11-804 | the catalogue has four Tier 3, five Tier 4 and one Tier 2 facility |
| SeedFacts.SeedScoresAtMost100 | src/components/ComparisonTool.tsx:199-202 | every shipped facility's Total Score is at most 100 |
| SeedFacts.SeedMostEfficient | src/components/AdvancedAnalytics.tsx:226 | "Most Efficient" over the seed is id 8, the first of the two facilities at PUE 1.1 |
| SeedFacts.SeedHighestRated | src/components/AdvancedAnalytics.tsx:234 | "Highest Rated" over the seed is id 2, the first of the two facilities rated 4.9 |
| SeedFacts.SeedTotalPowerNaN | src/components/AdminPanel.tsx:155 | the seed's total power is NaN because the cloud regions quote "Hundreds of MW" |
| SeedFacts.SeedCloudPricesNotQuoted | src/data/dataCenters.ts:687-861 | the colocation bars of ids 8, 9 and 10 are NaN |
| SeedFacts.SeedUsaMembers | src/data/dataCenters.ts:9-802 | exactly ids 1, 8 and 10 are in the USA, compared lower-cased |
| SeedFacts.SeedUsaFirst | src/App.tsx:41-48 | a signed-in US user sees ids 1, 8 and 10 first, in that order |
| SeedFacts.SeedAccounts | src/contexts/AuthContext.tsx:35-56 | the two seeded accounts: the demo credentials shown at src/components/AuthModal.tsx:200-201 are accepted and find the admin (id 1) and the Malaysian user respectively, and exactly those two emails are taken |
| SeedFacts.SeedMinPriceNaN | src/components/AdvancedAnalytics.tsx:243 | the price shown beside "Best Value" over the seed is NaN |

## Left out

- Rendering: JSX, Tailwind class strings, icons, the theme context, and the header, filter-panel and tab markup. Colour classes are the opaque enum `Palette`.
- `InteractiveMap.tsx` (Leaflet tiles, popups, `window.selectDataCenter`), the recharts charts, `Header.tsx` and `FilterPanel.tsx`. They only render. The filter reset they trigger is `App.AppState.ResetFilters`.
- Rounding and formatting: `toFixed` on the averages, the percentages and the Total Score, `%`/`$` strings, and `String(number)`. Reals stand in for the unrounded values.
- Floating point: the model's reals are exact. `AdvancedAnalytics.TierPercentagesSum` proves exactly 100, which double arithmetic need not give.
- `parseFloat(cloudHosting) * 100`, the cloud bar of the pricing chart: `parseFloat` is not part of this model.
- `Math.random` in the monitoring series: the 24 draws are a parameter of `RealTimeMonitoring.HistoricalData`.
- `setTimeout` delays and promise scheduling: every provider operation is one atomic step, and overlapping requests are not modelled. The `catch` branches of the provider are unreachable in the model, because nothing in their `try` blocks can throw there.
- `localStorage` and its JSON round trip: the store is a map from key to user record.
- `alert` after a successful forgot-password is a no-op. `confirm` is a boolean parameter.
- Unicode lower-casing: `ToLower` folds ASCII letters only.
- Display-only record fields: coordinates, description, website, established year, operator, cooling, floors, rack count, power density, exchanges, fiber providers, cloud on-ramps, security, certifications, renewable share as text, contact, amenities, nearby services and the capacity timestamp. The record keeps what the modelled logic reads or edits.
- The admin panel's `activeTab`, `totalDataCenters`, `totalUsers` and `averageUptime` statistics. They only count or average for display.
- The admin edit dialog's conversion between a facility record and the untyped form object. `AdminEditForm` models the form as JavaScript objects from the start.
- `Object.entries` orders integer-like keys before the others. No tier or country string in the code is integer-like, so the model keeps insertion order only.
- The `required` attributes of the sign-in form, which the browser checks before submit.
- SeedFacts: the seed's "Best Value" pick (id 5 at 380) is not proved. Evaluating `parseInt` over all ten literal records exceeds the verifier's resource budget. `AdvancedAnalytics.BestValueSpec` proves the rule for any list, and `SeedFacts.SeedMinPriceNaN` proves the NaN figure shown beside it.
- ComparisonTool.RowFlagsSpec: stated for rows of at most three values, the most the selection holds, because `getComparisonValue` reads only its first three arguments.
- DataCenterCard.CapacityBandSpec, AdvancedAnalytics.AveragesSpec, ComparisonTool.RowHighlightsSpec: `capacity.used` is a real and never NaN. The edit form stores `parseInt` of the typed text (src/components/AdminPanel.tsx:731), so an emptied field would store NaN, and "85.5" would store 85. A NaN there would give a green bar, an unflagged comparison row and a NaN average utilisation; none of this is modelled.
- AdvancedAnalytics.TallySpec, AdvancedAnalytics.RegionCountsSpec: keys are assumed not to be names that a JavaScript `{}` inherits from `Object.prototype` (`constructor`, `toString`, `__proto__` and the like). Such a tier or country would start from a function value and count as a string, or would not be stored at all. The tiers are fixed names and no seeded country is such a name, but the admin form's country field is free text (src/components/AdminPanel.tsx:649).
