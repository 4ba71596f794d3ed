# PowerPredict in Dafny

PowerPredict is a browser application that estimates a household's
electricity bill from a list of appliances and a few settings (region,
time-of-use pricing, season, home size, efficiency rating). It keeps each
user's appliances, settings and saved bills in the browser's local storage,
shows averages and charts over the saved bills, orders energy tips by the
user's categories, and offers a chat assistant backed by a small server that
answers from Gemini or from a keyword table.

This project models the core of that application and proves properties of it:

| module | file | models |
|---|---|---|
| `Types` | `types.dfy` | the records of `src/types/index.ts` and their field accessors |
| `Tables` | `tables.dfy` | the constant lookup tables (`Record<string, …>` with `||` fallbacks) |
| `Grouping` | `grouping.dfy` | sums over lists, and grouping by key in order of first appearance, as `Map` and object-key insertion order gives it |
| `Lists` | `lists.dfy` | `filter`, the `reduce` that keeps a maximum or minimum, and the stable partition |
| `Text` | `text.dfy` | `toString` of numbers, `includes`, `toLowerCase`, `trim` and `localeCompare` |
| `Calculations` | `calculations.dfy` | `calculateBill` and `getAverageUsage` of `src/utils/calculations.ts` |
| `Storage` | `storage.dfy` | `src/utils/storage.ts`: local storage as a map held by the class `Store` |
| `App` | `app.dfy` | `src/App.tsx`: the aggregation over saved bills, the appliance list updates, and the class `AppState` with the handlers and effects |
| `BillHistory` | `bill_history.dfy` | `src/components/BillHistory.tsx`: sorting, the trend, category and monthly charts, the statistics cards and the export file name |
| `BillPredictor` | `bill_predictor.dfy` | `src/components/BillPredictor.tsx`: the in-place sorts of the breakdowns, the top five, the banner and card titles |
| `EnergyTips` | `energy_tips.dfy` | `src/components/EnergyTips.tsx`: the tip table, difficulty colours and the reordering by relevance |
| `SettingsPanel` | `settings_panel.dfy` | `src/components/BillSettings.tsx`: the region list, the displayed rate and the single-field updates |
| `ApplianceForm` | `appliance_form.dfy` | `src/components/ApplianceForm.tsx`: presets, form limits and the class `FormView` with its handlers |
| `ChatBot` | `chat_bot.dfy` | `src/components/BoltChatBot.tsx`: the context sent, the usage alert, the answer texts and the class `ChatView` |
| `Server` | `server.dfy` | `server/index.js`: the validation and fallback logic of `POST /api/chat` and `getEnergyResponse` |

Values are modelled as follows:
- Numbers are `real`, so there is no floating-point rounding.
- Timestamps are `int` milliseconds.
- Each clock reading (`Date.now()`, `new Date()`) is a parameter of the operation that reads it.
- State that the source updates in place is a class with fields, and its methods are specified against functions of the old state.
- The code gives the time-of-use multiplier as 0.3·1.5 + 0.4·1.0 + 0.3·0.8 = 1.09, and the model follows the code (`Calculations.TimeOfUseBlendValue`).
- `localeCompare` is modelled as the order of character codes, proved antisymmetric and transitive.
- The category chart of the history divides each category's summed cost by the number of all bills, including bills without that category. The aggregated results divide by that category's own count and take percentages of the summed monthly bill rather than of the average. `BillHistory.ChartVersusAggregate` states both formulas side by side.
- The second reply of `getEnergyResponse` reads `78Â°F` in the repository's text of `server/index.js`, and the model keeps those characters as written.

## Model

| member | source | states |
|---|---|---|
| Tables.LookupSpec | src/utils/calculations.ts:77 | a key is found in a lookup table exactly when it is one of the table's keys |
| Grouping.KeysSpec | src/App.tsx:80-96 | the grouping keys are distinct and are exactly the keys of the items |
| Grouping.KeysInFirstAppearanceOrder | src/App.tsx:80-96 | keys are listed in the order of their first occurrence, as `Map` insertion order gives |
| Grouping.AbsentKey | src/App.tsx:84-93 | a key that does not occur has sum and count zero; one that occurs has a positive count |
| Grouping.KeySumsAddUp | src/App.tsx:80-96 | the per-key sums over all keys add up to the grand total |
| Grouping.DistinctKeysAreSingletons | src/App.tsx:80-96 | when every key occurs once, each key's first item, count and sum are those of its single item |
| Grouping.MeanSpec | src/App.tsx:74-76 | a mean times the number of items is their total |
| Lists.Filter | src/utils/storage.ts:109-111 | the filtered list is no longer than the input |
| Lists.FilterMembers | src/utils/storage.ts:109-111 | the filter keeps exactly the elements that satisfy the predicate |
| Lists.FilterAppend | src/App.tsx:253 | filtering distributes over concatenation |
| Lists.FilterPartition | src/components/EnergyTips.tsx:85-94 | the elements kept by a predicate and by its negation are the whole list, with multiplicity |
| Lists.FilterIdempotent | src/utils/storage.ts:109-111 | filtering twice by the same predicate is filtering once |
| Lists.FilterIsSubsequence | src/components/EnergyTips.tsx:85-92 | a filter keeps its elements in their original order |
| Lists.PartitionSpec | src/components/EnergyTips.tsx:85-94 | the partition is a permutation with the passing elements exactly at the front and both groups in their original order |
| Lists.MaxIndex | src/utils/storage.ts:254-256 | the `reduce` keeps the first position of a maximum |
| Lists.MinIndex | src/utils/storage.ts:258-260 | the `reduce` keeps the first position of a minimum |
| Text.NatToString | src/App.tsx:248 | the decimal text of a number is non-empty and made of digits |
| Text.DigitsRoundTrip | src/App.tsx:248 | reading back the digits of a number gives the number |
| Text.NatToStringInjective | src/App.tsx:248 | distinct clock readings give distinct identifiers |
| Text.ContainsAt | server/index.js:78 | `includes` holds wherever the substring occurs at some position |
| Text.ToLower | server/index.js:76 | lowering keeps the length and lowers each ASCII letter, keeping every other character |
| Text.ToLowerIdempotent | server/index.js:76 | lowering twice is lowering once |
| Text.TrimStart | src/components/BoltChatBot.tsx:144 | the leading whitespace is dropped: what remains is a suffix not starting with whitespace, and only whitespace was removed |
| Text.TrimEnd | src/components/BoltChatBot.tsx:144 | the trailing whitespace is dropped: what remains is a prefix not ending with whitespace, and only whitespace was removed |
| Text.TrimEmptyIffBlank | src/components/BoltChatBot.tsx:144 | trimming leaves nothing exactly when every character is whitespace |
| Text.CompareStrings | src/components/BillHistory.tsx:70 | the comparison is negative, zero or positive as the first string comes before, equals or follows the second |
| Text.CompareStringsAntisymmetric | src/components/BillHistory.tsx:70 | the comparison is zero exactly on equal strings, and swapping the arguments negates it |
| Text.CompareStringsTransitive | src/components/BillHistory.tsx:70 | "comes no later than" is transitive |
| Calculations.FallbacksAreTableEntries | src/utils/calculations.ts:77 | the rate and colour fallbacks are the table's own "National Average" and "Other" entries |
| Calculations.BaseRateSpec | src/utils/calculations.ts:4-16 | a listed region gets its own rate, any other region 0.16, and every rate is positive |
| Calculations.TimeOfUseBlendValue | src/utils/calculations.ts:19-23 | the 30/40/30 blend of the peak, standard and off-peak multipliers is 1.09 |
| Calculations.EffectiveRateSpec | src/utils/calculations.ts:107-115 | time-of-use pricing charges exactly 1.09 times the regional rate; either way the rate is positive |
| Calculations.NameFactorSpec | src/utils/calculations.ts:95 | a listed appliance name gets its own efficiency factor, any other name 1.0 |
| Calculations.NameFactorPositive | src/utils/calculations.ts:44-57 | every name factor is positive |
| Calculations.CategoryColorSpec | src/utils/calculations.ts:153 | a listed category gets its own colour, any other category #6B7280 |
| Calculations.AverageUsageSpec | src/utils/calculations.ts:180-197 | a listed name gets its table entry, any other name 100 W for 4 h; both figures are positive |
| Calculations.AverageUsageNamesAreFactorNames | src/utils/calculations.ts:181-194 | the typical-usage table and the efficiency table list the same names |
| Calculations.TelevisionLedHasNoFactor | src/utils/calculations.ts:95 | the quick-add name "Television (LED)" misses the "Television" factor and gets 1.0 |
| Calculations.AdjustedKwhFormula | src/utils/calculations.ts:92-104 | the energy is watts·hours·days/1000 times the name and home factors, and for "Heating & Cooling" also the season's multiplier |
| Calculations.SeasonOnlyAffectsHeatingAndCooling | src/utils/calculations.ts:101-117 | any appliance outside "Heating & Cooling" has the same energy and cost in every season |
| Calculations.SeasonKeepsAdjustedKwh | src/utils/calculations.ts:101-104 | outside "Heating & Cooling" the energy does not depend on the season |
| Calculations.SeasonKeepsRate | src/utils/calculations.ts:107-115 | the rate does not depend on the season |
| Calculations.TimeOfUseKeepsAdjustedKwh | src/utils/calculations.ts:92-104 | the energy does not depend on the time-of-use switch |
| Calculations.TimeOfUseScalesRate | src/utils/calculations.ts:108-115 | switching time-of-use on multiplies the rate by 1.09 |
| Calculations.NonNegativeEnergy | src/utils/calculations.ts:92-104 | non-negative wattage, hours and days give non-negative energy |
| Calculations.Usages | src/utils/calculations.ts:90-125 | the map yields one entry per appliance |
| Calculations.UsagesEntries | src/utils/calculations.ts:90-125 | entry i holds appliance i and its adjusted energy, in input order |
| Calculations.UsagesAtOneRate | src/utils/calculations.ts:107-117 | every entry is priced at the one rate computed before the map |
| Calculations.UsagesScaledRate | src/utils/calculations.ts:107-117 | pricing at c times the rate gives the same energies and c times the costs |
| Calculations.UsagesIgnoreTimeOfUse | src/utils/calculations.ts:90-125 | the per-appliance map depends on the time-of-use switch only through the rate |
| Calculations.WithPercentages | src/utils/calculations.ts:132-134 | the percentage pass keeps the number of entries |
| Calculations.PercentagesKeepEntries | src/utils/calculations.ts:132-134 | the pass keeps each entry's appliance, energy and cost and sets its percentage to its share of the total, 0 when the total is not positive |
| Calculations.Rollup | src/utils/calculations.ts:148-154 | the rollup has one entry per category listed |
| Calculations.RollupEntries | src/utils/calculations.ts:148-154 | rollup entry i is category i with its energy and cost sums, share and table colour |
| Calculations.EntriesOf | src/utils/calculations.ts:148-154 | `Object.entries(...).map(...)` gives one entry per key in insertion order, which is the order `Object.entries` uses when no category is an array-index string such as "1" |
| Calculations.EntriesAreRollup | src/utils/calculations.ts:137-154 | the entries built from the accumulated totals are the rollup of the categories in order of first appearance |
| Calculations.AccumulateCategories | src/utils/calculations.ts:137-146 | the accumulation loop ends with the keys in first-appearance order and each key's energy and cost sums |
| Calculations.FillPercentages | src/utils/calculations.ts:132-134 | the in-place percentage pass leaves the entries of the percentage function |
| Calculations.CalculateBill | src/utils/calculations.ts:67-164 | the imperative calculation returns the calculation the functional model describes |
| Calculations.BillFromBreakdown | src/utils/calculations.ts:128-134 | the breakdown keeps the mapped entries in order, with only their percentages filled in |
| Calculations.BillFromTotals | src/utils/calculations.ts:127-163 | the totals are the sums over the breakdown; the yearly bill is twelve months and the daily figure a thirtieth of the energy |
| Calculations.BillFromFlatRate | src/utils/calculations.ts:117-129 | entries priced at one rate give a bill equal to the total energy times that rate |
| Calculations.BillFromScaledTotals | src/utils/calculations.ts:108-129 | costs scaled by 1.09 scale the bill by 1.09 and keep the energy total |
| Calculations.BillFromEmpty | src/utils/calculations.ts:127-163 | no entries give zero totals and empty breakdowns |
| Calculations.BillFromShares | src/utils/calculations.ts:131-154 | every percentage, appliance and category alike, is the entry's share of the total energy |
| Calculations.BillFromNoEnergy | src/utils/calculations.ts:133 | with no positive total energy every percentage is 0 |
| Calculations.BillFromPercentages | src/utils/calculations.ts:132-134 | with positive total energy the appliance percentages are energy shares and add up to 100 |
| Calculations.UsageSharesSum | src/utils/calculations.ts:132-134 | entries whose percentages are shares of their positive energy sum have percentages adding up to 100 |
| Calculations.CategorySharesSum | src/utils/calculations.ts:148-154 | category entries whose percentages are shares of their positive energy sum have percentages adding up to 100 |
| Calculations.BillFromPercentageBounds | src/utils/calculations.ts:132-134 | entries of non-negative energy get percentages in [0, 100] |
| Calculations.BillFromCategories | src/utils/calculations.ts:137-154 | one category entry per distinct category, in order of first appearance, with its sums and table colour |
| Calculations.BillFromCategoryTotals | src/utils/calculations.ts:137-154 | the category sums add up to the bill's energy and cost totals |
| Calculations.BillFromCategoryPercentages | src/utils/calculations.ts:148-154 | with positive total energy the category percentages add up to 100 |
| Calculations.BreakdownEntries | src/utils/calculations.ts:90-125 | each breakdown entry holds its appliance, adjusted energy and that energy times the rate, in input order |
| Calculations.BreakdownAtRate | src/utils/calculations.ts:107-117 | each breakdown entry costs its energy times the effective rate |
| Calculations.BillIsEnergyTimesRate | src/utils/calculations.ts:107-129 | the monthly bill is the total energy times the effective rate |
| Calculations.EmptyBillIsZero | src/utils/calculations.ts:127-163 | no appliances give zero totals and empty breakdowns |
| Calculations.AppliancePercentageBounds | src/utils/calculations.ts:132-134 | for non-negative inputs each appliance percentage lies in [0, 100] |
| Calculations.TimeOfUseScalesBill | src/utils/calculations.ts:108-129 | switching time-of-use on multiplies the bill by exactly 1.09 and keeps the energy |
| Calculations.TimeOfUseScalesBreakdown | src/utils/calculations.ts:108-125 | switching time-of-use on keeps each appliance's energy and multiplies its cost by 1.09 |
| Calculations.TexasExample | src/utils/calculations.ts:67-164 | a 100 W appliance used 10 h a day for 30 days in Texas uses 30 kWh and costs $3.60 |
| Storage.UserKeyInjective | src/utils/storage.ts:9-14 | different users have different storage keys |
| Storage.SessionKeyIsNoUserKey | src/utils/storage.ts:152-154 | the session key is "powerpredict_current_user" and is no user's key |
| Storage.SessionKeepsRecords | src/utils/storage.ts:152-158 | signing in or clearing the session leaves every user's record as it was |
| Storage.ReadAfterPut | src/utils/storage.ts:37-40 | writing a user's record changes that record and no other key |
| Storage.AppliancesSavedSpec | src/utils/storage.ts:23-44 | the appliances are replaced, settings and bills kept (defaults without a record), other records untouched |
| Storage.SettingsSavedSpec | src/utils/storage.ts:47-68 | the settings are replaced, appliances and bills kept, other records untouched |
| Storage.BillSavedSpec | src/utils/storage.ts:71-90 | the new bill goes in front of the saved ones and the rest of the record is kept |
| Storage.BillDeletedSpec | src/utils/storage.ts:104-123 | exactly the bills with another id stay, in order; no record means no change; deleting twice is deleting once |
| Storage.ReplaceBill | src/utils/storage.ts:135-137 | the map keeps the number of bills |
| Storage.ReplaceBillSpec | src/utils/storage.ts:135-137 | every bill with the id becomes the update stamped with the time, the others stay in place |
| Storage.ReplaceMissingBill | src/utils/storage.ts:135-137 | an id no bill has leaves the list as it is |
| Storage.BillUpdatedSpec | src/utils/storage.ts:126-149 | only the bill with the id and only that user's record change; no record means no change |
| Storage.ImportedRecordSpec | src/utils/storage.ts:180-213 | an import is accepted exactly when it parses and has appliances and settings; missing bills become the empty list |
| Storage.ExportImportRoundTrip | src/utils/storage.ts:161-213 | there is an export exactly when there is a record, and importing it gives back the record and leaves the store unchanged |
| Storage.StatisticsOfNoBills | src/utils/storage.ts:237-245 | no bills give zero statistics and no extreme bills |
| Storage.StatisticsMean | src/utils/storage.ts:247-268 | the statistics count the bills; the average times the count is the sum of the monthly bills; the average lies between the lowest and the highest bill; the yearly figure is twelve times the average |
| Storage.NoRecordNoStatistics | src/utils/storage.ts:93-101 | a user without a record has no bills and empty statistics |
| Storage.Store.SaveUserAppliances | src/utils/storage.ts:23-44 | the store becomes the store with the appliances saved |
| Storage.Store.SaveUserBillSettings | src/utils/storage.ts:47-68 | the store becomes the store with the settings saved |
| Storage.Store.SaveUserBill | src/utils/storage.ts:71-90 | the store becomes the store with the bill saved in front |
| Storage.Store.DeleteUserBill | src/utils/storage.ts:104-123 | the store becomes the store with the bill deleted |
| Storage.Store.UpdateUserBill | src/utils/storage.ts:126-149 | the store becomes the store with the bill replaced |
| Storage.Store.ClearCurrentUserSession | src/utils/storage.ts:152-158 | only the session key is removed |
| Storage.Store.SetCurrentUser | src/App.tsx:171 | only the session key is set, to the user |
| Storage.Store.ImportUserData | src/utils/storage.ts:180-213 | the import succeeds exactly when the input is accepted, then writes the record; otherwise nothing changes |
| App.MergeApplianceEntries | src/App.tsx:80-96 | the nested loop ends with each (name, wattage) key's first entry, summed cost and energy, and count |
| App.MergeCategoryEntries | src/App.tsx:107-121 | the nested loop ends with each category's first entry, summed cost and count |
| App.MergeBillUsages | src/App.tsx:81-94 | the inner loop over one bill's appliance entries extends the merged state of the entries seen so far by that bill's entries |
| App.MergeBillCategories | src/App.tsx:108-119 | the inner loop over one bill's category entries extends the merged state of the entries seen so far by that bill's entries |
| App.AveragedUsages | src/App.tsx:99-104 | one averaged entry per key |
| App.AveragedCategories | src/App.tsx:124-128 | one averaged entry per category |
| App.AveragedAreMerged | src/App.tsx:99-104 | averaging the merged map gives the merged entries of its keys |
| App.AveragedCategoriesAreMerged | src/App.tsx:124-128 | averaging the merged category map gives the merged entries of its categories |
| App.UsageCounts | src/App.tsx:84-93 | every key of the merged map has a positive count |
| App.CalculateAggregatedBillData | src/App.tsx:48-138 | the imperative aggregation returns the aggregate the functional model describes |
| App.AggregateOfNoBills | src/App.tsx:49-58 | no saved bills give zeros and empty breakdowns |
| App.AggregateFields | src/App.tsx:61-77 | the aggregate's monthly bill, yearly bill and energy are the means over the bills, and the daily figure is the mean energy over 30 days |
| App.MergedUsagesSpec | src/App.tsx:80-104 | each merged entry has its key's first appliance, the mean cost and energy of that key, and that cost as a percentage of the average bill |
| App.MergedCategoriesSpec | src/App.tsx:107-128 | each merged category has its first entry's energy and colour, its mean cost, and that cost as a percentage of the summed bill |
| App.AggregateApplianceBreakdown | src/App.tsx:79-104 | one entry per distinct (name, wattage) key, in order of first appearance, each with the key's means |
| App.AggregateCategoryBreakdown | src/App.tsx:106-128 | one entry per distinct category, in order of first appearance, each with the category's mean cost |
| App.AggregateCategoryAt | src/App.tsx:106-128 | category entry i is the merged entry of the i-th category to appear |
| App.SharePercent | src/App.tsx:103 | a cost at one rate as a percentage of the bill at that rate is the energy's share |
| App.BreakdownKeysDistinct | src/App.tsx:83 | the breakdown keeps the entries' (name, wattage) keys, so distinct keys stay distinct |
| App.UsageKeysDistinct | src/App.tsx:83 | appliances with distinct (name, wattage) pairs give entries with distinct keys |
| App.BillIsMergeable | src/utils/calculations.ts:90-154 | a calculated bill at one positive rate with distinct keys and positive energy has mergeable breakdowns |
| App.SingleBillAggregatesToItself | src/App.tsx:48-138 | a single saved bill computed by calculateBill aggregates to exactly its own calculation |
| App.SingleCalculationAggregates | src/App.tsx:48-138 | a single bill with mergeable breakdowns at one rate aggregates to its own calculation |
| App.OneBillTotals | src/App.tsx:61-77 | the aggregate of one bill has that bill's totals |
| App.OneBillBreakdown | src/App.tsx:99-104 | the aggregate of one mergeable bill has its appliance breakdown |
| App.OneBillCategories | src/App.tsx:124-128 | the aggregate of one mergeable bill has its category breakdown |
| App.MergedBreakdown | src/App.tsx:99-104 | a mergeable breakdown merges into itself |
| App.MergedCategoryBreakdown | src/App.tsx:124-128 | a mergeable category breakdown merges into itself |
| App.WithAppliance | src/App.tsx:245-250 | adding appends the appliance under the fresh id and keeps the list before it |
| App.WithoutApplianceSpec | src/App.tsx:252-254 | removal keeps exactly the entries with another id, in order, and changes nothing for an absent id |
| App.AddThenRemove | src/App.tsx:245-254 | removing by the fresh id an appliance was added with gives back the list |
| App.UpdatedAppliances | src/App.tsx:256-263 | the update keeps the number of appliances |
| App.UpdatedAppliancesSpec | src/App.tsx:256-263 | each entry with the id is patched, every other entry stays |
| App.PatchedFields | src/App.tsx:259 | a patch overwrites the fields it gives and keeps the others |
| App.UpdateIdempotent | src/App.tsx:256-263 | updating twice with the same patch is updating once |
| App.UpdateChangesNothing | src/App.tsx:256-263 | an empty patch, or an id no entry has, leaves the list as it is |
| App.UpdateThenRemove | src/App.tsx:252-263 | a patch that keeps the id does not change what removal drops |
| App.ShownCalculationSources | src/App.tsx:231-243 | on the results tab with saved bills only the bills matter; otherwise only the appliances and settings |
| App.ResultsShowTheOnlySavedBill | src/App.tsx:231-243 | with one saved bill the results tab shows what the input tab shows for its appliances and settings |
| App.BillName | src/App.tsx:294-295 | the bill is named as typed, or "Bill " and the date when nothing is typed |
| App.PredictionFor | src/App.tsx:647-651 | the prediction is "high" above $1500 a month, else "medium", with the bill and a quarter of it as savings |
| App.AppState.constructor | src/App.tsx:140-155 | nobody signed in, nothing entered, default settings, the input tab |
| App.AppState.HandleSignIn | src/App.tsx:265-267 | only the user changes |
| App.AppState.LoadUserData | src/App.tsx:166-204 | the session is written, then the record's appliances and settings (defaults without one) and its bills are loaded |
| App.AppState.AutoSave | src/App.tsx:207-218 | appliances and settings are written to the signed-in user's record; its bills stay |
| App.AppState.AddAppliance | src/App.tsx:245-250 | only the appliance list changes, to the list with the appliance added |
| App.AppState.RemoveAppliance | src/App.tsx:252-254 | only the appliance list changes, to the list without the id |
| App.AppState.UpdateAppliance | src/App.tsx:256-263 | only the appliance list changes, to the updated list |
| App.AppState.HandleBillSettingsChange | src/App.tsx:286-288 | only the settings change |
| App.AppState.SelectTab | src/App.tsx:539-594 | only the active tab changes |
| App.AppState.RefreshBillData | src/App.tsx:231-243 | the shown calculation becomes the one for the tab, bills, appliances and settings |
| App.AppState.HandleSaveBill | src/App.tsx:291-316 | without a user or calculation nothing happens; otherwise the new bill goes in front in store and list and the name is cleared |
| App.AppState.HandleDeleteBill | src/App.tsx:319-326 | when confirmed the bills with the id leave the store and the list; otherwise nothing changes |
| App.AppState.HandleLoadBill | src/App.tsx:329-334 | the bill's appliances, settings and name become current and the input tab is selected |
| App.AppState.HandleSignOut | src/App.tsx:269-284 | everything returns to the initial state and the session key is removed |
| App.AssistantWarnsAboveThreshold | src/App.tsx:645-653 | the assistant is shown only with a calculation and warns exactly above $1500 a month |
| App.AssistantContextAsRendered | src/App.tsx:645-653 | as rendered, the assistant's context has no current bill and no history, only the prediction |
| BillHistory.CompareAntisymmetric | src/components/BillHistory.tsx:58-75 | swapping two bills negates the comparator |
| BillHistory.InOrderTransitive | src/components/BillHistory.tsx:58-75 | the comparator's order is transitive |
| BillHistory.Insert | src/components/BillHistory.tsx:58-75 | one insertion step adds exactly the element |
| BillHistory.SortBills | src/components/BillHistory.tsx:58 | the sorted copy is a permutation of the bills |
| BillHistory.InsertSorted | src/components/BillHistory.tsx:58-75 | inserting into a sorted list keeps it sorted |
| BillHistory.SortBillsSorted | src/components/BillHistory.tsx:58-75 | the sorted copy is in the comparator's order |
| BillHistory.SortBillsSpec | src/components/BillHistory.tsx:58-75 | the list shown holds the same bills ordered by date, amount or name, ascending or descending |
| BillHistory.SortKeepsSorted | src/components/BillHistory.tsx:58-75 | a list already in order comes back as it is |
| BillHistory.SortIdempotent | src/components/BillHistory.tsx:58-75 | sorting twice is sorting once |
| BillHistory.NextSort | src/components/BillHistory.tsx:217-224 | a click on the current field flips the order; another field sorts descending |
| BillHistory.NextSortTwice | src/components/BillHistory.tsx:217-224 | two clicks on the current field restore the order; a second click on a new field makes it ascending |
| BillHistory.HistoryView.constructor | src/components/BillHistory.tsx:51-52 | the view starts sorted by date, newest first |
| BillHistory.HistoryView.HandleSort | src/components/BillHistory.tsx:217-224 | the sort field and order become the next ones |
| BillHistory.HistoryView.SortedBills | src/components/BillHistory.tsx:58-75 | the list shown is the bills in the current order |
| BillHistory.Trends | src/components/BillHistory.tsx:87-103 | one point per bill |
| BillHistory.TrendsCover | src/components/BillHistory.tsx:79-103 | every bill has a point, numbered by its place in the oldest-first order |
| BillHistory.TrendsSpec | src/components/BillHistory.tsx:79-103 | points are numbered 1, 2, … and run from the oldest bill to the newest |
| BillHistory.SumCategoryCosts | src/components/BillHistory.tsx:106-120 | the summing loop ends with each category's summed cost in order of first appearance |
| BillHistory.CalculateCategoryChart | src/components/BillHistory.tsx:105-134 | the imperative chart computation returns the chart the functional model describes |
| BillHistory.CategoryPointsSpec | src/components/BillHistory.tsx:122-134 | each slice has its category's summed cost over all bills and that sum as a percentage of the summed bills |
| BillHistory.CategoryChartLength | src/components/BillHistory.tsx:79-134 | no bills give no slices; otherwise one slice per category |
| BillHistory.CategoryChartAt | src/components/BillHistory.tsx:122-134 | slice i is the i-th category to appear, its summed cost divided by the number of all bills |
| BillHistory.CategoryChartIs | src/components/BillHistory.tsx:122-134 | with bills, the chart is the slices of the categories in order of first appearance |
| BillHistory.ChartVersusAggregate | src/components/BillHistory.tsx:122-134 | the chart and the aggregated results sum the same costs but divide by all bills versus the category's own count |
| BillHistory.ChartPercentagesAddUp | src/components/BillHistory.tsx:126-132 | when every bill's categories cover it, the slices' percentages add up to 100 |
| BillHistory.PointSharesTotal | src/components/BillHistory.tsx:126-132 | the slices' percentages add up to the summed category costs as a percentage of the total |
| BillHistory.CategoryCostsCoverBills | src/components/BillHistory.tsx:106-132 | the costs of all category entries add up to the summed monthly bills when each bill is covered |
| BillHistory.CalculatedBillIsCovered | src/utils/calculations.ts:137-154 | a bill as calculateBill produced it has categories that cover its monthly bill |
| BillHistory.CompareMonths | src/components/BillHistory.tsx:137-159 | the `reduce` returns the monthly rows the functional model describes |
| BillHistory.MonthlyComparisonAt | src/components/BillHistory.tsx:137-159 | row i is the i-th month to appear, counts at least one bill, and has that month's sums and means |
| BillHistory.MonthGroupSnoc | src/components/BillHistory.tsx:137-159 | appending a bill tallies it into its month's row (an empty row for a new month) and leaves every other row as it was |
| BillHistory.MonthlyComparisonMonths | src/components/BillHistory.tsx:137-159 | the rows' months are the distinct months of the bills, in order of first appearance |
| BillHistory.MonthlyComparisonCovers | src/components/BillHistory.tsx:137-159 | every bill's month has a row |
| BillHistory.MonthlyComparisonTotals | src/components/BillHistory.tsx:137-159 | the rows' costs and energies add up to those of all the bills |
| BillHistory.MonthlyComparisonPartitions | src/components/BillHistory.tsx:137-159 | months are distinct, every bill's month has a row, and the rows' costs and energies add up to the bills' |
| BillHistory.TrendLabelSpec | src/components/BillHistory.tsx:334-338 | trending up or down exactly when the change is positive or negative; stable exactly when the bills are equal |
| BillHistory.StatsAgreeWithStorage | src/components/BillHistory.tsx:169-190 | the cards agree with getBillStatistics on count, average and extreme bills, and both are empty together |
| BillHistory.StatsExtremes | src/components/BillHistory.tsx:184-190 | the highest and lowest cards show bills of the history that bound every other bill |
| BillHistory.ByDateEnds | src/components/BillHistory.tsx:193-196 | the first and last bill by date are an earliest and a latest bill |
| BillHistory.StatsTrend | src/components/BillHistory.tsx:193-204 | with two bills or more, the trend compares an earliest bill with a latest one |
| BillHistory.StatsTrendByDate | src/components/BillHistory.tsx:193-204 | with two bills or more, the trend is the percentage change from the oldest bill to the newest in the date order |
| BillHistory.SingleBillIsStable | src/components/BillHistory.tsx:198-204 | a single bill has trend 0, shown as stable |
| BillHistory.StatsMeans | src/components/BillHistory.tsx:170-182 | the count and total cards are the count and sum of the history; the average cost card is getBillStatistics' average, and each average lies between the smallest and the largest value over the bills |
| BillHistory.CodeUnits | src/components/BillHistory.tsx:238 | a character takes two UTF-16 code units exactly when it lies outside the Basic Multilingual Plane, otherwise one |
| BillHistory.Utf16Length | src/components/BillHistory.tsx:238 | a string's JavaScript length lies between its number of characters and twice that |
| BillHistory.Replacement | src/components/BillHistory.tsx:238 | a kept character stays as it is; any other becomes one underscore per code unit |
| BillHistory.Underscored | src/components/BillHistory.tsx:238 | the result has one character per code unit of the name, each a letter, a digit or an underscore |
| BillHistory.UnderscoredAppend | src/components/BillHistory.tsx:238 | the replacement of a concatenation is the concatenation of the replacements |
| BillHistory.UnderscoredBmp | src/components/BillHistory.tsx:238 | on a name without characters outside the Basic Multilingual Plane, each character outside [a-zA-Z0-9] becomes one underscore and the others are kept |
| BillHistory.UnderscoredAstral | src/components/BillHistory.tsx:238 | an emoji (U+1F4A1) is two code units and becomes two underscores |
| BillHistory.FileStem | src/components/BillHistory.tsx:238 | the stem has one character per code unit of the name, each a lower-case letter, a digit or an underscore |
| BillHistory.ExportFileName | src/components/BillHistory.tsx:238 | the name is the stem followed by ".json", five code units longer than the bill's name |
| BillHistory.FileStemSpec | src/components/BillHistory.tsx:238 | on a name without characters outside the Basic Multilingual Plane, letters are lowered, digits kept and everything else becomes one underscore |
| BillHistory.FileStemIdempotent | src/components/BillHistory.tsx:238 | the stem of a stem is itself |
| BillPredictor.InsertDescPermutes | src/components/BillPredictor.tsx:19-21 | one insertion step adds the new entry and nothing else |
| BillPredictor.InsertDescSorted | src/components/BillPredictor.tsx:19-21 | inserting into a list sorted largest first keeps it sorted |
| BillPredictor.InsertDescAbove | src/components/BillPredictor.tsx:19-21 | inserting an entry costing at least some amount among entries costing at least that amount keeps every entry at least that amount |
| BillPredictor.InsertDescStable | src/components/BillPredictor.tsx:19-21 | inserting moves the new entry only past smaller ones, so the entries of each cost keep their order |
| BillPredictor.SortDescSpec | src/components/BillPredictor.tsx:19-21 | the stable sort orders by cost, largest first, is a permutation, and keeps the entries of each cost in their original order, as the stable `Array.prototype.sort` does |
| BillPredictor.SortDescending | src/components/BillPredictor.tsx:19-21 | the array becomes the stable descending sort of its old contents: sorted by cost, a permutation, and equal costs in their old order |
| BillPredictor.SortStep | src/components/BillPredictor.tsx:19-21 | inserting the next entry after the sorted prefix sorts one more entry |
| BillPredictor.PassStep | src/components/BillPredictor.tsx:19-21 | moving the new entry past a strictly smaller one keeps the pass's equation with the insertion |
| BillPredictor.PassingSwap | src/components/BillPredictor.tsx:19-21 | swapping the new entry with its left neighbour moves the pass one place left |
| BillPredictor.PassingDone | src/components/BillPredictor.tsx:19-21 | a pass that stops at the front or before an entry that is not smaller leaves the insertion followed by the rest |
| BillPredictor.InsertAt | src/components/BillPredictor.tsx:19-21 | one pass leaves the stable insertion of the pass's entry into the prefix, followed by the untouched rest |
| BillPredictor.TopCount | src/components/BillPredictor.tsx:21 | five, or all entries when there are fewer |
| BillPredictor.TopAppliances | src/components/BillPredictor.tsx:19-21 | the top list is the first five (or all) of the sorted breakdown |
| BillPredictor.TopAppliancesAreTheLargest | src/components/BillPredictor.tsx:19-21 | the top consumers cost at least as much as every appliance left out, and are in order |
| BillPredictor.Render | src/components/BillPredictor.tsx:19-21 | both breakdowns become their stable descending sorts in place, and the top five of the sorted appliances are returned |
| BillPredictor.BannerSpec | src/components/BillPredictor.tsx:26-36 | the banner appears exactly for averages over saved bills and ends in "s" exactly unless there is one bill |
| BillPredictor.CardTitles | src/components/BillPredictor.tsx:44-86 | there are four card titles |
| BillPredictor.CardTitlesSpec | src/components/BillPredictor.tsx:44-86 | every card title starts with "Average " exactly in the aggregated view |
| EnergyTips.DifficultyColorSpec | src/components/EnergyTips.tsx:69-76 | the three difficulties get three different colours, anything else gray |
| EnergyTips.UserCategories | src/components/EnergyTips.tsx:82 | the categories are those of the category breakdown, in order |
| EnergyTips.ReorderPartition | src/components/EnergyTips.tsx:84-95 | the reordering is a stable partition: the same tips with the same multiplicities, the relevant ones (a user category or Electronics) exactly in front, both groups in the table's order |
| EnergyTips.RelevantTipFirst | src/components/EnergyTips.tsx:85-87 | a tip of the table that is relevant lands in the first group |
| EnergyTips.NoCalculationKeepsOrder | src/components/EnergyTips.tsx:79 | without a calculation the tips keep their order |
| EnergyTips.TipsHaveKnownDifficulty | src/components/EnergyTips.tsx:9-66 | every tip has one of the three difficulties |
| EnergyTips.ElectronicsTipsFirst | src/components/EnergyTips.tsx:85-87 | with a calculation both Electronics tips are in the first group |
| SettingsPanel.PanelRatesAreTheEngineRates | src/components/BillSettings.tsx:24-36 | the panel's rate table is the engine's, entry for entry |
| SettingsPanel.RegionsHaveRates | src/components/BillSettings.tsx:10-36 | every region of the drop-down has a rate and the table lists no other region |
| SettingsPanel.DisplayedRateIsBaseRate | src/components/BillSettings.tsx:159 | the displayed rate is the engine's base rate for every region, and the engine charges 1.09 times it under time-of-use |
| SettingsPanel.UpdateSettingSpec | src/components/BillSettings.tsx:39-41 | a change sets its field and keeps every other field |
| SettingsPanel.UpdatesCompose | src/components/BillSettings.tsx:39-41 | changes to different fields commute; of two changes to one field the later wins |
| SettingsPanel.RateDependsOnRegionAndTimeOfUse | src/utils/calculations.ts:77-115 | only a change of region or of time-of-use can change the rate |
| ApplianceForm.ApplianceOf | src/components/ApplianceForm.tsx:104-107 | the new appliance has the form's fields and the given id |
| ApplianceForm.PatchOf | src/components/ApplianceForm.tsx:101 | the patch gives all five form fields and no id |
| ApplianceForm.PatchOfSpec | src/components/ApplianceForm.tsx:125-135 | submitting unchanged values gives the appliance back; other values change exactly the five fields |
| ApplianceForm.PresetsAreValid | src/components/ApplianceForm.tsx:12-79 | every preset and the fresh form lie within the form's limits, with a listed category |
| ApplianceForm.FormLimitsKeepEnergyNonNegative | src/components/ApplianceForm.tsx:275-317 | appliances within the form's limits use no negative energy |
| ApplianceForm.Ids | src/components/ApplianceForm.tsx:154 | the ids are those of the appliances, in order |
| ApplianceForm.FilterThenRemove | src/components/ApplianceForm.tsx:154 | two removals in a row are one filter by both |
| ApplianceForm.RemoveEachKeepsOthers | src/components/ApplianceForm.tsx:154 | removing ids one at a time keeps exactly the appliances with other ids, in order |
| ApplianceForm.RemovingAllIdsEmpties | src/components/ApplianceForm.tsx:152-155 | removing every listed id empties the list |
| ApplianceForm.FormView.constructor | src/components/ApplianceForm.tsx:87-95 | closed, editing nothing, default values |
| ApplianceForm.FormView.ResetForm | src/components/ApplianceForm.tsx:113-123 | default values, closed, editing nothing |
| ApplianceForm.FormView.HandleEdit | src/components/ApplianceForm.tsx:125-135 | the form opens on the appliance's values and edits its id |
| ApplianceForm.FormView.HandleSubmit | src/components/ApplianceForm.tsx:97-111 | an edit updates the appliance with the values, otherwise they are added under a fresh id; the form is reset |
| ApplianceForm.FormView.AddCommonAppliance | src/components/ApplianceForm.tsx:137-142 | the preset is added under a fresh id and the form is not touched |
| ApplianceForm.FormView.HandleResetAllAppliances | src/components/ApplianceForm.tsx:143-161 | nothing without appliances or confirmation; otherwise every listed appliance is removed and an open form reset |
| ChatBot.TopThree | src/components/BoltChatBot.tsx:110-117 | at most three summaries, of the first entries, in order |
| ChatBot.History | src/components/BoltChatBot.tsx:120-128 | one history entry per saved bill, in order |
| ChatBot.PrepareContextSpec | src/components/BoltChatBot.tsx:101-141 | no current bill exactly without a calculation, its totals and at most three appliances otherwise, one entry per bill, the count and the mean |
| ChatBot.ContextAverageIsStatistics | src/components/BoltChatBot.tsx:129-136 | the average sent is the one getBillStatistics reports |
| ChatBot.HistoryEntrySpec | src/components/BoltChatBot.tsx:120-128 | an entry names the first appliance, or "Unknown" exactly when there is none with a name |
| ChatBot.Cents | src/components/BoltChatBot.tsx:88-92 | the hundredths printed are the nearest, the larger on a tie |
| ChatBot.Fixed2Spec | src/components/BoltChatBot.tsx:88-92 | the text starts with a minus sign exactly for a negative number; after it come digits, a point and two digits that read back as the magnitude's number of hundredths rounded to nearest (a tie away from zero) |
| ChatBot.FixedMagnitudeSpec | src/components/BoltChatBot.tsx:88-92 | a non-negative number prints as its rounded number of hundredths, and a whole part of ten or more has no leading zero |
| ChatBot.HundredthsText | src/components/BoltChatBot.tsx:88-92 | the whole part, the point and the two decimals printed for a count of hundredths read back as that count |
| ChatBot.AlertForSpec | src/components/BoltChatBot.tsx:80-97 | an alert appears exactly for "high" and "critical", comes from the bot and names the level |
| ChatBot.ReplyTextSpec | src/components/BoltChatBot.tsx:187-215 | a reply wins over an error, an error is shown after the warning prefix, otherwise the fixed text |
| ChatBot.HttpFailureIsServerError | src/components/BoltChatBot.tsx:180-230 | a status outside 200-299 is reported as a server error carrying the status |
| ChatBot.ErrorTextSpec | src/components/BoltChatBot.tsx:216-230 | a fetch failure, an HTTP error and anything else get their three texts |
| ChatBot.ChatView.constructor | src/components/BoltChatBot.tsx:60-69 | one welcome message from the bot, empty input, not typing |
| ChatBot.ChatView.SetInput | src/components/BoltChatBot.tsx:363 | only the input changes |
| ChatBot.ChatView.ShowAlert | src/components/BoltChatBot.tsx:80-97 | an alarming prediction appends exactly its alert; otherwise nothing changes |
| ChatBot.ChatView.SendMessage | src/components/BoltChatBot.tsx:143-156 | blank input sends nothing; otherwise the untrimmed input is appended and returned, the box cleared and typing on |
| ChatBot.ChatView.ReceiveOutcome | src/components/BoltChatBot.tsx:158-241 | exactly one bot message with the outcome's text is appended and typing stops |
| ChatBot.BlankInputIsNotSent | src/components/BoltChatBot.tsx:143-144 | a whitespace-only question is never sent |
| Server.FirstMention | server/index.js:75-103 | the first topic mentioned from a position on, with none of the earlier ones mentioned |
| Server.ClassifyIsFirstMention | server/index.js:75-103 | the checks pick the first topic in the fixed order whose keywords the message contains, else the general answer |
| Server.RepliesDistinct | server/index.js:79-102 | the seven fixed replies are pairwise different |
| Server.EnergyResponseSpec | server/index.js:75-103 | the answer is topic t's reply exactly when t is the first topic mentioned |
| Server.EnergyResponseIgnoresCase | server/index.js:76 | a message and its lowered form get the same answer |
| Server.KeywordsMatchInsideWords | server/index.js:78 | keywords match inside words: "Is this normal?" is greeted |
| Server.Status | server/index.js:15-19 | status 400 exactly for a refusal, 200 for an answer |
| Server.HandleChatSpec | server/index.js:12-73 | refused exactly for a missing, non-string or empty message; Gemini's trimmed text when it answers; otherwise the keyword reply labelled "fallback" |
| Server.ShownSpec | src/components/BoltChatBot.tsx:180-215 | the panel reports a refusal as a server error with status 400, an empty reply as the unexpected-format notice, and any other reply as it is |
| Server.ReplyNonEmpty | server/index.js:79-102 | no fixed answer is empty |
| Server.ClientShowsAnswer | server/index.js:15-72 | a refusal is a server error with status 400, a keyword reply is shown as is, and a Gemini text that trims to nothing shows the unexpected-format notice |

## Left out

- Rendering, styling, icons, charts' drawing, scrolling and the open/closed state of panels are left out. Only the data each view computes is modelled.
- The sign-in page and the user profile (`src/components/SignIn.tsx`, `src/components/UserProfile.tsx`) are not part of this model.
- `formatCurrency`, `formatKwh` and `toFixed(3)` in the settings panel are display formatting and are left out. The JavaScript number formatting is not modelled; `toFixed(2)` in the chat alert is modelled on reals, rounding the magnitude half up.
- JSON serialisation and parsing are the identity on the modelled records, and a parse failure is an `Option`. Date objects are integers, and `toLocaleDateString` is a string parameter.
- Local storage exceptions (quota, access) caught by the `try` blocks are not modelled. Each write either happens or the model shows no error path for it.
- `window.alert`, `window.confirm`, `Date.now()` and `new Date()` are parameters of the handlers that use them.
- `App.tsx`'s `isLoadingData` flag is set and cleared within one effect, so it is never observed as true by the auto-save effects. The model leaves it out.
- `App.tsx`'s export and import handlers (file download, `FileReader`) are left out. The storage functions they call, `exportUserData` and `importUserData`, are modelled.
- `App.tsx` restores the session on app load from `localStorage.getItem` (lines 158-163). That restore step is left out of the model.
- App.Aggregate: the aggregation key is the pair (name, wattage) rather than the string `${name}-${wattage}`, so two appliances whose texts collide (such as "a-" with 5 W and "a" with -5 W) are not merged as the source would merge them.
- App.Aggregate: requires the summed monthly bill to be non-zero whenever there is an entry to average, because the source then divides by zero and yields NaN or Infinity percentages, which reals cannot represent.
- App.CalculateAggregatedBillData: requires the same as App.Aggregate, for the same reason.
- BillHistory.CategoryChart: requires the summed monthly bills to be non-zero when there is a category, because the source's percentage then divides by zero.
- BillHistory.CalculateCategoryChart: requires the same as BillHistory.CategoryChart.
- BillHistory.CategoryChart: `categoryBreakdown` is always present in the typed model, so the source's check for a missing breakdown (line 108) always passes.
- The trend's division by a zero first bill is modelled as a `Trend` datatype (plus or minus infinity, or NaN for 0/0) rather than excluded.
- BillHistory.SortBills: the JavaScript sort is modelled as a stable insertion sort; stability itself is not stated, and `localeCompare` is the order of character codes, not the locale's collation.
- BillHistory.Trends: the point's date label is the bill's timestamp; `toLocaleDateString` formatting is left out.
- BillPredictor.Render: the source sorts `billData`'s breakdown arrays in place, and those arrays are shared with the app's state. The model sorts arrays the method is given and does not model that sharing.
- EnergyTips: the tip descriptions are kept in a separate `Description` table that no proof touches. The `EnergyTip` type is not declared in `src/types/index.ts`, and the model declares its own.
- ChatBot.ChatView.ShowAlert: the app rebuilds the prediction object on every render, so React runs the alert effect again whenever the app re-renders with an alarming bill. The model appends one alert per call and does not model how often React calls it.
- The chat assistant's network request, scrolling and key handling are left out. The request's outcome is a parameter of `ChatBot.ChatView.ReceiveOutcome`.
- Server: the Gemini request, the prompt text, the environment and `console.log` are left out. The Gemini call's result is a parameter. The routes `/api/health` and `/api/test-gemini` and the server start-up are left out.
- Tables.LookupSpec: keys are assumed to be own keys or absent. In JavaScript `T[key] || fallback` also finds names inherited from `Object.prototype` ("constructor", "toString", "__proto__", ...), which yield a function or an object instead of the table's value or the fallback. Tables.LookupOr is modelled the same way.
- Calculations.BaseRateSpec: assumes the region is not an `Object.prototype` property name; for a region such as "constructor" the source's rate is a function and every cost is NaN (calculations.ts:77). Calculations.BaseRate is modelled the same way.
- Calculations.NameFactorSpec: assumes the appliance name is not an `Object.prototype` property name; for a name such as "constructor" the source's factor is a function and that appliance's energy and cost are NaN (calculations.ts:95). Calculations.NameFactor is modelled the same way.
- Calculations.NameFactorPositive: holds for names that are not `Object.prototype` property names, for the reason given for Calculations.NameFactorSpec.
- Calculations.AverageUsageSpec: assumes the appliance name is not an `Object.prototype` property name; for such a name the source returns the inherited value instead of 100 W for 4 h (calculations.ts:196). Calculations.AverageUsage is modelled the same way.
- Calculations.EntriesOf: `Object.entries` lists array-index keys ("0", "1", "2", ...) first, in ascending numeric order, and only then the other keys in insertion order. The model keeps insertion order for every key, so it differs from the source when a category is an array-index string.
- Calculations.EntriesAreRollup: first-appearance order holds only when no category is an array-index string, for the reason given for Calculations.EntriesOf.
- Calculations.AccumulateCategories: assumes no category is an `Object.prototype` property name. For a category such as "toString" or "__proto__", `!categoryTotals[category]` (calculations.ts:141) is false, no own entry is created, the sums are written onto the inherited value, and `Object.entries` then leaves that category out. The model gives it an entry.
- Calculations.CalculateBill: assumes what the lines for Calculations.BaseRateSpec, Calculations.NameFactorSpec, Calculations.AccumulateCategories and Calculations.EntriesOf describe: no region, appliance name or category is an `Object.prototype` property name, and no category is an array-index string.
- Calculations.BillFromCategories: one entry per distinct category in first-appearance order holds under the same assumption as Calculations.CalculateBill; an inherited category name gets no entry in the source, and array-index categories come first.
- SettingsPanel.DisplayedRateIsBaseRate: assumes the region is not an `Object.prototype` property name; for a region such as "constructor" the source's `REGIONAL_RATES[settings.region]?.toFixed(3)` (BillSettings.tsx:159) calls `toFixed` on a function and throws a TypeError. SettingsPanel.DisplayedRate is modelled the same way.
- Text.ToLower: lowers the ASCII letters only; JavaScript's `toLowerCase` also lowers other Unicode letters.
- Numbers are unbounded reals, so floating-point rounding in sums, products and percentages is not modelled.
