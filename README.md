# Land-use variation dashboard: a Dafny model of its query core

The dashboard shows, for a chosen site, how its land cover (water, trees,
flood vegetation, crops, built area, bare ground, rangeland) changed across
the survey years 2020, 2022 and 2024. Everything it shows comes from one
object, `LandUseVisualizer` in `script.js`, which holds the dataset, the site
chosen in the selector and the set of selected categories. This project models
that object's state and the values it computes, with the page and chart code
taken away.

- `wrappers.dfy` (`Wrappers`): the `Option` datatype.
- `land_use_data.dfy` (`LandUseData`): the categories with their ids, labels
  and percent keys; a site record as its name plus the numeric fields it
  carries, by key (a key that is absent is a field the record lacks); the
  dataset as a map from year key to that year's records; the `value || 0`
  reading; the site lookup and the site selector's list.
- `category_selection.dfy` (`CategorySelection`): the selection set, whose
  iteration order is insertion order, as a sequence without duplicates;
  deleting keeps the other members in order, adding appends.
- `derivations.dfy` (`Derivations`): the chart's per-category three-year
  series (built by a loop, as the source pushes datasets one by one), the
  timeline with its guarded percent change, the narrative's unguarded area
  change, the dominant-category scan (one loop tracking the 2020 and the 2024
  leader, as the source does), the selected total (an accumulating loop), and
  the 2024 percents of the category cards.
- `visualizer.dfy` (`Visualizer`): the `LandUseVisualizer` class, with the
  fields `data`, `currentSite` and `selectedCategories`, the toggle and the
  site-change handler as methods that modify them, and the four update
  routines as methods that return what they would display.

Numbers are `real`. A JavaScript value that is `null` or `undefined` is
`None`; `getSiteData` answers `None` both when the year is missing and when
no record has the name, since every caller only tests the answer for
truthiness. The selector's value is `Option<string>`; like the source, the
model treats both "no value" and the empty string as "no site chosen".

## Model

| member | source | states |
|---|---|---|
| LandUseData.FirstMatch | script.js:346 | `find` by exact name: the answer is None exactly when no record has the name; otherwise it is a position holding the name with no earlier position holding it |
| LandUseData.GetSiteData | script.js:344-347 | None when the year is not in the dataset; otherwise None exactly when no record of that year has the name, and else the first record of that year with that exact name |
| LandUseData.FirstMatchAppend | script.js:346 | records appended after a match never change the position found; without a match among the first records, the first match among the appended ones is found, shifted by their offset |
| LandUseData.LaterDuplicatesNeverReturned | script.js:344-347 | adding records (duplicates of a name included) to a year never changes a lookup that already succeeded |
| LandUseData.SiteList | script.js:267-279 | the selector lists the 2020 record names, one per record, in stored order; a name is listed exactly when the 2020 lookup of it succeeds |
| CategorySelection.Remove | script.js:320 | the set's delete: the members are exactly the old ones other than the category; no duplicates are introduced; one fewer element when it was present; nothing changes when it was absent; when it was present the result is the old sequence with that one position cut out, so the others keep their order |
| CategorySelection.Toggle | script.js:318-325 | the category is selected afterwards exactly when it was not before; every other category keeps its membership; no duplicates arise; an unselected category is appended at the end; a selected one is cut out of its position, the others keeping their order |
| LandUseData.CategoryIdInjective | script.js:6-8 | distinct categories have distinct identifiers, so the set of identifier strings the source keeps and the set of categories the model keeps correspond one to one |
| CategorySelection.ToggleTwice | script.js:318-325 | toggling the same category twice restores every membership; the sequence is unchanged when the category was unselected, and otherwise the category moves to the end |
| Derivations.SeriesValue | script.js:392-395 | a chart value is 0 when the site has no record that year; otherwise it is the record's percent for the category read with the `|| 0` default, and a non-zero value is the stored field |
| Derivations.BuildSeries | script.js:387-407 | one dataset per selected category, in the selection's order, each labelled with the category's label and holding exactly three values, the k-th being the series value of the k-th survey year |
| Derivations.AreaChange | script.js:620-622 | for a non-zero 2020 total the change times the 2020 total is 100 times the difference of the totals; with a positive 2020 total it is positive exactly when the area grew and negative exactly when it shrank |
| Derivations.PercentChange | script.js:572-574 | the timeline's change is 0 when the previous total is 0, and otherwise the percent change of the total from the previous year |
| Derivations.ChangeClass | script.js:579 | the class is "positive" exactly when the change is positive, "negative" exactly when it is negative, and "" exactly when it is 0 |
| Derivations.Timeline | script.js:551-589 | a timeline exists exactly when the site has a record in all three years; then it has three items in year order with their totals, the 2020 item is the baseline with class "", and each later item carries the guarded change from the year before with the class of its sign |
| Derivations.TimelineClassFollowsGrowth | script.js:572-579 | when the previous total is positive, an item is "positive" exactly when the total grew and "negative" exactly when it shrank |
| Derivations.ScanIsFirstMaximum | script.js:633-651 | the strict `>` scan from maximum 0 and label "" ends with a maximum that is at least 0 and not below any scanned value; a positive maximum is reached by a scanned position whose label it carries, and that is the first position reaching it; the label is "" exactly when the maximum is 0 |
| Derivations.DominantIsFirstMaximum | script.js:625-651 | the dominant category's percent is the largest of the five scanned; the result is label "" with maximum 0 exactly when no scanned percent exceeds 0; otherwise it is the first scanned category reaching the maximum |
| Derivations.FloodVegetationAndBareGroundNeverDominant | script.js:625-631 | Flood Vegetation and Bare Ground are never the dominant category |
| Derivations.ScanTieGoesToEarlier | script.js:638-650 | with distinct labels, of two scanned positions with equal values the later one never supplies the result's label |
| Derivations.TieGoesToEarlierCandidate | script.js:642-650 | of two scanned categories with equal percents, the later one is never dominant |
| Derivations.ScanDominant | script.js:633-651 | the single loop yields, for 2020 and for 2024 alike, the maximum and label that the dominance scan specifies |
| Derivations.SumSelected | script.js:654-667 | the accumulation loop yields the sum of the selected categories' 2024 percents, absent fields counting 0, without clamping |
| Derivations.SelectedSumNonNegative | script.js:665-667 | when every selected category's percent is non-negative, so is the total |
| Derivations.SelectedSumRemove | script.js:320 | deselecting a selected category lowers the total by exactly its percent |
| Derivations.ToggleTwiceKeepsSelectedSum | script.js:318-325 | toggling a category twice leaves the selected total unchanged, although the order of the selection may change |
| Derivations.Narrate | script.js:614-667 | no summary unless the site has a 2020 and a 2024 record; otherwise the 2024 total, the area change (None where the 2020 total is 0 and the source's division yields no finite number), both dominant categories and the selected total |
| Derivations.PercentMap | script.js:349-363 | the cards' percents exist exactly when the site has a 2024 record; then every category has one, equal to the 2024 value of that category's chart series |
| Derivations.SelectedSumMatchesPercentMap | script.js:354-362 | the narrative's selected total equals the sum of the selected categories' card percents |
| Visualizer.LandUseVisualizer.constructor | script.js:2-8 | a new dashboard holds the given dataset, no chosen site and all seven categories selected in their fixed order |
| Visualizer.LandUseVisualizer.SiteOptions | script.js:267-279 | the selector's options are the 2020 names, each of which has a 2020 record |
| Visualizer.LandUseVisualizer.SelectSite | script.js:334-336 | the change handler stores the selector's value; a site counts as chosen exactly when that value is not empty |
| Visualizer.LandUseVisualizer.ToggleCategory | script.js:318-325 | the selection becomes the toggle of the old one: the category's membership flips, every other category's stays, and the selection keeps no duplicates |
| Visualizer.LandUseVisualizer.UpdateVisualization | script.js:373-407 | nothing without a chosen site; otherwise one three-year series per selected category, in order, labelled with the category's label, with the series values of that site |
| Visualizer.LandUseVisualizer.UpdateTimeline | script.js:547-589 | the timeline of the chosen site; nothing without one |
| Visualizer.LandUseVisualizer.UpdateCategoryPercentages | script.js:349-363 | card percents exist exactly when a site is chosen and it has a 2024 record; then each category's is its 2024 percent read with the `|| 0` default |
| Visualizer.LandUseVisualizer.UpdateNarrative | script.js:592-667 | the welcome view without a chosen site; nothing new when the site lacks a 2020 or a 2024 record; otherwise the summary of the site: its 2024 total, the area change from 2020 (None for a zero 2020 total), both dominant categories and the total of the current selection |

## Left out

- The page itself: element lookups, `innerHTML` templates, option elements, category cards and event-listener wiring. The update methods return the values the page would show instead of writing them.
- The re-rendering that `toggleCategory` and the change handler trigger: the model's update methods are queries on the state, so a caller asks them again after a change.
- Chart.js construction and options, and the data-labels plugin: a foreign library. Chart colours, border widths and bar sizes of each dataset are presentation only.
- The icon and colour maps: static presentation data without behaviour.
- `toFixed` formatting, the "+" prefix of positive changes, `Math.abs`, and the comparison of the formatted area change (a string) with 0 that chooses "growth" or "reduction": display formatting and JavaScript coercion; the model keeps the numeric values.
- Floating point: numbers are `real`, so there is no rounding, no `NaN` and no `Infinity`.
- Derivations.Narrate: where the source divides by a zero 2020 total and shows `NaN` or `Infinity`, the model records None instead of a value.
- The sample records embedded in the constructor: the dataset is a constructor parameter, so the properties are stated for any dataset, with the one exception below.
- LandUseData.SiteList (and Visualizer.LandUseVisualizer.SiteOptions) requires the dataset to hold a "2020" entry: without one the source's site selector reads a missing array and throws a TypeError, which the model does not reproduce.
- A field holding a non-numeric value: every stored field is a number in the model, as in the embedded data.
- Field-alias resolution and the remapping of a "Class 11" column to rangeland: the modelled file has neither; its records already use the canonical keys.
