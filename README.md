# Looker Studio reports for Odoo CRM — a Dafny model

This project models the report engine of the Looker Studio Odoo module (`models/report.py`). The engine has two report records.

- **`looker_studio.report`** always reads `crm.lead`. It is modelled as the class `LookerReports.LookerReport`, whose fields are the stored report settings. Its operations are:
  - it resolves the effective search domain: the filter text, then the time window, then the caller's extra predicates;
  - it builds chart data: grouped counts joined with grouped sums by group id, a stable top-N cut by sum or count, the single `'All'` row without a group field, and a monthly series;
  - it computes the KPI block (counts and won/lost/conversion rates);
  - it reads the detail listing;
  - it writes the auto-generated Vietnamese description;
  - it offers the group-by and value-field choices.
- **`looker_studio.activity_report`** reads `mail.activity`. It is modelled as the value `ActivityReports.ActivityReport`, because none of its operations update a field. Its operations are:
  - it counts activities, with one card per activity type and an optional grouping;
  - it reads a detail listing whose records attached to leads are enriched in place with the lead's salesperson.

The record store is represented by the `RecordStore.Store` datatype: a record of query functions (`read_group`, the period-grouped `read_group`, `search_count`, `search_read`). Each returns `None` where the call raises, so every `try`/`except` in the source becomes an explicit `None` branch. Domain parsing (`safe_eval`) is a parameter `parse` returning `None` on rejection. The current date (`context_today`) is a parameter `today`. The field metadata (`ir.model.fields`) is a map from field name to description, or a sequence of `FieldMeta`.

The operations whose source works step by step are methods, each proved equal to a specification function:
- methods with loops: `BuildSumMap`, `BuildEntries`, `Columns`, `BuildSeries`, `FieldChoices`, `ActivityReports.BuildTypeCounts` and `ActivityReports.BuildGroupColumns`;
- `ActivityReports.Enrich`, a loop that updates an `array` of records in place;
- straight-line methods that call the loop methods above: `LookerReport.GetChartData` (through `GroupedBars` and `UngroupedBars`), `ActivityReports.GetData` and `ActivityReports.GetDetailData` (through `EnrichRecords`);
- `LookerReport.ComputeDescription`, a straight-line method that updates the stored `description` field.

The properties are then proved about those functions, mostly in `ChartProperties` and in the lemmas beside each function.

Modules (one per file):
- `Wrappers`: `Option`.
- `Calendar`: dates and `relativedelta` month steps.
- `Domains`: domain terms, `_eval_domain`, `_get_time_domain`, the effective domain.
- `RecordStore`: group keys, rows, the store.
- `Grouping`: the join, labels, the sum map, the stable sort, top N, the columns.
- `Kpis`: the percentages.
- `Descriptions`: field labels, description texts, field choices.
- `LookerReports`: the lead report.
- `ChartProperties`: chart guarantees.
- `ActivityReports`: the activity report.

## Model

| member | source | states |
|---|---|---|
| Calendar.SubMonths | models/report.py:157-160 | `today - relativedelta(months=n)` lands exactly n months earlier, with the day clamped to the length of the month reached |
| Calendar.YearStart | models/report.py:162 | the same year, month 1, day 1; not after the date |
| Calendar.YearEnd | models/report.py:163 | the same year, month 12, day 31; not before the date |
| Calendar.SubMonthsNotAfter | models/report.py:157-160 | the start of a last-3/6-months window is never after today, and strictly before it |
| Calendar.SubThenAddMonths | models/report.py:158-160 | for a day 1..28, stepping n months back and n forward returns the same date (no clamping happens) |
| Calendar.SubMonthsClampsDay | models/report.py:158-160 | worked clamps: 31 May 2025 minus 3 months is 28 Feb 2025; 31 Aug 2024 minus 6 months is 29 Feb 2024 |
| Domains.EvalDomain | models/report.py:109-115 | the filter domain is empty for an empty filter text or a text the evaluator rejects, and is the evaluated domain otherwise |
| Domains.TimeDomain | models/report.py:149-170 | this year is 1 Jan..31 Dec of today's year; last 3/6 months is [today − n months, today]; custom gives a window exactly when both dates are set; no filter gives no predicate |
| Domains.EffectiveDomain | models/report.py:180-184 | the query domain is the filter domain, then the time window, then the extra predicates, each one intact in its slice |
| Domains.RelativeWindowContainsToday | models/report.py:157-169 | every relative window is two dated `create_date` bounds with start ≤ today ≤ end |
| Grouping.JoinId | models/report.py:205-213 | a pair joins by its id alone, every text (the empty one included) by itself, and a `False` key as `NoId` |
| Grouping.JoinIdIdentifiesGroup | models/report.py:205-213 | two group keys join in `sum_map` exactly when they are pairs with the same id (whatever their names), the same text, or both `False` (`Falsy`) |
| Grouping.Label | models/report.py:214 | a pair shows its display name, a truthy key itself, a falsy key `'Undefined'` |
| Grouping.SumMapOf | models/report.py:198-208 | every sum row's group id is a key of the map, and the last row's id maps to the last row's value |
| Grouping.SumMapOfLastRow | models/report.py:205-208 | a group id is in the sum map exactly when some sum row has it, and it maps to the value of the last such row |
| Grouping.BuildSumMap | models/report.py:198-208 | the loop builds exactly the sum map `SumMapOf` of the rows |
| Grouping.EntryOf | models/report.py:211-217 | an entry carries the row's join id, label and count; its sum is the joined sum, else 0.0 with a value field, else the count |
| Grouping.BuildEntries | models/report.py:210-217 | one entry per grouped-count row, in query order, each `EntryOf` the row |
| Grouping.EntriesOf | models/report.py:210-217 | one entry per row, pointwise `EntryOf` |
| Grouping.InsertDesc | models/report.py:222 | insertion lengthens the sequence by one |
| Grouping.InsertDescPermutes | models/report.py:222 | insertion adds exactly the one element (multiset) |
| Grouping.SortDesc | models/report.py:222 | the descending sort is a permutation of its input |
| Grouping.InsertDescSorted | models/report.py:222 | insertion keeps a sequence in decreasing key order |
| Grouping.InsertDescWithKey | models/report.py:222 | the inserted element goes ahead of every element with an equal key |
| Grouping.SortDescIsStable | models/report.py:222 | `sorted(..., reverse=True)` yields decreasing keys and keeps the input order among equal keys |
| Grouping.WithKeyOfPrefix | models/report.py:222 | the entries of one key kept in a prefix are a prefix of those in the whole |
| Grouping.SuffixBelowPrefix | models/report.py:222 | in a descending sequence no entry past the first n outranks one of them |
| Grouping.TopN | models/report.py:219-222 | keeps `limit` entries when there are more than a positive limit, else all of them; the kept entries are drawn from the input (multiset inclusion) |
| Grouping.TopNTruncates | models/report.py:219-222 | above a positive limit: exactly `limit` entries, sorted descending, drawn from the input, and no dropped entry outranks a kept one |
| Grouping.TopNIsStable | models/report.py:219-222 | ties keep query order: the kept entries of each key are the first ones of that key in the input |
| Grouping.TopNKeepsOrder | models/report.py:219-220 | with no positive limit, or no more groups than it, the entries are kept as they are |
| Grouping.Columns | models/report.py:224-227 | three parallel columns, entry by entry: label, count, sum |
| Kpis.Percent | models/report.py:323 | 0 for an empty whole, never negative, at most 100 for a part of the whole, exactly 100 for the whole |
| Kpis.PercentAdds | models/report.py:323-326 | percentages of one whole add like their parts |
| Kpis.RatesOf | models/report.py:314-331 | won and lost rates are 0 without opportunities; lost and conversion lie in [0, 100]; with no leads and some opportunities the conversion is 100 |
| Kpis.WonAndLostAtMostAll | models/report.py:321-326 | when the won opportunities are among the active ones, won + lost ≤ 100 and won ≤ 100 |
| Kpis.RatesExample | models/report.py:320-326 | 10 won of 15 active with 5 lost gives a won rate of 50 and a lost rate of 25 |
| Descriptions.FieldLabel | models/report.py:82-87 | empty exactly for no field; the field's description when it has one; else its technical name |
| Descriptions.TimeFilterLabel | models/report.py:64 | the selection text of the time filter, `'thời gian'` when unset; never empty |
| Descriptions.TimeFilterLabelsDistinct | models/report.py:30-64 | distinct time filters get distinct texts, and the text is `'thời gian'` exactly when no filter is set |
| Descriptions.PieDescription | models/report.py:89-90 | with a group field the sentence starts with the distribution wording and ends with the group label and a full stop; without one it is the generic sentence |
| Descriptions.BarDescription | models/report.py:92-97 | with both fields the sentence starts `'Tổng '` and the value label, with only a group field it starts with the lead-count wording, and either way it ends with the group label and a full stop; the generic sentence without a group field |
| Descriptions.LineDescription | models/report.py:99-107 | the sentence starts with the success-percentage wording when a success domain is set, else with the value-total wording and the value label, else with the lead-count wording; it ends with the time label, the filter note exactly when a filter text is set, and a full stop |
| Descriptions.DescriptionText | models/report.py:58-79 | the sentence for the chart type names the value label (or `'Số lượng'`) and the group or time label; it ends with the filter note when a filter is set; for no chart type it is the note alone; its partner lemma `DescriptionTextShape` pins each sentence's wording |
| Descriptions.DescriptionTextShape | models/report.py:68-77 | each chart type's sentence starts with that type's own wording and the value label, and ends with the group label (bar, pie) or the time label (line), a full stop, and the filter note exactly when a filter text is set |
| Descriptions.Find | models/report.py:123 | a found field is in the metadata with that name; not found means no field has it |
| Descriptions.FieldChoices | models/report.py:117-147 | the loops build the preferred candidates that exist (type-checked for values), or else every field of an accepted type |
| Descriptions.PreferredAreCandidates | models/report.py:120-125 | each preferred choice is a candidate name of an existing field (of an accepted type when checked), and every accepted candidate is offered; the list is empty exactly when no candidate is accepted |
| Descriptions.FallbackAreTyped | models/report.py:126-130 | each fallback choice is a field of an accepted type, and every such field is offered; the list is empty exactly when there is no such field |
| Descriptions.ValueChoicesAreNumeric | models/report.py:134-147 | every value-field choice is an integer, float or monetary field, and every preferred numeric field is offered; the list is empty only when the lead model has none |
| Descriptions.GroupChoicesFallBack | models/report.py:118-131 | with any preferred group field present only candidates are offered; with none the char/selection/many2one fallback is |
| LookerReports.DetailFields | models/report.py:353-357 | the fixed field list, plus the group field exactly when it is set, not listed yet and a field of the model; no duplicates are introduced |
| LookerReports.DetailLimit | models/report.py:359 | `limit or 100`: a zero limit reads 100 records, any other limit passes through; never 0 |
| LookerReports.BuildSeries | models/report.py:254-269 | one line label and one value per period row, in order: the period's sum (`None` read as 0.0) or its count |
| LookerReports.LeadDetailFieldsDistinct | models/report.py:353 | the fixed detail field list has no duplicates |
| LookerReports.BarsOf | models/report.py:190-237 | with a group field the bar part never fails; its three lists are always parallel |
| LookerReports.GroupedBars | models/report.py:191-227 | the grouped branch computes the top groups of `BarsOf`, failed queries read as no rows |
| LookerReports.UngroupedBars | models/report.py:228-237 | the ungrouped branch computes `BarsOf`: the `'All'` row, or a failure when a query raises |
| LookerReports.ChartDataOf | models/report.py:172-280 | the bar and line lists are parallel; a failing bar part gives the empty chart; otherwise the bars are `BarsOf`, and the line has one label and one value per period row in store order: the period, and its sum (`None` read as 0.0) or its `__count` |
| LookerReports.LookerReport.constructor | models/report.py:22-40 | a new report is a bar chart with limit 1000 and the this-year filter, other settings unset, and its stored description is the computed one for those settings (the generic bar sentence) |
| LookerReports.LookerReport.ComputeDescription | models/report.py:49-79 | stores `DescriptionText` of the current settings in `description` and changes nothing else |
| LookerReports.LookerReport.GetChartData | models/report.py:172-280 | the result is `ChartDataOf` the report's settings; the three bar lists and the two line lists are parallel |
| LookerReports.LookerReport.KpiData | models/report.py:290-341 | succeeds exactly when all five store calls do; the counts come from the lead, active-opportunity and lost (inactive included) queries; total opportunities = active + lost; the three rates are `RatesOf` the four counts; the forecast is 0.0 with no row, else the first row's value; rate guards and bounds; won + lost ≤ 100 when won ≤ active |
| LookerReports.LookerReport.DetailData | models/report.py:343-362 | the listing is the store's answer for the report's domain, newest first, inactive leads included; the fields are distinct, start with the fixed detail fields and add the group field exactly when it is set, not listed yet and a field of the model; the limit is the report's, or 100 when it is 0, never 0 |
| ChartProperties.UngroupedChart | models/report.py:228-269 | without a group field: one `'All'` row with the record count and the overall sum (0.0 when absent) or the count, and one line point per period row (its period, and its sum or count); a failing query empties all five lists |
| ChartProperties.GroupedChartNeverEmptiedByFailure | models/report.py:190-269 | with a group field, failures are absorbed by the inner handlers: the bars are the top groups of what the grouped queries gave (no rows for a failed one) and the line has one point per period row, in store order: its period, and its sum (`None` read as 0.0) or its count |
| ChartProperties.EntryJoinsSum | models/report.py:198-217 | each entry of the full answer has its count row's label and count, and its sum is the last matching sum row's value, 0.0 when none matches, or its count without a value field |
| ChartProperties.ChartKeepsAllGroups | models/report.py:210-227 | pass-through case: every grouped-count row appears in query order, with its label, count and joined sum |
| ChartProperties.AllEntriesJoinSums | models/report.py:198-217 | every entry of the full answer joins its sum with its own count row |
| ChartProperties.SubEntriesJoinSums | models/report.py:219-222 | entries drawn from joined entries stay joined |
| ChartProperties.KeptEntriesJoinSums | models/report.py:198-222 | every entry kept by the top-N cut is some count row, with its label, count and joined sum |
| ChartProperties.ChartJoinsSums | models/report.py:198-227 | truncated or not, every bar is some grouped-count row with that row's label and count, and its sum is the last matching sum row's value, 0.0 when none matches, or its count without a value field |
| ChartProperties.ChartTruncatesToTopGroups | models/report.py:219-227 | above the limit: exactly `limit` groups ordered by decreasing sum or count, each from the full answer, and no dropped group ranks above a kept one |
| ChartProperties.ChartSumIsCountWithoutValueField | models/report.py:215-216 | without a value field every sum equals its count, truncated or not |
| ActivityReports.TypeCountOf | models/report.py:441-451 | a pair key gives its display name with its count; a falsy key gives `'Undefined'`; a row without `__count` fails |
| ActivityReports.TypeCountsOf | models/report.py:440-451 | when the cards succeed there is one per row, the last being the last row's card |
| ActivityReports.TypeCountsOnePerRow | models/report.py:440-451 | the cards succeed exactly when every row does, and then there is one per row, in order |
| ActivityReports.BuildTypeCounts | models/report.py:440-451 | the loop computes `TypeCountsOf`, stopping at the first failing row |
| ActivityReports.BuildGroupColumns | models/report.py:454-462 | the loop computes `GroupLabels` and `GroupCounts` |
| ActivityReports.GroupLabels | models/report.py:458-461 | one label per group row, as in the chart |
| ActivityReports.GroupCounts | models/report.py:462 | one `__count` (default 0) per group row |
| ActivityReports.ActivityDataOf | models/report.py:427-478 | labels and values are parallel; a failed answer is the zero/empty error answer; a failed count fails it; a successful answer's total is the count; without a group field there are no labels |
| ActivityReports.ActivityDataAnswers | models/report.py:434-478 | the error answer exactly when a query or a card fails; otherwise the total, one card per type row, and one label and count per group |
| ActivityReports.ActivityDomainJoins | models/report.py:429-432 | the activity query domain is the filter domain followed by the time window |
| ActivityReports.GetData | models/report.py:427-478 | the loops compute `ActivityDataOf`; labels and values are parallel; a failure gives the zero/empty error answer |
| ActivityReports.LeadIds | models/report.py:498 | the collection fails exactly when some lead record lacks `res_id`; it never has more ids than records |
| ActivityReports.LeadIdsCollected | models/report.py:498 | the collected ids are exactly the `res_id`s of the lead records (each one included, and each id is one of them); there are none when no record is attached to a lead |
| ActivityReports.LeadMap | models/report.py:501 | the map's keys are exactly the lead ids, each mapped to its lead's salesperson |
| ActivityReports.EnrichRecord | models/report.py:502-504 | a lead record gains exactly the `salesperson` key, holding the lead's salesperson; other keys and non-lead records are unchanged |
| ActivityReports.EnrichAll | models/report.py:502-504 | one enriched record per record, in order |
| ActivityReports.EnrichRecords | models/report.py:499-504 | enriching the listing in place yields `EnrichAll` of it |
| ActivityReports.Enrich | models/report.py:502-504 | every array slot becomes `EnrichRecord` of its old value |
| ActivityReports.ActivityDetailOf | models/report.py:480-509 | `[]` when the read or the id collection fails; otherwise one record per record read, and the records as read when none is attached to a lead |
| ActivityReports.GetDetailData | models/report.py:480-509 | the method computes `ActivityDetailOf`: nearest deadline first, `[]` on any failure, leads enriched |
| ActivityReports.EnrichedListingTouchesLeads | models/report.py:497-504 | for any listing whose lead ids were collected, enrichment keeps the number and order of records, leaves non-lead records as read, and gives each lead record exactly the `salesperson` key with its lead's salesperson |
| ActivityReports.EnrichmentOnlyTouchesLeads | models/report.py:497-506 | the listing keeps the number and order of records; non-lead records are as read; each lead record gains its lead's salesperson and keeps every other key |

## Left out

- `action_preview` (both classes), the HTTP controllers, the templates, the JavaScript and the manifest: they are presentation and routing, not report logic.
- Logging (`_logger`) and the `error` message text of the activity error answer: the model keeps only a `failed` flag.
- `round(..., 2)` of the KPI rates: the rates are exact reals.
- Store internals: the order of grouped rows, the period label format of `create_date:month`, access rules and `active_test` filtering. These are the store's answers, passed in as `Store`.
- `safe_eval` is the parameter `parse`, and `context_today` is the parameter `today`. The `isinstance(today, str)` re-parse is not modelled, because `today` is already a date.
- The `'this_month'` branch of `get_chart_data`: a Selection field cannot hold that value, so the period is always `create_date:month`.
- `_get_activity_group_fields` is a constant list for the form. The activity report's group field is any text.
- Domain terms are data: `Connective` terms and values are kept as given, not evaluated.
- Group keys of other shapes (an empty or one-element tuple, integer or float scalars) are not modelled. Keys are `(id, name)` pairs, texts or `False`, as for the char, selection and many2one fields offered.
- `LookerReports.LookerReport.KpiData`: a missing `expected_revenue` key on the forecast row (a `KeyError`) is folded into `forecast == None`, not into a failure.
- `LookerReports.LookerReport.GetChartData`: only the store calls can fail. A raise from `float()`, `str()` or the sort is not modelled.
- `ActivityReports.GetDetailData`: the salesperson lookup is a total function `leadUser`. Reading a deleted lead is not a failure here.
- `Calendar.SubMonths`: dates before year 1 (Python's `MINYEAR` error) are not modelled.
- The inner `label()` of `_compute_description` is identical to `_crm_field_label` and is modelled once, as `Descriptions.FieldLabel`.
- The activity report's `_eval_domain` and `_get_time_domain` (lines 394-425) are identical to the lead report's and reuse `Domains.EvalDomain` and `Domains.TimeDomain`.
- The deprecated fields `pie_description`, `line_description` and `bar_description` are not stored; `_build_*_description` are modelled as functions only.
- `LookerReports.LookerReport.ComputeDescription`: the `@api.depends` trigger (lines 40 and 49) that recomputes the stored description whenever the group field, value field, domain, time filter or chart type changes is not modelled; the method is called explicitly, and the constructor stores the computed description of the default settings directly.
- `Domains.EvalDomain`: a filter text that `safe_eval` accepts but that is not a list (such as `None`, `1` or `{}`) makes `domain + time_domain` raise outside every `try` (lines 182, 296, 348, 432 and 485), so all five entry points raise. In the model `parse` returns a domain or nothing, so the filter can only fail open.
