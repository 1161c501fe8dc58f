# Productions report: date defaults, day buckets and the report wizard

A Dafny model of the logic in `production.py` of the Tryton module
`production_report`. That module prints the manufacturing productions
planned over a range of days. A wizard asks for a start and an end date.
By default these are the Monday and the Saturday of the current week. The
report then fetches the productions planned in that range, leaving out
those in state `request` or `cancel`. It lists every day of the range, and
for each day the productions planned on it.

Days are proleptic Gregorian day ordinals, numbered as Python's
`date.toordinal` numbers them. Day 1 is 0001-01-01, a Monday, so
`ordinal % 7` is 1 on Mondays, 6 on Saturdays and 0 on Sundays. "Today" is
a parameter.

Modules, one file each:

- `Ordinals` (`ordinals.dfy`): the ordinal range that `date.fromordinal`
  accepts (1 to 3652059, that is up to 9999-12-31) and its ValueError.
- `WizardStart` (`wizard_start.dfy`): the default start and end dates of
  the wizard's start view.
- `ReportWizard` (`report_wizard.dfy`): the wizard's states and buttons,
  `do_generate` and `transition_generate`.
- `Productions` (`productions.dfy`): a production record (id, planned date,
  state), the report query's search domain, and the per-day selection used
  to state what each bucket holds.
- `Grouping` (`grouping.dfy`): the Python built-ins `parse` groups with.
  These are `sorted` (a stable insertion sort), `itertools.groupby`
  (maximal runs of one date) and `dict` over pairs, where a later pair
  overrides an earlier one.
- `ProductionsReport` (`productions_report.dfy`): `parse` as a pure
  function `Parse` returning the day list and the day-to-productions map.
  It also holds `ParseInto`, a method that puts both into a caller-owned
  `LocalContext` object in place.

The main results:

- The default start date is always a Monday. It is the only Monday among
  the seven days ending today.
- The default end date is the Saturday five days after that Monday. On a
  Sunday, both defaults therefore fall on the week that ended the day
  before.
- The day list runs from start to end, one day apart, and is empty when
  the range is inverted.
- The map's keys are exactly the listed days.
- Each day's bucket holds exactly the queried productions planned that day,
  in query order.
- Each reported production is in one bucket only, and the bucket sizes add
  up to the number of productions the query returned.

Because `Parse` is a function of its inputs, running it twice on the same
inputs gives equal results.

Where the description of the module and its code differ, the model follows
the code:

- The code derives the end date through `date.fromordinal` from the same
  week as the start date. For today in 9999-12-27 to 9999-12-31 (Monday to
  Friday of the last representable week), that Saturday does not exist and
  `date.fromordinal` raises ValueError. `DefaultEndDate` returns
  `OutOfRange` there.
- The empty-bucket map is built with `dict.fromkeys(dates, [])`, so all
  days share one list object. Nothing mutates that list later, because the
  update only replaces values. A value map is therefore the same thing.

## Model

| member | source | states |
|---|---|---|
| WizardStart.DefaultStartDate | production.py:116-126 | never fails; is a Monday; lies among the seven days ending today |
| WizardStart.DefaultEndDate | production.py:128-138 | succeeds exactly when today is at most 9999-12-26; is a Saturday between yesterday and five days ahead |
| WizardStart.DefaultStartIsTheWeeksMonday | production.py:121-126 | any Monday among the seven days ending today is the default start date |
| WizardStart.DefaultEndIsTheWeeksSaturday | production.py:133-138 | any Saturday from yesterday to five days ahead is the default end date |
| WizardStart.DefaultWeek | production.py:121-138 | end = start + 5; Monday to Saturday the week contains today; on a Sunday start = today - 6 and end = today - 1 |
| WizardStart.WeekOfJune3rd2024 | production.py:121-138 | for Wednesday 2024-06-05 and Sunday 2024-06-09 the defaults are 2024-06-03 and 2024-06-08 |
| ReportWizard.DoGenerate | production.py:156-164 | returns the action unchanged and parameters with exactly the keys start_date and end_date, holding the start view's dates |
| ReportWizard.RunWizard | production.py:145-167 | every run stops in the end state; the report is launched once, with the start view's dates, exactly when Generate was pressed, and never after Cancel |
| Productions.Search | production.py:74-78 | a record is returned exactly when the store holds it, it is planned within start..end inclusive, and its state is neither request nor cancel |
| Productions.SearchKeepsOrder | production.py:74-78 | the query result is a subsequence of the store's records |
| Grouping.SortByDateSortsAndPermutes | production.py:93 | the result is ordered by planned date and is a permutation of the input |
| Grouping.SortByDateIsStable | production.py:93 | for every day, the records of that day keep their relative order through the sort |
| Grouping.GroupBy | production.py:92-95 | the groups concatenate back to the input; each is non-empty and shares one date; neighbouring groups differ in date |
| Grouping.GroupBySorted | production.py:91-96 | on date-sorted input the group dates ascend strictly, cover exactly the input's dates, and each group is all the records of its day in order |
| Grouping.ToDictKeys | production.py:91 | dict() over the pairs has exactly the pairs' keys |
| Grouping.ToDictValues | production.py:91 | when each pair holds the records of its own day, dict() maps every key to those records, whichever pair for that key comes last |
| Grouping.GroupedByDateSpec | production.py:91-96 | the grouped map's keys are the days some record is planned on; under each, the records of that day in input order |
| ProductionsReport.DaysBetween | production.py:79-83 | end - start + 1 days (none when end < start), ascending by one day, first start and last end; exactly the days from start to end |
| ProductionsReport.ParseBuckets | production.py:74-98 | the map's keys are exactly the listed days; each day maps to the queried records planned that day, in query order, and days without any map to the empty list |
| ProductionsReport.ParseMembership | production.py:74-98 | a record is in day d's bucket exactly when it is stored, planned on d, within the window and not in an excluded state |
| ProductionsReport.ParseKeepsOrder | production.py:74-98 | every day from start to end has a bucket, and that bucket is a subsequence of the store's records |
| ProductionsReport.ParseCount | production.py:87-98 | every listed day is a key, and the bucket sizes summed over the days equal the number of records the query returned |
| ProductionsReport.OneProductionWeek | production.py:74-98 | for 2024-06-03..2024-06-08 and one done production on 2024-06-05, that day's bucket holds it and the other five days are empty |
| ProductionsReport.WizardLaunchesReport | production.py:156-164 | the parameters the wizard launches the report with hold both keys parse reads, and the report's days are the start view's range |
| ProductionsReport.ParseInto | production.py:70-103 | a missing start_date or end_date (looked up in that order) is a KeyError that leaves the context unchanged; otherwise the context gains productions_by_date and dates from Parse, and nothing else in it changes |

## Left out

- `ReportMixin.wkhtml_to_pdf` (production.py:31-54): it looks up the company in the session and hands the HTML to the external wkhtmltopdf renderer. Its only local logic is a fixed options dictionary.
- The call to the inherited `parse` (production.py:104-106), which renders the template. Rendering is external.
- `Production.search` as a database query: only its domain is modelled, as a filter over the store's records taken in the order the store returns them. Access rules and active-record filtering are not modelled.
- Records whose planned date is empty: they never satisfy the query's date comparisons, so the record model has no empty planned date.
- `date.today()` and the conversion between ordinals and year/month/day: today is a parameter, and every date stays an ordinal.
- The sharing of one empty list by `dict.fromkeys` (production.py:87): nothing mutates that list, so a value map gives the same contents.
- The object identity of the lists in the result: the map holds values.
- `__init__.py`: framework registration only.
- The field and button declarations (production.py:109-114, 145-154) beyond where each button leads. The requirement that both date fields be filled is enforced by the client before the wizard runs, so the start view always holds two dates.
- `ProductionReport` (production.py:57-61): a report class without logic of its own.
