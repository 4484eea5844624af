# Personal finance ledger: aggregation core and category registry

A Dafny model of the two data components of a personal finance tracker.

- **Transaction store** (`utils/data_manager.py`, class `DataManager`): an append-only
  log of `{date, amount, category, type}` records. The log can be read back whole. It
  can also be summarised for a period string:
  - every record gets an integer bucket: its ISO 8601 week number for `"week"`, its
    month for `"month"`, and its year for any other string;
  - expense records and income records are then grouped separately by
    `(bucket, category)`, and the amounts in each group are summed.
- **Custom category registry** (`utils/custom_categories.py`, class
  `CustomCategoryManager`): a map from a category name to its icon and color. It
  supports insert-or-overwrite, a whole-map read, and a single lookup that gives
  `None` for an absent name.

Files:

- `calendar.dfy` (module `Calendar`): dates, day numbers and weekdays in the
  proleptic Gregorian calendar.
  - `IsoWeek` follows the definition of ISO 8601:2004 (section 3.2.2, calendar week;
    section 4.1.4, week date): a week belongs to the year that holds its Thursday.
  - `IsoWeekByDayOfYear` is a second formulation that works from the day of the year
    and the weekday. The two are proved equal.
- `aggregation.dfy` (module `Aggregation`): the record type, bucketing, and the
  group-by-sum `GroupSum` with its specification lemmas.
  - `GroupSum` folds the log into rows. The rows stay strictly ascending by
    `(bucket, category)`, which is the order of a sorted group-by. It follows that no
    key appears twice.
- `store.dfy` (module `Store`): the summary pair (`Summarize`) and the class
  `TransactionStore`. The persisted CSV file is the field `log: seq<Transaction>`.
- `categories.dfy` (module `Categories`): the class `CategoryRegistry`. The persisted
  JSON file is the field `categories: map<string, CategoryInfo>`.
- `wrappers.dfy` (module `Wrappers`): `Option`.

Modelling choices:

- Amounts are exact integers (think cents).
- A record's `type` column is the field `kind` (`type` is a Dafny keyword). It stays a
  free string, because `add_transaction` stores whatever string it is given. Records
  whose type is neither `"expense"` nor `"income"` appear in neither summary table.
- Dates are validated `(year, month, day)` values with years 1 to 9999, which is the
  range of Python's `datetime.date` (`MINYEAR` to `MAXYEAR`).
- Category order in the summary rows is Python's `str` ordering: lexicographic by
  code point.
- Both constructors take the persisted state as an `Option`. The source creates an
  empty file only when none exists, so an existing file is kept. `None` gives the
  empty log or the empty map.

## Model

| member | source | states |
|---|---|---|
| `Calendar.IsoWeek` | utils/data_manager.py:36-37 | The week bucket is the ISO 8601 week number, always in 1..53. |
| `Calendar.IsoYear` | utils/data_manager.py:36-37 | A date's ISO week-numbering year is the calendar year that holds the Thursday of its Monday-to-Sunday week. That year is the date's own year or one of its two neighbours. |
| `Calendar.IsoWeekFormulationsAgree` | utils/data_manager.py:36-37 | The day-of-year and weekday computation of the week number equals the ISO 8601 definition on every valid date. |
| `Calendar.SameWeekSameNumber` | utils/data_manager.py:36-37 | All days of one Monday-to-Sunday week get the same ISO year and week number, also across a year boundary. |
| `Calendar.FourthOfJanuaryIsWeekOne` | utils/data_manager.py:36-37 | January 4 is always in week 1 of its own year. |
| `Calendar.TwentyEighthOfDecemberIsLastWeek` | utils/data_manager.py:36-37 | December 28 is always in week 52 or 53 of its own year. |
| `Calendar.LateDecemberOpensNextYear` | utils/data_manager.py:36-37 | 2024-12-30 is in week 1, the first week of ISO year 2025. |
| `Calendar.EarlyJanuaryClosesPreviousYear` | utils/data_manager.py:36-37 | 2021-01-01 is in week 53 of ISO year 2020. |
| `Aggregation.PeriodKey` | utils/data_manager.py:36-41 | The bucket is in 1..53 for "week" and in 1..12 for "month". Every other period string gives the date's year. |
| `Aggregation.GroupSum` | utils/data_manager.py:44-45 | The summary rows of one type have strictly ascending (bucket, category) keys. |
| `Aggregation.AccumulateLookup` | utils/data_manager.py:44-45 | Folding one record into ascending rows adds its amount to its own group, creating the group if absent. Every other group keeps its amount or stays absent. |
| `Aggregation.GroupSumLookup` | utils/data_manager.py:44-45 | A (bucket, category) group has a row if and only if some record of the type falls into it. The row's amount is the sum of the amounts of exactly those records. |
| `Aggregation.GroupSumRows` | utils/data_manager.py:44-45 | Every row is backed by at least one matching record, so no group is zero-filled. Its amount is that group's total, and no two rows share a key. |
| `Aggregation.GroupSumCoversLog` | utils/data_manager.py:44-45 | Every record of the type is counted in the row of its own (bucket, category). |
| `Aggregation.GroupSumConserves` | utils/data_manager.py:44-45 | The row amounts add up to the total amount of all records of the type. |
| `Aggregation.GroupSumOnlyOfKind` | utils/data_manager.py:44-45 | The rows for a type equal the rows computed from the records of that type alone. |
| `Aggregation.GroupSumNoneOfKind` | utils/data_manager.py:44-45 | With no record of the type, the result is empty. |
| `Aggregation.GroupSumPositive` | utils/data_manager.py:44-45 | When every amount is positive, as the entry form's `amount > 0` guard ensures, every row amount is positive. |
| `Store.Summarize` | utils/data_manager.py:33-47 | Both tables are sorted by key. The expense rows add up to the expense total and the income rows to the income total. An empty log gives two empty tables. |
| `Store.SummarizeIgnoresOtherTypes` | utils/data_manager.py:44-45 | Appending a record whose type is neither "expense" nor "income" leaves both tables unchanged. |
| `Store.SameBucketOneRow` | utils/data_manager.py:36-45 | Two expense records with the same bucket and category give one row holding their sum, however their dates otherwise differ. |
| `Store.MonthBucketMergesYears` | utils/data_manager.py:38-45 | Under "month", January 2023 and January 2024 expenses in one category merge into one row. |
| `Store.MonthlySummaryExample` | utils/data_manager.py:33-47 | For the four-record example (Food in January and February, Salary in January), the month summary is exactly Food 150 in month 1 and Food 200 in month 2 for expenses, and Salary 1000 in month 1 for income. |
| `Store.TransactionStore.constructor` | utils/data_manager.py:6-15 | Opening the store keeps an existing persisted log. With nothing persisted, the log starts empty. |
| `Store.TransactionStore.AddTransaction` | utils/data_manager.py:17-26 | The log grows by exactly the given record at its end. The earlier records are unchanged and in the same order. |
| `Store.TransactionStore.GetTransactions` | utils/data_manager.py:28-31 | Returns the whole log in insertion order, with nothing filtered or reordered. |
| `Store.TransactionStore.GetSummary` | utils/data_manager.py:33-47 | The summary of the stored log. An empty store gives two empty tables. |
| `Categories.Put` | utils/custom_categories.py:21-26 | After insert-or-overwrite, the name maps to the given icon and color, and no other entry changes. The number of entries grows by one exactly when the name was new, so overwriting keeps the size. |
| `Categories.PutIdempotent` | utils/custom_categories.py:23-26 | Adding the same (name, icon, color) twice gives the same map as adding it once. |
| `Categories.PutOverwrites` | utils/custom_categories.py:23-26 | The second of two writes to one name wins. |
| `Categories.CategoryRegistry.constructor` | utils/custom_categories.py:6-15 | Opening the registry keeps an existing persisted map. With nothing persisted, it starts as the empty map. |
| `Categories.CategoryRegistry.GetCustomCategories` | utils/custom_categories.py:17-19 | Returns the whole map. A name is a key of it exactly when the single lookup finds it. |
| `Categories.CategoryRegistry.AddCustomCategory` | utils/custom_categories.py:21-28 | The new map is the old one with the name set to the given icon and color. Any name is accepted, including an empty one or a built-in one. |
| `Categories.CategoryRegistry.GetCategory` | utils/custom_categories.py:30-32 | Returns the entry when the name is a key and None otherwise. It reads the map without changing it. |

## Left out

- File I/O is not modelled: the directory creation, the CSV and JSON reads and
  writes, and their failures. The persisted files are replaced by the in-memory
  fields, and serialisation is taken to round-trip exactly.
- Date-string parsing when the log is read back is not modelled. Dates are already
  structured values.
- Floating-point amounts are not modelled. The entry form reads a float; the model
  sums exact integers, so float rounding in the sums is not captured.
- The date-typed library behind the bucketing admits a narrower range of years than
  1 to 9999. The model does not capture that limit.
- A CSV round trip turns an empty category or type string, or one spelled like a
  missing value (such as "NA"), into a missing value. A grouped sum then drops that
  record. The model keeps every string as a key.
- A CSV round trip also reads the category column back as numbers when every category
  in the log looks numeric. Then "1" and "01" fall into one group, and "9" sorts before
  "10". The model keeps categories as strings, so its grouping and its `StrLess` order
  hold only for categories that read back as strings.
- The summary tables are data frames with columns period, category and amount. The
  model gives them as sequences of `Row` values, in the same row order when the
  categories read back as strings.
- `get_summary`'s default period `'month'` is not modelled. Callers pass the period
  explicitly.
- The Streamlit user interface (`main.py`) is not modelled, except that its
  `amount > 0` guard is the hypothesis of `GroupSumPositive`.
- Chart construction (`utils/charts.py`) is not modelled: it only builds Plotly figures.
- The built-in category icon and color table is not modelled: its file,
  `assets/category_icons`, is not part of this model.
- Concurrent writers racing on the files are not modelled. Every operation here is
  one atomic step.
