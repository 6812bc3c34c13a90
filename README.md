# Vacancy salary statistics: a Dafny model

This project models the salary-estimation and aggregation core of a tool that
compares programming-language salaries on two Russian job boards, HeadHunter
(hh.ru) and SuperJob (superjob.ru). The repository holds two generations of
that core, and the model covers both, because their rules differ.

- **First generation (`common.py`), module `Common`.** A salary record is a
  lower bound, an upper bound and a currency, and any of them may be `None`.
  It becomes a rouble estimate. A lower bound alone is raised by 20% and an
  upper bound alone is lowered by 20%. Both bounds give their floor midpoint.
  Only the codes `'RUR'` and `'rub'` are accepted. A list of records reduces
  to (found, processed, average), where an average of 0 means "no data". The
  report keeps the rows that reach a threshold, sorted by descending average.
- **Second generation (`agregators/`), modules `Vacancies`, `Paging`,
  `Summary`, `HeadHunter`, `SuperJob`.** `Vacancy` is an immutable value with
  a fixed rate table (USD 75, EUR 80, any other currency 1) and no 20% rule.
  Each aggregator class requests pages 0, 1, 2, … of 100 items and stops after
  the first short page. An HTTP error on any page escapes the constructor. The
  class summarises its list as (found, handled, average), with `None` for
  "no data".
- **Driver (`salary.py`), module `Salary`.** For each language, the driver
  builds an aggregator per source. A language that raises an HTTP error is
  skipped. A language is stored when at least one vacancy was processed. The
  stored rows are then filtered by a threshold (100 for HeadHunter, 5 for
  SuperJob) and sorted by descending average.

How the program's features are represented:
- **Truthiness.** Python treats a payment of 0 like `None`. The predicate
  `PyValues.Truthy` over `Option<nat>` stands for this.
- **Network.** A search endpoint is a `Paging.Feed`. It holds the finite list
  of records the search would return, served in slices of 100, and the set of
  page indices whose request fails.
- **Aggregator classes.** Each class has a `vacanciesList` field, which
  `BuildVacanciesList` reassigns in a loop. `Create` stands for `__init__`,
  which may raise. It returns `None` when a page fails.
- **The HeadHunter currency bug.** `hh.py:61` passes the currency in the
  fourth position of `Vacancy(...)`, which is the `link` parameter. The model
  reproduces this literally. `Vacancies.NewVacancy` has the same parameter
  order and the same defaults, so every HeadHunter vacancy keeps currency
  `'RUR'` and rate 1 (`HeadHunter.HhVacancy`, `HeadHunter.DollarsTakenAsRoubles`).
- **Float products.** `int(x * 1.2)` and `int(x * 0.8)` are written as the
  exact integer floors `x * 12 / 10` and `x * 8 / 10`.

Four behaviours of the code are easy to misread; the model follows the code:
- A record with no currency is rejected, because `None != 'RUR'`.
- Only the exact codes `'RUR'` and `'rub'` are accepted. There is no
  case-insensitive comparison.
- A failing page aborts the whole build and the language is skipped. The
  failing page is not treated as empty.
- Over N records the loop makes `N / 100 + 1` requests, not `⌈N / 100⌉`. An
  exact multiple of 100 costs one extra, empty request.

## Model

| member | source | states |
|---|---|---|
| `Common.PredictRubSalary` | common.py:18-30 | An estimate exists exactly when the record is present, its currency is `'RUR'` or `'rub'`, and some bound is truthy. |
| `Common.PredictRubSalaryCases` | common.py:26-30 | A lower bound alone gives the floor of 1.2 times it. An upper bound alone gives the floor of 0.8 times it. Two bounds give the floor midpoint, which lies between them. |
| `Common.ZeroEstimate` | common.py:28-29 | The estimate is 0 exactly for a rouble record whose only truthy bound is an upper bound of 1. |
| `Common.ForeignCurrencyRejected` | common.py:23-25 | `'RUB'`, `'USD'` and a missing currency give `None` whatever the bounds. |
| `Common.Kept` | common.py:37-41 | The list of kept estimates is no longer than the input, and every kept estimate is positive. |
| `Common.KeptMembers` | common.py:38-41 | A value is kept exactly when it is non-zero and is the estimate of some record. |
| `Common.CalculateLanguageStatistics` | common.py:33-47 | found is the number of records. processed is the number of truthy estimates, which is at most found. The average is 0 when nothing is processed. Otherwise it is the floor mean of the kept estimates and lies between the smallest and the largest of them. |
| `Common.SelectLanguageRows` | common.py:4-13 | The rows are the header, then the input rows sorted stably by descending average and filtered by `found >= limit`. This equals filtering first and sorting afterwards. |
| `Common.Samples` | common.py:33-47 | Three samples: (100, 200, RUR) with an empty record keeps [150]; a lower bound of 1000 keeps [1200]; a USD upper bound keeps nothing. |
| `Mean.SumAtLeastEach` | common.py:46 | No element of a list of non-negative integers exceeds its `sum`. |
| `Mean.SumAppend` | common.py:41-46 | Appending a value to the list adds that value to its `sum`. |
| `Mean.FloorMeanBetween` | common.py:45-46 | The floor mean of a non-empty list lies between its minimum and its maximum. |
| `Mean.FloorMean` | common.py:45-46 | The floor mean of a non-empty list is at least its minimum and at most its maximum. |
| `Mean.SumBetween` | common.py:46 | The sum of a non-empty list lies between its length times its minimum and its length times its maximum. |
| `Ranking.SortByAverage` | common.py:8 | The stable descending sort returns as many rows as it was given. |
| `Ranking.AtLeast` | common.py:11 | The threshold filter returns no more rows than it was given, and every returned row has `found >= limit`. |
| `Ranking.SortByAverageOrders` | common.py:8 | The sorted rows are in descending order of average and are a permutation of the input. |
| `Ranking.SortByAverageIsStable` | salary.py:31-33 | Rows with equal averages keep their input order. |
| `Ranking.AtLeastKeeps` | common.py:11 | The threshold filter keeps a row exactly when `found >= limit`, as many times as it occurs in the input. |
| `Ranking.FilterCommutesWithSort` | salary.py:20-33 | Filtering then sorting, as `print_salary` does, gives the same rows as sorting then filtering, as `print_language_statistics` does. |
| `Ranking.SelectedRows` | salary.py:20-33 | The selected rows are sorted by descending average. They contain each input row with `found >= limit` exactly as often as the input does, and rows with equal averages stay in input order. |
| `Ranking.Table` | salary.py:34-35 | The header comes first, followed by one line per row, in order. |
| `Vacancies.NewVacancy` | agregators/vacancy.py:6-12 | Each field, and so each getter, returns the matching constructor argument. The defaults are `None`, `None`, `None` and `'RUR'`. |
| `Vacancies.GetCurrencyRate` | agregators/vacancy.py:14-18 | The rate is 75 for `'USD'`, 80 for `'EUR'` and 1 for any other currency. |
| `Vacancies.DefaultCurrencyRate` | agregators/vacancy.py:4-7 | A vacancy built without a currency has currency `'RUR'` and rate 1. |
| `Vacancies.FloorMidpoint` | agregators/vacancy.py:29 | Twice the midpoint is the sum of the bounds or one less, and the midpoint lies between the bounds. |
| `Vacancies.PositiveTimesRate` | agregators/vacancy.py:14-18 | Every rate in the table, and the fallback rate 1, keeps a positive amount positive. |
| `Vacancies.PredictRubSalary` | agregators/vacancy.py:20-29 | The result is `None` exactly when neither bound is truthy, and otherwise positive. A single truthy bound is multiplied by the rate with no 20% adjustment. Two bounds give their floor midpoint times the rate. |
| `Vacancies.EstimateWithinBounds` | agregators/vacancy.py:22-29 | At rate 1 the estimate lies between the smallest and the largest truthy bound. |
| `Vacancies.FloorBeforeRate` | agregators/vacancy.py:29 | The midpoint is floored before it is multiplied: USD (1, 2) gives 75. |
| `Paging.Page` | agregators/hh.py:47-48 | A page has at most 100 records. It is full exactly when the records reach its end, that is when (page + 1)·100 ≤ N. It continues the previous pages without gap or overlap. |
| `Paging.Fetch` | agregators/hh.py:47-53 | A request fails with an HTTP error exactly on a failing page. Otherwise it serves that page's slice of at most 100 records. |
| `Paging.PageShapes` | agregators/hh.py:24-26 | Every page before index `N / 100` is full. Page `N / 100` holds `N % 100` records, so it is the first short page. |
| `Paging.FetchCount` | agregators/hh.py:21-26 | At least one request is made. Without a failing page, exactly `N / 100 + 1` requests are made. |
| `Paging.Drive` | agregators/hh.py:19-26 | The page loop makes at least one request. When it completes from a page, it returns exactly the records from that page's start to the end. |
| `Paging.DriveFrom` | agregators/superjob.py:55-60 | From any page the loop reaches, the loop returns the remaining records when no later page up to the last one fails. Otherwise it aborts at the first failing page. The request count matches in both cases. |
| `Paging.DriveClosedForm` | agregators/hh.py:19-26 | The page loop returns all N records after `N / 100 + 1` requests, or aborts after the request for the first failing page. |
| `Paging.HundredThirtyRecords` | agregators/hh.py:21-26 | 130 records: two requests, all records returned. |
| `Paging.TwoHundredRecords` | agregators/superjob.py:55-60 | 200 records: three requests, the last page empty. |
| `Summary.Handled` | agregators/hh.py:68 | The handled list is no longer than the vacancy list, and every handled estimate is positive. |
| `Summary.HandledArePriced` | agregators/superjob.py:65 | The handled estimates are, in order, those of the vacancies with a truthy bound. |
| `Summary.Summarize` | agregators/superjob.py:62-71 | found is the list length. handled is the number of truthy estimates, which is at most found. The average is `None` exactly when nothing is handled. Otherwise it is the floor mean and lies between the smallest and largest handled estimate. |
| `HeadHunter.HhVacancy` | agregators/hh.py:56-62 | The item's currency lands in `link`. The vacancy's currency stays `'RUR'`, so its rate is 1. |
| `HeadHunter.HhVacancies` | agregators/hh.py:56-63 | One vacancy per item, in order. |
| `HeadHunter.DollarsTakenAsRoubles` | agregators/hh.py:60-61 | A salary of 1000 USD is estimated as 1000 roubles. |
| `HeadHunter.HeadHunterJobAgregator.Init` | agregators/hh.py:7-11 | The language is stored and the list starts empty. |
| `HeadHunter.HeadHunterJobAgregator.Create` | agregators/hh.py:7-15 | An aggregator is returned exactly when no page fails. Its list then holds every record as a vacancy. |
| `HeadHunter.HeadHunterJobAgregator.VacanciesPaginator` | agregators/hh.py:28-63 | A failing page gives an HTTP error. Any other page gives its items as vacancies, in order. |
| `HeadHunter.HeadHunterJobAgregator.BuildVacanciesList` | agregators/hh.py:17-26 | The build succeeds exactly when no page fails, and the request count is `FetchCount`. On success the list is every record in order. On failure the list holds the pages before the failing one. The outcome and the request count agree with `Paging.Drive` from page 0. |
| `HeadHunter.HeadHunterJobAgregator.CalculateAverageSalary` | agregators/hh.py:65-74 | The result is the summary of the list. found equals `get_vacancies_number()`, and handled is at most found. |
| `HeadHunter.HeadHunterJobAgregator.GetVacanciesNumber` | agregators/hh.py:76-78 | The result is the length of the list. |
| `SuperJob.SjVacancy` | agregators/superjob.py:45-48 | No link, currency `'RUR'`, rate 1. |
| `SuperJob.SjVacancies` | agregators/superjob.py:45-49 | One vacancy per object, in order. |
| `SuperJob.SuperJobAgregator.Init` | agregators/superjob.py:7-15 | The language is stored and the list starts empty. |
| `SuperJob.SuperJobAgregator.Create` | agregators/superjob.py:7-16 | An aggregator is returned exactly when no page fails, so no partial list survives an error. |
| `SuperJob.SuperJobAgregator.GetVacanciesNumber` | agregators/superjob.py:18-20 | The result is the length of the list. |
| `SuperJob.SuperJobAgregator.VacanciesPaginator` | agregators/superjob.py:26-49 | A failing page gives an HTTP error. Any other page gives its objects as vacancies, in order. |
| `SuperJob.SuperJobAgregator.BuildVacanciesList` | agregators/superjob.py:51-60 | The build succeeds exactly when no page fails, with `FetchCount` requests. On success the list is every record. On failure the list holds the pages before the failing one. The outcome and the request count agree with `Paging.Drive` from page 0. |
| `SuperJob.SuperJobAgregator.CalculateAverageSalary` | agregators/superjob.py:62-71 | The result is the summary of the list. found equals `get_vacancies_number()`. |
| `Salary.Lookup` | salary.py:20-21 | A key has a value exactly when some entry carries that key, and the value comes from such an entry. |
| `Salary.Put` | salary.py:76-79 | Assignment adds no entry other than the new one. |
| `Salary.PutLookup` | salary.py:57 | After assignment the key maps to the new value and every other key is unchanged. |
| `Salary.PutAppends` | salary.py:57 | A key not yet present is appended after all existing entries. |
| `Salary.PutKeepsPlace` | salary.py:57 | Assigning an existing key keeps the length and the key at every position. |
| `Salary.PutDistinct` | salary.py:76 | Assignment keeps the keys unique. |
| `Salary.StatOf` | salary.py:55-60 | A stored entry copies found and processed from the summary, and its average is the summary's `Some` value. |
| `Salary.Admit` | salary.py:55-60 | A reported language maps to its statistics afterwards. An unreported one leaves the dictionary unchanged. No entry for another key is added, and at most one entry is added. |
| `Salary.Collected` | salary.py:44-61 | The collected dictionary has no more entries than there are input languages. That no key repeats is proved in `Salary.CollectedLookup`. |
| `Salary.CollectedLookup` | salary.py:64-80 | A language has an entry exactly when it is in the input, its aggregator was built without an HTTP error, and at least one vacancy was processed. The entry copies its summary. Keys are unique and each key is an input language. |
| `Salary.ErrorDoesNotStopLoop` | salary.py:69-73 | A language that raised gets no entry, and a later reported language still gets one. |
| `Salary.CollectedInOrder` | salary.py:47-61 | With no repeated language, the dictionary lists the reported languages in input order. |
| `Salary.GrabHhJob` | salary.py:64-80 | The result is the collected dictionary for the HeadHunter sources. |
| `Salary.GrabSuperJob` | salary.py:44-61 | The result is the collected dictionary for the SuperJob sources. |
| `Salary.RowsOf` | salary.py:20-29 | One row per dictionary entry, in dictionary order, copying the language and its found, processed and average values. |
| `Salary.PrintSalary` | salary.py:13-35 | The table is the header, then the entries with `found >= limit`, sorted stably by descending average. This equals sorting before filtering. |
| `Salary.Report` | salary.py:103-107 | The HeadHunter table uses threshold 100 and the SuperJob table uses threshold 5, each over its own collected dictionary. |
| `Engines.AgreeOnClosedRange` | common.py:30 | For a rouble range with both bounds, both generations give the floor midpoint. |
| `Engines.DisagreeOnLowerBound` | common.py:26-27 | For a lower bound alone of at least 5, the first generation's estimate is higher than the second's. |
| `Engines.DisagreeOnUnitUpperBound` | common.py:28-29 | For an upper bound of 1 alone, the first generation gives 0, which is then dropped, and the second gives 1. |

## Left out

- HTTP requests, headers, query parameters (area, period, exclusion words, catalogues, town, the SuperJob API key) and JSON field extraction are left out, together with the constructor fields that feed them. They are external I/O. The abstract `Feed` replaces them.
- Reading the API key from the environment is left out; it is ambient configuration.
- `AsciiTable` rendering, `justify_columns`, table titles and `print` calls are left out; they are terminal formatting. The model stops at the list of table lines.
- The fixed language tuple of `main` is left out; it is data. `Salary.Report` takes a language list instead.
- The exact IEEE-754 result of `int(x * 1.2)` and `int(x * 0.8)` is not modelled. The model uses exact arithmetic. For realistic salaries (any value below 10^7) the floors agree with Python's. Past 2^53 the float result can differ in either direction, by more than one.
- HeadHunter.HeadHunterJobAgregator.GetProgrammingLanguage and SuperJob.SuperJobAgregator.GetProgrammingLanguage carry no contract: each returns the `language` constant that `Init` stores, and `Init`'s contract already states what that constant is.
- Common.PredictRubSalary and Common.SelectLanguageRows assume each dictionary holds exactly the expected keys in the expected order. The source unpacks `vacancy.values()` and `lang_tab_line.values()` by position, so a record whose keys arrive in another insertion order would silently swap fields, and one with an extra key (such as HeadHunter's `gross`) would raise `ValueError`. The model reads the fields by name and captures neither effect.
- The getters `get_programming_language`, `get_payment_from`, `get_payment_to`, `get_link` and `get_currency` only return a field. They are the datatype's fields, and `Vacancies.NewVacancy` states that they return the arguments.
- A feed always serves 100-record slices of a finite list. A server that returns pages of another size is not modelled, nor one that never returns a short page, which would keep the Python loop running forever. HeadHunter's server-side cap on results is not modelled either.
- Each language's feed is a function of the language. Repeating a language in the input therefore sees the same outcome both times, whereas two real requests could differ.
- Exceptions other than `HTTPError` are not modelled, such as a HeadHunter item whose `salary` is `null`. In Python they would end the whole run.
- A dictionary entry's average is stored as the integer inside the `Some`. Python stores the same integer, because a stored entry always has processed > 0.
