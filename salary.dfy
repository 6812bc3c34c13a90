/** The driver (`salary.py`): for every language, build an aggregator per
    source, skip the language on an HTTP error, keep its statistics when at
    least one vacancy was processed, and select the report rows. */
module Salary {
  import opened PyValues
  import opened Vacancies
  import opened Paging
  import opened Summary
  import opened Ranking
  import opened HeadHunter
  import opened SuperJob

  /** The `dict(vacancies_found=…, vacancies_processed=…, average_salary=…)` of one language. */
  datatype LanguageStat = LanguageStat(found: nat, processed: nat, average: nat)

  datatype Entry = Entry(language: string, stat: LanguageStat)

  /** A statistics dictionary, as its entries in insertion order. */
  type Statistics = seq<Entry>

  predicate DistinctKeys(d: Statistics) {
    forall i, j :: 0 <= i < j < |d| ==> d[i].language != d[j].language
  }

  /** `d.get(language)`. */
  function Lookup(d: Statistics, language: string): (r: Option<LanguageStat>)
    ensures r.Some? <==> exists i :: 0 <= i < |d| && d[i].language == language
    ensures r.Some? ==> Entry(language, r.value) in d
  {
    if d == [] then None
    else if d[0].language == language then Some(d[0].stat)
    else
      var r := Lookup(d[1..], language);
      assert forall i :: 0 < i < |d| ==> d[i] == d[1..][i - 1];
      r
  }

  /** `d[language] = stat`: a new key goes to the end, an existing one keeps its place. */
  function Put(d: Statistics, language: string, stat: LanguageStat): (r: Statistics)
    ensures forall e :: e in r ==> e in d || e == Entry(language, stat)
    ensures |r| <= |d| + 1
  {
    if d == [] then [Entry(language, stat)]
    else if d[0].language == language then [Entry(language, stat)] + d[1..]
    else [d[0]] + Put(d[1..], language, stat)
  }

  /** After the assignment the key maps to the new statistics, every other
      key to what it mapped to before, and a new key is at the end. */
  lemma {:induction false} PutLookup(d: Statistics, language: string, stat: LanguageStat, k: string)
    ensures Lookup(Put(d, language, stat), k) == if k == language then Some(stat) else Lookup(d, k)
  {
    if d != [] && d[0].language != language {
      PutLookup(d[1..], language, stat, k);
      var rest := Put(d[1..], language, stat);
      assert Put(d, language, stat) == [d[0]] + rest;
      assert ([d[0]] + rest)[0] == d[0] && ([d[0]] + rest)[1..] == rest;
    }
  }

  /** A key not yet present is appended after all existing entries. */
  lemma {:induction false} PutAppends(d: Statistics, language: string, stat: LanguageStat)
    requires Lookup(d, language).None?
    ensures Put(d, language, stat) == d + [Entry(language, stat)]
  {
    if d != [] {
      assert d[0].language != language;
      assert Lookup(d[1..], language).None?;
      PutAppends(d[1..], language, stat);
      assert d == [d[0]] + d[1..];
    }
  }

  /** An existing key keeps its place: assignment changes no key at any position. */
  lemma {:induction false} PutKeepsPlace(d: Statistics, language: string, stat: LanguageStat)
    requires Lookup(d, language).Some?
    ensures |Put(d, language, stat)| == |d|
    ensures forall i :: 0 <= i < |d| ==> Put(d, language, stat)[i].language == d[i].language
  {
    if d[0].language != language {
      assert Lookup(d[1..], language).Some?;
      PutKeepsPlace(d[1..], language, stat);
      var rest := Put(d[1..], language, stat);
      assert Put(d, language, stat) == [d[0]] + rest;
      forall i | 1 <= i < |d| ensures Put(d, language, stat)[i].language == d[i].language {
        assert Put(d, language, stat)[i] == rest[i - 1];
        assert d[i] == d[1..][i - 1];
      }
    }
  }

  /** Assigning a key keeps the keys unique. */
  lemma {:induction false} PutDistinct(d: Statistics, language: string, stat: LanguageStat)
    requires DistinctKeys(d)
    ensures DistinctKeys(Put(d, language, stat))
  {
    if d != [] && d[0].language != language {
      PutDistinct(d[1..], language, stat);
      var rest := Put(d[1..], language, stat);
      forall e | e in rest ensures e.language != d[0].language {
        if e != Entry(language, stat) {
          assert e in d[1..];
        }
      }
    }
  }

  /** The statistics a language contributes: those of its summary, the
      average taken from the `Some` that a positive count guarantees. */
  function StatOf(vacancies: seq<Vacancy>): (s: LanguageStat)
    requires Summarize(vacancies).processed > 0
    ensures s.found == |vacancies| && s.processed == |Handled(vacancies)| && s.processed > 0
    ensures Some(s.average) == Summarize(vacancies).average
  {
    var stats := Summarize(vacancies);
    LanguageStat(stats.found, stats.processed, stats.average.value)
  }

  /** A language is reported when its aggregator was built and at least one
      of its vacancies was processed. */
  predicate Reported(built: Option<seq<Vacancy>>) {
    built.Some? && Summarize(built.value).processed > 0
  }

  /** One iteration of a `grab_*` loop: `built` is `None` when building the
      aggregator raised an HTTP error. */
  function Admit(d: Statistics, language: string, built: Option<seq<Vacancy>>): (r: Statistics)
    ensures Reported(built) ==> Lookup(r, language) == Some(StatOf(built.value))
    ensures !Reported(built) ==> r == d
    ensures forall e :: e in r ==> e in d || e.language == language
    ensures |r| <= |d| + 1
  {
    if Reported(built) then
      var stat := StatOf(built.value);
      PutLookup(d, language, stat, language);
      Put(d, language, stat)
    else d
  }

  /** The dictionary a `grab_*` loop returns, given what building the
      aggregator yields for each language. */
  function Collected(languages: seq<string>, built: string -> Option<seq<Vacancy>>): (d: Statistics)
    ensures |d| <= |languages|
  {
    if languages == [] then []
    else
      var n := |languages| - 1;
      var init := Collected(languages[..n], built);
      Admit(init, languages[n], built(languages[n]))
  }

  /** A language has an entry exactly when it is one of the languages and it
      is reported; the entry copies its summary; keys are unique and every
      key is one of the languages. */
  lemma {:induction false} CollectedLookup(languages: seq<string>, built: string -> Option<seq<Vacancy>>, k: string)
    ensures DistinctKeys(Collected(languages, built))
    ensures forall e :: e in Collected(languages, built) ==> e.language in languages
    ensures Lookup(Collected(languages, built), k)
         == if k in languages && Reported(built(k)) then Some(StatOf(built(k).value)) else None
  {
    if languages != [] {
      var n := |languages| - 1;
      var init := languages[..n];
      CollectedLookup(init, built, k);
      var d := Collected(init, built);
      if Reported(built(languages[n])) {
        PutDistinct(d, languages[n], StatOf(built(languages[n]).value));
        PutLookup(d, languages[n], StatOf(built(languages[n]).value), k);
      }
      assert languages == init + [languages[n]];
      assert k in languages <==> k in init || k == languages[n];
    }
  }

  /** An error for one language does not stop the loop: a later reported
      language still gets its entry. */
  lemma ErrorDoesNotStopLoop(languages: seq<string>, built: string -> Option<seq<Vacancy>>, i: nat, j: nat)
    requires i < j < |languages|
    requires built(languages[i]).None? && Reported(built(languages[j]))
    ensures Lookup(Collected(languages, built), languages[i]).None?
    ensures Lookup(Collected(languages, built), languages[j]) == Some(StatOf(built(languages[j]).value))
  {
    CollectedLookup(languages, built, languages[i]);
    CollectedLookup(languages, built, languages[j]);
  }

  /** The reported languages with their statistics, in input order. */
  function ReportedEntries(languages: seq<string>, built: string -> Option<seq<Vacancy>>): Statistics {
    if languages == [] then []
    else
      var n := |languages| - 1;
      var last := languages[n];
      ReportedEntries(languages[..n], built)
      + (if Reported(built(last)) then [Entry(last, StatOf(built(last).value))] else [])
  }

  /** With no language repeated, the dictionary holds the reported languages
      in their input order, which is the order `print_salary` sees them in. */
  lemma {:induction false} CollectedInOrder(languages: seq<string>, built: string -> Option<seq<Vacancy>>)
    requires forall i, j :: 0 <= i < j < |languages| ==> languages[i] != languages[j]
    ensures Collected(languages, built) == ReportedEntries(languages, built)
  {
    if languages != [] {
      var n := |languages| - 1;
      var init, last := languages[..n], languages[n];
      CollectedInOrder(init, built);
      var d := Collected(init, built);
      assert Lookup(d, last).None? by {
        CollectedLookup(init, built, last);
        assert last !in init by {
          forall i | 0 <= i < n ensures init[i] != last {
            assert init[i] == languages[i];
          }
        }
      }
      assert Collected(languages, built) == Admit(d, last, built(last));
      if Reported(built(last)) {
        var stat := StatOf(built(last).value);
        PutAppends(d, last, stat);
        assert Admit(d, last, built(last)) == d + [Entry(last, stat)];
      }
    }
  }

  /** What building a HeadHunter aggregator yields for each language. */
  function HhBuilt(feeds: string -> Feed<HhSalary>): string -> Option<seq<Vacancy>> {
    language => if Succeeds(feeds(language)) then Some(HhVacancies(language, feeds(language).records)) else None
  }

  /** What building a SuperJob aggregator yields for each language. */
  function SjBuilt(feeds: string -> Feed<SjSalary>): string -> Option<seq<Vacancy>> {
    language => if Succeeds(feeds(language)) then Some(SjVacancies(language, feeds(language).records)) else None
  }

  /** `grab_hhjob(languages)`. */
  method GrabHhJob(languages: seq<string>, feeds: string -> Feed<HhSalary>) returns (hhStatistics: Statistics)
    ensures hhStatistics == Collected(languages, HhBuilt(feeds))
  {
    hhStatistics := [];
    for i := 0 to |languages|
      invariant hhStatistics == Collected(languages[..i], HhBuilt(feeds))
    {
      var language := languages[i];
      assert languages[..i + 1][..i] == languages[..i];
      var agregator := HeadHunterJobAgregator.Create(language, feeds(language));
      if agregator.None? {
        continue;
      }
      var stats := agregator.value.CalculateAverageSalary();
      if stats.processed > 0 {
        hhStatistics := Put(hhStatistics, language, LanguageStat(stats.found, stats.processed, stats.average.value));
      }
    }
    assert languages[..|languages|] == languages;
  }

  /** `grab_superjob(languages)`; the API key goes into the abstract feed. */
  method GrabSuperJob(languages: seq<string>, feeds: string -> Feed<SjSalary>) returns (superjobStatistics: Statistics)
    ensures superjobStatistics == Collected(languages, SjBuilt(feeds))
  {
    superjobStatistics := [];
    for i := 0 to |languages|
      invariant superjobStatistics == Collected(languages[..i], SjBuilt(feeds))
    {
      var language := languages[i];
      assert languages[..i + 1][..i] == languages[..i];
      var agregator := SuperJobAgregator.Create(language, feeds(language));
      if agregator.None? {
        continue;
      }
      var stats := agregator.value.CalculateAverageSalary();
      if stats.processed > 0 {
        superjobStatistics := Put(superjobStatistics, language, LanguageStat(stats.found, stats.processed, stats.average.value));
      }
    }
    assert languages[..|languages|] == languages;
  }

  /** The report lines of the dictionary entries, in insertion order. */
  function RowsOf(d: Statistics): (rows: seq<Row>)
    ensures |rows| == |d|
    ensures forall i :: 0 <= i < |d| ==>
      rows[i] == Row(d[i].language, d[i].stat.found, d[i].stat.processed, d[i].stat.average)
  {
    seq(|d|, i requires 0 <= i < |d| => Row(d[i].language, d[i].stat.found, d[i].stat.processed, d[i].stat.average))
  }

  /** The row selection of `print_salary(statistic, title, limit)`: keep the
      entries with at least `limit` vacancies found, sort them by average,
      highest first, and put the header in front. */
  method PrintSalary(salaryStatistic: Statistics, limit: int := 100) returns (tableForm: seq<TableLine>)
    ensures tableForm == Table(SortByAverage(AtLeast(RowsOf(salaryStatistic), limit)))
    ensures tableForm == Table(AtLeast(SortByAverage(RowsOf(salaryStatistic)), limit))
  {
    var rows := RowsOf(salaryStatistic);
    var tableLines: seq<Row> := [];
    for i := 0 to |salaryStatistic|
      invariant tableLines == AtLeast(rows[..i], limit)
    {
      AtLeastAppend(rows[..i], [rows[i]], limit);
      assert rows[..i + 1] == rows[..i] + [rows[i]];
      var language := salaryStatistic[i].language;
      var salaryParams := salaryStatistic[i].stat;
      var vacanciesFound := salaryParams.found;
      if vacanciesFound < limit {
        continue;
      }
      var vacanciesProcessed := salaryParams.processed;
      var averageSalary := salaryParams.average;
      tableLines := tableLines + [Row(language, vacanciesFound, vacanciesProcessed, averageSalary)];
    }
    assert rows[..|rows|] == rows;
    tableLines := SortByAverage(tableLines);
    tableForm := [Header];
    tableForm := tableForm + Lines(tableLines);
    FilterCommutesWithSort(rows, limit);
  }

  /** The inclusion thresholds `main` uses: the default for HeadHunter, 5 for SuperJob. */
  const HeadHunterLimit: int := 100
  const SuperJobLimit: int := 5

  /** The two reports of `main`, for a list of languages and what each
      source serves for each language. */
  method Report(languages: seq<string>, hhFeeds: string -> Feed<HhSalary>, sjFeeds: string -> Feed<SjSalary>)
    returns (hhTable: seq<TableLine>, sjTable: seq<TableLine>)
    ensures hhTable == Table(SortByAverage(AtLeast(RowsOf(Collected(languages, HhBuilt(hhFeeds))), HeadHunterLimit)))
    ensures sjTable == Table(SortByAverage(AtLeast(RowsOf(Collected(languages, SjBuilt(sjFeeds))), SuperJobLimit)))
  {
    var hhStatistics := GrabHhJob(languages, hhFeeds);
    hhTable := PrintSalary(hhStatistics);
    var superjobStatistics := GrabSuperJob(languages, sjFeeds);
    sjTable := PrintSalary(superjobStatistics, limit := SuperJobLimit);
  }
}
