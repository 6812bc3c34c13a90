/** `HeadHunterJobAgregator` (`agregators/hh.py`): builds the vacancy list of
    one language page by page and summarises it. The HTTP request is the
    abstract `Feed` of `Paging`. */
module HeadHunter {
  import opened PyValues
  import opened Vacancies
  import opened Paging
  import opened Summary

  /** The `salary` object of one search item. */
  datatype HhSalary = HhSalary(paymentFrom: Option<nat>, paymentTo: Option<nat>, currency: Option<string>)

  /** `Vacancy(language, payment_from, payment_to, currency)`: the currency is
      passed in the fourth position, which is `link`, so the vacancy keeps the
      default currency `'RUR'` and rate 1 whatever the item's currency. */
  function HhVacancy(language: string, salary: HhSalary): (v: Vacancy)
    ensures v.language == language
    ensures v.paymentFrom == salary.paymentFrom && v.paymentTo == salary.paymentTo
    ensures v.link == salary.currency && v.currency == "RUR" && GetCurrencyRate(v) == 1
  {
    DefaultCurrencyRate(language, salary.paymentFrom, salary.paymentTo, salary.currency);
    NewVacancy(language, salary.paymentFrom, salary.paymentTo, salary.currency)
  }

  function HhVacancies(language: string, items: seq<HhSalary>): (vs: seq<Vacancy>)
    ensures |vs| == |items|
    ensures forall i :: 0 <= i < |items| ==> vs[i] == HhVacancy(language, items[i])
  {
    seq(|items|, i requires 0 <= i < |items| => HhVacancy(language, items[i]))
  }

  lemma HhVacanciesAppend(language: string, a: seq<HhSalary>, b: seq<HhSalary>)
    ensures HhVacancies(language, a + b) == HhVacancies(language, a) + HhVacancies(language, b)
  {}

  /** A dollar salary is estimated as if it were in roubles. */
  lemma DollarsTakenAsRoubles(language: string)
    ensures PredictRubSalary(HhVacancy(language, HhSalary(Some(1000), None, Some("USD")))) == Some(1000)
  {}

  class HeadHunterJobAgregator {
    var vacanciesList: seq<Vacancy>
    const language: string

    /** The field initialisation of `__init__`. */
    constructor Init(language: string)
      ensures this.language == language && vacanciesList == []
    {
      this.language := language;
      vacanciesList := [];
    }

    /** `HeadHunterJobAgregator(language)`: `__init__` builds the list, and an
        HTTP error of any page escapes it, so no aggregator is returned. */
    static method Create(language: string, feed: Feed<HhSalary>) returns (r: Option<HeadHunterJobAgregator>)
      ensures r.Some? <==> Succeeds(feed)
      ensures r.Some? ==> fresh(r.value) && r.value.language == language
                          && r.value.vacanciesList == HhVacancies(language, feed.records)
    {
      var agregator := new HeadHunterJobAgregator.Init(language);
      var ok, calls := agregator.BuildVacanciesList(feed);
      r := if ok then Some(agregator) else None;
    }

    /** `vacancies_paginator(page)`: the items of one page as vacancies. */
    method VacanciesPaginator(feed: Feed<HhSalary>, page: nat) returns (r: PageResult<Vacancy>)
      ensures r == if page in feed.failing then HttpError
                   else Served(HhVacancies(language, Page(feed.records, page)))
    {
      var response := Fetch(feed, page);
      if response.HttpError? {
        return HttpError;
      }
      var rawVacancies := response.items;
      var vacanciesList: seq<Vacancy> := [];
      for i := 0 to |rawVacancies|
        invariant vacanciesList == HhVacancies(language, rawVacancies[..i])
      {
        vacanciesList := vacanciesList + [HhVacancy(language, rawVacancies[i])];
      }
      assert rawVacancies[..|rawVacancies|] == rawVacancies;
      r := Served(vacanciesList);
    }

    /** `build_vacancies_list()`: reset the list, then append pages 0, 1, 2, …
        until one is shorter than `PageSize`; a failing page stops the build.
        `calls` counts the page requests. */
    method BuildVacanciesList(feed: Feed<HhSalary>) returns (ok: bool, ghost calls: nat)
      modifies this`vacanciesList
      ensures ok <==> Succeeds(feed)
      ensures calls == FetchCount(feed)
      ensures ok ==> vacanciesList == HhVacancies(language, feed.records)
      ensures !ok ==> vacanciesList == HhVacancies(language, feed.records[..FirstFailure(feed) * PageSize])
      ensures Drive(feed, 0) == if ok then Completed(feed.records, calls) else Aborted(calls)
    {
      DriveClosedForm(feed);
      var records := feed.records;
      var page := 0;
      calls := 0;
      vacanciesList := [];
      while true
        invariant page * PageSize <= |records| && page <= LastPage(|records|)
        invariant forall q :: 0 <= q < page ==> q !in feed.failing
        invariant vacanciesList == HhVacancies(language, records[..page * PageSize])
        invariant calls == page
        decreases |records| - page * PageSize
      {
        var vacanciesPerPage := VacanciesPaginator(feed, page);
        calls := calls + 1;
        if vacanciesPerPage.HttpError? {
          FirstFailureUnique(feed, page);
          return false, calls;
        }
        var items := Page(records, page);
        HhVacanciesAppend(language, records[..page * PageSize], items);
        vacanciesList := vacanciesList + vacanciesPerPage.items;
        if |vacanciesPerPage.items| < PageSize {
          assert page == LastPage(|records|);
          assert records[..page * PageSize + |items|] == records;
          return true, calls;
        }
        page := page + 1;
      }
    }

    /** `calculate_average_salary()`. */
    function CalculateAverageSalary(): (r: SalaryStats)
      reads this
      ensures r == Summarize(vacanciesList)
      ensures r.found == GetVacanciesNumber() && r.processed <= r.found
    {
      Summarize(vacanciesList)
    }

    /** `get_vacancies_number()`. */
    function GetVacanciesNumber(): (n: nat)
      reads this
      ensures n == |vacanciesList|
    {
      |vacanciesList|
    }

    /** `get_programming_language()`. */
    function GetProgrammingLanguage(): string {
      language
    }
  }
}
