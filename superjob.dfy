/** `SuperJobAgregator` (`agregators/superjob.py`): the same page loop and
    summary as the HeadHunter aggregator over a different item shape. The
    HTTP request, with its API key, is the abstract `Feed` of `Paging`. */
module SuperJob {
  import opened PyValues
  import opened Vacancies
  import opened Paging
  import opened Summary

  /** The salary fields of one search object. */
  datatype SjSalary = SjSalary(paymentFrom: Option<nat>, paymentTo: Option<nat>)

  /** `Vacancy(language, payment_from, payment_to)`: no link and the default
      currency, so every estimate uses rate 1. */
  function SjVacancy(language: string, salary: SjSalary): (v: Vacancy)
    ensures v.language == language
    ensures v.paymentFrom == salary.paymentFrom && v.paymentTo == salary.paymentTo
    ensures v.link == None && v.currency == "RUR" && GetCurrencyRate(v) == 1
  {
    DefaultCurrencyRate(language, salary.paymentFrom, salary.paymentTo, None);
    NewVacancy(language, salary.paymentFrom, salary.paymentTo)
  }

  function SjVacancies(language: string, items: seq<SjSalary>): (vs: seq<Vacancy>)
    ensures |vs| == |items|
    ensures forall i :: 0 <= i < |items| ==> vs[i] == SjVacancy(language, items[i])
  {
    seq(|items|, i requires 0 <= i < |items| => SjVacancy(language, items[i]))
  }

  lemma SjVacanciesAppend(language: string, a: seq<SjSalary>, b: seq<SjSalary>)
    ensures SjVacancies(language, a + b) == SjVacancies(language, a) + SjVacancies(language, b)
  {}

  class SuperJobAgregator {
    var vacanciesList: seq<Vacancy>
    const language: string

    /** The field initialisation of `__init__`. */
    constructor Init(language: string)
      ensures this.language == language && vacanciesList == []
    {
      this.language := language;
      vacanciesList := [];
    }

    /** `SuperJobAgregator(superjob_api_key, language)`: `__init__` builds the
        list, and an HTTP error of any page escapes it, so no aggregator and
        no partial list is returned. */
    static method Create(language: string, feed: Feed<SjSalary>) returns (r: Option<SuperJobAgregator>)
      ensures r.Some? <==> Succeeds(feed)
      ensures r.Some? ==> fresh(r.value) && r.value.language == language
                          && r.value.vacanciesList == SjVacancies(language, feed.records)
    {
      var agregator := new SuperJobAgregator.Init(language);
      var ok, calls := agregator.BuildVacanciesList(feed);
      r := if ok then Some(agregator) else None;
    }

    /** `get_vacancies_number()`. */
    function GetVacanciesNumber(): (n: nat)
      reads this
      ensures n == |vacanciesList|
    {
      |vacanciesList|
    }

    /** `get_programming_language()`. */
    function GetProgrammingLanguage(): string {
      language
    }

    /** `vacancies_paginator(page)`: the objects of one page as vacancies. */
    method VacanciesPaginator(feed: Feed<SjSalary>, page: nat) returns (r: PageResult<Vacancy>)
      ensures r == if page in feed.failing then HttpError
                   else Served(SjVacancies(language, Page(feed.records, page)))
    {
      var response := Fetch(feed, page);
      if response.HttpError? {
        return HttpError;
      }
      var rawVacancies := response.items;
      var vacanciesList: seq<Vacancy> := [];
      for i := 0 to |rawVacancies|
        invariant vacanciesList == SjVacancies(language, rawVacancies[..i])
      {
        vacanciesList := vacanciesList + [SjVacancy(language, rawVacancies[i])];
      }
      assert rawVacancies[..|rawVacancies|] == rawVacancies;
      r := Served(vacanciesList);
    }

    /** `build_vacancies_list()`: reset the list, then append pages 0, 1, 2, …
        until one is shorter than `PageSize`, the `count` it requests; a
        failing page stops the build. `calls` counts the page requests. */
    method BuildVacanciesList(feed: Feed<SjSalary>) returns (ok: bool, ghost calls: nat)
      modifies this`vacanciesList
      ensures ok <==> Succeeds(feed)
      ensures calls == FetchCount(feed)
      ensures ok ==> vacanciesList == SjVacancies(language, feed.records)
      ensures !ok ==> vacanciesList == SjVacancies(language, feed.records[..FirstFailure(feed) * PageSize])
      ensures Drive(feed, 0) == if ok then Completed(feed.records, calls) else Aborted(calls)
    {
      DriveClosedForm(feed);
      var records := feed.records;
      var page := 0;
      calls := 0;
      vacanciesList := [];
      while true
        invariant page * PageSize <= |records| && page <= LastPage(|records|)
        invariant forall q :: 0 <= q < page ==> q !in feed.failing
        invariant vacanciesList == SjVacancies(language, records[..page * PageSize])
        invariant calls == page
        decreases |records| - page * PageSize
      {
        var vacanciesPerPage := VacanciesPaginator(feed, page);
        calls := calls + 1;
        if vacanciesPerPage.HttpError? {
          FirstFailureUnique(feed, page);
          return false, calls;
        }
        var items := Page(records, page);
        SjVacanciesAppend(language, records[..page * PageSize], items);
        vacanciesList := vacanciesList + vacanciesPerPage.items;
        if |vacanciesPerPage.items| < PageSize {
          assert page == LastPage(|records|);
          assert records[..page * PageSize + |items|] == records;
          return true, calls;
        }
        page := page + 1;
      }
    }

    /** `calculate_average_salary()`. */
    function CalculateAverageSalary(): (r: SalaryStats)
      reads this
      ensures r == Summarize(vacanciesList)
      ensures r.found == GetVacanciesNumber() && r.processed <= r.found
    {
      Summarize(vacanciesList)
    }
  }
}
