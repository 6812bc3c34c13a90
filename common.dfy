/** The first, functional generation of the salary engine (`common.py`): a
    salary record, as a dictionary of lower bound, upper bound and currency,
    is turned into a rouble estimate with a 1.2 / 0.8 heuristic for open
    ranges, and a list of records is reduced to (found, processed, average),
    with 0 standing for "no average". */
module Common {
  import opened PyValues
  import opened Mean
  import opened Ranking

  /** The `{from, to, currency}` dictionary of one vacancy; each value may be `None`. */
  datatype SalaryRecord = SalaryRecord(paymentFrom: Option<nat>, paymentTo: Option<nat>, currency: Option<string>)

  /** The only two currency codes for which an estimate is produced, compared exactly. */
  predicate NativeCurrency(currency: Option<string>) {
    currency == Some("RUR") || currency == Some("rub")
  }

  /** A record that yields an estimate: the record itself is present (a falsy
      vacancy is `None` here), at least one bound is truthy and the currency
      is native. */
  predicate Estimable(vacancy: Option<SalaryRecord>) {
    vacancy.Some? && NativeCurrency(vacancy.value.currency)
    && (Truthy(vacancy.value.paymentFrom) || Truthy(vacancy.value.paymentTo))
  }

  /** `predict_rub_salary(vacancy)`. `int(x * 1.2)` and `int(x * 0.8)` are
      taken as the exact integer floors `x * 12 / 10` and `x * 8 / 10`. */
  function PredictRubSalary(vacancy: Option<SalaryRecord>): (r: Option<nat>)
    ensures r.Some? <==> Estimable(vacancy)
  {
    if vacancy.None? then None
    else
      var SalaryRecord(paymentFrom, paymentTo, currency) := vacancy.value;
      if (!Truthy(paymentFrom) && !Truthy(paymentTo))
         || (currency != Some("RUR") && currency != Some("rub")) then None
      else if Truthy(paymentFrom) && !Truthy(paymentTo) then Some(paymentFrom.value * 12 / 10)
      else if Truthy(paymentTo) && !Truthy(paymentFrom) then Some(paymentTo.value * 8 / 10)
      else Some((paymentFrom.value + paymentTo.value) / 2)
  }

  /** What an estimate is: a lower bound alone gives the floor of 1.2 times
      it, an upper bound alone the floor of 0.8 times it, and both bounds
      their floor midpoint, which lies between them. */
  lemma PredictRubSalaryCases(vacancy: Option<SalaryRecord>)
    requires Estimable(vacancy)
    ensures var r := PredictRubSalary(vacancy).value;
      var paymentFrom, paymentTo := vacancy.value.paymentFrom, vacancy.value.paymentTo;
      (!Truthy(paymentTo) ==> 10 * r <= 12 * paymentFrom.value < 10 * r + 10)
      && (!Truthy(paymentFrom) ==> 10 * r <= 8 * paymentTo.value < 10 * r + 10)
      && (Truthy(paymentFrom) && Truthy(paymentTo) ==>
            var f, t := paymentFrom.value, paymentTo.value;
            2 * r <= f + t < 2 * r + 2 && (f <= r <= t || t <= r <= f))
  {}

  /** An estimate of 0, which the `if salary:` filter then drops, arises from
      exactly one kind of record: a native-currency upper bound of 1 with no
      lower bound. */
  lemma ZeroEstimate(vacancy: Option<SalaryRecord>)
    ensures PredictRubSalary(vacancy) == Some(0)
        <==> Estimable(vacancy) && !Truthy(vacancy.value.paymentFrom) && vacancy.value.paymentTo == Some(1)
  {
    if Estimable(vacancy) && !Truthy(vacancy.value.paymentFrom) {
      var t := vacancy.value.paymentTo.value;
      assert PredictRubSalary(vacancy) == Some(t * 8 / 10);
    }
  }

  /** `'RUB'`, `'USD'` and a missing currency are all rejected, whatever the bounds. */
  lemma ForeignCurrencyRejected(paymentFrom: Option<nat>, paymentTo: Option<nat>, currency: Option<string>)
    requires currency in {None, Some("RUB"), Some("USD")}
    ensures PredictRubSalary(Some(SalaryRecord(paymentFrom, paymentTo, currency))) == None
  {
    assert "RUB" != "RUR" by { assert "RUB"[2] != "RUR"[2]; }
    assert "RUB" != "rub" by { assert "RUB"[0] != "rub"[0]; }
    assert "USD" != "RUR" by { assert "USD"[0] != "RUR"[0]; }
    assert "USD" != "rub" by { assert "USD"[0] != "rub"[0]; }
  }

  /** The truthy estimates of `vacancies`, in order: the list that
      `calculate_language_statistics` appends to. */
  function Kept(vacancies: seq<Option<SalaryRecord>>): (k: seq<nat>)
    ensures |k| <= |vacancies|
    ensures forall x :: x in k ==> x > 0
  {
    if vacancies == [] then []
    else
      var salary := PredictRubSalary(vacancies[|vacancies| - 1]);
      Kept(vacancies[..|vacancies| - 1]) + (if Truthy(salary) then [salary.value] else [])
  }

  lemma KeptStep(vacancies: seq<Option<SalaryRecord>>, i: nat)
    requires i < |vacancies|
    ensures var salary := PredictRubSalary(vacancies[i]);
      Kept(vacancies[..i + 1]) == Kept(vacancies[..i]) + (if Truthy(salary) then [salary.value] else [])
  {
    assert vacancies[..i + 1][..i] == vacancies[..i];
  }

  /** A value is kept exactly when some record's estimate is that value and it is not 0. */
  lemma {:induction false} KeptMembers(vacancies: seq<Option<SalaryRecord>>, x: nat)
    ensures x in Kept(vacancies)
        <==> x != 0 && exists i :: 0 <= i < |vacancies| && PredictRubSalary(vacancies[i]) == Some(x)
  {
    if vacancies != [] {
      var n := |vacancies| - 1;
      var init := vacancies[..n];
      var salary := PredictRubSalary(vacancies[n]);
      var tail := if Truthy(salary) then [salary.value] else [];
      assert Kept(vacancies) == Kept(init) + tail;
      KeptMembers(init, x);
      assert x in tail <==> x != 0 && salary == Some(x);
      if x in Kept(init) {
        var i :| 0 <= i < |init| && PredictRubSalary(init[i]) == Some(x);
        assert vacancies[i] == init[i];
      } else if x in tail {
        assert PredictRubSalary(vacancies[n]) == Some(x);
      } else if x != 0 {
        forall i | 0 <= i < |vacancies| ensures PredictRubSalary(vacancies[i]) != Some(x) {
          if i < n {
            assert vacancies[i] == init[i];
          }
        }
      }
    }
  }

  /** `calculate_language_statistics(vacancies_found)`: the number of records,
      the number of truthy estimates, and their floor mean, or 0 when there
      is none. */
  method CalculateLanguageStatistics(vacanciesFound: seq<Option<SalaryRecord>>)
    returns (found: nat, processed: nat, average: nat)
    ensures found == |vacanciesFound|
    ensures processed == |Kept(vacanciesFound)| && processed <= found
    ensures processed == 0 ==> average == 0
    ensures processed > 0 ==>
      average == Sum(Kept(vacanciesFound)) / processed
      && Min(Kept(vacanciesFound)) <= average <= Max(Kept(vacanciesFound))
  {
    average := 0;
    var vacanciesProcessed: seq<nat> := [];
    for i := 0 to |vacanciesFound|
      invariant vacanciesProcessed == Kept(vacanciesFound[..i])
    {
      var salary := PredictRubSalary(vacanciesFound[i]);
      KeptStep(vacanciesFound, i);
      if Truthy(salary) {
        vacanciesProcessed := vacanciesProcessed + [salary.value];
      }
    }
    assert vacanciesFound[..|vacanciesFound|] == vacanciesFound;
    found := |vacanciesFound|;
    processed := |vacanciesProcessed|;
    if processed > 0 {
      average := FloorMean(vacanciesProcessed);
    }
  }

  /** The row selection of `print_language_statistics(table, title, limit)`:
      sort by descending average, then keep the rows with at least `limit`
      vacancies found, after the header. */
  method SelectLanguageRows(languagesStatTable: seq<Row>, limit: int := 100)
    returns (langTabForm: seq<TableLine>)
    ensures langTabForm == Table(AtLeast(SortByAverage(languagesStatTable), limit))
    ensures langTabForm == Table(SortByAverage(AtLeast(languagesStatTable, limit)))
  {
    langTabForm := [Header];
    var sorted := SortByAverage(languagesStatTable);
    for i := 0 to |sorted|
      invariant langTabForm == Table(AtLeast(sorted[..i], limit))
    {
      var kept := AtLeast(sorted[..i], limit);
      assert AtLeast(sorted[..i + 1], limit)
          == kept + (if sorted[i].found >= limit then [sorted[i]] else []) by {
        AtLeastAppend(sorted[..i], [sorted[i]], limit);
        assert sorted[..i + 1] == sorted[..i] + [sorted[i]];
      }
      if sorted[i].found >= limit {
        TableAppend(kept, sorted[i]);
        langTabForm := langTabForm + [Line(sorted[i])];
      } else {
        assert kept + [] == kept;
      }
    }
    assert sorted[..|sorted|] == sorted;
    FilterCommutesWithSort(languagesStatTable, limit);
  }

  /** Sample inputs: a closed range with an unusable record, a lower bound
      alone, and a dollar upper bound. */
  lemma Samples()
    ensures Kept([Some(SalaryRecord(Some(100), Some(200), Some("RUR"))), Some(SalaryRecord(None, None, Some("RUR")))]) == [150]
    ensures Kept([Some(SalaryRecord(Some(1000), None, Some("RUR")))]) == [1200]
    ensures Kept([Some(SalaryRecord(None, Some(500), Some("USD")))]) == []
  {
    ForeignCurrencyRejected(None, Some(500), Some("USD"));
  }
}
