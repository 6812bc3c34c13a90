/** `calculate_average_salary`, which both aggregator classes carry word for
    word: the number of vacancies, the number with a truthy estimate, and the
    floor mean of those estimates, `None` when there is none. */
module Summary {
  import opened PyValues
  import opened Mean
  import opened Vacancies

  /** The `(found, handled, average)` tuple. */
  datatype SalaryStats = SalaryStats(found: nat, processed: nat, average: Option<nat>)

  /** `[vac.predict_rub_salary() for vac in vacancies if vac.predict_rub_salary()]`. */
  function Handled(vacancies: seq<Vacancy>): (h: seq<nat>)
    ensures |h| <= |vacancies|
    ensures forall x :: x in h ==> x > 0
  {
    if vacancies == [] then []
    else
      var salary := PredictRubSalary(vacancies[0]);
      (if Truthy(salary) then [salary.value] else []) + Handled(vacancies[1..])
  }

  /** The vacancies with at least one truthy bound. */
  function Priced(vacancies: seq<Vacancy>): seq<Vacancy> {
    if vacancies == [] then []
    else
      var v := vacancies[0];
      (if Truthy(v.paymentFrom) || Truthy(v.paymentTo) then [v] else []) + Priced(vacancies[1..])
  }

  /** Unlike the first generation, no estimate of this engine is ever 0, so
      the handled estimates are exactly those of the vacancies with a truthy
      bound, in order. */
  lemma {:induction false} HandledArePriced(vacancies: seq<Vacancy>)
    ensures |Handled(vacancies)| == |Priced(vacancies)|
    ensures forall i :: 0 <= i < |Priced(vacancies)| ==>
      Some(Handled(vacancies)[i]) == PredictRubSalary(Priced(vacancies)[i])
  {
    if vacancies != [] {
      HandledArePriced(vacancies[1..]);
    }
  }

  /** `calculate_average_salary()` over a vacancy list. */
  function Summarize(vacancies: seq<Vacancy>): (r: SalaryStats)
    ensures r.found == |vacancies|
    ensures r.processed == |Handled(vacancies)| && r.processed <= r.found
    ensures r.average.None? <==> r.processed == 0
    ensures r.average.Some? ==>
      r.average.value == Sum(Handled(vacancies)) / r.processed
      && Min(Handled(vacancies)) <= r.average.value <= Max(Handled(vacancies))
  {
    var handled := Handled(vacancies);
    if |handled| > 0 then SalaryStats(|vacancies|, |handled|, Some(FloorMean(handled)))
    else SalaryStats(|vacancies|, 0, None)
  }
}
