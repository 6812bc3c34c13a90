/** The second, object generation of the salary engine (`agregators/vacancy.py`):
    an immutable vacancy with a fixed currency-rate table and no 1.2 / 0.8
    heuristic. */
module Vacancies {
  import opened PyValues
  import opened Mean

  /** A `Vacancy`; its fields are assigned only by the constructor, so each
      field below is also what the matching getter returns. */
  datatype Vacancy = Vacancy(
    language: string,
    paymentFrom: Option<nat>,
    paymentTo: Option<nat>,
    link: Option<string>,
    currency: string)

  /** `Vacancy.currency_rates`. */
  const CurrencyRates: map<string, nat> := map["USD" := 75, "EUR" := 80]

  /** `Vacancy(language, payment_from=None, payment_to=None, link=None,
      currency='RUR')`, with the same positional order and defaults. */
  function NewVacancy(
    language: string,
    paymentFrom: Option<nat> := None,
    paymentTo: Option<nat> := None,
    link: Option<string> := None,
    currency: string := "RUR"): (v: Vacancy)
    ensures v.language == language && v.paymentFrom == paymentFrom && v.paymentTo == paymentTo
    ensures v.link == link && v.currency == currency
  {
    Vacancy(language, paymentFrom, paymentTo, link, currency)
  }

  /** `get_currency_rate()`: the table entry, or 1 for a currency not in it. */
  function GetCurrencyRate(v: Vacancy): (rate: nat)
    ensures rate == if v.currency == "USD" then 75 else if v.currency == "EUR" then 80 else 1
    ensures rate >= 1
  {
    if v.currency !in CurrencyRates then 1 else CurrencyRates[v.currency]
  }

  /** A vacancy built without a currency argument is priced at rate 1. */
  lemma DefaultCurrencyRate(language: string, paymentFrom: Option<nat>, paymentTo: Option<nat>, link: Option<string>)
    ensures NewVacancy(language, paymentFrom, paymentTo, link).currency == "RUR"
    ensures GetCurrencyRate(NewVacancy(language, paymentFrom, paymentTo, link)) == 1
  {
    assert "RUR" != "USD" by { assert "RUR"[0] != "USD"[0]; }
    assert "RUR" != "EUR" by { assert "RUR"[0] != "EUR"[0]; }
  }

  /** `(payment_from + payment_to) // 2`. */
  function FloorMidpoint(f: nat, t: nat): (m: nat)
    ensures 2 * m <= f + t < 2 * m + 2
    ensures f <= m <= t || t <= m <= f
  {
    (f + t) / 2
  }

  /** A positive amount times a rate of the table is positive. */
  lemma PositiveTimesRate(x: nat, v: Vacancy)
    requires x > 0
    ensures x * GetCurrencyRate(v) > 0
  {
    var rate := GetCurrencyRate(v);
    assert rate == 1 || rate == 75 || rate == 80;
  }

  /** `predict_rub_salary()`: the single truthy bound, or the floor midpoint
      of both, times the currency rate; `None` when neither bound is truthy. */
  function PredictRubSalary(v: Vacancy): (r: Option<nat>)
    ensures r.None? <==> !Truthy(v.paymentFrom) && !Truthy(v.paymentTo)
    ensures r.Some? ==> r.value > 0
    ensures Truthy(v.paymentFrom) && !Truthy(v.paymentTo) ==>
      r.value == v.paymentFrom.value * GetCurrencyRate(v)
    ensures Truthy(v.paymentTo) && !Truthy(v.paymentFrom) ==>
      r.value == v.paymentTo.value * GetCurrencyRate(v)
    ensures Truthy(v.paymentFrom) && Truthy(v.paymentTo) ==>
      r.value == FloorMidpoint(v.paymentFrom.value, v.paymentTo.value) * GetCurrencyRate(v)
  {
    var currencyRate := GetCurrencyRate(v);
    if !Truthy(v.paymentFrom) && !Truthy(v.paymentTo) then None
    else if Truthy(v.paymentFrom) && !Truthy(v.paymentTo) then
      PositiveTimesRate(v.paymentFrom.value, v);
      Some(v.paymentFrom.value * currencyRate)
    else if Truthy(v.paymentTo) && !Truthy(v.paymentFrom) then
      PositiveTimesRate(v.paymentTo.value, v);
      Some(v.paymentTo.value * currencyRate)
    else
      var m := FloorMidpoint(v.paymentFrom.value, v.paymentTo.value);
      PositiveTimesRate(m, v);
      Some(m * currencyRate)
  }

  /** The bounds that Python treats as present. */
  function TruthyBounds(v: Vacancy): (b: seq<nat>)
    ensures |b| > 0 <==> Truthy(v.paymentFrom) || Truthy(v.paymentTo)
  {
    (if Truthy(v.paymentFrom) then [v.paymentFrom.value] else [])
    + (if Truthy(v.paymentTo) then [v.paymentTo.value] else [])
  }

  /** At rate 1 the estimate lies between the smallest and the largest truthy bound. */
  lemma EstimateWithinBounds(v: Vacancy)
    requires GetCurrencyRate(v) == 1
    requires Truthy(v.paymentFrom) || Truthy(v.paymentTo)
    ensures Min(TruthyBounds(v)) <= PredictRubSalary(v).value <= Max(TruthyBounds(v))
  {
    var b := TruthyBounds(v);
    if |b| == 2 {
      assert b[1..] == [b[1]];
    }
  }

  /** The midpoint is floored before it is multiplied by the rate, so
      (1, 2) in dollars gives 75 roubles, not `(1 + 2) * 75 // 2 == 112`. */
  lemma FloorBeforeRate()
    ensures PredictRubSalary(NewVacancy("Go", Some(1), Some(2), currency := "USD")) == Some(75)
  {}
}
