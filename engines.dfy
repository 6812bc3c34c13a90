/** Where the two generations of the salary engine agree and where they do not. */
module Engines {
  import opened PyValues
  import Common
  import Vacancies

  /** A rouble range with both bounds gets the same floor midpoint from both. */
  lemma AgreeOnClosedRange(language: string, f: nat, t: nat)
    requires f > 0 && t > 0
    ensures Common.PredictRubSalary(Some(Common.SalaryRecord(Some(f), Some(t), Some("RUR"))))
         == Vacancies.PredictRubSalary(Vacancies.NewVacancy(language, Some(f), Some(t)))
         == Some((f + t) / 2)
  {
    Vacancies.DefaultCurrencyRate(language, Some(f), Some(t), None);
  }

  /** A lower bound alone is raised by 20% in the first generation and taken
      as it is in the second, so from 5 roubles up the first is higher. */
  lemma DisagreeOnLowerBound(language: string, f: nat)
    requires f >= 5
    ensures Common.PredictRubSalary(Some(Common.SalaryRecord(Some(f), None, Some("RUR")))).value
          > Vacancies.PredictRubSalary(Vacancies.NewVacancy(language, Some(f))).value
  {
    Vacancies.DefaultCurrencyRate(language, Some(f), None, None);
  }

  /** An upper bound of 1 alone gives an estimate of 0 that the first
      generation drops, while the second keeps it as 1. */
  lemma DisagreeOnUnitUpperBound(language: string)
    ensures Common.PredictRubSalary(Some(Common.SalaryRecord(None, Some(1), Some("RUR")))) == Some(0)
    ensures Vacancies.PredictRubSalary(Vacancies.NewVacancy(language, None, Some(1))) == Some(1)
  {
    Vacancies.DefaultCurrencyRate(language, None, Some(1), None);
  }
}
