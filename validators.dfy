/**
 * The two validators of helpers.py. Python's `float()` string grammar is
 * not modelled: it is the parameter `parseReal`, with `None` for the
 * `ValueError` it raises.
 */
module Validators {
  import opened Wrappers
  import opened Dates

  /** The Python values `validate_budget` is called with. */
  datatype PyValue = PyNone | PyInt(i: int) | PyFloat(f: real) | PyStr(s: string)

  /** `float(v)`; `None` stands for the `ValueError` or `TypeError` it raises. */
  function ToFloat(v: PyValue, parseReal: string -> Option<real>): (r: Option<real>)
    ensures v.PyNone? ==> r == None
    ensures v.PyInt? ==> r == Some(v.i as real)
    ensures v.PyFloat? ==> r == Some(v.f)
  {
    match v
    case PyNone => None
    case PyInt(i) => Some(i as real)
    case PyFloat(f) => Some(f)
    case PyStr(s) => parseReal(s)
  }

  /** `validate_date_range`: both parse as `%Y-%m-%d` and the end is not before the start. */
  function ValidateDateRange(startDate: string, endDate: string): (ok: bool)
    ensures ok ==> ParseDate(startDate).Some? && ParseDate(endDate).Some?
    ensures ok <==> ParseDate(startDate).Some? && ParseDate(endDate).Some? &&
                    Ordinal(ParseDate(startDate).value) <= Ordinal(ParseDate(endDate).value)
  {
    match (ParseDate(startDate), ParseDate(endDate))
    case (Some(s), Some(e)) =>
      DateLeIsCalendarOrder(s, e);
      DateLe(s, e)
    case _ => false
  }

  /** `validate_budget`: the value converts to a number strictly above 0. */
  function ValidateBudget(budget: PyValue, parseReal: string -> Option<real>): (ok: bool)
    ensures budget.PyNone? ==> !ok
    ensures budget.PyInt? ==> (ok <==> budget.i > 0)
    ensures budget.PyFloat? ==> (ok <==> budget.f > 0.0)
    ensures budget.PyStr? ==> (ok <==> parseReal(budget.s).Some? && parseReal(budget.s).value > 0.0)
  {
    match ToFloat(budget, parseReal)
    case None => false
    case Some(b) => b > 0.0
  }

  /** A campaign that ends on the day it starts is a valid range. */
  lemma SameDayValid(s: string)
    requires ParseDate(s).Some?
    ensures ValidateDateRange(s, s)
  {
    DateLeIsCalendarOrder(ParseDate(s).value, ParseDate(s).value);
  }

  /** Swapping two different valid dates turns a valid range into an invalid one. */
  lemma ReversedRangeInvalid(s: string, e: string)
    requires ValidateDateRange(s, e) && ParseDate(s) != ParseDate(e)
    ensures !ValidateDateRange(e, s)
  {
    var a, b := ParseDate(s).value, ParseDate(e).value;
    DateLeIsCalendarOrder(a, b);
    DateLeIsCalendarOrder(b, a);
  }

  /** The date-range test vectors. */
  lemma DateRangeVectors()
    ensures ValidateDateRange("2026-01-01", "2026-01-31")
    ensures ValidateDateRange("2026-01-15", "2026-01-15")
    ensures !ValidateDateRange("2026-01-31", "2026-01-01")
    ensures !ValidateDateRange("not-a-date", "2026-01-01")
  {
    assert "2026-01-01"[5..] == "01-01" && "01-01"[3..] == "01";
    assert "2026-01-31"[5..] == "01-31" && "01-31"[3..] == "31";
    assert "2026-01-15"[5..] == "01-15" && "01-15"[3..] == "15";
    assert ParseDate("2026-01-01") == Some(Date(2026, 1, 1));
    assert ParseDate("2026-01-31") == Some(Date(2026, 1, 31));
    assert ParseDate("2026-01-15") == Some(Date(2026, 1, 15));
    MalformedRefused();
  }

  /**
   * The budget test vectors, for any `float()` that reads "1000" as 1000
   * and refuses "not-a-number".
   */
  lemma BudgetVectors(parseReal: string -> Option<real>)
    requires parseReal("1000") == Some(1000.0) && parseReal("not-a-number") == None
    ensures ValidateBudget(PyFloat(500.50), parseReal)
    ensures ValidateBudget(PyStr("1000"), parseReal)
    ensures ValidateBudget(PyFloat(0.01), parseReal)
    ensures !ValidateBudget(PyInt(0), parseReal)
    ensures !ValidateBudget(PyInt(-100), parseReal)
    ensures !ValidateBudget(PyStr("not-a-number"), parseReal)
    ensures !ValidateBudget(PyNone, parseReal)
  {
  }
}
