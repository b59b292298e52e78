/** Line totals: thousandths of a unit times a price in cents, rounded to whole
    cents the way Decimal.quantize does by default (ties to the even cent). */
module Money {

  /** quantity (thousandths) * price (cents) quantised to cents. */
  function LineTotal(quantity: nat, price: nat): (cents: nat)
    ensures -500 <= 1000 * cents - quantity * price <= 500
  {
    RoundHalfEven(quantity * price)
  }

  function RoundHalfEven(thousandths: nat): (cents: nat)
    ensures -500 <= 1000 * cents - thousandths <= 500
    ensures 1000 * cents - thousandths in {-500, 500} ==> cents % 2 == 0
  {
    var q, r := thousandths / 1000, thousandths % 1000;
    if r < 500 || (r == 500 && q % 2 == 0) then q else q + 1
  }

  /** The two clauses of RoundHalfEven determine it: nearest cent, ties to even. */
  lemma RoundingIsUnique(thousandths: nat, cents: nat)
    requires -500 <= 1000 * cents - thousandths <= 500
    requires 1000 * cents - thousandths in {-500, 500} ==> cents % 2 == 0
    ensures cents == RoundHalfEven(thousandths)
  {}

  datatype Line = Line(quantity: nat, price: nat)

  function ExactTotal(lines: seq<Line>): nat {
    if lines == [] then 0 else ExactTotal(lines[1..]) + lines[0].quantity * lines[0].price
  }

  function RoundedTotal(lines: seq<Line>): nat {
    if lines == [] then 0 else RoundedTotal(lines[1..]) + LineTotal(lines[0].quantity, lines[0].price)
  }

  /** n rounded lines differ from the exact sum by at most n half cents. */
  lemma {:induction false} SumWithinHalfCents(lines: seq<Line>)
    ensures -500 * |lines| <= 1000 * RoundedTotal(lines) - ExactTotal(lines) <= 500 * |lines|
  {
    if lines != [] { SumWithinHalfCents(lines[1..]); }
  }
}
