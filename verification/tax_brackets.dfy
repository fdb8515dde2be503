/** The bracket lookup shown on the results view: a five-row threshold table
    from an amount to a marginal-rate label. The table is fixed; it is not
    derived from any tax law. */
module TaxBrackets {

  /** A JavaScript `number`: an exact real, or one of the three IEEE-754
      specials. Rounding of finite values is not modelled. */
  datatype Number = Finite(value: real) | NaN | Infinity | NegativeInfinity

  /** Lower bounds of the second to fifth bracket, ascending. Each bound
      belongs to the bracket it opens. */
  const Thresholds: seq<real> := [10000.0, 50000.0, 100000.0, 200000.0]

  /** The labels, from the lowest bracket to the highest. */
  const Labels: seq<string> := ["0%", "10%", "15%", "25%", "35%"]

  /** JavaScript's `x < bound` for a finite bound: any comparison with NaN is
      false. */
  predicate LessThan(x: Number, bound: real) {
    match x
    case Finite(v) => v < bound
    case NaN => false
    case Infinity => false
    case NegativeInfinity => true
  }

  /** The classifier, one early return per bracket as in the source. The
      contract is the table: each label owns a half-open range whose lower
      end is inclusive. */
  function CalculateTaxBracket(income: Number): (bracket: string)
    ensures bracket in Labels
    ensures income.Finite? ==> (bracket == "0%" <==> income.value < 10000.0)
    ensures income.Finite? ==> (bracket == "10%" <==> 10000.0 <= income.value < 50000.0)
    ensures income.Finite? ==> (bracket == "15%" <==> 50000.0 <= income.value < 100000.0)
    ensures income.Finite? ==> (bracket == "25%" <==> 100000.0 <= income.value < 200000.0)
    ensures income.Finite? ==> (bracket == "35%" <==> 200000.0 <= income.value)
    ensures income.NaN? || income.Infinity? ==> bracket == "35%"
    ensures income.NegativeInfinity? ==> bracket == "0%"
  {
    if LessThan(income, 10000.0) then "0%"
    else if LessThan(income, 50000.0) then "10%"
    else if LessThan(income, 100000.0) then "15%"
    else if LessThan(income, 200000.0) then "25%"
    else "35%"
  }

  /** How many of the bounds in `ts` lie at or below `v`. */
  function CountAtOrBelow(ts: seq<real>, v: real): (n: nat)
    ensures n <= |ts|
  {
    if |ts| == 0 then 0
    else (if ts[0] <= v then 1 else 0) + CountAtOrBelow(ts[1..], v)
  }

  /** Every label is distinct, so a label names exactly one bracket. */
  lemma LabelsDistinct()
    ensures forall i, j :: 0 <= i < j < |Labels| ==> Labels[i] != Labels[j]
  {
  }

  /** Reference definition: the bracket of a finite amount is the number of
      bounds it has reached, so the label is `Labels[count]`. */
  lemma {:induction false} BracketIsThresholdCount(v: real)
    ensures CalculateTaxBracket(Finite(v)) == Labels[CountAtOrBelow(Thresholds, v)]
  {
    var t1, t2, t3 := Thresholds[1..], Thresholds[2..], Thresholds[3..];
    assert t1 == [50000.0, 100000.0, 200000.0] && t1[1..] == t2;
    assert t2 == [100000.0, 200000.0] && t2[1..] == t3;
    assert t3 == [200000.0] && t3[1..] == [];
    var c3 := CountAtOrBelow(t3, v);
    assert c3 == if 200000.0 <= v then 1 else 0;
    var c2 := CountAtOrBelow(t2, v);
    assert c2 == (if 100000.0 <= v then 1 else 0) + c3;
    var c1 := CountAtOrBelow(t1, v);
    assert c1 == (if 50000.0 <= v then 1 else 0) + c2;
    assert CountAtOrBelow(Thresholds, v) == (if 10000.0 <= v then 1 else 0) + c1;
  }

  /** More of an ascending table is reached by a larger amount. */
  lemma {:induction false} CountMonotone(ts: seq<real>, a: real, b: real)
    requires a <= b
    ensures CountAtOrBelow(ts, a) <= CountAtOrBelow(ts, b)
  {
    if |ts| > 0 {
      CountMonotone(ts[1..], a, b);
    }
  }

  /** Monotonicity: a larger finite amount never lands in a lower bracket,
      where a bracket's rank is its label's position in `Labels`. The
      infinities need no lemma: the ensures of `CalculateTaxBracket` put −∞
      in the lowest bracket and +∞ in the highest. */
  lemma BracketMonotone(a: real, b: real, i: nat, j: nat)
    requires a <= b
    requires i < |Labels| && Labels[i] == CalculateTaxBracket(Finite(a))
    requires j < |Labels| && Labels[j] == CalculateTaxBracket(Finite(b))
    ensures i <= j
  {
    BracketIsThresholdCount(a);
    BracketIsThresholdCount(b);
    CountMonotone(Thresholds, a, b);
    LabelsDistinct();
  }

  /** The four lower bounds are inclusive, and the amount just below each one
      is still in the bracket beneath it. */
  lemma BoundariesInclusive()
    ensures forall k :: 0 <= k < |Thresholds| ==>
              CalculateTaxBracket(Finite(Thresholds[k])) == Labels[k + 1]
    ensures forall k :: 0 <= k < |Thresholds| ==>
              CalculateTaxBracket(Finite(Thresholds[k] - 1.0)) == Labels[k]
  {
  }
}
