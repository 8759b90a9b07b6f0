/** Fuzzy sets and the fuzzy operators (src/fuzzy_system/sets.rs). */
module FuzzySets {
  import opened Numeric
  import opened Membership

  /** A named set owning one membership function. */
  datatype FuzzySet = FuzzySet(name: string, membership: MembershipFunction)

  /** `FuzzySet::evaluate`: the degree is exactly the membership function's value. */
  function Degree(s: FuzzySet, x: real): (r: real)
    ensures r == Evaluate(s.membership, x)
    ensures 0.0 <= r <= 1.0
  {
    Evaluate(s.membership, x)
  }

  /** `FuzzyOperation::and`: the minimum. */
  function And(a: real, b: real): (r: real)
    ensures r <= a && r <= b && (r == a || r == b)
    ensures 0.0 <= a <= 1.0 && 0.0 <= b <= 1.0 ==> 0.0 <= r <= 1.0
  {
    Min(a, b)
  }

  /** `FuzzyOperation::or`: the maximum. */
  function Or(a: real, b: real): (r: real)
    ensures r >= a && r >= b && (r == a || r == b)
    ensures 0.0 <= a <= 1.0 && 0.0 <= b <= 1.0 ==> 0.0 <= r <= 1.0
  {
    Max(a, b)
  }

  /** `FuzzyOperation::not`: the complement, which keeps the unit interval. */
  function Not(a: real): (r: real)
    ensures a + r == 1.0
    ensures 0.0 <= a <= 1.0 <==> 0.0 <= r <= 1.0
  {
    1.0 - a
  }

  /** Complement is an involution and onto the unit interval. */
  lemma NotInvolutive(a: real)
    ensures Not(Not(a)) == a
    ensures 0.0 <= a <= 1.0 ==> exists b :: 0.0 <= b <= 1.0 && Not(b) == a
  {
    if 0.0 <= a <= 1.0 {
      assert Not(Not(a)) == a;
    }
  }

  /** AND and OR are commutative, and AND never exceeds OR. */
  lemma AndOrLaws(a: real, b: real)
    ensures And(a, b) == And(b, a) && Or(a, b) == Or(b, a)
    ensures And(a, b) <= Or(a, b)
  {
  }

  /** The values the unit tests assert. */
  lemma DocumentedOperatorValues()
    ensures And(0.3, 0.7) == 0.3 && And(0.8, 0.4) == 0.4 && And(1.0, 0.5) == 0.5
    ensures Or(0.3, 0.7) == 0.7 && Or(0.8, 0.4) == 0.8 && Or(0.0, 0.5) == 0.5
    ensures Not(0.3) == 0.7 && Not(1.0) == 0.0 && Not(0.0) == 1.0
  {
  }
}
