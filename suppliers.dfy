/** The suppliers the invoice form offers, and the ones allowed to be filed
    more than once in the same month. */
module Suppliers {

  /** The supplier names in the order they are written in the program. */
  const Listed: seq<string> := [
    "E-SALES",
    "PAES E DOCES JARDIM THELMA",
    "PALLEFORT COMERCIO",
    "BRASIL SERVIÇOS",
    "EZ TOOLS",
    "NISSEYS",
    "FUSION",
    "BUONNY",
    "KM STAFF",
    "PANIFICADORA MM",
    "NUNES TRANSPORTES",
    "THEODORO GÁS",
    "BERKLEY"
  ]

  /** The choices of the supplier drop-down: the listed names without
      repetition, in code-point order. */
  const Standard: seq<string> := [
    "BERKLEY",
    "BRASIL SERVIÇOS",
    "BUONNY",
    "E-SALES",
    "EZ TOOLS",
    "FUSION",
    "KM STAFF",
    "NISSEYS",
    "NUNES TRANSPORTES",
    "PAES E DOCES JARDIM THELMA",
    "PALLEFORT COMERCIO",
    "PANIFICADORA MM",
    "THEODORO GÁS"
  ]

  /** Suppliers exempt from the one-invoice-per-month rule. */
  const DuplicateAllowed: seq<string> := ["BUONNY"]

  predicate IsExempt(supplier: string) {
    supplier in DuplicateAllowed
  }

  /** Code-point lexicographic order on strings, as Python compares them. */
  predicate Below(a: string, b: string)
    decreases |a|
  {
    if |a| == 0 then |b| > 0
    else if |b| == 0 then false
    else if a[0] != b[0] then a[0] < b[0]
    else Below(a[1..], b[1..])
  }

  predicate StrictlyIncreasing(s: seq<string>) {
    forall i :: 0 < i < |s| ==> Below(s[i - 1], s[i])
  }

  lemma {:induction false} BelowAtFirstDifference(a: string, b: string, k: nat)
    requires k < |a| && k < |b| && a[..k] == b[..k] && a[k] < b[k]
    ensures Below(a, b)
  {
    if k > 0 {
      assert a[0] == a[..k][0] == b[..k][0] == b[0];
      assert a[1..][..k - 1] == a[..k][1..];
      assert b[1..][..k - 1] == b[..k][1..];
      BelowAtFirstDifference(a[1..], b[1..], k - 1);
    }
  }

  /** The drop-down list is the sorted set of the listed names: no name twice,
      in increasing order, and exactly the names listed. */
  lemma StandardIsSortedSetOfListed()
    ensures StrictlyIncreasing(Standard)
    ensures (set s | s in Standard) == (set s | s in Listed)
    ensures |Standard| == 13
  {
    // position of the first differing character of each neighbouring pair
    var firstDiff := [1, 1, 0, 1, 0, 0, 0, 1, 0, 2, 2, 0];
    forall i | 0 < i < |Standard| ensures Below(Standard[i - 1], Standard[i]) {
      BelowAtFirstDifference(Standard[i - 1], Standard[i], firstDiff[i - 1]);
    }
    forall s | s in Listed ensures s in Standard {
    }
  }

  /** Every exempt supplier is one the form offers. */
  lemma ExemptAreStandard()
    ensures forall s :: IsExempt(s) ==> s in Standard
  {
  }
}
