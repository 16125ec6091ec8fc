/** Orderings of the integer scales that the design-token tables declare. */
module Orders {

  /** Every later entry is larger than every earlier one. */
  ghost predicate StrictlyIncreasing(s: seq<int>)
  {
    forall i, j :: 0 <= i < j < |s| ==> s[i] < s[j]
  }

  /** Each entry is larger than the one just before it. */
  ghost predicate StepsUp(s: seq<int>)
  {
    forall i :: 0 < i < |s| ==> s[i - 1] < s[i]
  }

  /** A scale that goes up at each step goes up overall. */
  lemma {:induction false} StepsUpIsIncreasing(s: seq<int>)
    requires StepsUp(s)
    ensures StrictlyIncreasing(s)
  {
    if |s| > 1 {
      var front := s[..|s| - 1];
      assert StepsUp(front);
      StepsUpIsIncreasing(front);
      forall i | 0 <= i < |s| - 1
        ensures s[i] < s[|s| - 1]
      {
        assert front[i] <= front[|s| - 2];
      }
    }
  }
}
