/** `random.choice`, with the random draw supplied as a natural number. */
module Random {
  import opened Results

  /** `random.choice(s)`: the element the draw `n` selects, or the IndexError
      Python raises for an empty list. Every index `j < |s|` is selected by the
      draws congruent to `j` modulo `|s|`. */
  function Choice<T>(s: seq<T>, n: nat): (r: Result<T>)
    ensures r.Success? <==> |s| > 0
    ensures r.Failure? ==> r.error == EmptySequence
    ensures r.Success? ==> r.value in s
  {
    if |s| == 0 then Failure(EmptySequence) else Success(s[n % |s|])
  }

  /** Every element of a non-empty list can be drawn. */
  lemma ChoiceReaches<T>(s: seq<T>, j: nat)
    requires j < |s|
    ensures Choice(s, j) == Success(s[j])
  {
  }
}
