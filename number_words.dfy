/** `EmailBot._word_to_number` (telegram_bot/bot.py): number words to 1..10. */
module NumberWords {
  import opened Text
  import opened Options

  /** The lookup table of `_word_to_number`. */
  const NumberWordTable: map<string, nat> := map[
    "one" := 1, "two" := 2, "three" := 3, "four" := 4, "five" := 5,
    "six" := 6, "seven" := 7, "eight" := 8, "nine" := 9, "ten" := 10,
    "first" := 1, "second" := 2, "third" := 3, "fourth" := 4, "fifth" := 5,
    "sixth" := 6, "seventh" := 7, "eighth" := 8, "ninth" := 9, "tenth" := 10
  ]

  /** An independent listing of the words: the n-th cardinal and ordinal stand at index n - 1. */
  const Cardinals: seq<string> := ["one", "two", "three", "four", "five", "six", "seven", "eight", "nine", "ten"]
  const Ordinals: seq<string> := ["first", "second", "third", "fourth", "fifth", "sixth", "seventh", "eighth", "ninth", "tenth"]

  /** `_word_to_number(word)`: the table entry of the lower-cased word, or `None`. */
  function WordToNumber(word: string): (r: Option<nat>)
    ensures r.Some? <==> Lower(word) in Cardinals || Lower(word) in Ordinals
    ensures r.Some? ==> 1 <= r.value <= 10
    ensures r.Some? ==> Lower(word) == Cardinals[r.value - 1] || Lower(word) == Ordinals[r.value - 1]
  {
    var key := Lower(word);
    if key in NumberWordTable then Some(NumberWordTable[key]) else None
  }

  /**
   * A word maps to `n` exactly when, lower-cased, it is the n-th cardinal or
   * the n-th ordinal, for n in 1..10.
   */
  lemma WordToNumberExactly(word: string, n: int)
    ensures WordToNumber(word) == Some(n) <==>
      1 <= n <= 10 && (Lower(word) == Cardinals[n - 1] || Lower(word) == Ordinals[n - 1])
  {
  }

  /** The lookup ignores case. */
  lemma WordToNumberIgnoresCase(word: string)
    ensures WordToNumber(word) == WordToNumber(Lower(word))
  {
    LowerIdempotent(word);
  }
}
