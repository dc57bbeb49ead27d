// The rule table that turns a garment's predicted category and condition into
// advice on what to do with it next (donate, repair, recycle).
module Inference {
  import opened Optional

  /** A label as `recommend` receives it: the rules compare against strings,
      while the classifier's `argmax` hands over a class number. */
  datatype Label = Word(word: string) | Class(index: int)

  const Garments: seq<string> := ["t-shirt", "jeans", "dress"]

  const Donate := "Donate / Resell"
  const Repair := "Repair / Upcycle (patch, embroidery)"
  const Recycle := "Recycle via textile recycling"
  const Fallback := "Consider repair or creative upcycling"

  /** Python's `==` against a string literal: a number never equals a string. */
  predicate Is(l: Label, w: string) {
    l.Word? && l.word == w
  }

  /** Python's `in` on the garment list. */
  predicate IsGarment(l: Label) {
    l.Word? && l.word in Garments
  }

  /** `recommend(category, condition, user_text)`: the first rule that applies wins;
      `user_text` is accepted and never read. */
  function Recommend(category: Label, condition: Label, userText: Option<string>): (r: string)
    ensures r in {Donate, Repair, Recycle, Fallback}
    ensures r == Donate <==> Is(condition, "good") && IsGarment(category)
    ensures r == Repair <==> Is(condition, "torn")
    ensures r == Recycle <==> Is(condition, "worn")
    ensures r == Fallback <==>
      !Is(condition, "torn") && !Is(condition, "worn") && !(Is(condition, "good") && IsGarment(category))
  {
    if Is(condition, "good") && IsGarment(category) then Donate
    else if Is(condition, "torn") then Repair
    else if Is(condition, "worn") then Recycle
    else Fallback
  }

  /** The free-text note never changes the advice. */
  lemma UserTextIgnored(category: Label, condition: Label, note: string)
    ensures Recommend(category, condition, Some(note)) == Recommend(category, condition, None)
  {
  }

  /** The advice depends on the category only for a garment in good condition. */
  lemma CategoryMattersOnlyWhenGood(c1: Label, c2: Label, condition: Label, t: Option<string>)
    requires !Is(condition, "good")
    ensures Recommend(c1, condition, t) == Recommend(c2, condition, t)
  {
  }

  /** Class numbers, as the command-line entry point passes them, never match a
      rule: every prediction ends in the fallback advice. */
  lemma ClassNumbersFallBack(category: int, condition: int)
    ensures Recommend(Class(category), Class(condition), None) == Fallback
  {
  }

  /** A good item outside the garment list is not donated and, being neither torn
      nor worn, gets the fallback. */
  lemma GoodNonGarmentFallsBack(category: Label, t: Option<string>)
    requires !IsGarment(category)
    ensures Recommend(category, Word("good"), t) == Fallback
  {
  }

  /** Labels are matched exactly: another spelling of "good" is not "good". */
  lemma LabelsAreCaseSensitive()
    ensures Recommend(Word("t-shirt"), Word("Good"), None) == Fallback
    ensures Recommend(Word("t-shirt"), Word("good"), None) == Donate
    ensures Recommend(Word("T-shirt"), Word("good"), None) == Fallback
  {
    assert "Good" != "good";
    assert "T-shirt" !in Garments;
  }
}
