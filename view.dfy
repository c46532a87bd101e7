/** What the results card shows for a stored analysis. */
module ResultView {
  import opened Js
  import opened Session

  /** One `Feature` box: a fixed title and the review note, which may be absent. */
  datatype Card = Card(title: string, text: Option<string>)

  /** One item of the tips list, keyed by its position. */
  datatype TipItem = TipItem(key: nat, text: string)

  datatype View = View(score: Option<real>, cards: seq<Card>, tips: seq<TipItem>)

  const Titles: seq<string> := ["Jawline", "Cheekbones", "Eyes", "Skin", "Symmetry"]
  const Keys: seq<string> := ["jawline", "cheekbones", "eyes", "skin", "symmetry"]

  /** The review note under `key`: absent when the review or its entry is missing. */
  function Note(review: Option<map<string, string>>, key: string): Option<string> {
    match review
    case Some(m) => if key in m then Some(m[key]) else None
    case None => None
  }

  /** The five feature boxes, in their fixed order. */
  function FeatureCards(review: Option<map<string, string>>): (cards: seq<Card>)
    ensures |cards| == |Titles| == |Keys| == 5
    ensures forall i :: 0 <= i < |cards| ==> cards[i].title == Titles[i] && cards[i].text == Note(review, Keys[i])
    ensures review.None? ==> forall i :: 0 <= i < |cards| ==> cards[i].text.None?
  {
    [ Card("Jawline", Note(review, "jawline")),
      Card("Cheekbones", Note(review, "cheekbones")),
      Card("Eyes", Note(review, "eyes")),
      Card("Skin", Note(review, "skin")),
      Card("Symmetry", Note(review, "symmetry")) ]
  }

  /** One list item per tip, keyed by its position counted from `from`. */
  function NumberTips(tips: seq<string>, from: nat): (items: seq<TipItem>)
    ensures |items| == |tips|
    ensures forall i :: 0 <= i < |items| ==> items[i] == TipItem(from + i, tips[i])
    decreases |tips|
  {
    if tips == [] then [] else [TipItem(from, tips[0])] + NumberTips(tips[1..], from + 1)
  }

  /**
   * The results card: the score as given (no range check), the five feature
   * boxes, and the tips in their order; missing tips render as no items.
   */
  function Render(a: Analysis): (v: View)
    ensures v.score == a.score
    ensures |v.cards| == 5
    ensures forall i :: 0 <= i < 5 ==> v.cards[i] == Card(Titles[i], Note(a.review, Keys[i]))
    ensures a.tips.None? ==> v.tips == []
    ensures a.tips.Some? ==> |v.tips| == |a.tips.value|
    ensures a.tips.Some? ==> forall i :: 0 <= i < |v.tips| ==> v.tips[i] == TipItem(i, a.tips.value[i])
  {
    View(a.score, FeatureCards(a.review), if a.tips.Some? then NumberTips(a.tips.value, 0) else [])
  }

  /** The results card is shown exactly when a result is stored. */
  function ResultsCard(s: AppState): (v: Option<View>)
    ensures v.Some? <==> s.result.Some?
    ensures v.Some? ==> v.value.score == s.result.value.score
    ensures v.Some? ==> v.value == Render(s.result.value)
  {
    if s.result.Some? then Some(Render(s.result.value)) else None
  }

  /**
   * The sample response `{"score":7,"review":{"jawline":"strong"},"tips":["Tip A"]}`
   * is shown with the score 7, a note only under Jawline, and one tip.
   */
  lemma SampleResponse()
    ensures var v := Render(Analysis(Some(7.0), Some(map["jawline" := "strong"]), Some(["Tip A"])));
      && v.score == Some(7.0)
      && v.cards == [Card("Jawline", Some("strong")), Card("Cheekbones", None), Card("Eyes", None),
                     Card("Skin", None), Card("Symmetry", None)]
      && v.tips == [TipItem(0, "Tip A")]
  {
  }
}
