/**
 * The mood card on the home page: an emoji and a background gradient
 * chosen from the latest mood score.
 */
module MoodCard {
  import opened Wrappers

  /** `!score`: an absent score and a score of 0 are both falsy. */
  predicate Falsy(score: Option<int>) {
    score.None? || score.value == 0
  }

  /** `getMoodEmoji`. */
  function MoodEmoji(score: Option<int>): (r: string)
    ensures Falsy(score) ==> r == "😊"
    ensures r in {"😄", "😊", "😐", "😔", "😢"}
  {
    if Falsy(score) then "😊"
    else if score.value >= 8 then "😄"
    else if score.value >= 6 then "😊"
    else if score.value >= 4 then "😐"
    else if score.value >= 2 then "😔"
    else "😢"
  }

  /** `getMoodColor`. */
  function MoodColor(score: Option<int>): (r: string)
    ensures Falsy(score) ==> r == "from-mint-green to-soft-blue"
    ensures !Falsy(score) && score.value < 2 ==> r == "from-red-200 to-red-100"
  {
    if Falsy(score) then "from-mint-green to-soft-blue"
    else if score.value >= 8 then "from-green-200 to-green-100"
    else if score.value >= 6 then "from-blue-200 to-blue-100"
    else if score.value >= 4 then "from-yellow-200 to-yellow-100"
    else if score.value >= 2 then "from-orange-200 to-orange-100"
    else "from-red-200 to-red-100"
  }

  /** The six cases both mappings distinguish. */
  datatype MoodBand = NoScore | Great | Good | Neutral | Down | Sad

  /** The band of a score: no score, then the thresholds 8, 6, 4 and 2; anything lower, negatives included, is the lowest. */
  function BandOf(score: Option<int>): (b: MoodBand)
    ensures b == NoScore <==> Falsy(score)
    ensures b == Great <==> !Falsy(score) && score.value >= 8
    ensures b == Good <==> !Falsy(score) && 6 <= score.value < 8
    ensures b == Neutral <==> !Falsy(score) && 4 <= score.value < 6
    ensures b == Down <==> !Falsy(score) && 2 <= score.value < 4
    ensures b == Sad <==> !Falsy(score) && score.value < 2
  {
    if Falsy(score) then NoScore
    else if score.value >= 8 then Great
    else if score.value >= 6 then Good
    else if score.value >= 4 then Neutral
    else if score.value >= 2 then Down
    else Sad
  }

  /**
   * The gradient changes exactly where the band does: two scores get the
   * same gradient if and only if they are in the same band.
   */
  lemma ColorFollowsBand(a: Option<int>, b: Option<int>)
    ensures MoodColor(a) == MoodColor(b) <==> BandOf(a) == BandOf(b)
  {
    var colors := ["from-mint-green to-soft-blue", "from-green-200 to-green-100", "from-blue-200 to-blue-100",
                   "from-yellow-200 to-yellow-100", "from-orange-200 to-orange-100", "from-red-200 to-red-100"];
    assert colors[0][5] == 'm' && colors[1][5] == 'g' && colors[2][5] == 'b';
    assert colors[3][5] == 'y' && colors[4][5] == 'o' && colors[5][5] == 'r';
  }

  /** The emoji never changes within a band, so it changes only at the gradient's thresholds. */
  lemma EmojiFollowsBand(a: Option<int>, b: Option<int>)
    requires BandOf(a) == BandOf(b)
    ensures MoodEmoji(a) == MoodEmoji(b)
  {
  }

  /**
   * The emoji alone does not tell every band apart: the default face for a
   * missing score is the one shown for scores 6 and 7.
   */
  lemma DefaultEmojiIsGoodEmoji()
    ensures MoodEmoji(None) == MoodEmoji(Some(0)) == MoodEmoji(Some(6)) == MoodEmoji(Some(7))
    ensures MoodColor(None) == MoodColor(Some(0)) != MoodColor(Some(6))
  {
    assert "from-mint-green to-soft-blue"[5] != "from-blue-200 to-blue-100"[5];
  }

  /** Negative scores are truthy and fall in the lowest band. */
  lemma NegativeScoresLowest(score: int)
    requires score < 0
    ensures MoodEmoji(Some(score)) == "😢" && MoodColor(Some(score)) == "from-red-200 to-red-100"
  {
  }
}
