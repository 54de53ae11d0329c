/**
 * The achievement popup: it opens when an achievement arrives, shows a
 * number of stars and a label by rarity, offers a special reward for
 * legendary achievements, and closes by hiding itself and then, after a
 * delay, telling its parent.
 */
module AchievementPopup {
  import opened Wrappers
  import opened Language

  datatype Rarity = Common | Rare | Epic | Legendary

  datatype Achievement = Achievement(
    id: string, title: string, titleTh: string, description: string, descriptionTh: string,
    icon: string, points: int, rarity: Rarity)

  /** The rarities from the most common to the rarest. */
  function RarityRank(r: Rarity): nat {
    match r
    case Common => 0
    case Rare => 1
    case Epic => 2
    case Legendary => 3
  }

  /** The length of the star row. */
  function StarCount(r: Rarity): (n: nat)
    ensures n == RarityRank(r) + 2
  {
    if r == Legendary then 5 else if r == Epic then 4 else if r == Rare then 3 else 2
  }

  /** Two to five stars, strictly more for a rarer achievement: two plus the rank. */
  lemma StarsFollowRarity(a: Rarity, b: Rarity)
    ensures StarCount(a) == RarityRank(a) + 2
    ensures 2 <= StarCount(a) <= 5
    ensures StarCount(a) < StarCount(b) <==> RarityRank(a) < RarityRank(b)
  {
  }

  /** `rarityColors`. */
  function RarityColor(r: Rarity): string {
    match r
    case Common => "from-gray-400 to-gray-600"
    case Rare => "from-blue-400 to-blue-600"
    case Epic => "from-purple-400 to-purple-600"
    case Legendary => "from-yellow-400 to-orange-500"
  }

  /** `rarityLabels`. */
  function RarityLabel(l: Language, r: Rarity): string {
    var th := l == Th;
    match r
    case Common => if th then "ธรรมดา" else "Common"
    case Rare => if th then "หายาก" else "Rare"
    case Epic => if th then "พิเศษ" else "Epic"
    case Legendary => if th then "ตำนาน" else "Legendary"
  }

  /** The colour and, in either language, the label tell the rarities apart. */
  lemma RarityDistinguishable(l: Language, a: Rarity, b: Rarity)
    ensures RarityColor(a) == RarityColor(b) <==> a == b
    ensures RarityLabel(l, a) == RarityLabel(l, b) <==> a == b
  {
    if a != b {
      assert RarityColor(a)[5] != RarityColor(b)[5];
      assert RarityLabel(l, a)[0] != RarityLabel(l, b)[0];
    }
  }

  /** The claim button: only with a reward handler, and only for a legendary achievement. */
  predicate ShowsClaim(hasClaimReward: bool, r: Rarity) {
    hasClaimReward && r == Legendary
  }

  /** What the open popup shows. */
  datatype PopupView = PopupView(
    title: string, description: string, points: int, stars: nat,
    color: string, rarityLabel: string, claimButton: bool)

  /** The popup's state; the reward handler is a prop that is present or not. */
  class AchievementPopup {
    var achievement: Option<Achievement>
    const hasClaimReward: bool
    var isVisible: bool
    /** `onClose` calls scheduled by `handleClose` and not yet made. */
    var pendingCloses: nat
    /** `onClose` calls made. */
    var closes: nat
    /** `onClaimReward` calls made. */
    var claims: nat

    /** The first render, before the effect: hidden. */
    constructor (achievement: Option<Achievement>, hasClaimReward: bool)
      ensures this.achievement == achievement && this.hasClaimReward == hasClaimReward
      ensures !isVisible && pendingCloses == 0 && closes == 0 && claims == 0
    {
      this.achievement := achievement;
      this.hasClaimReward := hasClaimReward;
      isVisible := false;
      pendingCloses := 0;
      closes := 0;
      claims := 0;
    }

    /** The effect on `achievement`: an achievement makes the popup visible, none leaves it as it is. */
    method AchievementEffect()
      modifies this
      ensures isVisible == (old(isVisible) || achievement.Some?)
      ensures achievement == old(achievement) && pendingCloses == old(pendingCloses)
      ensures closes == old(closes) && claims == old(claims)
    {
      if achievement.Some? {
        isVisible := true;
      }
    }

    /** The parent passes another achievement, and the effect runs. */
    method SetAchievement(a: Option<Achievement>)
      modifies this
      ensures achievement == a && isVisible == (old(isVisible) || a.Some?)
      ensures pendingCloses == old(pendingCloses) && closes == old(closes) && claims == old(claims)
    {
      achievement := a;
      AchievementEffect();
    }

    /** What is rendered: nothing without an achievement or while hidden. */
    function Rendered(l: Language): (v: Option<PopupView>)
      reads this
      ensures v.Some? <==> achievement.Some? && isVisible
      ensures v.Some? ==> v.value.stars == StarCount(achievement.value.rarity)
      ensures v.Some? ==> (v.value.claimButton <==> hasClaimReward && achievement.value.rarity == Legendary)
    {
      if achievement.None? || !isVisible then None
      else
        var a := achievement.value;
        Some(PopupView(if l == Th then a.titleTh else a.title,
                       if l == Th then a.descriptionTh else a.description,
                       a.points, StarCount(a.rarity), RarityColor(a.rarity), RarityLabel(l, a.rarity),
                       ShowsClaim(hasClaimReward, a.rarity)))
    }

    /** `handleClose`: hide at once and schedule `onClose`. */
    method HandleClose()
      modifies this
      ensures !isVisible && pendingCloses == old(pendingCloses) + 1
      ensures achievement == old(achievement) && closes == old(closes) && claims == old(claims)
    {
      isVisible := false;
      pendingCloses := pendingCloses + 1;
    }

    /** The close timer fires and `onClose` is called. */
    method CloseTimerFires()
      requires pendingCloses > 0
      modifies this
      ensures pendingCloses == old(pendingCloses) - 1 && closes == old(closes) + 1
      ensures achievement == old(achievement) && isVisible == old(isVisible) && claims == old(claims)
    {
      pendingCloses := pendingCloses - 1;
      closes := closes + 1;
    }

    /** A click on the claim button, which exists only while it is rendered. */
    method ClickClaim(l: Language)
      requires Rendered(l).Some? && Rendered(l).value.claimButton
      modifies this
      ensures claims == old(claims) + 1
      ensures achievement == old(achievement) && isVisible == old(isVisible)
      ensures pendingCloses == old(pendingCloses) && closes == old(closes)
    {
      claims := claims + 1;
    }
  }

  /**
   * A legendary achievement opens with five stars and the claim button;
   * closing hides the popup before the parent hears of it.
   */
  method LegendaryThenClose(a: Achievement)
    requires a.rarity == Legendary
  {
    var popup := new AchievementPopup(None, true);
    assert popup.Rendered(En).None?;
    popup.SetAchievement(Some(a));
    var v := popup.Rendered(En);
    assert v.Some? && v.value.stars == 5 && v.value.claimButton;
    popup.ClickClaim(En);
    popup.HandleClose();
    assert popup.Rendered(En).None? && popup.closes == 0;
    popup.CloseTimerFires();
    assert popup.closes == 1 && popup.claims == 1;
  }
}
