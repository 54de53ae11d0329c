/**
 * The daily-tip card: one of four translated tips, chosen from the day of
 * the month once the card has mounted.
 */
module DailyTip {
  import opened Language

  /** The translation keys of the tips, in the order the card lists them. */
  const Tips: seq<string> := ["tips.breathing", "tips.gratitude", "tips.nature", "tips.meditation"]

  /** `today % tips.length` for a day of the month. */
  function TipIndex(dayOfMonth: nat): (i: nat)
    ensures i < |Tips|
  {
    dayOfMonth % |Tips|
  }

  /**
   * The tips repeat every four days, and any four consecutive days show
   * all four tips.
   */
  lemma TipCycle(day: nat)
    ensures TipIndex(day + 4) == TipIndex(day)
    ensures {TipIndex(day), TipIndex(day + 1), TipIndex(day + 2), TipIndex(day + 3)} == {0, 1, 2, 3}
  {
    var r := day % 4;
    assert day == 4 * (day / 4) + r;
    assert TipIndex(day + 1) == (r + 1) % 4 by {
      assert day + 1 == 4 * (day / 4) + (r + 1);
    }
    assert TipIndex(day + 2) == (r + 2) % 4 by {
      assert day + 2 == 4 * (day / 4) + (r + 2);
    }
    assert TipIndex(day + 3) == (r + 3) % 4 by {
      assert day + 3 == 4 * (day / 4) + (r + 3);
    }
    assert TipIndex(day + 4) == r by {
      assert day + 4 == 4 * (day / 4 + 1) + r;
    }
  }

  /** Every tip key is translated in both languages, so the card never shows a bare key. */
  lemma TipsTranslated(l: Language, i: nat)
    requires i < |Tips|
    ensures Tips[i] in ThTable && Tips[i] in EnTable
    ensures T(l, Tips[i]) == Table(l)[Tips[i]] != Tips[i]
  {
    TranslatedKeys(l, Tips[i]);
    TablesShareKeys();
    assert Tips[i][0] == 't';
    if l == Th {
      assert ThTable[Tips[i]][0] != 't' by {
        assert i == 0 || i == 1 || i == 2 || i == 3;
      }
    } else {
      if i == 0 {
        assert EnTable["tips.breathing"][0] == 'T';
      } else if i == 1 {
        assert EnTable["tips.gratitude"] == "Write down 3 things you're grateful for today";
      } else if i == 2 {
        assert EnTable["tips.nature"][0] == 'S';
      } else {
        assert EnTable["tips.meditation"][0] == 'M';
      }
    }
  }

  /** The card's `currentTip` state. */
  class DailyTipCard {
    var currentTip: nat

    predicate Valid()
      reads this
    {
      currentTip < |Tips|
    }

    /** Before the effect runs, the first tip is shown. */
    constructor ()
      ensures currentTip == 0 && Valid()
    {
      currentTip := 0;
    }

    /** The mount effect, given the day of the month the browser reports. */
    method Mount(dayOfMonth: nat)
      modifies this
      ensures currentTip == TipIndex(dayOfMonth) && Valid()
    {
      currentTip := dayOfMonth % |Tips|;
    }

    /** The tip's text: `t(tips[currentTip])`. */
    function Shown(l: Language): string
      requires Valid()
      reads this
    {
      T(l, Tips[currentTip])
    }
  }

  /** Before the effect the card shows the breathing tip; on the 7th it shows the meditation tip. */
  method SeventhShowsMeditation() {
    var card := new DailyTipCard();
    TipsTranslated(En, 0);
    assert card.Shown(En) == "Take 4 deep breaths for instant calm";
    card.Mount(7);
    TipsTranslated(En, 3);
    assert card.Shown(En) == "Meditate for 5 minutes for peace of mind";
  }
}
