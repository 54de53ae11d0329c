/**
 * The privacy-consent screen: four consent checkboxes, two of them
 * required, and the accept button that stays disabled until both required
 * consents are given.
 */
module PrivacyConsent {

  /** The `consents` record. */
  datatype Consents = Consents(dataCollection: bool, aiAnalysis: bool, analytics: bool, marketing: bool)

  const Initial := Consents(false, false, false, false)

  /** The ids of the consent fields, in the order the checkboxes are listed. */
  const ConsentIds: seq<string> := ["dataCollection", "aiAnalysis", "analytics", "marketing"]

  /** `consents[id]` for one of the four ids. */
  function Get(c: Consents, id: string): bool
    requires id in ConsentIds
  {
    if id == "dataCollection" then c.dataCollection
    else if id == "aiAnalysis" then c.aiAnalysis
    else if id == "analytics" then c.analytics
    else c.marketing
  }

  /**
   * `handleConsentChange`: `{ ...prev, [id]: checked }`. Any other id only
   * adds a property nobody reads, so the four fields stay as they were.
   */
  function SetConsent(c: Consents, id: string, checked: bool): (r: Consents)
    ensures id !in ConsentIds ==> r == c
    ensures id in ConsentIds ==> Get(r, id) == checked
  {
    if id == "dataCollection" then c.(dataCollection := checked)
    else if id == "aiAnalysis" then c.(aiAnalysis := checked)
    else if id == "analytics" then c.(analytics := checked)
    else if id == "marketing" then c.(marketing := checked)
    else c
  }

  /** `canProceed`. */
  predicate CanProceed(c: Consents)
    ensures CanProceed(c) <==> Get(c, "dataCollection") && Get(c, "aiAnalysis")
  {
    c.dataCollection && c.aiAnalysis
  }

  /** Changing a consent sets that field to the new value and leaves every other field as it was. */
  lemma SetConsentFrame(c: Consents, id: string, checked: bool, k: string)
    requires k in ConsentIds
    ensures Get(SetConsent(c, id, checked), k) == if k == id then checked else Get(c, k)
  {
  }

  /** Two records that agree on all four ids are the same record. */
  lemma ConsentsByIds(c: Consents, d: Consents)
    requires forall k :: k in ConsentIds ==> Get(c, k) == Get(d, k)
    ensures c == d
  {
    assert Get(c, ConsentIds[0]) == Get(d, ConsentIds[0]);
    assert Get(c, ConsentIds[1]) == Get(d, ConsentIds[1]);
    assert Get(c, ConsentIds[2]) == Get(d, ConsentIds[2]);
    assert Get(c, ConsentIds[3]) == Get(d, ConsentIds[3]);
  }

  /** The optional consents never decide whether the user may proceed. */
  lemma OptionalConsentsIrrelevant(c: Consents, checked: bool)
    ensures CanProceed(SetConsent(c, "analytics", checked)) == CanProceed(c)
    ensures CanProceed(SetConsent(c, "marketing", checked)) == CanProceed(c)
  {
  }

  /** Nothing is consented at first, so the user cannot proceed until both required boxes are ticked. */
  lemma InitialCannotProceed()
    ensures forall k :: k in ConsentIds ==> !Get(Initial, k)
    ensures !CanProceed(Initial)
    ensures CanProceed(SetConsent(SetConsent(Initial, "dataCollection", true), "aiAnalysis", true))
  {
  }

  /** A consent checkbox; its title and description are display text only. */
  datatype ConsentItem = ConsentItem(id: string, required: bool)

  /** `consentItems`: one per field, the first two marked required. */
  const ConsentItems: seq<ConsentItem> := [
    ConsentItem("dataCollection", true),
    ConsentItem("aiAnalysis", true),
    ConsentItem("analytics", false),
    ConsentItem("marketing", false)
  ]

  /**
   * The items cover the four fields in order, and the ones marked required
   * are exactly the two `canProceed` reads: the user may proceed exactly
   * when every required item is ticked.
   */
  lemma RequiredItemsAreTheGate(c: Consents)
    ensures |ConsentItems| == |ConsentIds|
    ensures forall i :: 0 <= i < |ConsentItems| ==> ConsentItems[i].id == ConsentIds[i]
    ensures CanProceed(c) <==>
              forall i :: 0 <= i < |ConsentItems| && ConsentItems[i].required ==> Get(c, ConsentItems[i].id)
  {
    assert ConsentItems[0].required && ConsentItems[1].required;
  }

  /** The screen's consents and the callbacks it has fired. */
  class PrivacyConsentForm {
    var consents: Consents
    var accepted: bool
    var declined: bool

    constructor ()
      ensures consents == Initial && !accepted && !declined
    {
      consents := Initial;
      accepted := false;
      declined := false;
    }

    /** A checkbox changed. */
    method HandleConsentChange(id: string, checked: bool)
      modifies this
      ensures consents == SetConsent(old(consents), id, checked)
      ensures accepted == old(accepted) && declined == old(declined)
    {
      consents := SetConsent(consents, id, checked);
    }

    /** The accept button is disabled exactly when the user cannot proceed. */
    predicate AcceptDisabled()
      reads this
    {
      !CanProceed(consents)
    }

    /** A click on the accept button reaches `onAccept` only while the button is enabled. */
    method ClickAccept() returns (fired: bool)
      modifies this
      ensures fired == CanProceed(old(consents))
      ensures accepted == (old(accepted) || fired)
      ensures consents == old(consents) && declined == old(declined)
    {
      fired := CanProceed(consents);
      if fired {
        accepted := true;
      }
    }

    /** The decline button is always enabled. */
    method ClickDecline()
      modifies this
      ensures declined && consents == old(consents) && accepted == old(accepted)
    {
      declined := true;
    }
  }

  /** Ticking only the optional boxes never lets the user through. */
  method OptionalOnlyBlocked(a: bool, m: bool) {
    var form := new PrivacyConsentForm();
    form.HandleConsentChange("analytics", a);
    form.HandleConsentChange("marketing", m);
    var fired := form.ClickAccept();
    assert !fired && form.AcceptDisabled();
    form.HandleConsentChange("dataCollection", true);
    form.HandleConsentChange("aiAnalysis", true);
    fired := form.ClickAccept();
    assert fired && form.accepted;
  }
}
