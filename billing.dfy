/**
 * The billing portal card: the subscription's status badge, the
 * cancellation warning and the manage-billing button, or a
 * no-subscription card for a user who is not premium.
 */
module BillingPortal {
  import opened Wrappers
  import opened Language

  /** The subscription prop; the period end is the raw date string the card formats. */
  datatype Subscription = Subscription(
    status: string, currentPeriodEnd: string, priceId: string, cancelAtPeriodEnd: bool)

  /** The statuses `statusMap` has labels for. */
  const KnownStatuses: set<string> := {"active", "canceled", "past_due", "trialing"}

  /** `getStatusText`: the label of a known status, any other status as it is. */
  function StatusText(language: Language, status: string): (r: string)
    ensures status !in KnownStatuses ==> r == status
    ensures status == "active" ==> r in {"ใช้งานอยู่", "Active"}
  {
    var th := language == Th;
    if status == "active" then (if th then "ใช้งานอยู่" else "Active")
    else if status == "canceled" then (if th then "ยกเลิกแล้ว" else "Canceled")
    else if status == "past_due" then (if th then "ค้างชำระ" else "Past Due")
    else if status == "trialing" then (if th then "ทดลองใช้" else "Trial")
    else status
  }

  /**
   * A status without a label is shown verbatim, a status with one is never
   * shown verbatim, and the four labels of a language are distinct.
   */
  lemma StatusTextCases(language: Language, status: string, other: string)
    ensures status !in KnownStatuses ==> StatusText(language, status) == status
    ensures status in KnownStatuses ==> StatusText(language, status) != status
    ensures status in KnownStatuses && other in KnownStatuses ==>
              (StatusText(language, status) == StatusText(language, other) <==> status == other)
  {
    assert "Active"[0] != "active"[0] && "Canceled"[0] != "canceled"[0];
    assert "Past Due"[0] != "past_due"[0] && "Trial"[0] != "trialing"[0];
    assert "ใช้งานอยู่"[0] != "active"[0] && "ยกเลิกแล้ว"[0] != "canceled"[0];
    assert "ค้างชำระ"[0] != "past_due"[0] && "ทดลองใช้"[0] != "trialing"[0];
    assert "Active"[0] != "Canceled"[0] && "Active"[0] != "Past Due"[0] && "Active"[0] != "Trial"[0];
    assert "Canceled"[0] != "Past Due"[0] && "Canceled"[0] != "Trial"[0] && "Past Due"[0] != "Trial"[0];
    assert "ใช้งานอยู่"[0] != "ยกเลิกแล้ว"[0] && "ใช้งานอยู่"[0] != "ค้างชำระ"[0] && "ใช้งานอยู่"[0] != "ทดลองใช้"[0];
    assert "ยกเลิกแล้ว"[0] != "ค้างชำระ"[0] && "ยกเลิกแล้ว"[0] != "ทดลองใช้"[0] && "ค้างชำระ"[0] != "ทดลองใช้"[0];
  }

  /** The English labels. */
  lemma EnglishStatusTexts()
    ensures StatusText(En, "active") == "Active" && StatusText(En, "canceled") == "Canceled"
    ensures StatusText(En, "past_due") == "Past Due" && StatusText(En, "trialing") == "Trial"
  {
  }

  const Green := "bg-green-100 text-green-800"
  const Red := "bg-red-100 text-red-800"
  const Yellow := "bg-yellow-100 text-yellow-800"
  const Gray := "bg-gray-100 text-gray-800"

  /** `getStatusColor`. */
  function StatusColor(status: string): (r: string)
    ensures r in {Green, Red, Yellow, Gray}
    ensures status !in {"active", "canceled", "past_due"} ==> r == Gray
  {
    if status == "active" then Green
    else if status == "canceled" then Red
    else if status == "past_due" then Yellow
    else Gray
  }

  /**
   * Green exactly for an active subscription, red exactly for a canceled
   * one, yellow exactly for one past due, and gray for everything else,
   * a trial included.
   */
  lemma StatusColorCases(status: string)
    ensures StatusColor(status) == Green <==> status == "active"
    ensures StatusColor(status) == Red <==> status == "canceled"
    ensures StatusColor(status) == Yellow <==> status == "past_due"
    ensures StatusColor(status) == Gray <==> status !in {"active", "canceled", "past_due"}
    ensures StatusColor("trialing") == Gray
  {
    assert Green[5] != Red[5] && Green[5] != Yellow[5] && Green[5] != Gray[5];
    assert Red[5] != Yellow[5] && Red[5] != Gray[5] && Yellow[5] != Gray[5];
  }

  /** The status row: badge colour, badge text and the raw period end. */
  datatype StatusRow = StatusRow(color: string, text: string, periodEnd: string)

  /** What the card shows. */
  datatype PortalCard =
    | NoSubscriptionCard
    | BillingCard(statusRow: Option<StatusRow>, cancelWarning: bool, manageDisabled: bool)

  /** The card for the props and the `isLoading` flag of the checkout hook. */
  function Card(language: Language, subscription: Option<Subscription>, isPremium: bool, isLoading: bool): (r: PortalCard)
    ensures r.NoSubscriptionCard? <==> !isPremium
    ensures r.BillingCard? ==> (r.manageDisabled <==> isLoading) && (r.statusRow.Some? <==> subscription.Some?)
  {
    if !isPremium then NoSubscriptionCard
    else match subscription
      case None => BillingCard(None, false, isLoading)
      case Some(s) =>
        BillingCard(Some(StatusRow(StatusColor(s.status), StatusText(language, s.status), s.currentPeriodEnd)),
                    s.cancelAtPeriodEnd, isLoading)
  }

  /**
   * A user who is not premium gets the no-subscription card whatever the
   * subscription says; a premium user gets the billing card, whose status
   * row appears exactly with a subscription, whose warning appears exactly
   * when that subscription ends at the period's end, and whose button is
   * disabled exactly while loading.
   */
  lemma CardCases(language: Language, subscription: Option<Subscription>, isPremium: bool, isLoading: bool)
    ensures Card(language, subscription, isPremium, isLoading).NoSubscriptionCard? <==> !isPremium
    ensures isPremium ==>
              var c := Card(language, subscription, isPremium, isLoading);
              (c.statusRow.Some? <==> subscription.Some?) &&
              (c.cancelWarning <==> subscription.Some? && subscription.value.cancelAtPeriodEnd) &&
              (c.manageDisabled <==> isLoading)
    ensures isPremium && subscription.Some? ==>
              var row := Card(language, subscription, isPremium, isLoading).statusRow.value;
              row.color == StatusColor(subscription.value.status) &&
              row.text == StatusText(language, subscription.value.status)
  {
  }
}
