/**
 * The premium checkout: the monthly and yearly products, the savings
 * percentage advertised on the yearly plan, the plan selection and the
 * price id handed to the checkout session.
 *
 * Prices are in satang (hundredths of a baht), as in the product catalog.
 */
module StripeCheckout {
  import opened Wrappers
  import opened Numbers
  import opened Language

  datatype Interval = Month | Year

  datatype Product = Product(
    priceId: string, name: string, nameTh: string, price: nat,
    interval: Interval, originalPrice: Option<nat>)

  const PremiumMonthly := Product("price_premium_monthly", "Premium Monthly", "พรีเมี่ยมรายเดือน",
                                  19900, Month, None)
  const PremiumYearly := Product("price_premium_yearly", "Premium Yearly", "พรีเมี่ยมรายปี",
                                 149900, Year, Some(238800))

  /** The struck-through yearly price is twelve monthly payments. */
  lemma OriginalPriceIsTwelveMonths()
    ensures PremiumYearly.originalPrice == Some(12 * PremiumMonthly.price)
  {
  }

  /**
   * `calculateSavings` for given prices: the yearly price's saving over
   * twelve monthly payments, as a percentage rounded like `Math.round`.
   */
  function Savings(monthly: nat, yearly: nat): (r: int)
    requires monthly > 0
    ensures yearly <= 12 * monthly ==> 0 <= r <= 100
  {
    var m := 12 * monthly;
    assert yearly <= m ==> 0 <= RoundDiv(100 * (m - yearly), m) <= 100 by {
      if yearly <= m {
        assert m * 0 <= 100 * (m - yearly) <= m * 100;
        RoundDivBetween(100 * (m - yearly), m, 0, 100);
      }
    }
    RoundDiv(100 * (m - yearly), m)
  }

  /** `calculateSavings` on the catalog prices. */
  function CalculateSavings(): (r: int)
    ensures 0 <= r <= 100
  {
    Savings(PremiumMonthly.price, PremiumYearly.price)
  }

  /** The catalog's yearly plan saves round(100 * 88900 / 238800) = 37 percent. */
  lemma CatalogSavings()
    ensures CalculateSavings() == 37
  {
    assert 100 * (12 * 19900 - 149900) == 8890000;
    RoundDivExactRange(8890000, 238800, 37);
  }

  lemma RoundDivExactRange(a: int, b: int, q: int)
    requires b > 0 && 2 * b * q <= 2 * a + b < 2 * b * (q + 1)
    ensures RoundDiv(a, b) == q
  {
    var r := RoundDiv(a, b);
    if r < q {
      MulMono(2 * b, r + 1, q);
    } else if r > q {
      MulMono(2 * b, q + 1, r);
    }
  }

  /** No saving is advertised when the yearly price is exactly twelve months. */
  lemma NoSavingAtFullPrice(monthly: nat)
    requires monthly > 0
    ensures Savings(monthly, 12 * monthly) == 0
  {
    RoundDivExact(0, 12 * monthly);
  }

  /** A yearly price between free and twelve months gives a percentage between 0 and 100. */
  lemma SavingsInRange(monthly: nat, yearly: nat)
    requires monthly > 0 && yearly <= 12 * monthly
    ensures 0 <= Savings(monthly, yearly) <= 100
  {
    var m := 12 * monthly;
    assert m * 0 <= 100 * (m - yearly) <= m * 100;
    RoundDivBetween(100 * (m - yearly), m, 0, 100);
  }

  /** A cheaper yearly price never advertises a smaller saving. */
  lemma SavingsAntitone(monthly: nat, y1: nat, y2: nat)
    requires monthly > 0 && y1 <= y2
    ensures Savings(monthly, y2) <= Savings(monthly, y1)
  {
    var m := 12 * monthly;
    var a, b := 100 * (m - y2), 100 * (m - y1);
    var r1, r2 := RoundDiv(b, m), RoundDiv(a, m);
    if r2 > r1 {
      MulMono(2 * m, r1 + 1, r2);
    }
  }

  datatype Plan = Monthly | Yearly

  /** The product behind a plan card. */
  function ProductOf(plan: Plan): Product {
    match plan
    case Monthly => PremiumMonthly
    case Yearly => PremiumYearly
  }

  /** The savings badge and the "most popular" badge sit on the yearly card only. */
  predicate ShowsSavingsBadge(plan: Plan) {
    plan == Yearly
  }

  /** The savings badge text, "Save N%" or "ประหยัด N%". */
  function SavingsBadgeText(language: Language): (r: string)
    ensures |r| >= 7 && r[|r| - 1] == '%'
    ensures language == En ==> r[..5] == "Save "
  {
    (if language == Th then "ประหยัด" else "Save") + " " + NatToString(CalculateSavings()) + "%"
  }

  /** The English badge reads "Save 37%". */
  lemma SavingsBadgeEnglish()
    ensures SavingsBadgeText(En) == "Save 37%"
  {
    CatalogSavings();
    assert NatToString(37) == "37";
  }

  /** Each plan has its own price id, so the checkout session is opened for the plan chosen. */
  lemma PriceIdsDistinct(a: Plan, b: Plan)
    ensures ProductOf(a).priceId == ProductOf(b).priceId <==> a == b
  {
    assert |PremiumMonthly.priceId| != |PremiumYearly.priceId|;
  }

  /** The checkout card's selected plan and the price ids checkout sessions were requested for. */
  class CheckoutView {
    var selectedPlan: Plan
    var sessions: seq<string>

    /** The yearly plan is selected at first. */
    constructor ()
      ensures selectedPlan == Yearly && sessions == []
    {
      selectedPlan := Yearly;
      sessions := [];
    }

    /** A click on a plan card. */
    method SelectPlan(plan: Plan)
      modifies this
      ensures selectedPlan == plan && sessions == old(sessions)
    {
      selectedPlan := plan;
    }

    /**
     * The upgrade button: disabled while a session is being created,
     * otherwise it asks for a session with the selected plan's price id.
     */
    method ClickUpgrade(isLoading: bool)
      modifies this
      ensures isLoading ==> sessions == old(sessions)
      ensures !isLoading ==> sessions == old(sessions) + [ProductOf(selectedPlan).priceId]
      ensures selectedPlan == old(selectedPlan)
    {
      if !isLoading {
        sessions := sessions + [ProductOf(selectedPlan).priceId];
      }
    }
  }

  /** Without touching the cards, the upgrade button checks out the yearly price. */
  method DefaultCheckoutIsYearly() {
    var view := new CheckoutView();
    view.ClickUpgrade(false);
    assert view.sessions == ["price_premium_yearly"];
    view.SelectPlan(Monthly);
    view.ClickUpgrade(false);
    assert view.sessions[1] == "price_premium_monthly";
  }
}
