/** The summary panel (components/PricingBreakdown.tsx): the itemised costs it
    shows, and the accordion that decides which cost section is open. */
module PricingBreakdown {
  import opened Types
  import opened Catalog
  import opened Folds
  import App

  /** The figures the panel displays. */
  datatype Breakdown = Breakdown(
    platformCost: int,
    featureCost: int,
    supportCost: int,
    channelCost: int,
    subtotal: int,
    totalDue: int)

  /** The panel's own copy of the cost folds. Each line is the sum of its
      costs over the selection, the subtotal is the four recurring costs
      without the balance, the amount due adds the balance, and it always
      equals the total App hands to checkout. */
  function Compute(data: WizardData): (b: Breakdown)
    ensures b.platformCost == SumOf(data.platforms, PlatformLineCost)
    ensures b.featureCost == SumOf(data.features, FeaturePrice)
    ensures b.supportCost == SumOf(data.support, SupportPrice)
    ensures b.subtotal == b.platformCost + b.featureCost + b.supportCost + b.channelCost
    ensures b.totalDue == b.subtotal + data.balance
    ensures b.channelCost == data.whatsappChannels * 99
    ensures b.totalDue == App.CalculateTotal(data)
  {
    ReduceIsSum(0, data.platforms, PlatformLineCost);
    ReduceIsSum(0, data.features, FeaturePrice);
    ReduceIsSum(0, data.support, SupportPrice);
    var platformCost := Reduce(0, data.platforms, PlatformLineCost);
    var featureCost := Reduce(0, data.features, FeaturePrice);
    var supportCost := Reduce(0, data.support, SupportPrice);
    var channelCost := data.whatsappChannels * WhatsappChannelPrice;
    var subtotal := platformCost + featureCost + supportCost + channelCost;
    Breakdown(platformCost, featureCost, supportCost, channelCost, subtotal, subtotal + data.balance)
  }

  lemma NonNegativeProduct(x: int, y: int)
    requires x >= 0 && y >= 0
    ensures x * y >= 0
  {
  }

  /** One platform line with a non-negative quantity costs at least 0. */
  lemma LineCostNonNegative(p: PlatformSelection)
    requires p.quantity >= 0
    ensures PlatformLineCost(p) >= 0
  {
    PricesNonNegative(p.id);
    NonNegativeProduct(PriceOf(Platforms, p.id), p.quantity);
  }

  /** With non-negative quantities and channel count, no cost is negative. */
  lemma CostsNonNegative(data: WizardData)
    requires forall i :: 0 <= i < |data.platforms| ==> data.platforms[i].quantity >= 0
    requires data.whatsappChannels >= 0
    ensures var b := Compute(data);
      b.platformCost >= 0 && b.featureCost >= 0 && b.supportCost >= 0 &&
      b.channelCost >= 0 && b.subtotal >= 0
  {
    forall i | 0 <= i < |data.platforms| ensures PlatformLineCost(data.platforms[i]) >= 0 {
      LineCostNonNegative(data.platforms[i]);
    }
    forall i | 0 <= i < |data.features| ensures FeaturePrice(data.features[i]) >= 0 {
      PricesNonNegative(data.features[i]);
    }
    forall i | 0 <= i < |data.support| ensures SupportPrice(data.support[i]) >= 0 {
      PricesNonNegative(data.support[i]);
    }
    ReduceIsSum(0, data.platforms, PlatformLineCost);
    ReduceIsSum(0, data.features, FeaturePrice);
    ReduceIsSum(0, data.support, SupportPrice);
    SumOfNonNegative(data.platforms, PlatformLineCost);
    SumOfNonNegative(data.features, FeaturePrice);
    SumOfNonNegative(data.support, SupportPrice);
  }

  const PlatformsSection: string := "platforms"
  const FeaturesSection: string := "features"

  /** `toggleSection`: clicking the open section closes everything (`""`),
      clicking any other section opens it. */
  function ToggledSection(prev: string, section: string): (r: string)
    ensures r == "" || r == section
    ensures prev == section ==> r == ""
    ensures prev != section ==> r == section
  {
    if prev == section then "" else section
  }

  /** The auto-expand effect: when no platform is selected but some feature
      is and the platforms section is open, switch to the features section;
      in every other case leave the open section alone. */
  function AutoExpanded(prev: string, platformCount: nat, featureCount: nat): (r: string)
    ensures r != prev <==> (platformCount == 0 && featureCount > 0 && prev == PlatformsSection)
    ensures r != prev ==> r == FeaturesSection
  {
    if platformCount > 0 && prev != PlatformsSection then prev
    else if platformCount == 0 && featureCount > 0 && prev == PlatformsSection then FeaturesSection
    else prev
  }

  /** Toggling the same non-empty section twice restores the previous state
      exactly when that state was "all closed" or that section. */
  lemma ToggleTwice(prev: string, section: string)
    ensures ToggledSection(ToggledSection(prev, section), section) == prev
        <==> (prev == "" || prev == section)
  {
  }

  /** Running the effect again changes nothing, and it never closes an open section. */
  lemma AutoExpandStable(prev: string, platformCount: nat, featureCount: nat)
    ensures var r := AutoExpanded(prev, platformCount, featureCount);
      AutoExpanded(r, platformCount, featureCount) == r && (prev != "" ==> r != "")
  {
  }

  /** The panel's accordion state: which cost section is expanded. */
  class Accordion {
    var expandedSection: string

    constructor ()
      ensures expandedSection == PlatformsSection
    {
      expandedSection := PlatformsSection;
    }

    /** A click on a section header. */
    method ToggleSection(section: string)
      modifies this
      ensures expandedSection == ToggledSection(old(expandedSection), section)
    {
      expandedSection := if expandedSection == section then "" else section;
    }

    /** The effect, run on mount and whenever the number of selected
        platforms or features changes. */
    method AutoExpand(platformCount: nat, featureCount: nat)
      modifies this
      ensures expandedSection == AutoExpanded(old(expandedSection), platformCount, featureCount)
    {
      if platformCount > 0 && expandedSection != PlatformsSection {
        return;
      }
      if platformCount == 0 && featureCount > 0 && expandedSection == PlatformsSection {
        expandedSection := FeaturesSection;
      }
    }
  }
}
