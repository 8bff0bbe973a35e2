/** The session controller (App.tsx): the initial configuration, the
    shallow-merge update every step goes through, the completion flag the
    wizard raises, and the total handed to the checkout view. */
module App {
  import opened Wrappers
  import opened Types
  import opened Catalog
  import opened Folds

  /** The configuration every session starts from. */
  const InitialData: WizardData := WizardData(
    firstName := "", lastName := "", email := "", phone := "",
    company := "", website := "", industry := "",
    currency := "AED", termsAccepted := true,
    platforms := [], features := [], support := [],
    whatsappChannels := 0, balance := 1000, integrations := [])

  /** `Partial<WizardData>`: each field either carries a new value or is absent. */
  datatype Patch = Patch(
    firstName: Option<string>,
    lastName: Option<string>,
    email: Option<string>,
    phone: Option<string>,
    company: Option<string>,
    website: Option<string>,
    industry: Option<string>,
    currency: Option<string>,
    termsAccepted: Option<bool>,
    platforms: Option<seq<PlatformSelection>>,
    features: Option<seq<string>>,
    support: Option<seq<string>>,
    whatsappChannels: Option<int>,
    balance: Option<int>,
    integrations: Option<seq<string>>
  )

  /** The empty patch; a step's update is this with the fields it writes set. */
  const NoChange: Patch := Patch(None, None, None, None, None, None, None, None,
                                 None, None, None, None, None, None, None)

  /** `next` holds the patch's value where the patch has one and `prev`'s otherwise. */
  predicate Takes<V(==)>(next: V, patch: Option<V>, prev: V) {
    (patch.Some? ==> next == patch.value) && (patch.None? ==> next == prev)
  }

  /** `{ ...prev, ...fields }`: exactly the fields present in the patch are
      overwritten, every other field keeps its previous value. */
  function Merge(prev: WizardData, fields: Patch): (r: WizardData)
    ensures Takes(r.firstName, fields.firstName, prev.firstName)
    ensures Takes(r.lastName, fields.lastName, prev.lastName)
    ensures Takes(r.email, fields.email, prev.email)
    ensures Takes(r.phone, fields.phone, prev.phone)
    ensures Takes(r.company, fields.company, prev.company)
    ensures Takes(r.website, fields.website, prev.website)
    ensures Takes(r.industry, fields.industry, prev.industry)
    ensures Takes(r.currency, fields.currency, prev.currency)
    ensures Takes(r.termsAccepted, fields.termsAccepted, prev.termsAccepted)
    ensures Takes(r.platforms, fields.platforms, prev.platforms)
    ensures Takes(r.features, fields.features, prev.features)
    ensures Takes(r.support, fields.support, prev.support)
    ensures Takes(r.whatsappChannels, fields.whatsappChannels, prev.whatsappChannels)
    ensures Takes(r.balance, fields.balance, prev.balance)
    ensures Takes(r.integrations, fields.integrations, prev.integrations)
  {
    WizardData(
      fields.firstName.GetOr(prev.firstName),
      fields.lastName.GetOr(prev.lastName),
      fields.email.GetOr(prev.email),
      fields.phone.GetOr(prev.phone),
      fields.company.GetOr(prev.company),
      fields.website.GetOr(prev.website),
      fields.industry.GetOr(prev.industry),
      fields.currency.GetOr(prev.currency),
      fields.termsAccepted.GetOr(prev.termsAccepted),
      fields.platforms.GetOr(prev.platforms),
      fields.features.GetOr(prev.features),
      fields.support.GetOr(prev.support),
      fields.whatsappChannels.GetOr(prev.whatsappChannels),
      fields.balance.GetOr(prev.balance),
      fields.integrations.GetOr(prev.integrations))
  }

  /** The patch that applies `first` and then `second` (later values win). */
  function Then(first: Patch, second: Patch): Patch {
    Patch(
      if second.firstName.Some? then second.firstName else first.firstName,
      if second.lastName.Some? then second.lastName else first.lastName,
      if second.email.Some? then second.email else first.email,
      if second.phone.Some? then second.phone else first.phone,
      if second.company.Some? then second.company else first.company,
      if second.website.Some? then second.website else first.website,
      if second.industry.Some? then second.industry else first.industry,
      if second.currency.Some? then second.currency else first.currency,
      if second.termsAccepted.Some? then second.termsAccepted else first.termsAccepted,
      if second.platforms.Some? then second.platforms else first.platforms,
      if second.features.Some? then second.features else first.features,
      if second.support.Some? then second.support else first.support,
      if second.whatsappChannels.Some? then second.whatsappChannels else first.whatsappChannels,
      if second.balance.Some? then second.balance else first.balance,
      if second.integrations.Some? then second.integrations else first.integrations)
  }

  /** An empty patch leaves the configuration as it was. */
  lemma MergeNoChange(d: WizardData)
    ensures Merge(d, NoChange) == d
  {
  }

  /** Two successive merges are one merge of the combined patch, so applying
      the same patch twice is the same as applying it once. */
  lemma MergeThen(d: WizardData, first: Patch, second: Patch)
    ensures Merge(Merge(d, first), second) == Merge(d, Then(first, second))
    ensures Merge(Merge(d, first), first) == Merge(d, first)
  {
  }

  /** `calculateTotal`: platform, feature, support and channel cost plus the
      prepaid balance, each sum a `reduce` over the selection list. */
  function CalculateTotal(data: WizardData): int {
    var platformCost := Reduce(0, data.platforms, PlatformLineCost);
    var featureCost := Reduce(0, data.features, FeaturePrice);
    var supportCost := Reduce(0, data.support, SupportPrice);
    var channelCost := data.whatsappChannels * WhatsappChannelPrice;
    platformCost + featureCost + supportCost + channelCost + data.balance
  }

  /** The total is Σ price × quantity over platforms, plus Σ feature prices,
      plus Σ support prices, plus 99 per channel, plus the balance. */
  lemma CalculateTotalIsSum(data: WizardData)
    ensures CalculateTotal(data)
         == SumOf(data.platforms, PlatformLineCost) + SumOf(data.features, FeaturePrice)
          + SumOf(data.support, SupportPrice) + data.whatsappChannels * 99 + data.balance
  {
    ReduceIsSum(0, data.platforms, PlatformLineCost);
    ReduceIsSum(0, data.features, FeaturePrice);
    ReduceIsSum(0, data.support, SupportPrice);
  }

  /** With nothing selected and no channels, the total is the balance alone. */
  lemma EmptySelectionTotal(data: WizardData)
    requires data.platforms == [] && data.features == [] && data.support == []
    requires data.whatsappChannels == 0
    ensures CalculateTotal(data) == data.balance
  {
  }

  /** Worked examples: the initial configuration costs 1000; two WhatsApp
      units, AI bot building and one channel on a 1000 balance cost 1699;
      an empty configuration on a 50000 balance costs 50000. */
  lemma WorkedExamples()
    ensures CalculateTotal(InitialData) == 1000
    ensures CalculateTotal(InitialData.(platforms := [PlatformSelection("whatsapp", 2)],
                                        features := ["bot_building"],
                                        whatsappChannels := 1)) == 1699
    ensures CalculateTotal(InitialData.(balance := 50000)) == 50000
  {
    var d := InitialData.(platforms := [PlatformSelection("whatsapp", 2)],
                          features := ["bot_building"], whatsappChannels := 1);
    CalculateTotalIsSum(d);
    assert PlatformLineCost(PlatformSelection("whatsapp", 2)) == 300;
    assert FeaturePrice("bot_building") == 300;
  }

  /** Permuting the platform, feature and support lists leaves the total unchanged. */
  lemma TotalPermutationInvariant(d: WizardData, e: WizardData)
    requires multiset(d.platforms) == multiset(e.platforms)
    requires multiset(d.features) == multiset(e.features)
    requires multiset(d.support) == multiset(e.support)
    requires d.whatsappChannels == e.whatsappChannels && d.balance == e.balance
    ensures CalculateTotal(d) == CalculateTotal(e)
  {
    CalculateTotalIsSum(d);
    CalculateTotalIsSum(e);
    SumOfPermutation(d.platforms, e.platforms, PlatformLineCost);
    SumOfPermutation(d.features, e.features, FeaturePrice);
    SumOfPermutation(d.support, e.support, SupportPrice);
  }

  /** Identity fields, industry, currency, the terms flag and the integrations
      play no part in the total. */
  lemma TotalIgnoresNonPricedFields(d: WizardData, e: WizardData)
    requires d.platforms == e.platforms && d.features == e.features && d.support == e.support
    requires d.whatsappChannels == e.whatsappChannels && d.balance == e.balance
    ensures CalculateTotal(d) == CalculateTotal(e)
  {
  }

  /** A platform line whose id is missing from the catalog adds 0 to the
      total, whatever its quantity, and raises no error. */
  lemma UnknownPlatformAddsNothing(d: WizardData, id: string, quantity: int)
    requires Find(Platforms, id).None?
    ensures CalculateTotal(d.(platforms := d.platforms + [PlatformSelection(id, quantity)]))
         == CalculateTotal(d)
  {
    var line := PlatformSelection(id, quantity);
    assert PriceOf(Platforms, id) == 0;
    assert PlatformLineCost(line) == 0 * quantity == 0;
    assert SumOf([line], PlatformLineCost) == 0;
    ReduceIsSum(0, d.platforms, PlatformLineCost);
    ReduceIsSum(0, d.platforms + [line], PlatformLineCost);
    SumOfAppend(d.platforms, [line], PlatformLineCost);
  }

  /** A feature id missing from the catalog adds 0 to the total. */
  lemma UnknownFeatureAddsNothing(d: WizardData, id: string)
    requires Find(Features, id).None?
    ensures CalculateTotal(d.(features := d.features + [id])) == CalculateTotal(d)
  {
    ReduceIsSum(0, d.features, FeaturePrice);
    ReduceIsSum(0, d.features + [id], FeaturePrice);
    SumOfAppend(d.features, [id], FeaturePrice);
  }

  /** A support id missing from the catalog adds 0 to the total. */
  lemma UnknownSupportAddsNothing(d: WizardData, id: string)
    requires Find(Support, id).None?
    ensures CalculateTotal(d.(support := d.support + [id])) == CalculateTotal(d)
  {
    ReduceIsSum(0, d.support, SupportPrice);
    ReduceIsSum(0, d.support + [id], SupportPrice);
    SumOfAppend(d.support, [id], SupportPrice);
  }

  /** The single mutable session: the configuration and whether the checkout
      view is open. */
  class Session {
    var data: WizardData
    var isPaymentOpen: bool

    constructor ()
      ensures data == InitialData && !isPaymentOpen
    {
      data := InitialData;
      isPaymentOpen := false;
    }

    /** `updateData`: merge a step's patch into the configuration. */
    method UpdateData(fields: Patch)
      modifies this
      ensures data == Merge(old(data), fields)
      ensures isPaymentOpen == old(isPaymentOpen)
    {
      data := Merge(data, fields);
    }

    /** The wizard's `onComplete`: open the checkout view. */
    method Complete()
      modifies this
      ensures isPaymentOpen && data == old(data)
    {
      isPaymentOpen := true;
    }

    /** The checkout view's `onClose`: return to the wizard. */
    method ClosePayment()
      modifies this
      ensures !isPaymentOpen && data == old(data)
    {
      isPaymentOpen := false;
    }

    /** The amount handed to the checkout view. */
    function Total(): int
      reads this
    {
      CalculateTotal(data)
    }
  }
}
