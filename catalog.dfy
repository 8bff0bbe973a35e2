/** The static catalogs (constants.tsx): three priced lists, the per-channel
    rate and the integration groups. They are `const`s, so nothing can write
    to them. */
module Catalog {
  import opened Wrappers
  import opened Types

  const Platforms: seq<PricingItem> := [
    PricingItem("whatsapp", "WhatsApp", 150, "MessageCircle"),
    PricingItem("instagram", "Instagram", 150, "Instagram"),
    PricingItem("messenger", "Messenger", 100, "Facebook"),
    PricingItem("tiktok", "TikTok", 200, "Video"),
    PricingItem("website", "Website Widget", 50, "Globe"),
    PricingItem("rcs", "RCS", 120, "MessageSquare")
  ]

  const Features: seq<PricingItem> := [
    PricingItem("bot_building", "AI Bot Building", 300, "Bot"),
    PricingItem("automation", "AI Automation", 250, "Zap"),
    PricingItem("bookings", "Appointment Bookings", 200, "CalendarCheck"),
    PricingItem("payments", "Payments", 150, "CreditCard")
  ]

  const Support: seq<PricingItem> := [
    PricingItem("sup_bot", "Bot Building Support", 500, "Headphones"),
    PricingItem("sup_auto", "Automation Support", 400, "Wrench"),
    PricingItem("sup_camp", "Campaigns Mgmt", 350, "Megaphone"),
    PricingItem("sup_mon", "24/7 Monitoring", 600, "Activity")
  ]

  /** Price of one WhatsApp channel. */
  const WhatsappChannelPrice: int := 99

  const IntegrationCategories: seq<IntegrationCategory> := [
    IntegrationCategory("E-commerce Platforms", "ShoppingCart",
      ["Shopify", "WooCommerce", "BigCommerce"]),
    IntegrationCategory("CRM Systems", "Users",
      ["HubSpot", "Zoho CRM", "Salesforce", "Pipedrive", "Freshsales", "LeadSquared"]),
    IntegrationCategory("Marketing Automation & Engagement", "Megaphone",
      ["Mailchimp", "ActiveCampaign", "Brevo", "Klaviyo", "MoEngage", "WebEngage"]),
    IntegrationCategory("Automation & Integration Platforms", "Workflow",
      ["Zapier", "Make", "Pabbly Connect"]),
    IntegrationCategory("Customer Support & Helpdesk", "LifeBuoy",
      ["Zendesk", "Freshdesk", "Zoho Desk", "Intercom", "Gorgias", "Help Scout"]),
    IntegrationCategory("Spreadsheets & Databases", "Table",
      ["Google Sheets", "Microsoft Excel Online", "Airtable"]),
    IntegrationCategory("Calendars & Scheduling", "Calendar",
      ["Google Calendar", "Calendly", "Microsoft Outlook Calendar"]),
    IntegrationCategory("Payments & Invoicing", "CreditCard",
      ["Razorpay", "Stripe", "PayPal"])
  ]

  /** No two entries of a catalog share an id. */
  predicate UniqueIds(items: seq<PricingItem>) {
    forall i, j :: 0 <= i < j < |items| ==> items[i].id != items[j].id
  }

  /** No price in a catalog is negative. */
  predicate NonNegativePrices(items: seq<PricingItem>) {
    forall i :: 0 <= i < |items| ==> items[i].price >= 0
  }

  /** No name occurs twice in a list. */
  predicate Distinct(names: seq<string>) {
    forall i, j :: 0 <= i < j < |names| ==> names[i] != names[j]
  }

  /** `Array.prototype.find` on a catalog: the first entry whose id is `id`. */
  function Find(items: seq<PricingItem>, id: string): (r: Option<PricingItem>)
    ensures r.None? <==> forall i :: 0 <= i < |items| ==> items[i].id != id
    ensures r.Some? ==> r.value in items && r.value.id == id
  {
    if items == [] then None
    else if items[0].id == id then Some(items[0])
    else Find(items[1..], id)
  }

  /** `find(...)?.price || 0`: the catalog price, or 0 for an unknown id. */
  function PriceOf(items: seq<PricingItem>, id: string): (r: int)
    ensures Find(items, id).None? ==> r == 0
    ensures NonNegativePrices(items) ==> r >= 0
  {
    match Find(items, id)
    case Some(item) => item.price
    case None => 0
  }

  /** Cost of one platform line: unit price times quantity. */
  function PlatformLineCost(p: PlatformSelection): int {
    PriceOf(Platforms, p.id) * p.quantity
  }

  /** Monthly price of one selected feature id. */
  function FeaturePrice(id: string): int {
    PriceOf(Features, id)
  }

  /** Monthly price of one selected support id. */
  function SupportPrice(id: string): int {
    PriceOf(Support, id)
  }

  /** Every integration name, category by category, in display order. */
  function IntegrationNames(categories: seq<IntegrationCategory>): (names: seq<string>)
    ensures forall c, n :: c in categories && n in c.items ==> n in names
  {
    if categories == [] then [] else categories[0].items + IntegrationNames(categories[1..])
  }

  /** In a catalog with unique ids, looking up an entry's own id finds that entry. */
  lemma {:induction false} FindUnique(items: seq<PricingItem>, i: int)
    requires UniqueIds(items) && 0 <= i < |items|
    ensures Find(items, items[i].id) == Some(items[i])
  {
    if i > 0 {
      assert items[0].id != items[i].id;
      assert items[1..][i - 1] == items[i];
      FindUnique(items[1..], i - 1);
    }
  }

  /** In a catalog with unique ids, an entry's id is priced at that entry's price. */
  lemma KnownPrice(items: seq<PricingItem>, i: int)
    requires UniqueIds(items) && 0 <= i < |items|
    ensures PriceOf(items, items[i].id) == items[i].price
  {
    FindUnique(items, i);
  }

  /** Ids are unique within each of the three priced catalogs. */
  lemma CatalogIdsUnique()
    ensures UniqueIds(Platforms) && UniqueIds(Features) && UniqueIds(Support)
  {
  }

  /** Every catalog price is a non-negative integer. */
  lemma CatalogPricesNonNegative()
    ensures NonNegativePrices(Platforms) && NonNegativePrices(Features) && NonNegativePrices(Support)
  {
  }

  /** So every looked-up price, known id or not, is at least 0. */
  lemma PricesNonNegative(id: string)
    ensures PriceOf(Platforms, id) >= 0 && FeaturePrice(id) >= 0 && SupportPrice(id) >= 0
  {
    CatalogPricesNonNegative();
  }

  /** Sample prices: whatsapp costs 150 per unit, bot_building 300. */
  lemma SamplePrices()
    ensures PriceOf(Platforms, "whatsapp") == 150
    ensures PriceOf(Features, "bot_building") == 300
  {
  }

  /** No name of `a` occurs in `b`. */
  predicate Disjoint(a: seq<string>, b: seq<string>) {
    forall i, j :: 0 <= i < |a| && 0 <= j < |b| ==> a[i] != b[j]
  }

  lemma DistinctAppend(a: seq<string>, b: seq<string>)
    requires Distinct(a) && Distinct(b) && Disjoint(a, b)
    ensures Distinct(a + b)
  {
    forall i, j | 0 <= i < j < |a + b| ensures (a + b)[i] != (a + b)[j] {
      if j < |a| {
        assert (a + b)[i] == a[i] && (a + b)[j] == a[j];
      } else if i < |a| {
        assert (a + b)[i] == a[i] && (a + b)[j] == b[j - |a|];
      } else {
        assert (a + b)[i] == b[i - |a|] && (a + b)[j] == b[j - |a|];
      }
    }
  }

  lemma IntegrationNamesStep(cs: seq<IntegrationCategory>, k: int)
    requires 0 <= k < |cs|
    ensures IntegrationNames(cs[k..]) == cs[k].items + IntegrationNames(cs[k + 1..])
  {
    assert cs[k..][0] == cs[k] && cs[k..][1..] == cs[k + 1..];
  }

  // The integration names in four runs of two categories, for the uniqueness proof.
  const RunA: seq<string> := IntegrationCategories[0].items + IntegrationCategories[1].items
  const RunB: seq<string> := IntegrationCategories[2].items + IntegrationCategories[3].items
  const RunC: seq<string> := IntegrationCategories[4].items + IntegrationCategories[5].items
  const RunD: seq<string> := IntegrationCategories[6].items + IntegrationCategories[7].items

  lemma IntegrationNamesRuns()
    ensures IntegrationNames(IntegrationCategories) == RunA + (RunB + (RunC + RunD))
  {
    var cs := IntegrationCategories;
    IntegrationNamesStep(cs, 7);
    IntegrationNamesStep(cs, 6);
    IntegrationNamesStep(cs, 5);
    IntegrationNamesStep(cs, 4);
    IntegrationNamesStep(cs, 3);
    IntegrationNamesStep(cs, 2);
    IntegrationNamesStep(cs, 1);
    IntegrationNamesStep(cs, 0);
    assert cs[8..] == [] && cs[0..] == cs;
  }

  lemma DisjointAppend(a: seq<string>, b: seq<string>, c: seq<string>)
    requires Disjoint(a, b) && Disjoint(a, c)
    ensures Disjoint(a, b + c)
  {
    forall i, j | 0 <= i < |a| && 0 <= j < |b + c| ensures a[i] != (b + c)[j] {
      if j < |b| { assert (b + c)[j] == b[j]; } else { assert (b + c)[j] == c[j - |b|]; }
    }
  }

  lemma RunADistinct() ensures Distinct(RunA) {}
  lemma RunBDistinct() ensures Distinct(RunB) {}
  lemma RunCDistinct() ensures Distinct(RunC) {}
  lemma RunDDistinct() ensures Distinct(RunD) {}
  lemma RunsABDisjoint() ensures Disjoint(RunA, RunB) {}
  lemma RunsACDisjoint() ensures Disjoint(RunA, RunC) {}
  lemma RunsADDisjoint() ensures Disjoint(RunA, RunD) {}
  lemma RunsBCDisjoint() ensures Disjoint(RunB, RunC) {}
  lemma RunsBDDisjoint() ensures Disjoint(RunB, RunD) {}
  lemma RunsCDDisjoint() ensures Disjoint(RunC, RunD) {}

  /** Integration names are unique across all categories, so a name picks out
      exactly one tile. */
  lemma IntegrationNamesUnique()
    ensures Distinct(IntegrationNames(IntegrationCategories))
  {
    IntegrationNamesRuns();
    RunADistinct();
    RunBDistinct();
    RunCDistinct();
    RunDDistinct();
    RunsCDDisjoint();
    DistinctAppend(RunC, RunD);
    RunsBCDisjoint();
    RunsBDDisjoint();
    DisjointAppend(RunB, RunC, RunD);
    DistinctAppend(RunB, RunC + RunD);
    RunsABDisjoint();
    RunsACDisjoint();
    RunsADDisjoint();
    DisjointAppend(RunA, RunC, RunD);
    DisjointAppend(RunA, RunB, RunC + RunD);
    DistinctAppend(RunA, RunB + (RunC + RunD));
  }
}
