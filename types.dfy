/** The record shapes shared by every part of the wizard (types.ts). */
module Types {

  /** One ordered platform line: a catalog id with the number of units bought. */
  datatype PlatformSelection = PlatformSelection(id: string, quantity: int)

  /** The whole configuration the six steps fill in.
      `platforms`, `features`, `support` and `integrations` are plain lists:
      nothing in the type rules out duplicates, and `whatsappChannels` and
      `balance` are unconstrained numbers. */
  datatype WizardData = WizardData(
    // Step 1: profile
    firstName: string,
    lastName: string,
    email: string,
    phone: string,
    company: string,
    website: string,
    industry: string,
    currency: string,
    termsAccepted: bool,
    // Step 2: platforms
    platforms: seq<PlatformSelection>,
    // Step 3: features
    features: seq<string>,
    // Step 4: support
    support: seq<string>,
    // Step 5: balance
    whatsappChannels: int,
    balance: int,
    // Step 6: integrations
    integrations: seq<string>
  )

  /** A priced catalog entry (the price is in AED); `name` is the display label. */
  datatype PricingItem = PricingItem(id: string, name: string, price: int, iconName: string)

  /** A titled group of integration names; the names are plain strings. */
  datatype IntegrationCategory = IntegrationCategory(title: string, iconName: string, items: seq<string>)
}
