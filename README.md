# Checkout wizard: configuration, pricing and navigation

A model, in Dafny, of the logic under a six-step onboarding and checkout
wizard for a messaging-platform subscription. The user buys platform units,
add-on features, support tiers and a prepaid balance, and picks integrations.
One configuration record (`WizardData`) collects the choices. Each step sends
a partial update that the session merges into the record. The price of the
bundle is recomputed from the whole record.

What is modelled, module by module (one `.dfy` file each):

- `Types` (types.ts): the value shapes. `PlatformSelection` is an id with a
  quantity. `WizardData` is the configuration record. `PricingItem` is a
  catalog entry; its `label` field is called `name` here, because `label` is
  a Dafny keyword. `IntegrationCategory` is a titled list of names.
- `Catalog` (constants.tsx): the platform, feature and support price lists.
  Also the per-channel rate (99) and the integration groups. These are
  constants, so nothing can write to them. Lookup follows `find(...)?.price || 0`,
  so an unknown id costs 0.
- `Folds`: `Array.prototype.reduce` with `acc + f(x)`, as the code uses it for
  every cost. It is proved equal to a plain sum, and that sum is proved to be
  unchanged by reordering.
- `App` (App.tsx): the initial configuration, and `Partial<WizardData>` as
  a `Patch` record of optional fields. It also has the shallow merge
  `{...prev, ...fields}` and `calculateTotal`. The `Session` class holds the
  mutable `data` and `isPaymentOpen` state.
- `PricingBreakdown` (components/PricingBreakdown.tsx): the panel's own copy
  of the cost folds, with `subtotal` and `totalDue`. The `Accordion` class
  models the `expandedSection` state, changed by `toggleSection` and by the
  auto-expand effect.
- `Step2Platforms` (components/Step2_Platforms.tsx): `updateQuantity`.
  It shallow-copies the list into an array, runs a `findIndex` loop, and
  then does one of three things: splices the line out, overwrites its
  quantity in the array, or appends a line. `getQuantity` and the card-click
  rule are here too. The invariant is that lines are unique by id and every
  quantity is at least 1.
- `Toggles` (components/Step3_Features.tsx, Step4_Support.tsx,
  Step6_Integrations.tsx): the three steps share one membership toggle on
  `seq<string>`. It removes every occurrence of a present id (`filter`) and
  appends an absent one. Each step wraps it as the patch that step issues.
- `Step5Balance` (components/Step5_Final.tsx): the balance update and the
  slider's bounds. The fill percentage is computed exactly over `real`. An
  optional clamp is included as a marked extension; the code does not clamp.
- `Wizard` (components/Wizard.tsx): the six step headers and the `Navigator`
  class. Its fields are `currentStep` and `direction`, and its methods are
  `Next` (which reports completion at the last step) and `Back`.

Three behaviours of the code that one might expect to be otherwise:

- A platform that is not yet selected is added with quantity 1, whatever the
  positive `delta` (Step2_Platforms.tsx:80). It is not added with quantity
  `delta`. The buttons only ever pass +1 or -1.
- The balance is stored exactly as the control gives it (Step5_Final.tsx:15).
  Only the control's own 1000..50000 bounds, in steps of 1000, limit it.
  `ClampBalance` is an optional defensive clamp; the code does not clamp.
- `whatsappChannels` is priced at 99 per channel, but no step ever writes it.
  It keeps its initial value 0 throughout a session.

## Model

| member | source | states |
|---|---|---|
| Catalog.Find | App.tsx:36 | `find` on a catalog returns no entry exactly when no entry has the id; otherwise it returns an entry of the catalog with that id |
| Catalog.PriceOf | App.tsx:36-41 | an id missing from the catalog is priced 0 without error; with non-negative catalog prices every price is non-negative |
| Catalog.KnownPrice | App.tsx:36-41 | in a catalog with unique ids, the lookup of an entry's id gives that entry's catalog price |
| Catalog.FindUnique | constants.tsx:3-24 | in a catalog with unique ids, looking up an entry's id finds that very entry |
| Catalog.CatalogIdsUnique | constants.tsx:3-24 | ids are unique within the platform, feature and support catalogs |
| Catalog.CatalogPricesNonNegative | constants.tsx:3-24 | every catalog price is a non-negative integer |
| Catalog.PricesNonNegative | App.tsx:36-41 | every looked-up platform, feature or support price is at least 0, for known and unknown ids alike |
| Catalog.SamplePrices | constants.tsx:4-13 | whatsapp costs 150 per unit and bot_building costs 300 |
| Catalog.IntegrationNames | constants.tsx:46-87 | the flattened name list contains every item of every integration category |
| Catalog.IntegrationNamesUnique | constants.tsx:46-87 | integration names are unique across all categories |
| Folds.ReduceIsSum | App.tsx:35-41 | a `reduce` that adds `f(x)` to its accumulator returns the seed plus the sum of `f` over the list |
| Folds.SumOfAppend | App.tsx:35-41 | the sum over a concatenation is the sum of the sums |
| Folds.SumOfPermutation | App.tsx:35-41 | two lists with the same elements, in any order, have the same sum |
| Folds.SumOfNonNegative | components/PricingBreakdown.tsx:28-41 | a sum of non-negative terms is non-negative |
| App.Merge | App.tsx:30-32 | the merged record takes each field from the patch where the patch has it and from the previous record otherwise |
| App.MergeNoChange | App.tsx:30-32 | an empty patch leaves the configuration unchanged |
| App.MergeThen | App.tsx:30-32 | two merges equal one merge of the combined patch, and merging the same patch twice equals merging it once |
| App.CalculateTotalIsSum | App.tsx:34-44 | total = Σ price × quantity over platforms + Σ feature prices + Σ support prices + 99 × whatsappChannels + balance |
| App.EmptySelectionTotal | App.tsx:34-44 | with no platforms, features or support and zero channels, the total equals the balance |
| App.WorkedExamples | App.tsx:8-44 | the initial configuration totals 1000; whatsapp×2, bot_building and one channel on a 1000 balance total 1699; an empty configuration on a 50000 balance totals 50000 |
| App.TotalPermutationInvariant | App.tsx:35-41 | reordering the platform, feature or support list leaves the total unchanged |
| App.TotalIgnoresNonPricedFields | App.tsx:34-44 | identity fields, industry, currency, termsAccepted and integrations have no effect on the total |
| App.UnknownPlatformAddsNothing | App.tsx:35-38 | a platform line with an id missing from the catalog adds 0 to the total, whatever its quantity |
| App.UnknownFeatureAddsNothing | App.tsx:40 | a feature id missing from the catalog adds 0 to the total |
| App.UnknownSupportAddsNothing | App.tsx:41 | a support id missing from the catalog adds 0 to the total |
| App.Session.constructor | App.tsx:8-28 | a session starts with the initial configuration (empty selections, 0 channels, balance 1000, terms accepted, AED) and the checkout closed |
| App.Session.UpdateData | App.tsx:30-32 | the new configuration is the previous one merged with the patch; the checkout flag is untouched |
| App.Session.Complete | App.tsx:55 | completion opens the checkout and leaves the configuration unchanged |
| App.Session.ClosePayment | App.tsx:72 | closing the checkout clears the flag and leaves the configuration unchanged |
| PricingBreakdown.Compute | components/PricingBreakdown.tsx:28-45 | platformCost, featureCost and supportCost are the sums of line cost, feature price and support price over their selections; subtotal is the four recurring costs without the balance; totalDue = subtotal + balance; channelCost = 99 × whatsappChannels; totalDue equals App's calculateTotal for every configuration |
| PricingBreakdown.LineCostNonNegative | components/PricingBreakdown.tsx:28-31 | a platform line with a non-negative quantity costs at least 0 |
| PricingBreakdown.CostsNonNegative | components/PricingBreakdown.tsx:28-44 | with non-negative quantities and channel count, every cost component and the subtotal are at least 0 |
| PricingBreakdown.ToggledSection | components/PricingBreakdown.tsx:23-25 | clicking the open section closes it (`''`); clicking any other section opens it; the result is `''` or the clicked section |
| PricingBreakdown.AutoExpanded | components/PricingBreakdown.tsx:16-21 | the open section changes exactly when no platform and some feature is selected while `platforms` is open, and then it becomes `features` |
| PricingBreakdown.ToggleTwice | components/PricingBreakdown.tsx:23-25 | toggling a section twice restores the state exactly when everything was closed or that section was open |
| PricingBreakdown.AutoExpandStable | components/PricingBreakdown.tsx:16-21 | running the effect a second time changes nothing, and the effect never closes an open section |
| PricingBreakdown.Accordion.constructor | components/PricingBreakdown.tsx:13 | the panel opens with the `platforms` section expanded |
| PricingBreakdown.Accordion.ToggleSection | components/PricingBreakdown.tsx:23-25 | the expanded section becomes the toggled value of the previous one |
| PricingBreakdown.Accordion.AutoExpand | components/PricingBreakdown.tsx:16-21 | the expanded section becomes the auto-expanded value of the previous one |
| Step2Platforms.IndexOf | components/Step2_Platforms.tsx:66 | `findIndex` gives the first line with the id, or -1 when no line has it |
| Step2Platforms.GetQuantity | components/Step2_Platforms.tsx:84-86 | an unselected id has quantity 0; on a valid list the quantity is positive exactly when the id is selected |
| Step2Platforms.StoredQuantity | components/Step2_Platforms.tsx:84-86 | on a valid list, a selected id reads back exactly the quantity stored on its line |
| Step2Platforms.FindIndex | components/Step2_Platforms.tsx:65-66 | the loop over the copied array finds the same index as `findIndex` |
| Step2Platforms.UpdateQuantity | components/Step2_Platforms.tsx:64-82 | no update is issued exactly when the id is absent and delta ≤ 0; otherwise the published list is the updated list |
| Step2Platforms.CardClick | components/Step2_Platforms.tsx:104 | a card click issues an update exactly when the platform is not selected, and that update is +1 |
| Step2Platforms.UpdatedKeepsOthers | components/Step2_Platforms.tsx:72-80 | lines of other ids keep their values and relative order across an update in place, a splice or an append |
| Step2Platforms.UpdatedOtherQuantities | components/Step2_Platforms.tsx:66-80 | the quantity of every other id is unchanged |
| Step2Platforms.UpdatedQuantity | components/Step2_Platforms.tsx:66-80 | a selected id gets old + delta, or is removed when that is ≤ 0; an unselected id gets 1 for any positive delta and stays at 0 otherwise |
| Step2Platforms.UpdatedValid | components/Step2_Platforms.tsx:66-80 | uniqueness by id and every quantity ≥ 1 are preserved |
| Step2Platforms.NewLineAppended | components/Step2_Platforms.tsx:78-80 | an unselected id with positive delta is appended at the end as `{id, quantity: 1}` |
| Step2Platforms.AddThenRemove | components/Step2_Platforms.tsx:64-82 | +1 then -1 on an unselected id restores the original list |
| Step2Platforms.CardClickAppends | components/Step2_Platforms.tsx:104 | on a valid list, clicking an unselected card appends that platform once with quantity 1 |
| Toggles.Without | components/Step3_Features.tsx:16 | `filter` removes every occurrence of the id and keeps the count of every other element; a list without the id is unchanged |
| Toggles.WithoutAppend | components/Step3_Features.tsx:16 | filtering distributes over concatenation, so the survivors keep their relative order |
| Toggles.TogglePresent | components/Step3_Features.tsx:15-16 | a present id is removed entirely and the other elements keep their counts |
| Toggles.ToggleAbsent | components/Step3_Features.tsx:17-18 | an absent id is appended at the end |
| Toggles.ToggleFlipsOnlyX | components/Step3_Features.tsx:13-20 | the toggled id's membership flips and no other id's membership changes |
| Toggles.ToggleKeepsDistinct | components/Step3_Features.tsx:13-20 | a duplicate-free list stays duplicate-free |
| Toggles.ToggleTwice | components/Step3_Features.tsx:13-20 | a double toggle is an exact round trip from absent; from present, only membership comes back and the id moves to the end |
| Toggles.ToggleTwiceAtEnd | components/Step3_Features.tsx:13-20 | on a duplicate-free list whose last element is the id, a double toggle is exact |
| Toggles.ToggleFeature | components/Step3_Features.tsx:13-20 | the features update changes only `features`, to the toggled list |
| Toggles.ToggleSupport | components/Step4_Support.tsx:13-20 | the support update changes only `support`, to the toggled list |
| Toggles.ToggleIntegration | components/Step6_Integrations.tsx:13-20 | the integrations update changes only `integrations`, to the toggled list |
| Toggles.ToggleIntegrationOneTile | components/Step6_Integrations.tsx:13-38 | toggling a catalog integration name changes the selected state of exactly one tile |
| Step5Balance.BalanceChangeOnlyBalance | components/Step5_Final.tsx:13-16 | the balance update writes only `balance`, and stores the value unclamped |
| Step5Balance.Percentage | components/Step5_Final.tsx:18 | the fill is 0 at balance 1000 and 100 at balance 50000 |
| Step5Balance.PercentageInRange | components/Step5_Final.tsx:18 | for a balance in [1000, 50000] the fill lies in [0, 100] |
| Step5Balance.PercentageMonotonic | components/Step5_Final.tsx:18 | the fill never decreases as the balance grows |
| Step5Balance.ClampBalance | components/Step5_Final.tsx:56-60 | extension: the clamped value is in [1000, 50000], equal to the input when in range and to the nearer bound otherwise |
| Step5Balance.ClampKeepsSliderValues | components/Step5_Final.tsx:56-60 | clamping does not change any value the control can produce |
| Wizard.StepsNumbered | components/Wizard.tsx:26-33 | there are six steps, and step k sits at position k - 1 |
| Wizard.Navigator.constructor | components/Wizard.tsx:36-37 | the wizard starts at step 1 with direction 0 |
| Wizard.Navigator.Current | components/Wizard.tsx:73 | `STEPS[currentStep - 1]` is in bounds and is the step numbered `currentStep` |
| Wizard.Navigator.Next | components/Wizard.tsx:39-46 | below step 6 it advances one step with direction 1; at step 6 it stays, keeps the direction and signals completion; the step stays in [1, 6]; no configuration is consulted |
| Wizard.Navigator.Back | components/Wizard.tsx:48-53 | above step 1 it goes back one step with direction -1; at step 1 nothing changes, direction included; the step stays in [1, 6] |

Some functions are specifications without contracts of their own. The rows above state what they mean:

- `Folds.Reduce` (the `reduce` calls at App.tsx:35-41) is specified by `Folds.ReduceIsSum`, against the reference sum `Folds.SumOf`.
- `Catalog.PlatformLineCost`, `Catalog.FeaturePrice` and `Catalog.SupportPrice` (App.tsx:36-41) are `PriceOf` on one catalog. They are specified by `Catalog.PriceOf`, `Catalog.KnownPrice` and `Catalog.PricesNonNegative`.
- `App.CalculateTotal` (App.tsx:34-44) is specified by `App.CalculateTotalIsSum` and the other `App` lemma rows.
- `App.Session.Total` is `CalculateTotal` of the current data, as passed to the checkout view (App.tsx:73).
- `Step2Platforms.Updated` (components/Step2_Platforms.tsx:64-82) is specified by the `Updated…` rows, `NewLineAppended` and `AddThenRemove`. `Step2Platforms.UpdateQuantity` is proved to publish it.
- `Toggles.Toggle` (components/Step3_Features.tsx:13-20 and the matching lines of Step4_Support.tsx and Step6_Integrations.tsx) is specified by the `Toggles` lemma rows.
- `Step5Balance.BalanceChange` (components/Step5_Final.tsx:13-16) is specified by `Step5Balance.BalanceChangeOnlyBalance`.

## Left out

- components/PaymentModal.tsx is not part of this model. Its payment is a fixed timer that always succeeds, and its line items repeat the pricing above. Only the open/close flag it shares with App.tsx is modelled (`Session.Complete`, `Session.ClosePayment`).
- components/Step1_Profile.tsx is not part of this model. It only issues single-field patches, which `App.Merge` covers.
- components/ui/ (Counter, AnimatedIcons, Button, Input, CustomSelect, PhoneInput) is not part of this model: it is presentation, animation, formatting and a third-party phone widget.
- The `INDUSTRIES` and `CURRENCIES` lists (constants.tsx:26-42) are left out. They only feed the profile dropdowns, and currency takes no part in any calculation.
- `parseInt` in Step5_Final.tsx:15 is left out. The control value is taken as an already decoded integer, so a `NaN` balance cannot arise in the model.
- Numbers are unbounded integers. JavaScript's floating-point `number` (fractional quantities, `NaN`, rounding of very large sums) is not modelled. The `|| 0` in the price lookups therefore only covers the missing-entry case.
- A patch field explicitly set to `undefined` would overwrite the field in JavaScript. A `Patch` can only carry a value or leave the field alone, and no step sends `undefined`.
- Step2Platforms.UpdateQuantity: platform lines are modelled as values. In the code, line 65 copies the list but not its line objects. The write at line 75 therefore also changes the object seen by the previous snapshot of `data.platforms`. The model captures the new list that is published, but not this aliasing of the old one.
- Wizard.Navigator.Next: each call sees the step of the latest render. The code reads the rendered `currentStep` in its guard but increments with an updater function, so two calls within one render are not modelled.
- React mechanics are not modelled: hooks, re-rendering, `AnimatePresence`, and when effects run. `Accordion.AutoExpand` is the effect body; running it on mount and whenever the platform or feature count changes is left to the caller.
- The progress-bar width (Wizard.tsx:108), the `direction`-driven animation variants (Wizard.tsx:55-71) and `toLocaleString` currency formatting are display-only and left out. `direction` itself is tracked.
