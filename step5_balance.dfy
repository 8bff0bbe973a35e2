/** The balance step (components/Step5_Final.tsx): a range control writes the
    prepaid balance, and the filled share of the track is a linear percentage. */
module Step5Balance {
  import opened Wrappers
  import opened Types
  import opened App

  /** The range control's bounds and step. */
  const SliderMin: int := 1000
  const SliderMax: int := 50000
  const SliderStep: int := 1000

  /** A value the range control can produce. */
  predicate SliderValue(value: int) {
    SliderMin <= value <= SliderMax && (value - SliderMin) % SliderStep == 0
  }

  /** `handleBalanceChange`: the update carries the (already decoded) control
      value as the new balance, with no clamping of its own. */
  function BalanceChange(value: int): Patch {
    NoChange.(balance := Some(value))
  }

  /** The balance update writes `balance` and nothing else, and stores the
      value exactly as given: nothing outside the control re-checks the range. */
  lemma BalanceChangeOnlyBalance(data: WizardData, value: int)
    ensures Merge(data, BalanceChange(value)) == data.(balance := value)
    ensures Merge(data, BalanceChange(value)).balance == value
  {
  }

  /** The fill of the slider track, in percent, computed exactly. */
  function Percentage(balance: int): (p: real)
    ensures balance == SliderMin ==> p == 0.0
    ensures balance == SliderMax ==> p == 100.0
  {
    ((balance - 1000) as real / (50000 - 1000) as real) * 100.0
  }

  /** Within the control's range the fill lies in [0, 100]. */
  lemma PercentageInRange(balance: int)
    requires SliderMin <= balance <= SliderMax
    ensures 0.0 <= Percentage(balance) <= 100.0
  {
  }

  /** The fill never decreases as the balance grows. */
  lemma PercentageMonotonic(lo: int, hi: int)
    requires lo <= hi
    ensures Percentage(lo) <= Percentage(hi)
  {
  }

  /** Extension, not in the code: clamp a written value into the control's
      range before storing it. */
  function ClampBalance(value: int): (r: int)
    ensures SliderMin <= r <= SliderMax
    ensures SliderMin <= value <= SliderMax ==> r == value
    ensures value < SliderMin ==> r == SliderMin
    ensures value > SliderMax ==> r == SliderMax
  {
    if value < SliderMin then SliderMin else if value > SliderMax then SliderMax else value
  }

  /** For every value the control can produce, clamping changes nothing, so
      the extension leaves in-range behaviour as it is. */
  lemma ClampKeepsSliderValues(value: int)
    requires SliderValue(value)
    ensures ClampBalance(value) == value
    ensures Merge(InitialData, BalanceChange(ClampBalance(value))).balance == value
  {
  }
}
