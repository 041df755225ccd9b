/**
 * Reference data shared by the HMPI engine and the water-quality categoriser:
 * the closed set of heavy metals, their standard limits in mg/L, the shape of
 * one measured reading and of a named sample, and the two-decimal rounding
 * both engines apply to the numbers they report.
 */
module Metals {

  /** The eight heavy metals a reading may name. */
  datatype Element = Pb | Cd | Cr | As | Hg | Cu | Zn | Ni

  /** The element's symbol, as it appears in messages. */
  function ElementName(e: Element): string
  {
    match e
    case Pb => "Pb"
    case Cd => "Cd"
    case Cr => "Cr"
    case As => "As"
    case Hg => "Hg"
    case Cu => "Cu"
    case Zn => "Zn"
    case Ni => "Ni"
  }

  /** The drinking-water limit of each element, in mg/L (the STANDARD_LIMITS table). */
  function StandardLimit(e: Element): (limit: real)
    ensures 0.003 <= limit <= 3.0
  {
    match e
    case Pb => 0.01
    case Cd => 0.003
    case Cr => 0.05
    case As => 0.01
    case Hg => 0.006
    case Cu => 2.0
    case Zn => 3.0
    case Ni => 0.07
  }

  /** One measurement: an element, a magnitude and the unit string it was entered in. */
  datatype Reading = Reading(element: Element, concentration: real, unit: string)

  /** A sample of a batch: an identifier and its readings. */
  datatype Sample = Sample(id: string, metals: seq<Reading>)

  /** The data-model invariant: no reading is negative. */
  predicate NonNegative(inputs: seq<Reading>)
  {
    forall i :: 0 <= i < |inputs| ==> inputs[i].concentration >= 0.0
  }

  /**
   * `Math.round(x * 100) / 100`: JavaScript's Math.round rounds halves up,
   * so the value is Floor(x * 100 + 0.5) / 100.  The result is a whole number
   * of hundredths, within half a hundredth of x, and stays inside [0, 100]
   * when x does.
   */
  function Round2(x: real): (r: real)
    ensures -0.005 < r - x <= 0.005
    ensures (r * 100.0).Floor as real == r * 100.0
    ensures 0.0 <= x <= 100.0 ==> 0.0 <= r <= 100.0
  {
    var cents := (x * 100.0 + 0.5).Floor;
    assert 0.0 <= x <= 100.0 ==> 0 <= cents <= 10000;
    cents as real / 100.0
  }

  /** A value that is already a whole number of hundredths is reported unchanged; so rounding twice is rounding once. */
  lemma Round2Exact(x: real)
    requires (x * 100.0).Floor as real == x * 100.0
    ensures Round2(x) == x
    ensures Round2(Round2(x)) == Round2(x)
  {
    var r := Round2(x);
    var a, b := (r * 100.0).Floor, (x * 100.0).Floor;
    assert -0.5 < (a - b) as real <= 0.5;
    assert a == b;
  }

  /** Rounding to hundredths keeps the order of values: a larger value is never reported smaller. */
  lemma {:induction false} Round2Monotone(x: real, y: real)
    requires x <= y
    ensures Round2(x) <= Round2(y)
  {
    assert (x * 100.0 + 0.5).Floor <= (y * 100.0 + 0.5).Floor;
  }
}
