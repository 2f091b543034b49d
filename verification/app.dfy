/**
 * The calculator application's state, without its user interface.
 *
 * The application keeps the selected wavelength and harmonic, which the
 * wavelength slider and the harmonic radio buttons edit in place, and the
 * last computed angle and walk-off, which every repaint overwrites from the
 * calculator.
 */
module App {
  import opened Crystal

  /** The crystal name shown for a harmonic, naming the table the calculator selects. */
  function WhichCrystal(harmonic: Harmonic): (name: string)
    ensures name == "LBO" <==> SelectTable(harmonic) == SecondHarmonicLbo
    ensures name == "BBO" <==> SelectTable(harmonic) == ThirdHarmonicBbo
  {
    match harmonic
    case Second => "LBO"
    case Third => "BBO"
  }

  class XtalCalculatorApp {
    var wavelength: real
    var harmonic: Harmonic
    var crystal: string
    var angle: real
    var walkoff: real

    /** The wavelength is one the slider can hold: 700 to 1000 nm. */
    ghost predicate Valid()
      reads this
    {
      InCalibratedRange(wavelength)
    }

    /** The stored angle and walk-off are the calculator's answer for the stored inputs. */
    ghost predicate ResultsCurrent()
      reads this
    {
      var r := CalculateAngleWalkoff(wavelength, harmonic);
      angle == r.0 && walkoff == r.1
    }

    /** The default state: 800 nm, second harmonic, no crystal name, zero results. */
    constructor ()
      ensures Valid()
      ensures wavelength == 800.0 && harmonic == Second && crystal == ""
      ensures angle == 0.0 && walkoff == 0.0
    {
      wavelength := 800.0;
      harmonic := Second;
      crystal := "";
      angle := 0.0;
      walkoff := 0.0;
    }

    /**
     * Recomputes the angle and the walk-off from the current wavelength and
     * harmonic, whatever the wavelength. The inputs stay as they were, so a
     * wavelength in the slider's range stays there, and refreshing state
     * whose results are already current changes nothing.
     */
    method Refresh()
      modifies this`angle, this`walkoff
      ensures ResultsCurrent() && (Valid() <==> old(Valid()))
      ensures wavelength == old(wavelength) && harmonic == old(harmonic) && crystal == old(crystal)
      ensures old(ResultsCurrent()) ==> angle == old(angle) && walkoff == old(walkoff)
    {
      var r := CalculateAngleWalkoff(wavelength, harmonic);
      angle, walkoff := r.0, r.1;
    }

    /**
     * One repaint: the slider stores its wavelength, the radio buttons store
     * the selected harmonic, and the results are refreshed from them.
     */
    method Update(sliderWavelength: real, selected: Harmonic)
      requires InCalibratedRange(sliderWavelength)
      modifies this`wavelength, this`harmonic, this`angle, this`walkoff
      ensures Valid() && ResultsCurrent()
      ensures wavelength == sliderWavelength && harmonic == selected && crystal == old(crystal)
    {
      wavelength := sliderWavelength;
      harmonic := selected;
      Refresh();
    }
  }

  /**
   * Two repaints with the same inputs leave the same results: the
   * calculator keeps no state between calls.
   */
  method RepaintTwice(app: XtalCalculatorApp, w: real, h: Harmonic) returns (first: (real, real), second: (real, real))
    requires InCalibratedRange(w)
    modifies app`wavelength, app`harmonic, app`angle, app`walkoff
    ensures app.Valid() && app.ResultsCurrent()
    ensures app.wavelength == w && app.harmonic == h && app.crystal == old(app.crystal)
    ensures first == second == (app.angle, app.walkoff) == CalculateAngleWalkoff(w, h)
  {
    app.Update(w, h);
    first := (app.angle, app.walkoff);
    app.Update(w, h);
    second := (app.angle, app.walkoff);
  }
}
