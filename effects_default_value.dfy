/** Default intensities of the effects (Model/EffectsDefaultValue.swift). */
module EffectsDefaults {

  datatype EffectsDefaultValue = Slow | Accelerate | PitchUp | PitchDown | ReverbWetDry | Volume
  {
    /** The raw `Float` value of each case. The rate and pitch defaults lie
        in the range the matching guarded setter of the audio service
        accepts; the mix and volume setters have no guard, and their defaults
        lie in the ranges of the mixer screen's sliders, 0...100 and 0...1. */
    function RawValue(): (r: real)
      ensures this == Slow ==> 0.0 < r <= 1.0
      ensures this == Accelerate ==> r >= 1.0
      ensures this == PitchUp ==> r >= 0.0
      ensures this == PitchDown ==> r <= 0.0
      ensures this == ReverbWetDry ==> 0.0 <= r <= 100.0
      ensures this == Volume ==> 0.0 <= r <= 1.0
    {
      match this
      case Slow => 0.7
      case Accelerate => 1.3
      case PitchUp => 400.0
      case PitchDown => -400.0
      case ReverbWetDry => 50.0
      case Volume => 1.0
    }
  }

}
