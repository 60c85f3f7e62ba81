/** The effect abstraction of effects/base_effect.py: a sample rate, an
    enabled flag, and the bypass rule that a disabled effect hands its input
    back unchanged. The concrete effects each own one `AudioEffect` (the part
    they inherit in the source) and dispatch on its flag the same way. */
module BaseEffect {
  import opened Audio

  class AudioEffect {
    const sampleRate: int
    var isEnabled: bool

    /** A new effect starts enabled, at the given sample rate. */
    constructor (sampleRate: int := 44100)
      ensures this.sampleRate == sampleRate && isEnabled
    {
      this.sampleRate := sampleRate;
      isEnabled := true;
    }

    /** The transform a plain effect applies: none. */
    method ProcessImpl(audio: Block) returns (out: Block)
      ensures out == audio
    {
      out := audio;
    }

    /** Disabled: the input itself; enabled: `ProcessImpl`, which for the
        plain effect is the identity too. Either way nothing changes. */
    method Process(audio: Block) returns (out: Block)
      ensures out == audio
    {
      if !isEnabled {
        return audio;
      }
      out := ProcessImpl(audio);
    }

    method Enable()
      modifies this`isEnabled
      ensures isEnabled
    {
      isEnabled := true;
    }

    method Disable()
      modifies this`isEnabled
      ensures !isEnabled
    {
      isEnabled := false;
    }

    /** Negates the flag, so two toggles give back the original flag. */
    method Toggle()
      modifies this`isEnabled
      ensures isEnabled == !old(isEnabled)
    {
      isEnabled := !isEnabled;
    }

    /** The plain effect keeps no state to clear. */
    method Reset()
      ensures unchanged(this)
    {
    }
  }
}
