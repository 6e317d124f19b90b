/**
 * The audio engine's note bookkeeping. Every call into the sound library (attacking or
 * releasing a voice, moving the sub-oscillator, opening or closing the shared sub, noise and
 * filter envelopes, ramping a gain) is an abstract command appended to `log`; what is left is
 * the engine's own state: the set of sounding notes, the mono-mode held-note stack, the
 * arpeggiator flag and the glide settings.
 *
 * Notes are keyed by their base frequency in Hz. The engine turns a base frequency into a
 * note name after applying pitch bend; the commands record the base frequency instead.
 */
module AudioEngine {
  import opened Collections

  /** When a command takes effect: immediately, or at a scheduled audio-clock time. */
  datatype When = Now | At(time: real)

  /** How the sub-oscillator reaches a new pitch. */
  datatype SubMove = Jump | Glide(seconds: real) | SetAt(when: When)

  datatype Command =
    | Attack(freq: real, when: When)            // a voice of the polyphonic synth starts
    | Release(freq: real, when: When)           // the voice playing freq stops
    | ReleaseAll                                // every voice stops
    | SubPitch(freq: real, move: SubMove)       // the sub-oscillator follows freq
    | EnvAttack(when: When)                     // the sub, noise and filter envelopes open
    | EnvRelease                                // the sub, noise and filter envelopes close
    | VolumeRamp(db: real, seconds: real)       // master gain ramps to the gain of db decibels
    | FilterModRamp(gain: real, seconds: real)  // LFO-to-cutoff depth ramps to gain Hz
    | FilterEnvSweep(maxHz: real)               // the filter envelope's maximum sweep
    | Portamento(seconds: real)                 // the synth's glide time

  /** A level meter reads one number, or one number per channel. */
  datatype MeterReading = Single(level: real) | PerChannel(first: real, rest: seq<real>)

  /** LFO depth on the cutoff at full modulation amount, in Hz. */
  const LfoFilterMaxRange: real := 5000.0
  /** Filter envelope sweep at full amount, in Hz. */
  const FilterEnvMaxSweep: real := 8000.0
  /** Meter level reported before the audio graph exists, in dB. */
  const SilentMeterLevel: real := -60.0
  /** Length of the sample buffers the analysers return. */
  const AnalysisSize: nat := 256
  /** Ramp time used by the gain setters, in seconds. */
  const GainRampSeconds: real := 0.1

  /** The LFO-to-cutoff gain a routing asks for: a disabled routing asks for none, whatever its amount. */
  function ModRoutingGain(amount: real, enabled: bool): (r: real)
    ensures !enabled ==> r == 0.0
    ensures enabled ==> r == amount * LfoFilterMaxRange
    ensures enabled && 0.0 <= amount <= 1.0 ==> 0.0 <= r <= LfoFilterMaxRange
  {
    var scaledAmount := if enabled then amount else 0.0;
    scaledAmount * LfoFilterMaxRange
  }

  /** The glide time the synth is given: the configured time with glide on, zero with it off. */
  function PortamentoFor(glideEnabled: bool, glideTime: real): (r: real)
    ensures glideEnabled ==> r == glideTime
    ensures !glideEnabled ==> r == 0.0
  {
    if glideEnabled then glideTime else 0.0
  }

  /** What `playArpNote` sends: the voice, the sub-oscillator and the envelopes all start at the same moment. */
  function ArpAttack(f: real, when: When): seq<Command> {
    [Attack(f, when), SubPitch(f, SetAt(when)), EnvAttack(when)]
  }

  /** A buffer of n zero samples (`new Float32Array(n)`). */
  function Zeros(n: nat): (r: seq<real>)
    ensures |r| == n
    ensures forall i :: 0 <= i < n ==> r[i] == 0.0
  {
    if n == 0 then [] else Zeros(n - 1) + [0.0]
  }

  /** `useAudioEngine`: the state behind the hook's refs, and the command log. */
  class Engine {
    var initialized: bool
    /** The sounding notes, in insertion order (`activeNotesRef`). */
    var activeNotes: seq<real>
    var currentFrequency: real
    var currentOctave: real
    var glideEnabled: bool
    var glideTime: real
    var filterEnvAmount: real
    var monoMode: bool
    /** Held notes in mono mode, oldest first; the last one has priority (`heldNotesStackRef`). */
    var monoStack: seq<real>
    var isArpeggiating: bool
    /** The note count published to the UI (`state.activeNotes`). */
    var shownActiveNotes: nat
    var log: seq<Command>

    ghost predicate Valid()
      reads this
    {
      Distinct(activeNotes) && Distinct(monoStack) && (!monoMode ==> monoStack == [])
    }

    /** A fresh engine: no graph yet, nothing sounding, and the defaults for octave, glide, envelope amount and mode. */
    constructor (octave: real, glideOn: bool, glideSeconds: real, envAmount: real, mono: bool)
      ensures Valid()
      ensures !initialized && activeNotes == [] && monoStack == [] && !isArpeggiating && log == []
      ensures currentFrequency == 440.0 && currentOctave == octave && shownActiveNotes == 0
      ensures glideEnabled == glideOn && glideTime == glideSeconds && filterEnvAmount == envAmount
      ensures monoMode == mono
    {
      initialized := false;
      activeNotes := [];
      currentFrequency := 440.0;
      currentOctave := octave;
      glideEnabled := glideOn;
      glideTime := glideSeconds;
      filterEnvAmount := envAmount;
      monoMode := mono;
      monoStack := [];
      isArpeggiating := false;
      shownActiveNotes := 0;
      log := [];
    }

    /** `initializeAudio`: builds the graph once; a second call does nothing. */
    method Initialize()
      requires Valid()
      modifies this
      ensures Valid()
      ensures old(initialized) ==> unchanged(this)
      ensures !old(initialized) ==> initialized && shownActiveNotes == 0
      ensures activeNotes == old(activeNotes) && monoStack == old(monoStack) && log == old(log)
      ensures monoMode == old(monoMode) && isArpeggiating == old(isArpeggiating)
      ensures currentFrequency == old(currentFrequency) && glideEnabled == old(glideEnabled)
      ensures glideTime == old(glideTime) && filterEnvAmount == old(filterEnvAmount) && currentOctave == old(currentOctave)
    {
      if initialized {
        return;
      }
      initialized := true;
      shownActiveNotes := 0;
    }

    /** Everything but the log and the arpeggiator flag is as it was. */
    twostate predicate NotesUnchanged()
      reads this
    {
      && initialized == old(initialized) && activeNotes == old(activeNotes) && monoStack == old(monoStack)
      && monoMode == old(monoMode) && shownActiveNotes == old(shownActiveNotes)
      && currentFrequency == old(currentFrequency) && glideEnabled == old(glideEnabled) && glideTime == old(glideTime)
      && filterEnvAmount == old(filterEnvAmount) && currentOctave == old(currentOctave)
    }

    /** What a mono note-on does to an initialised engine. */
    twostate predicate PlayedMono(f: real)
      reads this
    {
      var wasFirst := old(monoStack) == [];
      var releasePrevious := if !wasFirst && old(activeNotes) != [] then [Release(old(activeNotes)[0], Now)] else [];
      && monoStack == Insert(old(monoStack), f)
      && activeNotes == [f]
      && currentFrequency == f
      && shownActiveNotes == 1
      && log == old(log) + releasePrevious
                + [Attack(f, Now), SubPitch(f, if glideEnabled && !wasFirst then Glide(glideTime) else Jump)]
                + (if wasFirst then [EnvAttack(Now)] else [])
      && initialized == old(initialized) && monoMode == old(monoMode) && isArpeggiating == old(isArpeggiating)
      && glideEnabled == old(glideEnabled) && glideTime == old(glideTime)
      && filterEnvAmount == old(filterEnvAmount) && currentOctave == old(currentOctave)
    }

    /** What a mono note-off does to an initialised engine. */
    twostate predicate StoppedMono(f: real)
      reads this
    {
      var stack := Remove(old(monoStack), f);
      var rest := Remove(old(activeNotes), f);
      && monoStack == stack
      && (stack != [] ==>
            var top := stack[|stack| - 1];
            && activeNotes == Insert(rest, top)
            && currentFrequency == top
            && shownActiveNotes == old(shownActiveNotes)
            && log == old(log) + [Release(f, Now), Attack(top, Now)]
                      + (if glideEnabled then [SubPitch(top, Glide(glideTime))] else []))
      && (stack == [] ==>
            && activeNotes == rest
            && currentFrequency == old(currentFrequency)
            && shownActiveNotes == 0
            && log == old(log) + [Release(f, Now), EnvRelease])
      && initialized == old(initialized) && monoMode == old(monoMode) && isArpeggiating == old(isArpeggiating)
      && glideEnabled == old(glideEnabled) && glideTime == old(glideTime)
      && filterEnvAmount == old(filterEnvAmount) && currentOctave == old(currentOctave)
    }

    /** `playNoteMono`: last-note priority. The previous note is released unless the stack was empty, only f
        is left sounding, and the shared envelopes open only for the first held note. */
    method PlayNoteMono(f: real)
      requires Valid() && monoMode
      modifies this
      ensures Valid()
      ensures !old(initialized) ==> unchanged(this)
      ensures old(initialized) ==> PlayedMono(f)
    {
      if !initialized {
        return;
      }
      var isFirstNote := monoStack == [];
      // The previous note is released first; the glide and non-glide branches of the source attack the voice
      // identically and differ only in how the sub-oscillator moves.
      var releasePrevious := if !isFirstNote && activeNotes != [] then [Release(activeNotes[0], Now)] else [];
      var subMove := if glideEnabled && !isFirstNote then Glide(glideTime) else Jump;
      monoStack := Insert(monoStack, f);
      activeNotes := [f];
      currentFrequency := f;
      log := log + releasePrevious + [Attack(f, Now), SubPitch(f, subMove)] + (if isFirstNote then [EnvAttack(Now)] else []);
      shownActiveNotes := 1;
    }

    /** `stopNoteMono`: f leaves the stack and its voice is released; if notes are still held the newest one
        sounds again, otherwise the shared envelopes close. */
    method StopNoteMono(f: real)
      requires Valid() && monoMode
      modifies this
      ensures Valid()
      ensures !old(initialized) ==> unchanged(this)
      ensures old(initialized) ==> StoppedMono(f)
    {
      if !initialized {
        return;
      }
      RemoveDistinct(monoStack, f);
      RemoveDistinct(activeNotes, f);
      var stack := Remove(monoStack, f);
      var rest := Remove(activeNotes, f);
      monoStack := stack;
      if stack != [] {
        var top := stack[|stack| - 1];
        activeNotes := Insert(rest, top);
        currentFrequency := top;
        log := log + [Release(f, Now), Attack(top, Now)] + (if glideEnabled then [SubPitch(top, Glide(glideTime))] else []);
      } else {
        activeNotes := rest;
        log := log + [Release(f, Now), EnvRelease];
        shownActiveNotes := 0;
      }
    }

    /** What a poly note-on does to an initialised engine: f joins the sounding set and becomes the current
        frequency; the shared envelopes open exactly when f is the only sounding note afterwards. */
    twostate predicate PlayedPoly(f: real)
      reads this
    {
      && activeNotes == Insert(old(activeNotes), f)
      && currentFrequency == f
      && shownActiveNotes == |activeNotes|
      && log == old(log)
                + [Attack(f, Now), SubPitch(f, if glideEnabled && |activeNotes| > 1 then Glide(glideTime) else Jump)]
                + (if |activeNotes| == 1 then [EnvAttack(Now)] else [])
      && initialized == old(initialized) && monoStack == old(monoStack) && monoMode == old(monoMode)
      && isArpeggiating == old(isArpeggiating) && glideEnabled == old(glideEnabled) && glideTime == old(glideTime)
      && filterEnvAmount == old(filterEnvAmount) && currentOctave == old(currentOctave)
    }

    /** What a poly note-off does to an initialised engine: f is released and leaves the sounding set; the shared
        envelopes close exactly when the set becomes empty while the arpeggiator is off. */
    twostate predicate StoppedPoly(f: real)
      reads this
    {
      && activeNotes == Remove(old(activeNotes), f)
      && shownActiveNotes == |activeNotes|
      && currentFrequency == old(currentFrequency)
      && log == old(log) + [Release(f, Now)] + (if activeNotes == [] && !isArpeggiating then [EnvRelease] else [])
      && initialized == old(initialized) && monoStack == old(monoStack) && monoMode == old(monoMode)
      && isArpeggiating == old(isArpeggiating) && glideEnabled == old(glideEnabled) && glideTime == old(glideTime)
      && filterEnvAmount == old(filterEnvAmount) && currentOctave == old(currentOctave)
    }

    /** What `playNote` does: nothing before initialization, otherwise the mono or the poly note-on. */
    twostate predicate PlayedNote(f: real)
      reads this
    {
      && (!old(initialized) ==> unchanged(this))
      && (old(initialized) && old(monoMode) ==> PlayedMono(f))
      && (old(initialized) && !old(monoMode) ==> PlayedPoly(f))
    }

    /** What `stopNote` does: nothing before initialization, otherwise the mono or the poly note-off. */
    twostate predicate StoppedNote(f: real)
      reads this
    {
      && (!old(initialized) ==> unchanged(this))
      && (old(initialized) && old(monoMode) ==> StoppedMono(f))
      && (old(initialized) && !old(monoMode) ==> StoppedPoly(f))
    }

    /** `playNote`: the mono note-on in mono mode, the poly one otherwise. */
    method PlayNote(f: real)
      requires Valid()
      modifies this
      ensures Valid()
      ensures PlayedNote(f)
    {
      if !initialized {
        return;
      }
      if monoMode {
        PlayNoteMono(f);
        return;
      }
      activeNotes := Insert(activeNotes, f);
      currentFrequency := f;
      var subMove := if glideEnabled && |activeNotes| > 1 then Glide(glideTime) else Jump;
      log := log + [Attack(f, Now), SubPitch(f, subMove)] + (if |activeNotes| == 1 then [EnvAttack(Now)] else []);
      shownActiveNotes := |activeNotes|;
    }

    /** `stopNote`: the mono note-off in mono mode, the poly one otherwise. */
    method StopNote(f: real)
      requires Valid()
      modifies this
      ensures Valid()
      ensures StoppedNote(f)
    {
      if !initialized {
        return;
      }
      if monoMode {
        StopNoteMono(f);
        return;
      }
      RemoveDistinct(activeNotes, f);
      activeNotes := Remove(activeNotes, f);
      log := log + [Release(f, Now)] + (if activeNotes == [] && !isArpeggiating then [EnvRelease] else []);
      shownActiveNotes := |activeNotes|;
    }

    /** `stopAllNotes`: releases every voice and forgets all sounding and held notes; the shared envelopes
        close unless the arpeggiator is running. */
    method StopAllNotes()
      requires Valid()
      modifies this
      ensures Valid()
      ensures !old(initialized) ==> unchanged(this)
      ensures old(initialized) ==>
                && activeNotes == [] && monoStack == [] && shownActiveNotes == 0
                && log == old(log) + [ReleaseAll] + (if isArpeggiating then [] else [EnvRelease])
      ensures initialized == old(initialized) && monoMode == old(monoMode) && isArpeggiating == old(isArpeggiating)
      ensures currentFrequency == old(currentFrequency) && glideEnabled == old(glideEnabled) && glideTime == old(glideTime)
      ensures filterEnvAmount == old(filterEnvAmount) && currentOctave == old(currentOctave)
    {
      if !initialized {
        return;
      }
      log := log + [ReleaseAll];
      activeNotes := [];
      monoStack := [];
      if !isArpeggiating {
        log := log + [EnvRelease];
      }
      shownActiveNotes := 0;
    }

    /** `playArpNote`: attacks f, moves the sub-oscillator and opens the envelopes, all at the same moment;
        the sounding set is not touched. */
    method PlayArpNote(f: real, when: When)
      requires Valid()
      modifies this
      ensures Valid()
      ensures log == old(log) + (if initialized then ArpAttack(f, when) else [])
      ensures NotesUnchanged() && isArpeggiating == old(isArpeggiating)
    {
      if !initialized {
        return;
      }
      log := log + ArpAttack(f, when);
    }

    /** `stopArpNote`: releases f at the given moment and nothing else. */
    method StopArpNote(f: real, when: When)
      requires Valid()
      modifies this
      ensures Valid()
      ensures log == old(log) + (if initialized then [Release(f, when)] else [])
      ensures NotesUnchanged() && isArpeggiating == old(isArpeggiating)
    {
      if !initialized {
        return;
      }
      log := log + [Release(f, when)];
    }

    /** `setArpeggiating`: records the flag, which needs no graph; turning it off closes the envelopes when no
        note is sounding. */
    method SetArpeggiating(active: bool)
      requires Valid()
      modifies this
      ensures Valid()
      ensures isArpeggiating == active
      ensures log == old(log) + (if !active && activeNotes == [] && initialized then [EnvRelease] else [])
      ensures NotesUnchanged()
    {
      isArpeggiating := active;
      if !active && activeNotes == [] && initialized {
        log := log + [EnvRelease];
      }
    }

    /** `setVolume`: ramps the master gain to the given level over 0.1 s. */
    method SetVolume(db: real)
      requires Valid()
      modifies this
      ensures Valid()
      ensures !old(initialized) ==> unchanged(this)
      ensures old(initialized) ==> log == old(log) + [VolumeRamp(db, GainRampSeconds)]
      ensures NotesUnchanged() && isArpeggiating == old(isArpeggiating)
    {
      if !initialized {
        return;
      }
      log := log + [VolumeRamp(db, GainRampSeconds)];
    }

    /** `setOctave`: recorded whether or not the graph exists. */
    method SetOctave(octave: real)
      requires Valid()
      modifies this
      ensures Valid()
      ensures currentOctave == octave
      ensures initialized == old(initialized) && activeNotes == old(activeNotes) && monoStack == old(monoStack) && log == old(log)
      ensures monoMode == old(monoMode) && isArpeggiating == old(isArpeggiating) && shownActiveNotes == old(shownActiveNotes)
      ensures currentFrequency == old(currentFrequency) && glideEnabled == old(glideEnabled) && glideTime == old(glideTime)
      ensures filterEnvAmount == old(filterEnvAmount)
    {
      currentOctave := octave;
    }

    /** What `setMonoMode` does: entering mono mode with more than one sounding note silences them all and forgets
        them; with one or none it changes nothing else. Leaving mono mode always empties the held-note stack. */
    twostate predicate SwitchedMono(enabled: bool)
      reads this
    {
      && monoMode == enabled
      && (enabled && initialized && |old(activeNotes)| > 1 ==>
            activeNotes == [] && monoStack == [] && log == old(log) + [ReleaseAll])
      && (enabled && !(initialized && |old(activeNotes)| > 1) ==>
            activeNotes == old(activeNotes) && monoStack == old(monoStack) && log == old(log))
      && (!enabled ==> monoStack == [] && activeNotes == old(activeNotes) && log == old(log))
      && initialized == old(initialized) && isArpeggiating == old(isArpeggiating) && shownActiveNotes == old(shownActiveNotes)
      && currentFrequency == old(currentFrequency) && glideEnabled == old(glideEnabled) && glideTime == old(glideTime)
      && filterEnvAmount == old(filterEnvAmount) && currentOctave == old(currentOctave)
    }

    /** `setMonoMode`. */
    method SetMonoMode(enabled: bool)
      requires Valid()
      modifies this
      ensures Valid()
      ensures SwitchedMono(enabled)
    {
      monoMode := enabled;
      if enabled {
        if initialized && |activeNotes| > 1 {
          log := log + [ReleaseAll];
          activeNotes := [];
          monoStack := [];
        }
      } else {
        monoStack := [];
      }
    }

    /** `setGlideEnabled`: the synth's portamento becomes the glide time, or zero when glide is off. */
    method SetGlideEnabled(enabled: bool)
      requires Valid()
      modifies this
      ensures Valid()
      ensures glideEnabled == enabled
      ensures log == old(log) + (if initialized then [Portamento(PortamentoFor(enabled, glideTime))] else [])
      ensures initialized == old(initialized) && activeNotes == old(activeNotes) && monoStack == old(monoStack)
      ensures monoMode == old(monoMode) && isArpeggiating == old(isArpeggiating) && shownActiveNotes == old(shownActiveNotes)
      ensures currentFrequency == old(currentFrequency) && glideTime == old(glideTime)
      ensures filterEnvAmount == old(filterEnvAmount) && currentOctave == old(currentOctave)
    {
      glideEnabled := enabled;
      if initialized {
        log := log + [Portamento(PortamentoFor(enabled, glideTime))];
      }
    }

    /** `setGlideTime`: the new time reaches the synth only while glide is on. */
    method SetGlideTime(seconds: real)
      requires Valid()
      modifies this
      ensures Valid()
      ensures glideTime == seconds
      ensures log == old(log) + (if initialized && glideEnabled then [Portamento(seconds)] else [])
      ensures initialized == old(initialized) && activeNotes == old(activeNotes) && monoStack == old(monoStack)
      ensures monoMode == old(monoMode) && isArpeggiating == old(isArpeggiating) && shownActiveNotes == old(shownActiveNotes)
      ensures currentFrequency == old(currentFrequency) && glideEnabled == old(glideEnabled)
      ensures filterEnvAmount == old(filterEnvAmount) && currentOctave == old(currentOctave)
    {
      glideTime := seconds;
      if initialized && glideEnabled {
        log := log + [Portamento(seconds)];
      }
    }

    /** `setModRouting`: only the filter-cutoff target is wired; its depth ramps to the gated amount. */
    method SetModRouting(target: string, amount: real, enabled: bool)
      requires Valid()
      modifies this
      ensures Valid()
      ensures log == old(log) + (if target == "filterCutoff" && initialized
                                 then [FilterModRamp(ModRoutingGain(amount, enabled), GainRampSeconds)] else [])
      ensures NotesUnchanged() && isArpeggiating == old(isArpeggiating)
    {
      var scaled := ModRoutingGain(amount, enabled);
      if target == "filterCutoff" && initialized {
        log := log + [FilterModRamp(scaled, GainRampSeconds)];
      }
    }

    /** `setFilterEnvAmount`: stores the amount and sets the sweep to amount × 8000 Hz. */
    method SetFilterEnvAmount(amount: real)
      requires Valid()
      modifies this
      ensures Valid()
      ensures !old(initialized) ==> unchanged(this)
      ensures old(initialized) ==> filterEnvAmount == amount && log == old(log) + [FilterEnvSweep(amount * FilterEnvMaxSweep)]
      ensures initialized == old(initialized) && activeNotes == old(activeNotes) && monoStack == old(monoStack)
      ensures monoMode == old(monoMode) && isArpeggiating == old(isArpeggiating) && shownActiveNotes == old(shownActiveNotes)
      ensures currentFrequency == old(currentFrequency) && glideEnabled == old(glideEnabled) && glideTime == old(glideTime)
      ensures currentOctave == old(currentOctave)
    {
      if !initialized {
        return;
      }
      filterEnvAmount := amount;
      log := log + [FilterEnvSweep(amount * FilterEnvMaxSweep)];
    }

    /** `getMeterLevel`: -60 dB before the graph exists, otherwise the meter's level (its first channel's when
        it reads per channel). */
    function MeterLevel(reading: MeterReading): (r: real)
      reads this
      ensures !initialized ==> r == SilentMeterLevel
      ensures initialized && reading.Single? ==> r == reading.level
      ensures initialized && reading.PerChannel? ==> r == reading.first
    {
      if !initialized then SilentMeterLevel
      else match reading
        case Single(level) => level
        case PerChannel(first, _) => first
    }

    /** `getWaveformData` and `getFFTData`: 256 zero samples before the graph exists, otherwise the analyser's buffer. */
    function AnalysisData(buffer: seq<real>): (r: seq<real>)
      reads this
      ensures !initialized ==> |r| == AnalysisSize && forall i :: 0 <= i < |r| ==> r[i] == 0.0
      ensures initialized ==> r == buffer
    {
      if !initialized then Zeros(AnalysisSize) else buffer
    }
  }
}
