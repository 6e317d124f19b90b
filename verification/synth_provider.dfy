/**
 * The composition root: routes notes to the arpeggiator or straight to the engine, remembers the
 * frequency each computer key started so that its release stops that same frequency, clamps octave
 * changes, and keeps the editable parameter record in step with the engine, the tempo service and
 * the arpeggiator.
 */
module SynthProvider {
  import opened Collections
  import Frequencies
  import Tempo
  import AudioEngine
  import Arpeggiator
  import Keyboard
  import Presets

  const MinOctave: real := 0.0
  const MaxOctave: real := 5.0

  /** `handleOctaveChange`'s new octave: one step in the given direction, clamped to [0, 5]. */
  function NextOctave(octave: real, direction: Keyboard.Direction): (r: real)
    ensures MinOctave <= r <= MaxOctave
    ensures MinOctave <= octave <= MaxOctave ==> octave - 1.0 <= r <= octave + 1.0
    ensures direction == Keyboard.Up && octave <= MaxOctave - 1.0 && octave >= MinOctave - 1.0 ==> r == octave + 1.0
    ensures direction == Keyboard.Down && octave >= MinOctave + 1.0 && octave <= MaxOctave + 1.0 ==> r == octave - 1.0
    ensures direction == Keyboard.Up && octave >= MaxOctave ==> r == MaxOctave
    ensures direction == Keyboard.Down && octave <= MinOctave ==> r == MinOctave
  {
    var stepped := if direction == Keyboard.Up then octave + 1.0 else octave - 1.0;
    if stepped < MinOctave then MinOctave else if stepped > MaxOctave then MaxOctave else stepped
  }

  /** An octave step up undone by a step down, away from the limits. */
  lemma OctaveUpThenDown(octave: real)
    requires MinOctave <= octave <= MaxOctave - 1.0
    ensures NextOctave(NextOctave(octave, Keyboard.Up), Keyboard.Down) == octave
  {
  }

  /** Repeated presses never leave [0, 5]: pressing up at the top, or down at the bottom, stays put. */
  lemma OctaveLimitsAreFixedPoints()
    ensures NextOctave(MaxOctave, Keyboard.Up) == MaxOctave
    ensures NextOctave(MinOctave, Keyboard.Down) == MinOctave
  {
  }

  /** `setModRouting`'s updater: entries for the target take the new amount and flag; the rest are kept. */
  function UpdateRouting(rs: seq<Presets.ModRouting>, target: string, amount: real, enabled: bool): (r: seq<Presets.ModRouting>)
    ensures |r| == |rs|
    ensures forall i :: 0 <= i < |rs| && rs[i].target != target ==> r[i] == rs[i]
    ensures forall i :: 0 <= i < |rs| && rs[i].target == target ==> r[i] == Presets.ModRouting(target, amount, enabled)
  {
    if rs == [] then []
    else [if rs[0].target == target then rs[0].(amount := amount, enabled := enabled) else rs[0]]
         + UpdateRouting(rs[1..], target, amount, enabled)
  }

  /** Setting a routing twice in a row is the same as setting it once with the second values. */
  lemma UpdateRoutingLastWins(rs: seq<Presets.ModRouting>, target: string, a: real, e: bool, b: real, f: bool)
    ensures UpdateRouting(UpdateRouting(rs, target, a, e), target, b, f) == UpdateRouting(rs, target, b, f)
  {
  }

  /** A target that no entry has leaves the table as it is. */
  lemma UpdateRoutingAbsentTarget(rs: seq<Presets.ModRouting>, target: string, amount: real, enabled: bool)
    requires forall i :: 0 <= i < |rs| ==> rs[i].target != target
    ensures UpdateRouting(rs, target, amount, enabled) == rs
  {
  }

  function PatternName(p: Arpeggiator.Pattern): string {
    match p
    case Up => "up"
    case Down => "down"
    case UpDown => "upDown"
    case Random => "random"
  }

  function RateName(v: Tempo.NoteValue): string {
    match v
    case Quarter => "1/4"
    case Eighth => "1/8"
    case Sixteenth => "1/16"
    case ThirtySecond => "1/32"
  }

  /** The arpeggiator settings as the parameter record stores them. */
  function ArpToJson(a: Arpeggiator.Params): Presets.Json {
    Presets.Obj(map[
      "enabled" := Presets.Bool(a.enabled),
      "pattern" := Presets.Str(PatternName(a.pattern)),
      "rate" := Presets.Str(RateName(a.rate)),
      "octaves" := Presets.Num(a.octaves as real)])
  }

  /** Reading the arpeggiator section of a parameter snapshot back into settings; used to state what the snapshot
      carries. */
  function ArpFromJson(j: Presets.Json): (r: Option<Arpeggiator.Params>)
    ensures r.Some? ==> j.Obj?
  {
    var e, p, v, n := Presets.Field(j, "enabled"), Presets.Field(j, "pattern"), Presets.Field(j, "rate"), Presets.Field(j, "octaves");
    if e.Some? && e.value.Bool? && p.Some? && p.value.Str? && v.Some? && v.value.Str? && n.Some? && n.value.Num? then
      var pattern := PatternNamed(p.value.s);
      var rate := RateNamed(v.value.s);
      var octaves := n.value.n;
      if pattern.Some? && rate.Some? && octaves >= 0.0 && octaves == octaves.Floor as real then
        Some(Arpeggiator.Params(e.value.b, pattern.value, rate.value, octaves.Floor))
      else None
    else None
  }

  function PatternNamed(name: string): (r: Option<Arpeggiator.Pattern>)
    ensures r.Some? ==> PatternName(r.value) == name
  {
    if name == "up" then Some(Arpeggiator.Up) else if name == "down" then Some(Arpeggiator.Down)
    else if name == "upDown" then Some(Arpeggiator.UpDown) else if name == "random" then Some(Arpeggiator.Random) else None
  }

  function RateNamed(name: string): (r: Option<Tempo.NoteValue>)
    ensures r.Some? ==> RateName(r.value) == name
  {
    if name == "1/4" then Some(Tempo.Quarter) else if name == "1/8" then Some(Tempo.Eighth)
    else if name == "1/16" then Some(Tempo.Sixteenth) else if name == "1/32" then Some(Tempo.ThirtySecond) else None
  }

  /** The stored arpeggiator settings read back as they were. */
  lemma ArpRoundTrip(a: Arpeggiator.Params)
    ensures ArpFromJson(ArpToJson(a)) == Some(a)
  {
  }

  /** `getCurrentParams`: the parameter record with the live arpeggiator settings and the live tempo. */
  function CurrentParams(params: Presets.PresetParams, arp: Arpeggiator.Params, bpm: real): (r: Presets.PresetParams)
    ensures ArpFromJson(r.arpeggiator) == Some(arp)
    ensures r.tempo.bpm == bpm
    ensures r.(arpeggiator := params.arpeggiator, tempo := params.tempo) == params
  {
    ArpRoundTrip(arp);
    params.(arpeggiator := ArpToJson(arp), tempo := Presets.TempoParams(bpm))
  }

  /** `SynthProvider`: the engine, the arpeggiator and the tempo service it composes, the parameter record, the
      computer keys sounding and the frequency each one started. */
  class Synth {
    const engine: AudioEngine.Engine
    const arp: Arpeggiator.Arpeggiator
    const tempo: Tempo.TempoService
    var params: Presets.PresetParams
    var activeKeys: seq<string>
    var keyFrequencies: map<string, real>

    /** The arpeggiator plays through this engine and shares the tempo's transport; a key is sounding exactly when
        the keys are consistent. */
    ghost predicate Valid()
      reads this, engine, arp, tempo
    {
      && arp.engine == engine && arp.transport == tempo.transport
      && arp.Valid() && tempo.Valid()
      && KeysValid()
    }

    /** A key is sounding exactly when its frequency is cached, and only non-zero frequencies are cached. */
    ghost predicate KeysValid()
      reads this
    {
      && Distinct(activeKeys)
      && (forall k :: k in activeKeys <==> k in keyFrequencies)
      && (forall k :: k in keyFrequencies ==> keyFrequencies[k] != 0.0)
    }

    /** Marks a key sounding and caches the frequency it started. */
    method Remember(code: string, f: real)
      requires KeysValid() && f != 0.0
      modifies this
      ensures KeysValid()
      ensures activeKeys == Insert(old(activeKeys), code) && keyFrequencies == old(keyFrequencies)[code := f]
      ensures params == old(params)
    {
      activeKeys := Insert(activeKeys, code);
      keyFrequencies := keyFrequencies[code := f];
    }

    /** Forgets a sounding key and its cached frequency. */
    method Forget(code: string)
      requires KeysValid()
      modifies this
      ensures KeysValid()
      ensures activeKeys == Remove(old(activeKeys), code) && keyFrequencies == old(keyFrequencies) - {code}
      ensures params == old(params)
    {
      RemoveDistinct(activeKeys, code);
      activeKeys := Remove(activeKeys, code);
      keyFrequencies := keyFrequencies - {code};
    }

    constructor (engine: AudioEngine.Engine, arp: Arpeggiator.Arpeggiator, tempo: Tempo.TempoService, defaults: Presets.PresetParams)
      requires arp.engine == engine && arp.transport == tempo.transport && arp.Valid() && tempo.Valid()
      ensures Valid()
      ensures this.engine == engine && this.arp == arp && this.tempo == tempo
      ensures params == defaults && activeKeys == [] && keyFrequencies == map[]
    {
      this.engine := engine;
      this.arp := arp;
      this.tempo := tempo;
      params := defaults;
      activeKeys := [];
      keyFrequencies := map[];
    }

    /** `getCurrentParams`. */
    function GetCurrentParams(): (r: Presets.PresetParams)
      reads this, arp, tempo
      ensures ArpFromJson(r.arpeggiator) == Some(arp.params)
      ensures r.tempo.bpm == tempo.bpm
      ensures r.(arpeggiator := params.arpeggiator, tempo := params.tempo) == params
    {
      CurrentParams(params, arp.params, tempo.bpm)
    }

    /** What routing a note-on for f did: with the arpeggiator enabled, f joins its held notes (and the first one
        starts it); otherwise the arpeggiator and the transport are untouched and the engine plays f. */
    twostate predicate PlayedNote(f: real, draw: nat -> nat)
      reads this, engine, arp, arp.engine, arp.transport
    {
      && (old(arp.params.enabled) ==> arp.AddedNote(f, draw))
      && (!old(arp.params.enabled) ==> unchanged(arp, arp.transport) && engine.PlayedNote(f))
    }

    /** What routing a note-off for f did: with the arpeggiator enabled, f leaves its held notes (and the last one
        stops it); otherwise the arpeggiator and the transport are untouched and the engine stops f. */
    twostate predicate StoppedNote(f: real)
      reads this, engine, arp, arp.engine, arp.transport
    {
      && (old(arp.params.enabled) ==> arp.RemovedNote(f))
      && (!old(arp.params.enabled) ==> unchanged(arp, arp.transport) && engine.StoppedNote(f))
    }

    /** `playNote`: to the arpeggiator when it is enabled, otherwise to the engine. */
    method PlayNote(f: real, draw: nat -> nat)
      requires Valid()
      modifies engine, arp, arp.transport
      ensures Valid()
      ensures PlayedNote(f, draw)
    {
      if arp.params.enabled {
        arp.AddNote(f, draw);
      } else {
        engine.PlayNote(f);
      }
    }

    /** `stopNote`: to the arpeggiator when it is enabled, otherwise to the engine. */
    method StopNote(f: real)
      requires Valid()
      modifies engine, arp, arp.transport
      ensures Valid()
      ensures StoppedNote(f)
    {
      if arp.params.enabled {
        arp.RemoveNote(f);
      } else {
        engine.StopNote(f);
      }
    }

    /** `handleNoteOn`: a key with a (non-zero) frequency at the current octave plays it, becomes sounding and
        remembers the frequency; any other key does nothing. */
    method HandleNoteOn(code: string, draw: nat -> nat)
      requires Valid()
      modifies this, engine, arp, arp.transport
      ensures Valid()
      ensures params == old(params)
      ensures var freq := Frequencies.GetFrequency(code, old(params.master.octave));
              && (freq.Some? && freq.value != 0.0 ==>
                    && PlayedNote(freq.value, draw)
                    && activeKeys == Insert(old(activeKeys), code)
                    && keyFrequencies == old(keyFrequencies)[code := freq.value])
              && (!(freq.Some? && freq.value != 0.0) ==>
                    activeKeys == old(activeKeys) && keyFrequencies == old(keyFrequencies)
                    && unchanged(engine, arp, arp.transport))
    {
      var freq := Frequencies.GetFrequency(code, params.master.octave);
      if freq.Some? && freq.value != 0.0 {
        PlayNote(freq.value, draw);
        Remember(code, freq.value);
      }
    }

    /** `handleNoteOff`: a sounding key stops the frequency it started (whatever the octave is now) and is
        forgotten; a key that is not sounding does nothing. */
    method HandleNoteOff(code: string)
      requires Valid()
      modifies this, engine, arp, arp.transport
      ensures Valid()
      ensures params == old(params)
      ensures code in old(keyFrequencies) ==>
                && StoppedNote(old(keyFrequencies)[code])
                && activeKeys == Remove(old(activeKeys), code)
                && keyFrequencies == old(keyFrequencies) - {code}
      ensures code !in old(keyFrequencies) ==>
                activeKeys == old(activeKeys) && keyFrequencies == old(keyFrequencies) && unchanged(engine, arp, arp.transport)
    {
      if code in keyFrequencies && keyFrequencies[code] != 0.0 {
        StopNote(keyFrequencies[code]);
        Forget(code);
      }
    }

    /** `handleOctaveChange`: the parameter record and the engine take the clamped next octave. */
    method HandleOctaveChange(direction: Keyboard.Direction)
      requires Valid()
      modifies this, engine
      ensures Valid()
      ensures var octave := NextOctave(old(params.master.octave), direction);
              && params == old(params).(master := old(params.master).(octave := octave))
              && engine.currentOctave == octave
      ensures activeKeys == old(activeKeys) && keyFrequencies == old(keyFrequencies)
      ensures engine.log == old(engine.log) && engine.activeNotes == old(engine.activeNotes)
    {
      var octave := NextOctave(params.master.octave, direction);
      params := params.(master := params.master.(octave := octave));
      engine.SetOctave(octave);
    }

    /** `setVolume`: only the master volume changes in the record; the engine ramps to it. */
    method SetVolume(v: real)
      requires Valid()
      modifies this, engine
      ensures Valid()
      ensures params == old(params).(master := old(params.master).(volume := v))
      ensures engine.log == old(engine.log) + (if engine.initialized then [AudioEngine.VolumeRamp(v, AudioEngine.GainRampSeconds)] else [])
      ensures engine.NotesUnchanged()
      ensures activeKeys == old(activeKeys) && keyFrequencies == old(keyFrequencies)
    {
      params := params.(master := params.master.(volume := v));
      engine.SetVolume(v);
    }

    /** `setOctave`: only the master octave changes in the record, unclamped; the engine records it. */
    method SetOctave(v: real)
      requires Valid()
      modifies this, engine
      ensures Valid()
      ensures params == old(params).(master := old(params.master).(octave := v))
      ensures engine.currentOctave == v && engine.log == old(engine.log)
      ensures activeKeys == old(activeKeys) && keyFrequencies == old(keyFrequencies)
    {
      params := params.(master := params.master.(octave := v));
      engine.SetOctave(v);
    }

    /** `setMonoMode`: only the master mono flag changes in the record; the engine switches mode, silencing every
        note when it enters mono mode with more than one sounding. */
    method SetMonoMode(v: bool)
      requires Valid()
      modifies this, engine
      ensures Valid()
      ensures params == old(params).(master := old(params.master).(mono := v))
      ensures engine.SwitchedMono(v)
      ensures activeKeys == old(activeKeys) && keyFrequencies == old(keyFrequencies)
    {
      params := params.(master := params.master.(mono := v));
      engine.SetMonoMode(v);
    }

    /** `setModRouting`: the matching entries of the routing table are updated, and the engine is told. */
    method SetModRouting(target: string, amount: real, enabled: bool)
      requires Valid()
      modifies this, engine
      ensures Valid()
      ensures params == old(params).(modRouting := UpdateRouting(old(params.modRouting), target, amount, enabled))
      ensures engine.log == old(engine.log) + (if target == "filterCutoff" && engine.initialized
                                               then [AudioEngine.FilterModRamp(AudioEngine.ModRoutingGain(amount, enabled), AudioEngine.GainRampSeconds)]
                                               else [])
      ensures engine.NotesUnchanged()
      ensures activeKeys == old(activeKeys) && keyFrequencies == old(keyFrequencies)
    {
      params := params.(modRouting := UpdateRouting(params.modRouting, target, amount, enabled));
      engine.SetModRouting(target, amount, enabled);
    }

    /** `setBpm`: the record keeps the value as given while the tempo service clamps it, so the current parameters
        report the clamped tempo. */
    method SetBpm(v: real)
      requires Valid()
      modifies this, tempo, tempo.transport
      ensures Valid()
      ensures params == old(params).(tempo := Presets.TempoParams(v))
      ensures tempo.bpm == Tempo.ClampBpm(v)
      ensures GetCurrentParams().tempo.bpm == Tempo.ClampBpm(v)
      ensures activeKeys == old(activeKeys) && keyFrequencies == old(keyFrequencies)
    {
      params := params.(tempo := Presets.TempoParams(v));
      tempo.SetBpm(v);
    }

    /** `setArpEnabled`: turning the arpeggiator off stops it and also forgets its held notes; turning it on keeps them
        and starts it when notes are held and it is stopped. */
    method SetArpEnabled(v: bool, draw: nat -> nat)
      requires Valid()
      modifies engine, arp, arp.transport
      ensures Valid()
      ensures arp.params == old(arp.params).(enabled := v)
      ensures !v ==> arp.heldNotes == [] && !arp.isRunning
      ensures v ==> arp.heldNotes == old(arp.heldNotes)
      ensures v && old(arp.heldNotes) != [] ==> arp.isRunning
      ensures !v && old(arp.isRunning) ==> arp.Stopped()
      ensures !v && !old(arp.isRunning) ==> unchanged(engine, arp.transport)
      ensures !v ==> arp.currentIndex == old(arp.currentIndex)
      ensures v && old(arp.heldNotes) != [] && !old(arp.isRunning) ==> arp.Started(draw)
      ensures v && !(old(arp.heldNotes) != [] && !old(arp.isRunning)) ==>
                && arp.isRunning == old(arp.isRunning) && arp.loop == old(arp.loop)
                && arp.currentIndex == old(arp.currentIndex) && arp.currentPlayingNote == old(arp.currentPlayingNote)
                && unchanged(engine, arp.transport)
    {
      arp.SetEnabled(v, draw);
      if !v {
        arp.ClearNotes();
      }
    }
  }
}
