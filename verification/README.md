# web-monosynth core in Dafny

This project models the control logic of web-monosynth, a browser synthesizer. The model covers the following parts.

- **Key table** (`frequencies.dfy`): the fifteen computer keys and their note frequencies in six octaves. It includes the key lookup and the frequency lookup.
- **Audio-node guards** (`audio_refs.dfy`): the guards used before an audio node is touched.
- **Tempo hook** (`tempo.dfy`): the BPM clamp, the transport start and stop, note durations, and tap tempo, which averages the taps of the last two seconds.
- **Audio engine** (`audio_engine.dfy`): the note bookkeeping of the engine hook.
  - The polyphonic active-note list.
  - The mono last-note priority stack.
  - The arpeggiator hand-off.
  - The parameter setters.

  The commands the engine sends to the sound library are a log of `Command` values, so each operation states which commands it issues and in what order.
- **Arpeggiator** (`arpeggiator.dfy`): the held-note set, the sequence generator (up, down, up-down and random, over one to three octaves), and the loop tick that plays sequence step `currentIndex mod length`. A random draw is a parameter `draw: nat -> nat`.
- **Presets** (`presets.dfy`):
  - the migration of stored parameter objects, modelled over a small JSON value type;
  - the factory and user lists;
  - save, update, delete, load and reset;
  - the load of stored presets on mount.
- **Keyboard** (`keyboard.dfy`): the gate that turns key and blur events into note-on, note-off and octave-change requests. It keeps the keys held so that auto-repeat does not restart a note.
- **Synth provider** (`synth_provider.dfy`): the component that wires these together.
  - Note routing to the arpeggiator or the engine.
  - Octave stepping within 0..5.
  - The setters that change both the stored parameters and the engine.
  - The snapshot of the current parameters.

Time (`performance.now`, `Date.now`, the sound library's clock) and randomness are parameters of the operations that use them.

## Model

| member | source | states |
|---|---|---|
| Collections.Insert | src/hooks/useArpeggiator.ts:173-177 | Adding to an ordered set appends the value only when it is absent and keeps the set duplicate-free. |
| Collections.Remove | src/hooks/useArpeggiator.ts:188-190 | Filtering out a value removes every copy of it and keeps everything else. |
| Collections.RemoveDistinct | src/hooks/useKeyboard.ts:47-57 | Deleting from a duplicate-free set keeps it duplicate-free and shortens it by one exactly when the value was present. |
| Collections.RemoveInsert | src/hooks/useArpeggiator.ts:173-197 | Adding a new note and then removing it restores the held notes. |
| Collections.RemoveAppend | src/hooks/useArpeggiator.ts:188-190 | Removal keeps the order of the surviving elements and distributes over concatenation. |
| Frequencies.Find | src/constants/frequencies.ts:203-205 | The lookup returns the first entry with the code, and nothing exactly when no entry has it. |
| Frequencies.GetKeyConfig | src/constants/frequencies.ts:203-205 | A key configuration exists exactly for the fifteen note key codes, and it is the table entry for that code. |
| Frequencies.GetFrequency | src/constants/frequencies.ts:207-210 | A code outside the note keys has no frequency. |
| Frequencies.GetFrequencyDefinedIff | src/constants/frequencies.ts:207-210 | A frequency exists exactly for a note key and an octave in 0..5, and it is positive. |
| Frequencies.FrequencyIncreasesWithOctave | src/constants/frequencies.ts:3-199 | For every key, a higher octave gives a strictly higher frequency. |
| Frequencies.TableRowsAscending | src/constants/frequencies.ts:3-199 | Every row of the key table rises with the octave. |
| Frequencies.RowFacts | src/constants/frequencies.ts:3-199 | A row defines exactly octaves 0..5; a rising row has positive frequencies that strictly increase. |
| Frequencies.CodesAreKeyLetters | src/constants/frequencies.ts:3-199 | The table has fifteen entries, coded `Key` followed by the letters A W S E D F T G Y H U J K O L. |
| Frequencies.CodesDistinct | src/constants/frequencies.ts:3-199 | No two table entries share a code. |
| Frequencies.NoteKeyCodesExact | src/constants/frequencies.ts:201 | The note key code set holds the fifteen table codes, all distinct. |
| Frequencies.CodePrefixCount | src/constants/frequencies.ts:201 | Distinct codes in a prefix of n entries form a set of size n. |
| Frequencies.GetKeyConfigFindsEntry | src/constants/frequencies.ts:203-205 | Looking up a table entry's code returns that entry. |
| Frequencies.GetFrequencyOfEntry | src/constants/frequencies.ts:207-210 | The frequency of an entry's code at an octave is that entry's row value for the octave. |
| Frequencies.OctaveAboveLookup | src/constants/frequencies.ts:3-199 | When one row is an octave above another, its value at octave n is the lower row's value at n+1. |
| Frequencies.UpperRowsAreOctaveAbove | src/constants/frequencies.ts:3-199 | The rows of K, O and L are the rows of A, W and S moved up an octave. |
| Frequencies.UpperKeysRepeatLowerKeys | src/constants/frequencies.ts:3-199 | K, O and L at octave n sound as A, W and S at octave n+1. |
| AudioRefs.AssertAudioNode | src/utils/audioRefs.ts:1-8 | The assertion throws exactly on a null node, with the message naming the node. |
| AudioRefs.GetAudioNode | src/utils/audioRefs.ts:10-12 | Null becomes undefined; any other value is returned unchanged. |
| AudioRefs.IsAudioInitialized | src/utils/audioRefs.ts:14-18 | The engine is initialized exactly when none of the given nodes is null. |
| AudioRefs.EmptyAndUndefinedAreInitialized | src/utils/audioRefs.ts:14-18 | An empty list or a list of undefined values counts as initialized. |
| AudioRefs.OneNullIsEnough | src/utils/audioRefs.ts:14-18 | A single null anywhere makes the engine uninitialized. |
| Tempo.Transport.constructor | src/hooks/useTempo.ts:8-13 | The transport starts stopped at the given BPM. |
| Tempo.Transport.Start | src/hooks/useTempo.ts:21-24 | Starting the transport keeps its BPM. |
| Tempo.Transport.Stop | src/hooks/useTempo.ts:26-29 | Stopping the transport keeps its BPM. |
| Tempo.ClampBpm | src/hooks/useTempo.ts:15-19 | The result lies in 40..240; it equals the input inside the range and the nearer limit outside it. |
| Tempo.Round | src/hooks/useTempo.ts:55-57 | Rounding picks the integer within half a unit, with halves rounded up. |
| Tempo.NoteTime | src/hooks/useTempo.ts:62-79 | A note duration is positive and at most one beat (60/bpm seconds). |
| Tempo.NoteTimeHalves | src/hooks/useTempo.ts:62-79 | A quarter is one beat, and each shorter value is half the previous one. |
| Tempo.ToneTime | src/hooks/useTempo.ts:82-95 | Note values map to the notations 4n, 8n, 16n and 32n. |
| Tempo.ToneTimeInjective | src/hooks/useTempo.ts:82-95 | Different note values have different notations. |
| Tempo.Recent | src/hooks/useTempo.ts:45-47 | The kept taps are exactly those less than two seconds old. |
| Tempo.RecentAppend | src/hooks/useTempo.ts:45-47 | Filtering distributes over concatenation, so the kept taps keep their order and their number of copies. |
| Tempo.RecentSingle | src/hooks/useTempo.ts:45-47 | A single tap is kept exactly when it is less than two seconds old. |
| Tempo.RecentAscending | src/hooks/useTempo.ts:45-47 | Filtering a time-ordered tap list keeps it time-ordered. |
| Tempo.NewestTapAscending | src/hooks/useTempo.ts:40-48 | With a clock that never goes backwards, the kept taps followed by the new one stay in time order. |
| Tempo.Intervals | src/hooks/useTempo.ts:51-54 | There is one interval per adjacent pair of taps, equal to their difference. |
| Tempo.SumIntervalsTelescopes | src/hooks/useTempo.ts:51-56 | The intervals add up to the last tap minus the first. |
| Tempo.TapBpm | src/hooks/useTempo.ts:50-58 | The tapped BPM always lies in 40..240. |
| Tempo.TapBpmFromSpan | src/hooks/useTempo.ts:50-58 | The tapped BPM depends only on the first tap, the last tap and the number of taps. It is the rounded, clamped `60000·(n−1)/span`, or the maximum when the span is zero. |
| Tempo.ThreeTapsHalfSecondApart | src/hooks/useTempo.ts:50-58 | Three taps half a second apart give 120 BPM. |
| Tempo.IntervalsOf | src/hooks/useTempo.ts:51-54 | The loop builds exactly the interval list. |
| Tempo.Total | src/hooks/useTempo.ts:55 | The reduction computes the sum. |
| Tempo.TempoService.constructor | src/hooks/useTempo.ts:8-13 | The service starts not playing, with no taps, at the default BPM, and the transport takes that BPM. |
| Tempo.TempoService.SetBpm | src/hooks/useTempo.ts:15-19 | Both the hook and the transport take the clamped BPM; nothing else changes. |
| Tempo.TempoService.StartTransport | src/hooks/useTempo.ts:21-24 | The transport runs and the hook says it is playing; the BPM and the taps are unchanged. |
| Tempo.TempoService.StopTransport | src/hooks/useTempo.ts:26-29 | The transport stops and the hook says it is not playing; the BPM and the taps are unchanged. |
| Tempo.TempoService.ToggleTransport | src/hooks/useTempo.ts:31-37 | Playing flips, and the transport follows it. |
| Tempo.TempoService.TapTempo | src/hooks/useTempo.ts:40-59 | The taps become the recent ones plus now. With two or more taps, the hook and the transport take the tapped BPM; otherwise both are unchanged. |
| AudioEngine.ModRoutingGain | src/hooks/useAudioEngine.ts:646-656 | A disabled routing contributes nothing. An enabled one scales the LFO filter range by its amount and stays within that range for amounts in 0..1. |
| AudioEngine.PortamentoFor | src/hooks/useAudioEngine.ts:587-594 | Portamento is the glide time when glide is on, and zero otherwise. |
| AudioEngine.Zeros | src/hooks/useAudioEngine.ts:786-795 | The fallback analysis buffer has the requested length and holds only zeros. |
| AudioEngine.Engine.constructor | src/hooks/useAudioEngine.ts:23-92 | The engine starts uninitialized, with no notes, at 440 Hz, with the given octave, glide, filter envelope and mono settings. |
| AudioEngine.Engine.Initialize | src/hooks/useAudioEngine.ts:94-267 | A second initialization does nothing. A first one marks the engine initialized and keeps every note and setting. |
| AudioEngine.Engine.PlayNoteMono | src/hooks/useAudioEngine.ts:276-332 | The note goes on top of the mono stack, and the voice attacks or glides to it. Nothing happens before initialization. |
| AudioEngine.Engine.StopNoteMono | src/hooks/useAudioEngine.ts:335-373 | The note leaves the stack. Releasing the top note falls back to the next one, or releases when none is left. |
| AudioEngine.Engine.PlayNote | src/hooks/useAudioEngine.ts:375-422 | Nothing happens before initialization. In mono mode this is PlayNoteMono. Otherwise the frequency is added once to the active notes, attacked, and the sub-oscillator jumps or glides to it. The shared envelopes open exactly when it is the only sounding note (PlayedNote, PlayedPoly). |
| AudioEngine.Engine.StopNote | src/hooks/useAudioEngine.ts:424-453 | Nothing happens before initialization. In mono mode this is StopNoteMono. Otherwise the frequency is released and leaves the active notes. The shared envelopes close exactly when none is left and the arpeggiator is off (StoppedNote, StoppedPoly). |
| AudioEngine.Engine.StopAllNotes | src/hooks/useAudioEngine.ts:456-467 | Every note is released, and the active list and mono stack are emptied; the settings are unchanged. |
| AudioEngine.Engine.PlayArpNote | src/hooks/useAudioEngine.ts:469-489 | The arpeggiated note is attacked at the given time when initialized; the held notes are untouched. |
| AudioEngine.Engine.StopArpNote | src/hooks/useAudioEngine.ts:491-502 | The arpeggiated note is released at the given time when initialized; the held notes are untouched. |
| AudioEngine.Engine.SetArpeggiating | src/hooks/useAudioEngine.ts:505-515 | The flag is set. Leaving arpeggiation with no held notes releases the envelope. |
| AudioEngine.Engine.SetVolume | src/hooks/useAudioEngine.ts:518-521 | The volume ramps to the value over the fixed ramp time, once initialized. |
| AudioEngine.Engine.SetOctave | src/hooks/useAudioEngine.ts:543-545 | Only the octave changes. |
| AudioEngine.Engine.SetMonoMode | src/hooks/useAudioEngine.ts:548-561 | Entering mono mode with more than one note sounding releases every voice and empties both the active notes and the mono stack. Entering it with one note or none changes nothing else. Leaving it clears the mono stack (SwitchedMono). |
| AudioEngine.Engine.SetGlideEnabled | src/hooks/useAudioEngine.ts:587-594 | The flag is set, and the portamento is recomputed from it. |
| AudioEngine.Engine.SetGlideTime | src/hooks/useAudioEngine.ts:596-601 | The glide time is stored. It reaches the synth only while glide is on. |
| AudioEngine.Engine.SetModRouting | src/hooks/useAudioEngine.ts:646-656 | Only the filter-cutoff target changes the LFO filter gain, to the routing gain. |
| AudioEngine.Engine.SetFilterEnvAmount | src/hooks/useAudioEngine.ts:701-706 | Once initialized, the amount is stored and the envelope sweep is set to the amount times the maximum sweep. |
| AudioEngine.Engine.MeterLevel | src/hooks/useAudioEngine.ts:779-783 | The level is the silent level before initialization, and otherwise the single reading or the first channel. |
| AudioEngine.Engine.AnalysisData | src/hooks/useAudioEngine.ts:786-795 | The data is a zero buffer of the analysis size before initialization, and otherwise the analyser's buffer. |
| Arpeggiator.InsertSortedElements | src/hooks/useArpeggiator.ts:68 | Inserting a value adds exactly that value to the elements. |
| Arpeggiator.InsertSortedAscending | src/hooks/useArpeggiator.ts:68 | Inserting into an ascending list keeps it ascending. |
| Arpeggiator.SortAscending | src/hooks/useArpeggiator.ts:68 | The held notes are sorted ascending as a permutation of themselves. |
| Arpeggiator.Scale | src/hooks/useArpeggiator.ts:74-77 | Each note of an octave block is the base note times the block's multiplier. |
| Arpeggiator.Reverse | src/hooks/useArpeggiator.ts:82-83 | The down pattern lists the up sequence backwards. |
| Arpeggiator.ShuffleFrom | src/hooks/useArpeggiator.ts:89-95 | The Fisher–Yates pass only permutes the notes. |
| Arpeggiator.UpSequence | src/hooks/useArpeggiator.ts:68-81 | The up sequence has one entry per held note and octave. |
| Arpeggiator.GenerateSequence | src/hooks/useArpeggiator.ts:67-99 | No held notes or no octaves give an empty sequence. Every pattern but up-down has one entry per held note and octave, and every entry of every pattern is an entry of the up sequence. |
| Arpeggiator.BlocksLength | src/hooks/useArpeggiator.ts:74-77 | n octaves of k notes give n·k notes. |
| Arpeggiator.BlocksPrefix | src/hooks/useArpeggiator.ts:74-77 | Fewer octaves give a prefix of the sequence for more octaves. |
| Arpeggiator.NoNotesNoSequence | src/hooks/useArpeggiator.ts:69 | No held notes give an empty sequence, whatever the pattern. |
| Arpeggiator.UpShape | src/hooks/useArpeggiator.ts:74-81 | The up sequence is the sorted notes, doubled once per further octave. Block b's i-th note is the i-th sorted note times 2^b. |
| Arpeggiator.UpAndDown | src/hooks/useArpeggiator.ts:80-83 | The up pattern is the up sequence, and the down pattern is its reverse. |
| Arpeggiator.UpDownShape | src/hooks/useArpeggiator.ts:84-88 | Up-down is the up sequence followed by its inner notes descending, without repeating the ends. |
| Arpeggiator.UpDownExample | src/hooks/useArpeggiator.ts:67-99 | Held notes c, a, b (a<b<c) over one octave in up-down give a, b, c, b. |
| Arpeggiator.SortThree | src/hooks/useArpeggiator.ts:68 | Sorting c, a, b gives a, b, c. |
| Arpeggiator.UpSequenceThree | src/hooks/useArpeggiator.ts:74-81 | One octave of c, a, b goes up as a, b, c. |
| Arpeggiator.UpDownOfThree | src/hooks/useArpeggiator.ts:84-88 | Up-down of a, b, c is a, b, c, b. |
| Arpeggiator.RandomPermutesUp | src/hooks/useArpeggiator.ts:89-95 | The random pattern is a permutation of the up sequence. |
| Arpeggiator.Arpeggiator.constructor | src/hooks/useArpeggiator.ts:32-37 | The arpeggiator starts stopped, with no notes, no loop and the default parameters. |
| Arpeggiator.Arpeggiator.StopCurrentNote | src/hooks/useArpeggiator.ts:102-107 | The playing note, if any, is released, and none remains playing. |
| Arpeggiator.Arpeggiator.StartArp | src/hooks/useArpeggiator.ts:110-148 | When not running, the arpeggiator starts. The engine goes into arpeggiation, the loop is created at the rate, the transport is started, and the first step plays at once. |
| Arpeggiator.Arpeggiator.Tick | src/hooks/useArpeggiator.ts:125-137 | A tick releases the playing note, plays sequence step `currentIndex mod length`, and advances the index. An empty sequence plays nothing. |
| Arpeggiator.Arpeggiator.StopArp | src/hooks/useArpeggiator.ts:151-170 | When running, the loop is disposed, the playing note is released, the engine leaves arpeggiation, and then every note is stopped: all voices are released and the engine's active notes and mono stack are emptied. The index is kept. |
| Arpeggiator.Arpeggiator.AddNote | src/hooks/useArpeggiator.ts:173-185 | The note joins the held set. The arpeggiator starts exactly when it is enabled, stopped and the note is the only one held; otherwise nothing else changes (AddedNote). |
| Arpeggiator.Arpeggiator.RemoveNote | src/hooks/useArpeggiator.ts:188-197 | The note leaves the held set. A running arpeggiator stops exactly when no note is left; otherwise nothing else changes (RemovedNote). |
| Arpeggiator.Arpeggiator.ClearNotes | src/hooks/useArpeggiator.ts:200-203 | The held set is emptied and the arpeggiator is stopped. |
| Arpeggiator.Arpeggiator.SetEnabled | src/hooks/useArpeggiator.ts:206-219 | Disabling stops the arpeggiator. Enabling with held notes starts it. |
| Arpeggiator.Arpeggiator.SetPattern | src/hooks/useArpeggiator.ts:221-225 | The pattern changes, and the index restarts at zero. |
| Arpeggiator.Arpeggiator.SetRate | src/hooks/useArpeggiator.ts:227-239 | The rate changes, and the running loop takes the new interval in place. Nothing restarts. |
| Arpeggiator.Arpeggiator.SetOctaves | src/hooks/useArpeggiator.ts:241-244 | Only the octave count changes. |
| Presets.Field | src/hooks/usePresets.ts:45-55 | A field is present exactly when the value is an object with that key. |
| Presets.NumberOr | src/hooks/usePresets.ts:47-50 | A number field is kept, and anything else falls back to the default. |
| Presets.BoolOr | src/hooks/usePresets.ts:54 | A boolean field is kept, and anything else falls back to the default. |
| Presets.TruthyOr | src/hooks/usePresets.ts:51-53 | A truthy field is kept, and a falsy or missing one falls back to the default. |
| Presets.RoutingFrom | src/hooks/usePresets.ts:77-90 | Migrated routing is always a single filter-cutoff entry. A found entry's amount is kept when it is a number and becomes 0 otherwise, and its flag is kept when it is a boolean and becomes false otherwise. Without a found entry the routing is disabled with amount 0. |
| Presets.FindCutoffAsWritten | src/hooks/usePresets.ts:79-81 | The search as written returns a stored entry that targets the cutoff. It fails exactly when a null entry comes before the first cutoff entry. |
| Presets.FindCutoff | src/hooks/usePresets.ts:79-81 | The search returns the first entry targeting the cutoff, and nothing exactly when none does. |
| Presets.FindAgrees | src/hooks/usePresets.ts:79-81 | Whenever the search as written succeeds, it agrees with the total search. |
| Presets.MigrateAsWritten | src/hooks/usePresets.ts:41-126 | Migrating missing or null parameters throws. |
| Presets.Migrate | src/hooks/usePresets.ts:41-126 | Missing or non-object parameters migrate to the defaults. |
| Presets.AsWrittenAgrees | src/hooks/usePresets.ts:41-126 | Whenever the migration as written succeeds, it equals the total migration. |
| Presets.NullRoutingEntryThrows | src/hooks/usePresets.ts:77-90 | A routing list holding only null throws as written, and migrates to the default cutoff entry. |
| Presets.NonObjectKeepsDefaults | src/hooks/usePresets.ts:41-44 | Anything that is not an object migrates to exactly the defaults. |
| Presets.SectionsFallBack | src/hooks/usePresets.ts:57-123 | Master, oscillator and tempo fall back to their defaults unless they are objects, and routing unless it is an array. Effects, LFO, glide, filter envelope, chorus, phaser and arpeggiator are copied as they are when they are objects, and otherwise default. |
| Presets.TempoFieldsTyped | src/hooks/usePresets.ts:113-123 | A tempo object's numeric `bpm` is taken, and a tempo object without one gives the default BPM. A numeric pitch-bend range is taken, and anything else defaults. |
| Presets.MasterFieldsTyped | src/hooks/usePresets.ts:45-55 | In any stored body whose master section is an object, whatever its other sections: volume, attack, release and octave are taken when they are numbers, mono when it is a boolean, and the waveform when it is truthy. Each otherwise defaults. |
| Presets.OscillatorFieldsTyped | src/hooks/usePresets.ts:61-70 | In any stored body whose oscillator section is an object, whatever its other sections: the sub-oscillator and noise levels are taken when they are numbers, and the waveform, sub-oscillator octave and noise type when they are truthy. Each otherwise defaults. |
| Presets.RoutingArrayMigratesToOne | src/hooks/usePresets.ts:77-90 | Any stored routing array becomes one cutoff entry. With a cutoff entry, the first one's numeric amount (else 0) and boolean flag (else false) are taken. Without one, the entry is disabled with amount 0. |
| Presets.RoutingsToJson | src/hooks/usePresets.ts:150-157 | Storing routings writes one object per routing, in order. |
| Presets.MasterRoundTrip | src/hooks/usePresets.ts:45-55 | Master parameters read back unchanged after storing, when their waveform is truthy. |
| Presets.OscillatorRoundTrip | src/hooks/usePresets.ts:61-70 | Oscillator parameters read back unchanged after storing, when their name fields are truthy. |
| Presets.RoutingRoundTrip | src/hooks/usePresets.ts:77-90 | A single cutoff routing reads back unchanged. |
| Presets.ToJson | src/hooks/usePresets.ts:150-157 | The stored form is an object with exactly the twelve section keys. |
| Presets.StoredFields | src/hooks/usePresets.ts:150-157 | The stored object has exactly the twelve sections, each holding its part. |
| Presets.StoredRoundTrip | src/hooks/usePresets.ts:41-157 | Parameters in the migrated shape read back unchanged after a store and reload. |
| Presets.MigrateIsReloadable | src/hooks/usePresets.ts:41-126 | Provided the default routing is a single filter-cutoff entry, every migration result is in the shape that reloads unchanged. |
| Presets.MigrateIdempotent | src/hooks/usePresets.ts:41-157 | Provided the default routing is a single filter-cutoff entry, storing migrated parameters and migrating them again changes nothing. |
| Presets.IsUserPreset | src/hooks/usePresets.ts:224-226 | An id is a user preset's exactly when it starts with `user-`. |
| Presets.Decimal | src/hooks/usePresets.ts:175-188 | A timestamp is written as a non-empty string of digits. |
| Presets.DecimalInjective | src/hooks/usePresets.ts:175-188 | Different timestamps are written differently, so presets saved in different milliseconds get different ids. |
| Presets.ApplyPatch | src/hooks/usePresets.ts:190-197 | An empty patch leaves a preset unchanged. |
| Presets.PatchWhere | src/hooks/usePresets.ts:190-197 | The patch applies to every preset with the id, and the others are kept in place. |
| Presets.WithoutId | src/hooks/usePresets.ts:199-205 | What remains is exactly the presets with another id. |
| Presets.WithoutIdAppend | src/hooks/usePresets.ts:199-205 | Filtering distributes over concatenation, so the survivors keep their order and their number of copies. |
| Presets.WithoutIdSingle | src/hooks/usePresets.ts:199-205 | A single preset is kept exactly when its id differs. |
| Presets.FindById | src/hooks/usePresets.ts:168-173 | A preset is found exactly when one has the id. The result is the first preset with that id. |
| Presets.MigrateStored | src/hooks/usePresets.ts:133-148 | Loading keeps each stored preset's identity and migrates its parameters, one for one. |
| Presets.MigrateAllAsWritten | src/hooks/usePresets.ts:137-141 | The migrations run in order over the stored list. When none throws, the result has one preset per stored preset. |
| Presets.LoadStoredAsWritten | src/hooks/usePresets.ts:133-148 | The load as written yields all the presets or none. |
| Presets.LoadAsWrittenAgrees | src/hooks/usePresets.ts:133-148 | When no migration throws, the load as written equals the total load. |
| Presets.NullParamsLoseAllPresets | src/hooks/usePresets.ts:133-148 | One stored preset with null parameters empties the user list as written, while the total load keeps every preset. |
| Presets.PresetStore.constructor | src/hooks/usePresets.ts:128-148 | The store starts with every stored preset migrated on its own (the corrected load, MigrateStored) and no current preset. |
| Presets.PresetStore.AllPresets | src/hooks/usePresets.ts:159 | All presets are the factory presets followed by the user presets. |
| Presets.PresetStore.SavePreset | src/hooks/usePresets.ts:175-188 | Saving appends a user preset with id `user-<now>` and makes it current. |
| Presets.PresetStore.UpdatePreset | src/hooks/usePresets.ts:190-197 | The patch applies to the user presets with the id. |
| Presets.PresetStore.DeletePreset | src/hooks/usePresets.ts:199-205 | Only `user-` ids are deleted. Deleting removes every preset with the id and clears the current preset; other ids change nothing. |
| Presets.PresetStore.LoadPreset | src/hooks/usePresets.ts:207-217 | Loading succeeds exactly when some preset has the id; it returns that preset's parameters and makes it current. |
| Presets.PresetStore.InitPreset | src/hooks/usePresets.ts:219-222 | The reset returns the defaults and clears the current preset. |
| Presets.SavedPresetIsDeletable | src/hooks/usePresets.ts:175-205 | A saved preset has a user id, so deleting it removes it. |
| Presets.DeleteKeepsOthers | src/hooks/usePresets.ts:199-205 | Deleting one id keeps every preset with another id. |
| Keyboard.Step | src/hooks/useKeyboard.ts:19-57 | A note-on holds its key, a note-off releases it, and nothing else becomes held. |
| Keyboard.Held | src/hooks/useKeyboard.ts:17-57 | The keys held after a run of requests never repeat a key. |
| Keyboard.ReplayDistinct | src/hooks/useKeyboard.ts:17 | No key is ever held twice. |
| Keyboard.ReplayAppend | src/hooks/useKeyboard.ts:19-57 | Replaying two runs of requests is replaying the second from where the first ends. |
| Keyboard.HeldAppend | src/hooks/useKeyboard.ts:19-57 | The keys held after one more request follow from the keys held before it. |
| Keyboard.NoteOffs | src/hooks/useKeyboard.ts:60-65 | A blur sends one note-off per held key, in order. |
| Keyboard.OctaveKeysAreNotNoteKeys | src/hooks/useKeyboard.ts:28-38 | Z and X are not note keys, so they never start a note. |
| Keyboard.KeyboardGate.constructor | src/hooks/useKeyboard.ts:17 | The gate starts with no keys held and no requests sent. |
| Keyboard.KeyboardGate.KeyDown | src/hooks/useKeyboard.ts:19-45 | Ignored while disabled or on auto-repeat. Z and X change the octave, and a note key not held sends a note-on and becomes held. The default action is prevented exactly for these keys. |
| Keyboard.KeyboardGate.KeyUp | src/hooks/useKeyboard.ts:47-57 | A note key sends a note-off and is no longer held, whether or not it was. |
| Keyboard.KeyboardGate.Blur | src/hooks/useKeyboard.ts:60-80 | While enabled, every held key is released in press order and nothing stays held. |
| Keyboard.KeyboardGate.SetEnabled | src/hooks/useKeyboard.ts:67-80 | Switching the listeners keeps the held keys and sends nothing. |
| Keyboard.PressThenReleaseRestores | src/hooks/useKeyboard.ts:19-57 | Pressing a key that is not held and releasing it leaves the held keys as they were. |
| Keyboard.BlurHoldsNothing | src/hooks/useKeyboard.ts:60-65 | After a blur's releases no key is held. |
| Keyboard.ReleasingAllHoldsNothing | src/hooks/useKeyboard.ts:60-65 | Releasing every held key in order empties the held set. |
| SynthProvider.NextOctave | src/context/SynthProvider.tsx:100-113 | The next octave is one step up or down, clamped to 0..5. It stays put at the limits. |
| SynthProvider.OctaveUpThenDown | src/context/SynthProvider.tsx:100-113 | Below the top, going up then down returns to the same octave. |
| SynthProvider.OctaveLimitsAreFixedPoints | src/context/SynthProvider.tsx:100-113 | Up at 5 and down at 0 change nothing. |
| SynthProvider.UpdateRouting | src/context/SynthProvider.tsx:256-264 | Routings with the target take the new amount and flag, and the others are unchanged. |
| SynthProvider.UpdateRoutingLastWins | src/context/SynthProvider.tsx:256-264 | A second update to a target overrides the first. |
| SynthProvider.UpdateRoutingAbsentTarget | src/context/SynthProvider.tsx:256-264 | Updating a target that no routing has changes nothing. |
| SynthProvider.PatternNamed | src/context/SynthProvider.tsx:421-427 | A pattern read by name has that name. |
| SynthProvider.RateNamed | src/context/SynthProvider.tsx:421-427 | A rate read by name has that name. |
| SynthProvider.ArpFromJson | src/context/SynthProvider.tsx:421-427 | Reading the snapshot's arpeggiator section back gives settings only from an object. It is the reader used to state what the snapshot carries. |
| SynthProvider.ArpRoundTrip | src/context/SynthProvider.tsx:421-427 | Arpeggiator settings written into the snapshot read back unchanged. |
| SynthProvider.CurrentParams | src/context/SynthProvider.tsx:421-427 | The snapshot carries the live arpeggiator settings and BPM, and every other section of the parameters. |
| SynthProvider.Synth.GetCurrentParams | src/context/SynthProvider.tsx:421-427 | The snapshot carries the live arpeggiator settings and BPM, and every other section of the parameters. |
| SynthProvider.Synth.constructor | src/context/SynthProvider.tsx:29-48 | The provider starts with the default parameters and no keys held. |
| SynthProvider.Synth.PlayNote | src/context/SynthProvider.tsx:50-59 | With the arpeggiator enabled, the note is added to it, which starts it on the first note (AddedNote). Otherwise the arpeggiator is untouched and the engine plays the note, giving the engine's full new state (PlayedNote). |
| SynthProvider.Synth.StopNote | src/context/SynthProvider.tsx:61-70 | With the arpeggiator enabled, the note is removed from it, which stops it on the last note (RemovedNote). Otherwise the arpeggiator is untouched and the engine stops the note, giving the engine's full new state (StoppedNote). |
| SynthProvider.Synth.HandleNoteOn | src/context/SynthProvider.tsx:72-82 | A code with a frequency at the current octave is played, held and remembered with that frequency. Other codes change nothing. |
| SynthProvider.Synth.HandleNoteOff | src/context/SynthProvider.tsx:84-98 | A remembered key stops the frequency it started with, even after an octave change, and is forgotten. Other keys change nothing. |
| SynthProvider.Synth.HandleOctaveChange | src/context/SynthProvider.tsx:100-113 | The parameters and the engine take the next octave. Sounding notes are untouched. |
| SynthProvider.Synth.SetVolume | src/context/SynthProvider.tsx:167-170 | The parameters record the volume, and the engine ramps to it. |
| SynthProvider.Synth.SetOctave | src/context/SynthProvider.tsx:191-194 | The parameters and the engine take the octave. |
| SynthProvider.Synth.SetMonoMode | src/context/SynthProvider.tsx:196-199 | Only the record's mono flag changes, and the engine switches mode as Engine.SetMonoMode states. |
| SynthProvider.Synth.SetModRouting | src/context/SynthProvider.tsx:256-264 | The parameters update the target's routing, and the engine applies it. |
| SynthProvider.Synth.SetBpm | src/context/SynthProvider.tsx:376-379 | The parameters record the raw BPM, while the tempo and the snapshot hold the clamped one. |
| SynthProvider.Synth.SetArpEnabled | src/context/SynthProvider.tsx:381-384 | The flag is set. Disabling clears the held notes. If the arpeggiator was running, disabling has the full stop effect on the engine and transport. If it was stopped, they are untouched. Enabling a stopped arpeggiator that holds notes has the full start effect. Any other enabling leaves the run state, loop, index, playing note, engine and transport as they were. |

The helpers without a row are parts of members that have one. Arpeggiator.Arpeggiator.Begin and Arpeggiator.Arpeggiator.PlayFirst are steps of StartArp, and Arpeggiator.Arpeggiator.PlayStep is the step of Tick. SynthProvider.Synth.Remember and SynthProvider.Synth.Forget are the bookkeeping of HandleNoteOn and HandleNoteOff. Presets.MigrateMaster, Presets.MigrateOscillator and Presets.MigrateBody are the section-by-section body of Migrate; MasterFieldsTyped and OscillatorFieldsTyped state what the first two do.

## Left out

- Presets.MigrateIsReloadable: the default routing `DEFAULT_MOD_ROUTING` is imported from a file that is not part of this model. The lemma assumes it is a single filter-cutoff entry (SingleCutoffRouting). With a longer default, a body without `modRouting` would not reload unchanged.
- Presets.MigrateIdempotent: the same assumption about `DEFAULT_MOD_ROUTING`. With a longer default, a body without `modRouting` would not survive a store and reload unchanged.
- The construction, connection and disposal of the sound library's nodes (oscillators, filters, effects, analysers) are not modelled. Initialization only marks the engine ready, and the setters for effects, LFO, filter, chorus, phaser, delay, reverb, distortion and waveform are left out. Their engine calls only forward a number to a library node.
- Pitch bend and the note-name conversion are not modelled. Engine commands record the base frequency.
- The engine's four-voice polyphony limit belongs to the sound library and is not modelled. The active-note list is unbounded.
- The sound library's transport is a start/stop flag with a BPM. Its scheduling, loop timing and the draw callbacks are not modelled, and a loop tick is a method call with the time as a parameter.
- React's state updates are applied at once, in call order. Batching, re-render timing and the callbacks' stale closures are not modelled.
- Local storage and the text form of JSON are not modelled. Only a stored preset's `params` is a `Json` value. Its id, name and category are strings, and the stored list is a sequence (StoredPreset). So a parsed value that is not an array, and a `null` list element, both of which make the load at src/hooks/usePresets.ts:139-141 throw, are not modelled. Saving is modelled as the value a `JSON.stringify` then `JSON.parse` round trip yields (ToJson), not as the write to storage. `Date.now()` is the `now` parameter of SavePreset.
- The provider's `getFrequency` prop is taken to be the key table's lookup, Frequencies.GetFrequency. The component that passes the prop is not part of this model.
- `performance.now()` is the `now` parameter of TapTempo. `Math.random()` is the `draw` function, so a draw is any natural number, reduced modulo the range.
- `src/context/SynthContext.tsx` is an older copy of the provider and is not part of this model. Of SynthProvider.tsx, the parameter re-sync on preset load, the preset loading and reset wrappers, the pitch-bend and mod-wheel handlers, and the effect, LFO and filter setters are not modelled.
- `getPresetsByCategory` and `setCurrentPresetId` in usePresets.ts are not modelled. They are a filter and a plain assignment.
- StopNoteMono releases the note even when it is not the top of the stack, and attacks the newest held note again. The model keeps that retrigger as the code does it.
- Transport sharing: `useTempo` returns neither `requestTransportStart` nor `releaseTransport`, so the provider hands the arpeggiator undefined callbacks. The arpeggiator starts the transport itself when it is stopped and never stops it, and the two callback branches of `startArp` and `stopArp` are not modelled because they never run.
- Tempo.Round: models `Math.round` for finite values only. A mean interval of zero (an infinite ratio) is handled separately in TapBpm.
- Tempo.TempoService.constructor: requires the default BPM within 40..240, as the hook's default is.
- Tempo.TempoService.TapTempo: requires the clock never to go backwards, as `performance.now()` guarantees.
- Keyboard.KeyboardGate.Blur: does nothing while disabled, because the listeners are detached then.
- Tempo.TapBpm: its own contract gives only the 40..240 bound. Its value is stated by Tempo.TapBpmFromSpan and Tempo.ThreeTapsHalfSecondApart.
- Presets.PresetStore.constructor: the store mounts with the corrected load MigrateStored from the second Findings row, not with the single-`try` load of the source. The load as written is LoadStoredAsWritten; it loses every user preset when one migration throws.
- `getNoteTime` and `getToneTime` are modelled as the functions NoteTime and ToneTime.
- Numbers are real numbers. Floating-point rounding and the NaN and infinity cases of JavaScript numbers are not modelled, except the division by a zero mean interval in tap tempo.

## Findings

| source | as written | input that shows it | evidently intended | confidence | as-written member | corrected member |
|---|---|---|---|---|---|---|
| src/hooks/usePresets.ts:41-126 | `migratePresetParams` reads `params.master` without checking `params`, and the routing search reads `r.target` on every entry. Null parameters, or a null routing entry before the first cutoff entry, throw a TypeError. | a stored preset with `"params": null`, or `{"modRouting": [null]}` | any stored value migrates, missing parts falling back to the defaults | not executed | Presets.MigrateAsWritten | Presets.Migrate |
| src/hooks/usePresets.ts:133-148 | All stored presets are migrated inside one `try`. One throwing migration is caught and leaves the user list empty, so every user preset is lost on load. | stored list `[good, {"params": null}]` | each stored preset loads on its own, and a malformed one migrates to defaults | not executed | Presets.NullParamsLoseAllPresets | Presets.MigrateStored |
