/**
 * The arpeggiator: the playback order built from the held notes, and the scheduler that
 * starts and stops a repeating loop on the shared transport and, on every tick, stops the
 * previous note and plays the next one at the tick's time.
 *
 * Random choices are an argument `draw`: step i of the shuffle swaps position i with
 * position `draw(i) % (i + 1)`, which ranges over exactly the positions a uniform draw
 * `floor(random * (i + 1))` can pick.
 */
module Arpeggiator {
  import opened Collections
  import Tempo
  import AudioEngine

  datatype Pattern = Up | Down | UpDown | Random

  datatype Params = Params(enabled: bool, pattern: Pattern, rate: Tempo.NoteValue, octaves: nat)

  /** A running repeat loop and its interval in the scheduler's notation ("8n"). */
  datatype Loop = Loop(interval: string)

  // ---------------------------------------------------------------------------
  // Building the sequence

  /** Inserts x into an ascending sequence, before the first element not smaller than it. */
  function InsertSorted(x: real, s: seq<real>): (r: seq<real>)
    ensures |r| == |s| + 1
  {
    if s == [] then [x]
    else if x <= s[0] then [x] + s
    else [s[0]] + InsertSorted(x, s[1..])
  }

  /** Insertion adds exactly x to the elements. */
  lemma {:induction false} InsertSortedElements(x: real, s: seq<real>)
    ensures multiset(InsertSorted(x, s)) == multiset(s) + multiset{x}
  {
    if s != [] {
      assert s == [s[0]] + s[1..];
      if x > s[0] {
        InsertSortedElements(x, s[1..]);
      }
    }
  }

  /** Insertion into an ascending sequence keeps it ascending. */
  lemma {:induction false} InsertSortedAscending(x: real, s: seq<real>)
    requires Ascending(s)
    ensures Ascending(InsertSorted(x, s))
  {
    if s != [] && x > s[0] {
      var tail := s[1..];
      assert Ascending(tail) by {
        forall i, j | 0 <= i < j < |tail| ensures tail[i] <= tail[j] {
          assert tail[i] == s[i + 1] && tail[j] == s[j + 1];
        }
      }
      InsertSortedAscending(x, tail);
      InsertSortedElements(x, tail);
      var rest := InsertSorted(x, tail);
      LowerBound(s[0], x, tail, rest);
      var r := [s[0]] + rest;
      forall i, j | 0 <= i < j < |r| ensures r[i] <= r[j] {
        assert r[j] == rest[j - 1];
        if i > 0 {
          assert r[i] == rest[i - 1];
        }
      }
    }
  }

  /** A lower bound of x and of every element of `tail` bounds every element of a sequence made of them. */
  lemma LowerBound(lo: real, x: real, tail: seq<real>, rest: seq<real>)
    requires lo <= x && forall k :: 0 <= k < |tail| ==> lo <= tail[k]
    requires multiset(rest) == multiset(tail) + multiset{x}
    ensures forall k :: 0 <= k < |rest| ==> lo <= rest[k]
  {
    forall k | 0 <= k < |rest| ensures lo <= rest[k] {
      var y := rest[k];
      assert y in multiset(rest);
      if y != x {
        assert y in multiset(tail);
        assert y in tail;
      }
    }
  }

  /** `[...notes].sort((a, b) => a - b)`. */
  function SortAscending(s: seq<real>): (r: seq<real>)
    ensures Ascending(r)
    ensures multiset(r) == multiset(s)
    ensures |r| == |s|
  {
    if s == [] then []
    else
      assert s == [s[0]] + s[1..];
      var sortedTail := SortAscending(s[1..]);
      InsertSortedElements(s[0], sortedTail);
      InsertSortedAscending(s[0], sortedTail);
      InsertSorted(s[0], sortedTail)
  }

  function Pow2(k: nat): (r: real)
    ensures r >= 1.0
  {
    if k == 0 then 1.0 else 2.0 * Pow2(k - 1)
  }

  /** `notes.map((n) => n * multiplier)`. */
  function Scale(notes: seq<real>, multiplier: real): (r: seq<real>)
    ensures |r| == |notes|
    ensures forall i :: 0 <= i < |r| ==> r[i] == notes[i] * multiplier
  {
    if notes == [] then [] else [notes[0] * multiplier] + Scale(notes[1..], multiplier)
  }

  /** The octave loop: block `oct` holds the notes times 2^oct, for oct = 0 .. octaves - 1. */
  function Blocks(notes: seq<real>, octaves: nat): seq<real> {
    if octaves == 0 then [] else Blocks(notes, octaves - 1) + Scale(notes, Pow2(octaves - 1))
  }

  function Reverse(s: seq<real>): (r: seq<real>)
    ensures |r| == |s|
    ensures forall i :: 0 <= i < |s| ==> r[i] == s[|s| - 1 - i]
  {
    if s == [] then [] else Reverse(s[1..]) + [s[0]]
  }

  /** The 'upDown' shape: up, then back down without repeating either end. */
  function UpDownOf(s: seq<real>): (r: seq<real>)
    ensures forall i :: 0 <= i < |r| ==> r[i] in s
  {
    if |s| <= 1 then s
    else
      var inner := s[1..|s| - 1];
      assert forall i :: 0 <= i < |inner| ==> inner[i] == s[i + 1];
      s + Reverse(inner)
  }

  /** Exchanges the elements at positions i and j. */
  function Swap(s: seq<real>, i: nat, j: nat): (r: seq<real>)
    requires i < |s| && j < |s|
    ensures multiset(r) == multiset(s)
    ensures |r| == |s|
  {
    s[i := s[j]][j := s[i]]
  }

  /** Fisher–Yates, from position i down to 1. */
  function ShuffleFrom(s: seq<real>, i: nat, draw: nat -> nat): (r: seq<real>)
    requires i < |s|
    ensures multiset(r) == multiset(s)
    ensures |r| == |s|
    decreases i
  {
    if i == 0 then s
    else ShuffleFrom(Swap(s, i, draw(i) % (i + 1)), i - 1, draw)
  }

  function Shuffle(s: seq<real>, draw: nat -> nat): seq<real> {
    if s == [] then [] else ShuffleFrom(s, |s| - 1, draw)
  }

  /** The held notes in ascending order, once per octave: the 'up' sequence. */
  function UpSequence(held: seq<real>, octaves: nat): (r: seq<real>)
    ensures |r| == octaves * |held|
  {
    var notes := SortAscending(held);
    BlocksLength(notes, octaves);
    if notes == [] then [] else Blocks(notes, octaves)
  }

  /** `generateSequence`: the 'up' sequence arranged by the pattern. */
  function GenerateSequence(held: seq<real>, p: Params, draw: nat -> nat): (r: seq<real>)
    ensures held == [] || p.octaves == 0 ==> r == []
    ensures p.pattern != UpDown ==> |r| == p.octaves * |held|
    ensures forall i :: 0 <= i < |r| ==> r[i] in UpSequence(held, p.octaves)
  {
    var sequence := UpSequence(held, p.octaves);
    if sequence == [] then []
    else
      match p.pattern
      case Up => sequence
      case Down => Reverse(sequence)
      case UpDown => UpDownOf(sequence)
      case Random =>
        var r := Shuffle(sequence, draw);
        assert forall i :: 0 <= i < |r| ==> r[i] in multiset(r);
        r
  }

  // ---------------------------------------------------------------------------
  // Properties of the sequence

  /** The blocks for fewer octaves are a prefix of the blocks for more. */
  lemma {:induction false} BlocksPrefix(notes: seq<real>, j: nat, k: nat)
    requires j <= k
    ensures Blocks(notes, j) <= Blocks(notes, k)
    decreases k
  {
    if j < k {
      BlocksPrefix(notes, j, k - 1);
    }
  }

  lemma {:induction false} BlocksLength(notes: seq<real>, octaves: nat)
    ensures |Blocks(notes, octaves)| == octaves * |notes|
  {
    if octaves > 0 {
      BlocksLength(notes, octaves - 1);
    }
  }

  /** No held notes give an empty sequence, whatever the pattern and octave count. */
  lemma NoNotesNoSequence(p: Params, draw: nat -> nat)
    ensures GenerateSequence([], p, draw) == []
  {
  }

  /** 'up' has octaves × (number of held notes) entries, and block b, which starts at position b × (number of
      held notes), is the notes in ascending order times 2^b. */
  lemma UpShape(held: seq<real>, octaves: nat, b: nat)
    requires held != [] && b < octaves
    ensures |UpSequence(held, octaves)| == octaves * |held|
    ensures var notes := SortAscending(held);
            && |Blocks(notes, b)| == b * |held|
            && Blocks(notes, b) + Scale(notes, Pow2(b)) <= UpSequence(held, octaves)
  {
    var notes := SortAscending(held);
    BlocksLength(notes, octaves);
    BlocksLength(notes, b);
    BlocksPrefix(notes, b + 1, octaves);
  }

  /** 'up' plays the up sequence, and 'down' exactly its reverse. */
  lemma UpAndDown(held: seq<real>, p: Params, draw: nat -> nat)
    ensures p.pattern == Up ==> GenerateSequence(held, p, draw) == UpSequence(held, p.octaves)
    ensures p.pattern == Down ==> GenerateSequence(held, p, draw) == Reverse(UpSequence(held, p.octaves))
  {
  }

  /** 'upDown' is the up sequence followed by its reverse without the first and last entries; a sequence of at
      most one entry is left as it is. */
  lemma UpDownShape(held: seq<real>, p: Params, draw: nat -> nat)
    requires p.pattern == UpDown
    ensures var up := UpSequence(held, p.octaves);
            var r := GenerateSequence(held, p, draw);
            && (|up| <= 1 ==> r == up)
            && (|up| >= 2 ==> |r| == 2 * |up| - 2 && r[..|up|] == up && r[|up|..] == Reverse(up[1..|up| - 1]))
  {
  }

  /** Three held notes pressed as c, a, b with a < b < c sort to a, b, c. */
  lemma SortThree(a: real, b: real, c: real)
    requires a < b < c
    ensures SortAscending([c, a, b]) == [a, b, c]
  {
    var held := [c, a, b];
    assert held[1..] == [a, b] && held[1..][1..] == [b] && held[1..][1..][1..] == [];
    assert SortAscending([b]) == [b];
    assert InsertSorted(a, [b]) == [a, b];
    assert SortAscending([a, b]) == [a, b];
    assert [a, b][1..] == [b];
    assert InsertSorted(c, [b]) == [b, c];
    assert InsertSorted(c, [a, b]) == [a, b, c];
  }

  /** Held notes c, a, b with a < b < c over one octave play a, b, c, b in the 'upDown' pattern (1, 2, 3 play
      1, 2, 3, 2). */
  lemma UpDownExample(a: real, b: real, c: real, draw: nat -> nat)
    requires 0.0 < a < b < c
    ensures GenerateSequence([c, a, b], Params(true, UpDown, Tempo.Eighth, 1), draw) == [a, b, c, b]
  {
    UpSequenceThree(a, b, c);
    UpDownOfThree(a, b, c);
  }

  lemma UpSequenceThree(a: real, b: real, c: real)
    requires a < b < c
    ensures UpSequence([c, a, b], 1) == [a, b, c]
  {
    SortThree(a, b, c);
    var up := [a, b, c];
    assert Scale(up, 1.0) == up;
    assert Blocks(up, 1) == up;
  }

  lemma UpDownOfThree(a: real, b: real, c: real)
    ensures UpDownOf([a, b, c]) == [a, b, c, b]
  {
  }

  /** 'random' plays the same notes as 'up', each as often, in some order. */
  lemma RandomPermutesUp(held: seq<real>, p: Params, draw: nat -> nat)
    requires p.pattern == Random
    ensures multiset(GenerateSequence(held, p, draw)) == multiset(UpSequence(held, p.octaves))
    ensures |GenerateSequence(held, p, draw)| == |UpSequence(held, p.octaves)|
  {
  }

  // ---------------------------------------------------------------------------
  // The scheduler

  /** `useArpeggiator`: the hook's refs, the engine it plays through and the shared transport. */
  class Arpeggiator {
    const engine: AudioEngine.Engine
    const transport: Tempo.Transport
    var params: Params
    var heldNotes: seq<real>
    var currentIndex: nat
    var loop: Option<Loop>
    var currentPlayingNote: Option<real>
    var isRunning: bool

    ghost predicate Valid()
      reads this, engine
    {
      && engine.Valid()
      && Distinct(heldNotes)
      && (isRunning <==> loop.Some?)
      && (!isRunning ==> currentPlayingNote.None?)
    }

    constructor (engine: AudioEngine.Engine, transport: Tempo.Transport, defaults: Params)
      requires engine.Valid()
      ensures Valid()
      ensures this.engine == engine && this.transport == transport && params == defaults
      ensures heldNotes == [] && currentIndex == 0 && loop.None? && currentPlayingNote.None? && !isRunning
    {
      this.engine := engine;
      this.transport := transport;
      params := defaults;
      heldNotes := [];
      currentIndex := 0;
      loop := None;
      currentPlayingNote := None;
      isRunning := false;
    }

    /** The engine commands that stop the sounding arpeggio note, if there is one. */
    static function StopCurrentCommands(current: Option<real>, when: AudioEngine.When): seq<AudioEngine.Command> {
      if current.Some? then [AudioEngine.Release(current.value, when)] else []
    }

    /** The effect of `startArp` on a stopped arpeggiator: running, transport started, engine told, loop created
        at the current rate, and the first note of the sequence played at once. */
    twostate predicate Started(draw: nat -> nat)
      reads this, engine, transport
    {
      var sequence := GenerateSequence(heldNotes, params, draw);
      && isRunning && loop == Some(Loop(Tempo.ToneTime(params.rate)))
      && transport.started && transport.bpm == old(transport.bpm)
      && engine.isArpeggiating && engine.NotesUnchanged()
      && (sequence == [] ==> currentIndex == 0 && currentPlayingNote.None? && engine.log == old(engine.log))
      && (sequence != [] ==>
            && currentIndex == 1 && currentPlayingNote == Some(sequence[0])
            && engine.log == old(engine.log) + (if engine.initialized then AudioEngine.ArpAttack(sequence[0], AudioEngine.Now) else []))
    }

    /** The effect of `stopArp` on a running arpeggiator: loop gone, sounding note released, engine told, and
        every voice released with the held-note bookkeeping cleared. */
    twostate predicate Stopped()
      reads this, engine, transport
    {
      && !isRunning && loop.None? && currentPlayingNote.None?
      && transport.started == old(transport.started) && transport.bpm == old(transport.bpm)
      && !engine.isArpeggiating
      && engine.initialized == old(engine.initialized) && engine.monoMode == old(engine.monoMode)
      && engine.currentFrequency == old(engine.currentFrequency) && engine.glideEnabled == old(engine.glideEnabled)
      && engine.glideTime == old(engine.glideTime) && engine.filterEnvAmount == old(engine.filterEnvAmount)
      && engine.currentOctave == old(engine.currentOctave)
      && (engine.initialized ==>
            && engine.activeNotes == [] && engine.monoStack == [] && engine.shownActiveNotes == 0
            && engine.log == old(engine.log) + StopCurrentCommands(old(currentPlayingNote), AudioEngine.Now)
                             + (if old(engine.activeNotes) == [] then [AudioEngine.EnvRelease] else [])
                             + [AudioEngine.ReleaseAll, AudioEngine.EnvRelease])
      && (!engine.initialized ==>
            && engine.activeNotes == old(engine.activeNotes) && engine.monoStack == old(engine.monoStack)
            && engine.shownActiveNotes == old(engine.shownActiveNotes) && engine.log == old(engine.log))
    }

    /** `stopCurrentNote`: releases the sounding arpeggio note at the given moment and forgets it. */
    method StopCurrentNote(when: AudioEngine.When)
      requires engine.Valid()
      modifies this, engine
      ensures engine.Valid()
      ensures currentPlayingNote.None?
      ensures engine.log == old(engine.log) + (if engine.initialized then StopCurrentCommands(old(currentPlayingNote), when) else [])
      ensures engine.NotesUnchanged() && engine.isArpeggiating == old(engine.isArpeggiating)
      ensures params == old(params) && heldNotes == old(heldNotes) && currentIndex == old(currentIndex)
      ensures loop == old(loop) && isRunning == old(isRunning)
    {
      if currentPlayingNote.Some? {
        engine.StopArpNote(currentPlayingNote.value, when);
        currentPlayingNote := None;
      }
    }

    /** `startArp`: does nothing while running; otherwise starts the loop and plays the first note at once. */
    method StartArp(draw: nat -> nat)
      requires Valid()
      modifies this, engine, transport
      ensures Valid()
      ensures old(isRunning) ==> unchanged(this, engine, transport)
      ensures !old(isRunning) ==> Started(draw)
      ensures params == old(params) && heldNotes == old(heldNotes)
    {
      if isRunning {
        return;
      }
      Begin();
      PlayFirst(GenerateSequence(heldNotes, params, draw));
    }

    /** The first half of `startArp`: marks the arpeggiator running, starts the transport if it is stopped, puts
        the engine into arpeggiation and creates the loop at the current rate. */
    method Begin()
      requires Valid() && !isRunning
      modifies this, engine, transport
      ensures Valid()
      ensures isRunning && loop == Some(Loop(Tempo.ToneTime(params.rate))) && currentIndex == 0 && currentPlayingNote.None?
      ensures transport.started && transport.bpm == old(transport.bpm)
      ensures engine.isArpeggiating && engine.NotesUnchanged() && engine.log == old(engine.log)
      ensures params == old(params) && heldNotes == old(heldNotes)
    {
      isRunning := true;
      if !transport.started {
        transport.Start();
      }
      engine.SetArpeggiating(true);
      currentIndex := 0;
      loop := Some(Loop(Tempo.ToneTime(params.rate)));
    }

    /** The second half of `startArp`: plays the first note of the sequence at once, if there is one. */
    method PlayFirst(sequence: seq<real>)
      requires Valid() && isRunning && currentIndex == 0 && currentPlayingNote.None?
      modifies this, engine
      ensures Valid()
      ensures sequence == [] ==> unchanged(this, engine)
      ensures sequence != [] ==>
                && currentIndex == 1 && currentPlayingNote == Some(sequence[0])
                && engine.log == old(engine.log) + (if engine.initialized then AudioEngine.ArpAttack(sequence[0], AudioEngine.Now) else [])
      ensures engine.NotesUnchanged() && engine.isArpeggiating == old(engine.isArpeggiating)
      ensures params == old(params) && heldNotes == old(heldNotes) && loop == old(loop) && isRunning == old(isRunning)
    {
      if sequence != [] {
        var freq := sequence[0];
        currentPlayingNote := Some(freq);
        engine.PlayArpNote(freq, AudioEngine.Now);
        currentIndex := 1;
      }
    }

    /** The loop's callback at audio time `time`: with an empty sequence nothing happens; otherwise the previous
        note stops and `sequence[index mod length]` starts, both at `time`, and the index advances modulo the length. */
    method Tick(time: real, draw: nat -> nat)
      requires Valid() && isRunning
      modifies this, engine
      ensures Valid()
      ensures var sequence := GenerateSequence(heldNotes, params, draw);
              && (sequence == [] ==> unchanged(this, engine))
              && (sequence != [] ==>
                    var freq := sequence[old(currentIndex) % |sequence|];
                    && currentPlayingNote == Some(freq)
                    && currentIndex == (old(currentIndex) + 1) % |sequence|
                    && currentIndex < |sequence|
                    && engine.log == old(engine.log)
                                     + (if engine.initialized
                                        then StopCurrentCommands(old(currentPlayingNote), AudioEngine.At(time))
                                             + AudioEngine.ArpAttack(freq, AudioEngine.At(time))
                                        else []))
      ensures engine.NotesUnchanged() && engine.isArpeggiating == old(engine.isArpeggiating)
      ensures params == old(params) && heldNotes == old(heldNotes) && loop == old(loop) && isRunning
    {
      var sequence := GenerateSequence(heldNotes, params, draw);
      if sequence == [] {
        return;
      }
      PlayStep(sequence, time);
    }

    /** A tick over a non-empty sequence: the previous note stops and `sequence[index mod length]` starts at
        `time`, and the index advances modulo the length. */
    method PlayStep(sequence: seq<real>, time: real)
      requires Valid() && isRunning && sequence != []
      modifies this, engine
      ensures Valid()
      ensures var freq := sequence[old(currentIndex) % |sequence|];
              && currentPlayingNote == Some(freq)
              && currentIndex == (old(currentIndex) + 1) % |sequence|
              && engine.log == old(engine.log)
                               + (if engine.initialized
                                  then StopCurrentCommands(old(currentPlayingNote), AudioEngine.At(time))
                                       + AudioEngine.ArpAttack(freq, AudioEngine.At(time))
                                  else [])
      ensures engine.NotesUnchanged() && engine.isArpeggiating == old(engine.isArpeggiating)
      ensures params == old(params) && heldNotes == old(heldNotes) && loop == old(loop) && isRunning
    {
      StopCurrentNote(AudioEngine.At(time));
      var freq := sequence[currentIndex % |sequence|];
      currentPlayingNote := Some(freq);
      engine.PlayArpNote(freq, AudioEngine.At(time));
      currentIndex := (currentIndex + 1) % |sequence|;
    }

    /** `stopArp`: does nothing while stopped; otherwise tears the loop down and silences everything. */
    method StopArp()
      requires Valid()
      modifies this, engine
      ensures Valid()
      ensures !old(isRunning) ==> unchanged(this, engine)
      ensures old(isRunning) ==> Stopped()
      ensures params == old(params) && heldNotes == old(heldNotes) && currentIndex == old(currentIndex)
    {
      if !isRunning {
        return;
      }
      isRunning := false;
      loop := None;
      StopCurrentNote(AudioEngine.Now);
      engine.SetArpeggiating(false);
      engine.StopAllNotes();
    }

    /** What `addNote` does: f is held once, and the arpeggio starts exactly when it is enabled, stopped, and f is
        now the only held note; otherwise nothing else changes. */
    twostate predicate AddedNote(f: real, draw: nat -> nat)
      reads this, engine, transport
    {
      && heldNotes == Insert(old(heldNotes), f) && params == old(params)
      && (params.enabled && |heldNotes| == 1 && !old(isRunning) ==> Started(draw))
      && (!(params.enabled && |heldNotes| == 1 && !old(isRunning)) ==>
            && isRunning == old(isRunning) && loop == old(loop) && currentIndex == old(currentIndex)
            && currentPlayingNote == old(currentPlayingNote) && unchanged(engine, transport))
    }

    /** What `removeNote` does: f is no longer held, and a running arpeggio stops exactly when no note is left;
        otherwise nothing else changes. */
    twostate predicate RemovedNote(f: real)
      reads this, engine, transport
    {
      && heldNotes == Remove(old(heldNotes), f) && params == old(params) && currentIndex == old(currentIndex)
      && (heldNotes == [] && old(isRunning) ==> Stopped())
      && (!(heldNotes == [] && old(isRunning)) ==>
            && isRunning == old(isRunning) && loop == old(loop)
            && currentPlayingNote == old(currentPlayingNote) && unchanged(engine))
      && unchanged(transport)
    }

    /** `addNote`. */
    method AddNote(f: real, draw: nat -> nat)
      requires Valid()
      modifies this, engine, transport
      ensures Valid()
      ensures AddedNote(f, draw)
    {
      heldNotes := Insert(heldNotes, f);
      if params.enabled && |heldNotes| == 1 && !isRunning {
        StartArp(draw);
      }
    }

    /** `removeNote`. */
    method RemoveNote(f: real)
      requires Valid()
      modifies this, engine
      ensures Valid()
      ensures RemovedNote(f)
    {
      RemoveDistinct(heldNotes, f);
      heldNotes := Remove(heldNotes, f);
      if heldNotes == [] {
        StopArp();
      }
    }

    /** `clearNotes`: forgets every held note and stops. */
    method ClearNotes()
      requires Valid()
      modifies this, engine
      ensures Valid()
      ensures heldNotes == [] && !isRunning && loop.None? && currentPlayingNote.None?
      ensures params == old(params) && currentIndex == old(currentIndex)
      ensures old(isRunning) ==> Stopped()
      ensures !old(isRunning) ==> unchanged(engine)
    {
      heldNotes := [];
      StopArp();
    }

    /** `setEnabled`: disabling always stops; enabling starts when notes are held and it is stopped. */
    method SetEnabled(enabled: bool, draw: nat -> nat)
      requires Valid()
      modifies this, engine, transport
      ensures Valid()
      ensures params == old(params).(enabled := enabled) && heldNotes == old(heldNotes)
      ensures !enabled ==> !isRunning && currentIndex == old(currentIndex) && (old(isRunning) ==> Stopped())
      ensures !enabled && !old(isRunning) ==> unchanged(engine, transport)
      ensures enabled && heldNotes != [] && !old(isRunning) ==> Started(draw)
      ensures enabled && !(heldNotes != [] && !old(isRunning)) ==>
                && isRunning == old(isRunning) && loop == old(loop) && currentIndex == old(currentIndex)
                && currentPlayingNote == old(currentPlayingNote) && unchanged(engine, transport)
    {
      params := params.(enabled := enabled);
      if !enabled {
        StopArp();
      } else if |heldNotes| > 0 && !isRunning {
        StartArp(draw);
      }
    }

    /** `setPattern`: the next tick starts from the beginning of the new sequence. */
    method SetPattern(pattern: Pattern)
      requires Valid()
      modifies this
      ensures Valid()
      ensures params == old(params).(pattern := pattern) && currentIndex == 0
      ensures heldNotes == old(heldNotes) && isRunning == old(isRunning) && loop == old(loop)
      ensures currentPlayingNote == old(currentPlayingNote)
    {
      params := params.(pattern := pattern);
      currentIndex := 0;
    }

    /** `setRate`: a running loop gets the new interval in place; nothing restarts. */
    method SetRate(rate: Tempo.NoteValue)
      requires Valid()
      modifies this
      ensures Valid()
      ensures params == old(params).(rate := rate)
      ensures isRunning ==> loop == Some(Loop(Tempo.ToneTime(rate)))
      ensures !isRunning ==> loop == old(loop)
      ensures heldNotes == old(heldNotes) && isRunning == old(isRunning) && currentIndex == old(currentIndex)
      ensures currentPlayingNote == old(currentPlayingNote)
    {
      params := params.(rate := rate);
      if isRunning && loop.Some? {
        var toneTime := Tempo.ToneTime(rate);
        loop := Some(loop.value.(interval := toneTime));
      }
    }

    /** `setOctaves`. */
    method SetOctaves(octaves: nat)
      requires Valid()
      modifies this
      ensures Valid()
      ensures params == old(params).(octaves := octaves)
      ensures heldNotes == old(heldNotes) && isRunning == old(isRunning) && loop == old(loop)
      ensures currentIndex == old(currentIndex) && currentPlayingNote == old(currentPlayingNote)
    {
      params := params.(octaves := octaves);
    }
  }
}
