/**
 * The tempo service: a BPM clamped to [40, 240], tap-tempo estimation, note-value
 * durations, and the start/stop flag of the shared transport clock. Time stamps are
 * milliseconds of a monotone clock, passed in by the caller.
 */
module Tempo {
  import opened Collections

  /** The arpeggiator rates `'1/4' | '1/8' | '1/16' | '1/32'`. */
  datatype NoteValue = Quarter | Eighth | Sixteenth | ThirtySecond

  const MinBpm: real := 40.0
  const MaxBpm: real := 240.0
  /** Taps older than this many milliseconds are forgotten. */
  const TapWindowMs: real := 2000.0

  /** The shared transport clock of the host scheduler: running or not, and its tempo. */
  class Transport {
    var started: bool
    var bpm: real

    constructor (bpm: real)
      ensures !started && this.bpm == bpm
    {
      started := false;
      this.bpm := bpm;
    }

    /** `Tone.getTransport().start()`. */
    method Start()
      modifies this
      ensures started && bpm == old(bpm)
    {
      started := true;
    }

    /** `Tone.getTransport().stop()`. */
    method Stop()
      modifies this
      ensures !started && bpm == old(bpm)
    {
      started := false;
    }
  }

  /** `Math.max(40, Math.min(240, x))`. */
  function ClampBpm(x: real): (r: real)
    ensures MinBpm <= r <= MaxBpm
    ensures MinBpm <= x <= MaxBpm ==> r == x
    ensures x < MinBpm ==> r == MinBpm
    ensures x > MaxBpm ==> r == MaxBpm
  {
    if x > MaxBpm then MaxBpm else if x < MinBpm then MinBpm else x
  }

  /** `Math.round` on a finite number: the nearest integer, halves rounded up. */
  function Round(x: real): (r: int)
    ensures r as real - 0.5 <= x < r as real + 0.5
  {
    (x + 0.5).Floor
  }

  /** `getNoteTime`: the length of one note value, in seconds, at the given tempo. */
  function NoteTime(bpm: real, v: NoteValue): (r: real)
    requires bpm > 0.0
    ensures r > 0.0
    ensures r * bpm <= 60.0
  {
    var quarterNote := 60.0 / bpm;
    match v
    case Quarter => quarterNote
    case Eighth => quarterNote / 2.0
    case Sixteenth => quarterNote / 4.0
    case ThirtySecond => quarterNote / 8.0
  }

  /** A quarter lasts one beat, and each shorter note value lasts half the one before it. */
  lemma NoteTimeHalves(bpm: real)
    requires bpm > 0.0
    ensures NoteTime(bpm, Quarter) * bpm == 60.0
    ensures NoteTime(bpm, Eighth) == NoteTime(bpm, Quarter) / 2.0
    ensures NoteTime(bpm, Sixteenth) == NoteTime(bpm, Eighth) / 2.0
    ensures NoteTime(bpm, ThirtySecond) == NoteTime(bpm, Sixteenth) / 2.0
  {
  }

  /** `getToneTime`: the scheduler's symbolic duration for a note value. */
  function ToneTime(v: NoteValue): (r: string)
    ensures r in {"4n", "8n", "16n", "32n"}
  {
    match v
    case Quarter => "4n"
    case Eighth => "8n"
    case Sixteenth => "16n"
    case ThirtySecond => "32n"
  }

  /** Distinct note values have distinct symbolic durations. */
  lemma ToneTimeInjective(v: NoteValue, w: NoteValue)
    requires ToneTime(v) == ToneTime(w)
    ensures v == w
  {
  }

  /** `taps.filter((t) => now - t < 2000)`. */
  function Recent(taps: seq<real>, now: real): (r: seq<real>)
    ensures forall t :: t in r <==> t in taps && now - t < TapWindowMs
    ensures |r| <= |taps|
  {
    if taps == [] then []
    else
      var rest := Recent(taps[1..], now);
      assert forall t :: t in taps[1..] ==> t in taps;
      if now - taps[0] < TapWindowMs then [taps[0]] + rest else rest
  }

  /** Filtering distributes over concatenation, so the kept taps keep their order and their number of copies. */
  lemma {:induction false} RecentAppend(a: seq<real>, b: seq<real>, now: real)
    ensures Recent(a + b, now) == Recent(a, now) + Recent(b, now)
    decreases |a|
  {
    if a == [] {
      assert a + b == b;
    } else {
      var ab := a + b;
      assert ab[0] == a[0] && ab[1..] == a[1..] + b;
      RecentAppend(a[1..], b, now);
    }
  }

  /** A single tap is kept exactly when it is less than two seconds old. */
  lemma RecentSingle(t: real, now: real)
    ensures Recent([t], now) == if now - t < TapWindowMs then [t] else []
  {
    assert [t][1..] == [];
  }

  /** Filtering keeps the taps in the order they were made. */
  lemma {:induction false} RecentAscending(taps: seq<real>, now: real)
    requires Ascending(taps)
    ensures Ascending(Recent(taps, now))
  {
    if taps != [] {
      var tail := taps[1..];
      assert Ascending(tail) by {
        forall i, j | 0 <= i < j < |tail| ensures tail[i] <= tail[j] {
          assert tail[i] == taps[i + 1] && tail[j] == taps[j + 1];
        }
      }
      RecentAscending(tail, now);
      var rest := Recent(tail, now);
      if now - taps[0] < TapWindowMs {
        var r := [taps[0]] + rest;
        forall i, j | 0 <= i < j < |r| ensures r[i] <= r[j] {
          assert r[j] == rest[j - 1];
          if i == 0 {
            assert rest[j - 1] in tail;
            var k :| 0 <= k < |tail| && tail[k] == rest[j - 1];
            assert tail[k] == taps[k + 1];
          } else {
            assert r[i] == rest[i - 1];
          }
        }
      }
    }
  }

  /** With a clock that never goes backwards, the kept taps followed by the new one stay in time order. */
  lemma NewestTapAscending(taps: seq<real>, now: real)
    requires Ascending(taps) && forall t :: t in taps ==> t <= now
    ensures Ascending(Recent(taps, now) + [now])
  {
    var kept := Recent(taps, now);
    RecentAscending(taps, now);
    var r := kept + [now];
    forall i, j | 0 <= i < j < |r| ensures r[i] <= r[j] {
      assert r[i] == kept[i] && kept[i] in taps;
      if j < |kept| {
        assert r[j] == kept[j];
      }
    }
  }

  /** The consecutive differences `taps[i] - taps[i - 1]`. */
  function Intervals(taps: seq<real>): (r: seq<real>)
    ensures |r| == if taps == [] then 0 else |taps| - 1
    ensures forall i :: 0 <= i < |r| ==> r[i] == taps[i + 1] - taps[i]
  {
    if |taps| <= 1 then [] else Intervals(taps[..|taps| - 1]) + [taps[|taps| - 1] - taps[|taps| - 2]]
  }

  /** `reduce((a, b) => a + b, 0)`: a left-to-right sum. */
  function Sum(s: seq<real>): real {
    if s == [] then 0.0 else Sum(s[..|s| - 1]) + s[|s| - 1]
  }

  /** The intervals between taps add up to the span from the first tap to the last. */
  lemma {:induction false} SumIntervalsTelescopes(taps: seq<real>)
    requires |taps| >= 1
    ensures Sum(Intervals(taps)) == taps[|taps| - 1] - taps[0]
  {
    if |taps| > 1 {
      var front := taps[..|taps| - 1];
      SumIntervalsTelescopes(front);
      var iv := Intervals(taps);
      assert iv[..|iv| - 1] == Intervals(front);
    }
  }

  /** The BPM that a list of at least two taps sets: `round(60000 / mean interval)`, then clamped. A mean of
      zero makes `60000 / 0` infinite in the source, which the clamp turns into the maximum. */
  function TapBpm(taps: seq<real>): (r: real)
    requires |taps| >= 2
    ensures MinBpm <= r <= MaxBpm
  {
    var intervals := Intervals(taps);
    var avgInterval := Sum(intervals) / |intervals| as real;
    if avgInterval == 0.0 then MaxBpm else ClampBpm(Round(60000.0 / avgInterval) as real)
  }

  /** The mean interval is the span divided by the number of gaps, so only the first and last taps matter. */
  lemma TapBpmFromSpan(taps: seq<real>)
    requires |taps| >= 2
    ensures var span := taps[|taps| - 1] - taps[0];
            TapBpm(taps) == if span == 0.0 then MaxBpm
                            else ClampBpm(Round(60000.0 * (|taps| - 1) as real / span) as real)
  {
    SumIntervalsTelescopes(taps);
    var span := taps[|taps| - 1] - taps[0];
    var n := (|taps| - 1) as real;
    assert Sum(Intervals(taps)) / n == span / n;
    if span != 0.0 {
      DivideByMean(60000.0, span, n);
    }
  }

  lemma DivideByMean(a: real, span: real, n: real)
    requires span != 0.0 && n > 0.0
    ensures span / n != 0.0
    ensures a / (span / n) == a * n / span
  {
  }

  /** Three taps 500 ms apart give 120 BPM. */
  lemma ThreeTapsHalfSecondApart(t: real)
    ensures TapBpm([t, t + 500.0, t + 1000.0]) == 120.0
  {
    var taps := [t, t + 500.0, t + 1000.0];
    TapBpmFromSpan(taps);
    var span := taps[|taps| - 1] - taps[0];
    assert |taps| == 3 && span == 1000.0;
    assert 60000.0 * (|taps| - 1) as real / span == 120.0;
    assert Round(120.0) == 120;
  }

  /** The loop in `tapTempo` that collects the gaps between consecutive taps. */
  method IntervalsOf(taps: seq<real>) returns (intervals: seq<real>)
    requires |taps| >= 1
    ensures intervals == Intervals(taps)
    ensures |intervals| == |taps| - 1
  {
    intervals := [];
    var i := 1;
    while i < |taps|
      invariant 1 <= i <= |taps|
      invariant |intervals| == i - 1
      invariant forall k :: 0 <= k < i - 1 ==> intervals[k] == taps[k + 1] - taps[k]
    {
      intervals := intervals + [taps[i] - taps[i - 1]];
      i := i + 1;
    }
    var expected := Intervals(taps);
    assert i == |taps| && |expected| == |intervals|;
    forall k | 0 <= k < |intervals| ensures intervals[k] == expected[k] {
      assert intervals[k] == taps[k + 1] - taps[k];
    }
  }

  /** The `reduce` that adds the gaps up. */
  method Total(s: seq<real>) returns (total: real)
    ensures total == Sum(s)
  {
    total := 0.0;
    for k := 0 to |s|
      invariant total == Sum(s[..k])
    {
      assert s[..k + 1][..k] == s[..k];
      total := total + s[k];
    }
    assert s[..|s|] == s;
  }

  /** `useTempo`: the BPM, the transport's playing flag, and the recent tap times. */
  class TempoService {
    const transport: Transport
    var bpm: real
    var isPlaying: bool
    var tapTimes: seq<real>

    ghost predicate Valid()
      reads this
    {
      MinBpm <= bpm <= MaxBpm && Ascending(tapTimes)
    }

    /** Mounting the hook: the default tempo is pushed to the transport. */
    constructor (transport: Transport, defaultBpm: real)
      requires MinBpm <= defaultBpm <= MaxBpm
      modifies transport
      ensures Valid() && this.transport == transport
      ensures bpm == defaultBpm && !isPlaying && tapTimes == []
      ensures transport.bpm == defaultBpm && transport.started == old(transport.started)
    {
      this.transport := transport;
      bpm := defaultBpm;
      isPlaying := false;
      tapTimes := [];
      transport.bpm := defaultBpm;
    }

    /** `setBpm`: clamps, then updates both the state and the transport. */
    method SetBpm(newBpm: real)
      requires Valid()
      modifies this, transport
      ensures Valid()
      ensures bpm == ClampBpm(newBpm) && transport.bpm == bpm
      ensures isPlaying == old(isPlaying) && tapTimes == old(tapTimes)
      ensures transport.started == old(transport.started)
    {
      bpm := ClampBpm(newBpm);
      transport.bpm := bpm;
    }

    /** `startTransport`. */
    method StartTransport()
      requires Valid()
      modifies this, transport
      ensures Valid()
      ensures isPlaying && transport.started
      ensures bpm == old(bpm) && tapTimes == old(tapTimes) && transport.bpm == old(transport.bpm)
    {
      transport.Start();
      isPlaying := true;
    }

    /** `stopTransport`. */
    method StopTransport()
      requires Valid()
      modifies this, transport
      ensures Valid()
      ensures !isPlaying && !transport.started
      ensures bpm == old(bpm) && tapTimes == old(tapTimes) && transport.bpm == old(transport.bpm)
    {
      transport.Stop();
      isPlaying := false;
    }

    /** `toggleTransport`: flips the playing flag and starts or stops the clock to match. */
    method ToggleTransport()
      requires Valid()
      modifies this, transport
      ensures Valid()
      ensures isPlaying == !old(isPlaying) && transport.started == isPlaying
      ensures bpm == old(bpm) && tapTimes == old(tapTimes) && transport.bpm == old(transport.bpm)
    {
      if isPlaying {
        StopTransport();
      } else {
        StartTransport();
      }
    }

    /** `tapTempo`: forgets taps older than two seconds, records `now`, and once at least two taps remain
        sets the BPM from their mean interval. */
    method TapTempo(now: real)
      requires Valid()
      requires forall t :: t in tapTimes ==> t <= now
      modifies this, transport
      ensures Valid()
      ensures tapTimes == Recent(old(tapTimes), now) + [now]
      ensures tapTimes[|tapTimes| - 1] == now
      ensures |tapTimes| >= 2 ==> bpm == TapBpm(tapTimes) && transport.bpm == bpm
      ensures |tapTimes| < 2 ==> bpm == old(bpm) && transport.bpm == old(transport.bpm)
      ensures isPlaying == old(isPlaying) && transport.started == old(transport.started)
    {
      var recentTaps := Recent(tapTimes, now) + [now];
      NewestTapAscending(tapTimes, now);
      tapTimes := recentTaps;

      if |recentTaps| >= 2 {
        SetBpmFromTaps(recentTaps);
      }
    }

    /** The second half of `tapTempo`: the BPM becomes `60000 / mean interval`, rounded and clamped. */
    method SetBpmFromTaps(taps: seq<real>)
      requires Valid() && |taps| >= 2
      modifies this, transport
      ensures Valid()
      ensures bpm == TapBpm(taps) && transport.bpm == bpm
      ensures tapTimes == old(tapTimes) && isPlaying == old(isPlaying) && transport.started == old(transport.started)
    {
      var intervals := IntervalsOf(taps);
      var total := Total(intervals);
      var avgInterval := total / |intervals| as real;
      if avgInterval == 0.0 {
        // 60000 / 0 is Infinity in the source; the clamp maps it to the maximum.
        SetBpm(MaxBpm);
      } else {
        SetBpm(Round(60000.0 / avgInterval) as real);
      }
    }
  }
}
