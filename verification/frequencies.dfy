/**
 * The computer-keyboard key map: fifteen key codes, each with the note it plays and its
 * frequency in Hz at octaves 0 through 5. Frequencies are kept as exact decimals; an
 * entry's `frequencies` record is a map from octave number to Hz, so looking up any other
 * octave (a negative one, 6, or a fractional one) finds nothing.
 */
module Frequencies {
  import opened Collections

  datatype NoteName = C | CSharp | D | DSharp | E | F | FSharp | G | GSharp | A | ASharp | B

  /** An entry's frequencies at octaves 0 to 5, in Hz. */
  datatype OctaveRow = OctaveRow(o0: real, o1: real, o2: real, o3: real, o4: real, o5: real) {
    /** The `frequencies` record of the entry: octave number to Hz. */
    function AsMap(): map<real, real> {
      map[0.0 := o0, 1.0 := o1, 2.0 := o2, 3.0 := o3, 4.0 := o4, 5.0 := o5]
    }

    predicate Ascending() {
      0.0 < o0 < o1 < o2 < o3 < o4 < o5
    }
  }

  datatype KeyConfig = KeyConfig(code: string, noteName: NoteName, isBlack: bool, row: OctaveRow) {
    function Frequencies(): map<real, real> {
      row.AsMap()
    }
  }

  /** The octave numbers every entry defines. */
  const Octaves: set<real> := {0.0, 1.0, 2.0, 3.0, 4.0, 5.0}

  /** The letters after "Key" in the fifteen codes, in table order. */
  const Letters: seq<char> := "AWSEDFTGYHUJKOL"

  /** `KEY_MAPPING`: the home row plays the white keys, the row above the black keys. */
  const KeyMapping: seq<KeyConfig> := [
    KeyConfig("KeyA", C, false, OctaveRow(16.35, 32.7, 65.41, 130.81, 261.63, 523.25)),
    KeyConfig("KeyW", CSharp, true, OctaveRow(17.32, 34.65, 69.3, 138.59, 277.18, 554.37)),
    KeyConfig("KeyS", D, false, OctaveRow(18.35, 36.71, 73.42, 146.83, 293.66, 587.33)),
    KeyConfig("KeyE", DSharp, true, OctaveRow(19.45, 38.89, 77.78, 155.56, 311.13, 622.25)),
    KeyConfig("KeyD", E, false, OctaveRow(20.6, 41.2, 82.41, 164.81, 329.63, 659.26)),
    KeyConfig("KeyF", F, false, OctaveRow(21.83, 43.65, 87.31, 174.61, 349.23, 698.46)),
    KeyConfig("KeyT", FSharp, true, OctaveRow(23.12, 46.25, 92.5, 185.0, 369.99, 739.99)),
    KeyConfig("KeyG", G, false, OctaveRow(24.5, 49.0, 98.0, 196.0, 392.0, 783.99)),
    KeyConfig("KeyY", GSharp, true, OctaveRow(25.96, 51.91, 103.83, 207.65, 415.3, 830.61)),
    KeyConfig("KeyH", A, false, OctaveRow(27.5, 55.0, 110.0, 220.0, 440.0, 880.0)),
    KeyConfig("KeyU", ASharp, true, OctaveRow(29.14, 58.27, 116.54, 233.08, 466.16, 932.33)),
    KeyConfig("KeyJ", B, false, OctaveRow(30.87, 61.74, 123.47, 246.94, 493.88, 987.77)),
    KeyConfig("KeyK", C, false, OctaveRow(32.7, 65.41, 130.81, 261.63, 523.25, 1046.5)),
    KeyConfig("KeyO", CSharp, true, OctaveRow(34.65, 69.3, 138.59, 277.18, 554.37, 1108.73)),
    KeyConfig("KeyL", D, false, OctaveRow(36.71, 73.42, 146.83, 293.66, 587.33, 1174.66))
  ]

  /** `NOTE_KEY_CODES`: the set of codes of the key map. */
  const NoteKeyCodes: set<string> := set k | k in KeyMapping :: k.code

  /** `KEY_MAPPING.find(...)`: the first entry of `keys` with the given code. */
  function Find(keys: seq<KeyConfig>, code: string): (r: Option<KeyConfig>)
    ensures r.None? <==> forall k :: k in keys ==> k.code != code
    ensures r.Some? ==> r.value in keys && r.value.code == code
    ensures r.Some? ==> exists i :: 0 <= i < |keys| && keys[i] == r.value && forall j :: 0 <= j < i ==> keys[j].code != code
  {
    if keys == [] then None
    else if keys[0].code == code then Some(keys[0])
    else
      var r := Find(keys[1..], code);
      assert forall k :: k in keys[1..] ==> k in keys;
      assert r.Some? ==> exists i :: 0 <= i < |keys[1..]| && keys[1..][i] == r.value && forall j :: 0 <= j < i ==> keys[1..][j].code != code;
      if r.Some? then
        var i :| 0 <= i < |keys[1..]| && keys[1..][i] == r.value && forall j :: 0 <= j < i ==> keys[1..][j].code != code;
        assert keys[i + 1] == r.value;
        assert forall j :: 0 <= j < i + 1 ==> keys[j].code != code by {
          forall j | 0 <= j < i + 1 ensures keys[j].code != code {
            if j > 0 { assert keys[j] == keys[1..][j - 1]; }
          }
        }
        r
      else r
  }

  /** `getKeyConfig`. */
  function GetKeyConfig(code: string): (r: Option<KeyConfig>)
    ensures r.Some? <==> code in NoteKeyCodes
    ensures r.Some? ==> r.value in KeyMapping && r.value.code == code
  {
    Find(KeyMapping, code)
  }

  /** `getFrequency`: the entry's frequency at that octave, or null when the code is unmapped or the octave is not a key of its record. */
  function GetFrequency(code: string, octave: real): (r: Option<real>)
    ensures code !in NoteKeyCodes ==> r.None?
  {
    match GetKeyConfig(code)
    case None => None
    case Some(k) => if octave in k.Frequencies() then Some(k.Frequencies()[octave]) else None
  }

  /** Any row defines exactly the octaves 0 to 5; an ascending row is positive and rises with the octave. */
  lemma RowFacts(row: OctaveRow)
    ensures row.AsMap().Keys == Octaves
    ensures row.Ascending() ==> forall o :: o in Octaves ==> row.AsMap()[o] > 0.0
    ensures row.Ascending() ==> forall o, p :: o in Octaves && p in Octaves && o < p ==> row.AsMap()[o] < row.AsMap()[p]
  {
  }

  /** Every row of the table is positive and strictly ascending. */
  lemma TableRowsAscending()
    ensures forall i :: 0 <= i < |KeyMapping| ==> KeyMapping[i].row.Ascending()
  {
  }

  /** Each code is "Key" followed by its own letter, and the fifteen letters differ. */
  lemma CodesAreKeyLetters()
    ensures |KeyMapping| == |Letters| == 15
    ensures forall i :: 0 <= i < |KeyMapping| ==> KeyMapping[i].code == "Key" + [Letters[i]]
    ensures forall i, j :: 0 <= i < j < |Letters| ==> Letters[i] != Letters[j]
  {
  }

  /** The fifteen codes are pairwise distinct. */
  lemma CodesDistinct()
    ensures forall i, j :: 0 <= i < j < |KeyMapping| ==> KeyMapping[i].code != KeyMapping[j].code
  {
  }

  /** `NOTE_KEY_CODES` holds exactly the fifteen codes of the table. */
  lemma NoteKeyCodesExact()
    ensures NoteKeyCodes == set i | 0 <= i < |KeyMapping| :: KeyMapping[i].code
    ensures |NoteKeyCodes| == 15
  {
    assert NoteKeyCodes == set i | 0 <= i < |KeyMapping| :: KeyMapping[i].code by {
      forall c | c in NoteKeyCodes ensures exists i :: 0 <= i < |KeyMapping| && KeyMapping[i].code == c {
        var k :| k in KeyMapping && k.code == c;
        var i :| 0 <= i < |KeyMapping| && KeyMapping[i] == k;
      }
    }
    CodesDistinct();
    CodePrefixCount(KeyMapping, 15);
  }

  lemma {:induction false} CodePrefixCount(keys: seq<KeyConfig>, n: nat)
    requires n <= |keys|
    requires forall i, j :: 0 <= i < j < |keys| ==> keys[i].code != keys[j].code
    ensures |set i | 0 <= i < n :: keys[i].code| == n
  {
    if n > 0 {
      CodePrefixCount(keys, n - 1);
      var smaller := set i | 0 <= i < n - 1 :: keys[i].code;
      assert (set i | 0 <= i < n :: keys[i].code) == smaller + {keys[n - 1].code};
      assert keys[n - 1].code !in smaller;
    }
  }

  /** A mapped code finds its own entry. */
  lemma GetKeyConfigFindsEntry(i: int)
    requires 0 <= i < |KeyMapping|
    ensures GetKeyConfig(KeyMapping[i].code) == Some(KeyMapping[i])
  {
    CodesDistinct();
    var r := GetKeyConfig(KeyMapping[i].code);
    var j :| 0 <= j < |KeyMapping| && KeyMapping[j] == r.value && forall m :: 0 <= m < j ==> KeyMapping[m].code != KeyMapping[i].code;
    assert i == j;
  }

  /** A lookup succeeds exactly for a mapped code at an octave in 0..5, and the frequency it yields is positive. */
  lemma GetFrequencyDefinedIff(code: string, octave: real)
    ensures GetFrequency(code, octave).Some? <==> code in NoteKeyCodes && octave in Octaves
    ensures GetFrequency(code, octave).Some? ==> GetFrequency(code, octave).value > 0.0
  {
    var r := GetKeyConfig(code);
    if r.Some? {
      RowFacts(r.value.row);
      TableRowsAscending();
      var i :| 0 <= i < |KeyMapping| && KeyMapping[i] == r.value;
    }
  }

  /** Within an entry, the frequency rises strictly with the octave. */
  lemma FrequencyIncreasesWithOctave(code: string, o: real, p: real)
    requires code in NoteKeyCodes && o in Octaves && p in Octaves && o < p
    ensures GetFrequency(code, o).Some? && GetFrequency(code, p).Some?
    ensures GetFrequency(code, o).value < GetFrequency(code, p).value
  {
    var k := GetKeyConfig(code).value;
    var i :| 0 <= i < |KeyMapping| && KeyMapping[i] == k;
    TableRowsAscending();
    RowFacts(k.row);
  }

  /** A mapped code at an octave in 0..5 yields its own entry's frequency. */
  lemma GetFrequencyOfEntry(i: int, o: real)
    requires 0 <= i < |KeyMapping| && o in Octaves
    ensures GetFrequency(KeyMapping[i].code, o) == Some(KeyMapping[i].row.AsMap()[o])
  {
    GetKeyConfigFindsEntry(i);
    RowFacts(KeyMapping[i].row);
  }

  /** `hi` is `lo` one octave up: its octave n is `lo`'s octave n + 1. */
  predicate OctaveAbove(lo: OctaveRow, hi: OctaveRow) {
    hi.o0 == lo.o1 && hi.o1 == lo.o2 && hi.o2 == lo.o3 && hi.o3 == lo.o4 && hi.o4 == lo.o5
  }

  lemma OctaveAboveLookup(lo: OctaveRow, hi: OctaveRow, n: real)
    requires OctaveAbove(lo, hi) && n in {0.0, 1.0, 2.0, 3.0, 4.0}
    ensures n in Octaves && n + 1.0 in Octaves
    ensures hi.AsMap()[n] == lo.AsMap()[n + 1.0]
  {
  }

  lemma UpperRowsAreOctaveAbove()
    ensures OctaveAbove(KeyMapping[0].row, KeyMapping[12].row)
    ensures OctaveAbove(KeyMapping[1].row, KeyMapping[13].row)
    ensures OctaveAbove(KeyMapping[2].row, KeyMapping[14].row)
    ensures KeyMapping[0].code == "KeyA" && KeyMapping[1].code == "KeyW" && KeyMapping[2].code == "KeyS"
    ensures KeyMapping[12].code == "KeyK" && KeyMapping[13].code == "KeyO" && KeyMapping[14].code == "KeyL"
  {
  }

  /** The three upper keys repeat the first three lower keys one octave higher. */
  lemma UpperKeysRepeatLowerKeys(n: real)
    requires n in {0.0, 1.0, 2.0, 3.0, 4.0}
    ensures GetFrequency("KeyK", n) == GetFrequency("KeyA", n + 1.0)
    ensures GetFrequency("KeyO", n) == GetFrequency("KeyW", n + 1.0)
    ensures GetFrequency("KeyL", n) == GetFrequency("KeyS", n + 1.0)
  {
    UpperRowsAreOctaveAbove();
    OctaveAboveLookup(KeyMapping[0].row, KeyMapping[12].row, n);
    OctaveAboveLookup(KeyMapping[1].row, KeyMapping[13].row, n);
    OctaveAboveLookup(KeyMapping[2].row, KeyMapping[14].row, n);
    GetFrequencyOfEntry(0, n + 1.0);
    GetFrequencyOfEntry(1, n + 1.0);
    GetFrequencyOfEntry(2, n + 1.0);
    GetFrequencyOfEntry(12, n);
    GetFrequencyOfEntry(13, n);
    GetFrequencyOfEntry(14, n);
  }
}
