/**
 * Presets: the migration that turns a stored, untyped preset body into a complete parameter
 * record, and the list of user presets with the id of the current one.
 *
 * Stored bodies are JSON values. The sections that the migration copies after only checking
 * that they are objects (effects, LFO, glide, filter envelope, chorus, phaser, arpeggiator) are
 * kept as JSON, as are the fields it takes on a truthiness test alone (waveforms, sub-oscillator
 * octave, noise type): nothing constrains them further.
 */
module Presets {
  import opened Collections

  datatype Json = Null | Bool(b: bool) | Num(n: real) | Str(s: string) | Arr(items: seq<Json>) | Obj(fields: map<string, Json>)

  datatype Result<T> = Ok(value: T) | Err(error: string)

  datatype MasterParams = MasterParams(volume: real, attack: real, release: real, waveform: Json, octave: real, mono: bool)

  datatype OscillatorParams = OscillatorParams(waveform: Json, subOscLevel: real, subOscOctave: Json, noiseLevel: real, noiseType: Json)

  datatype ModRouting = ModRouting(target: string, amount: real, enabled: bool)

  datatype TempoParams = TempoParams(bpm: real)

  datatype PresetParams = PresetParams(
    master: MasterParams,
    effects: Json,
    oscillator: OscillatorParams,
    lfo: Json,
    modRouting: seq<ModRouting>,
    glide: Json,
    filterEnvelope: Json,
    chorus: Json,
    phaser: Json,
    arpeggiator: Json,
    tempo: TempoParams,
    pitchBendRange: real)

  datatype Preset = Preset(id: string, name: string, category: string, params: PresetParams)

  /** A `Partial<Preset>`: the fields to overwrite. */
  datatype PresetPatch = PresetPatch(id: Option<string>, name: Option<string>, category: Option<string>, params: Option<PresetParams>)

  const UserPrefix: string := "user-"
  const FilterCutoff: string := "filterCutoff"

  // ---------------------------------------------------------------------------
  // Reading untyped values

  /** Property access `v.key`: `None` is `undefined` (a missing key, or a value that is not an object). */
  function Field(v: Json, key: string): (r: Option<Json>)
    ensures r.Some? <==> v.Obj? && key in v.fields
  {
    if v.Obj? && key in v.fields then Some(v.fields[key]) else None
  }

  function FieldOf(v: Option<Json>, key: string): Option<Json> {
    if v.Some? then Field(v.value, key) else None
  }

  /** JavaScript truthiness; `undefined` and `null` are falsy. */
  predicate Truthy(v: Option<Json>) {
    match v
    case None => false
    case Some(Null) => false
    case Some(Bool(b)) => b
    case Some(Num(n)) => n != 0.0
    case Some(Str(s)) => s != ""
    case Some(Arr(_)) => true
    case Some(Obj(_)) => true
  }

  /** `v && typeof v === 'object'`: an object or an array. */
  predicate IsObjectSection(v: Option<Json>) {
    v.Some? && (v.value.Obj? || v.value.Arr?)
  }

  /** `typeof v === 'number' ? v : fallback`. */
  function NumberOr(v: Option<Json>, fallback: real): (r: real)
    ensures v.Some? && v.value.Num? ==> r == v.value.n
    ensures !(v.Some? && v.value.Num?) ==> r == fallback
  {
    if v.Some? && v.value.Num? then v.value.n else fallback
  }

  /** `typeof v === 'boolean' ? v : fallback`. */
  function BoolOr(v: Option<Json>, fallback: bool): (r: bool)
    ensures v.Some? && v.value.Bool? ==> r == v.value.b
    ensures !(v.Some? && v.value.Bool?) ==> r == fallback
  {
    if v.Some? && v.value.Bool? then v.value.b else fallback
  }

  /** `v || fallback`. */
  function TruthyOr(v: Option<Json>, fallback: Json): (r: Json)
    ensures Truthy(v) ==> Some(r) == v
    ensures !Truthy(v) ==> r == fallback
  {
    if Truthy(v) then v.value else fallback
  }

  /** A section copied as it is when it is an object, otherwise the default. */
  function SectionOr(v: Option<Json>, fallback: Json): Json {
    if IsObjectSection(v) then v.value else fallback
  }

  // ---------------------------------------------------------------------------
  // Migration

  function MigrateMaster(m: Json, d: MasterParams): MasterParams {
    MasterParams(
      NumberOr(Field(m, "volume"), d.volume),
      NumberOr(Field(m, "attack"), d.attack),
      NumberOr(Field(m, "release"), d.release),
      TruthyOr(Field(m, "waveform"), d.waveform),
      NumberOr(Field(m, "octave"), d.octave),
      BoolOr(Field(m, "mono"), d.mono))
  }

  function MigrateOscillator(o: Json, d: OscillatorParams): OscillatorParams {
    OscillatorParams(
      TruthyOr(Field(o, "waveform"), d.waveform),
      NumberOr(Field(o, "subOscLevel"), d.subOscLevel),
      TruthyOr(Field(o, "subOscOctave"), d.subOscOctave),
      NumberOr(Field(o, "noiseLevel"), d.noiseLevel),
      TruthyOr(Field(o, "noiseType"), d.noiseType))
  }

  /** Whether `r.target === 'filterCutoff'`. */
  predicate TargetsCutoff(r: Json) {
    Field(r, "target") == Some(Str(FilterCutoff))
  }

  /** The routing list built from the routing entry found (if any): a single filter-cutoff entry. */
  function RoutingFrom(found: Option<Json>): (r: seq<ModRouting>)
    ensures |r| == 1 && r[0].target == FilterCutoff
    ensures found.None? ==> r[0] == ModRouting(FilterCutoff, 0.0, false)
    ensures found.Some? ==> var amount, enabled := Field(found.value, "amount"), Field(found.value, "enabled");
              && r[0].amount == (if amount.Some? && amount.value.Num? then amount.value.n else 0.0)
              && r[0].enabled == (enabled.Some? && enabled.value.Bool? && enabled.value.b)
  {
    if found.Some? then
      [ModRouting(FilterCutoff, NumberOr(Field(found.value, "amount"), 0.0), BoolOr(Field(found.value, "enabled"), false))]
    else
      [ModRouting(FilterCutoff, 0.0, false)]
  }

  /** The routing search as the source runs it: `find` reads `r.target` on every entry up to the first match, and
      reading a property of `null` throws. */
  function FindCutoffAsWritten(items: seq<Json>): (r: Result<Option<Json>>)
    ensures r.Ok? && r.value.Some? ==> r.value.value in items && TargetsCutoff(r.value.value)
    ensures r.Err? <==> exists i :: 0 <= i < |items| && items[i].Null? && forall k :: 0 <= k < i ==> !TargetsCutoff(items[k])
  {
    if items == [] then Ok(None)
    else if items[0].Null? then Err("TypeError: cannot read property 'target' of null")
    else if TargetsCutoff(items[0]) then Ok(Some(items[0]))
    else
      var tail := items[1..];
      var r := FindCutoffAsWritten(tail);
      assert forall i :: 1 <= i < |items| ==> items[i] == tail[i - 1];
      if r.Err? then
        var j :| 0 <= j < |tail| && tail[j].Null? && forall k :: 0 <= k < j ==> !TargetsCutoff(tail[k]);
        assert items[j + 1].Null? && forall k :: 0 <= k < j + 1 ==> !TargetsCutoff(items[k]);
        r
      else
        assert forall i :: 1 <= i < |items| && items[i].Null? ==> exists k :: 0 <= k < i && TargetsCutoff(items[k]) by {
          forall i | 1 <= i < |items| && items[i].Null?
            ensures exists k :: 0 <= k < i && TargetsCutoff(items[k])
          {
            var k :| 0 <= k < i - 1 && TargetsCutoff(tail[k]);
            assert TargetsCutoff(items[k + 1]);
          }
        }
        r
  }

  /** The routing search with `null` entries passed over: the first entry that targets the filter cutoff. */
  function FindCutoff(items: seq<Json>): (r: Option<Json>)
    ensures r.Some? ==> r.value in items && TargetsCutoff(r.value)
    ensures r.None? <==> forall i :: 0 <= i < |items| ==> !TargetsCutoff(items[i])
    ensures r.Some? ==> exists i :: 0 <= i < |items| && items[i] == r.value && forall k :: 0 <= k < i ==> !TargetsCutoff(items[k])
  {
    if items == [] then None
    else if TargetsCutoff(items[0]) then Some(items[0])
    else
      var r := FindCutoff(items[1..]);
      assert forall i :: 1 <= i < |items| ==> items[i] == items[1..][i - 1];
      if r.Some? then
        var j :| 0 <= j < |items[1..]| && items[1..][j] == r.value && forall k :: 0 <= k < j ==> !TargetsCutoff(items[1..][k]);
        assert items[j + 1] == r.value;
        r
      else r
  }

  /** Migration of a body the source can read: `params` is an object-like value (not `null` or `undefined`). */
  function MigrateBody(params: Json, routing: Option<Json>, d: PresetParams): PresetParams {
    var master := Field(params, "master");
    var osc := Field(params, "oscillator");
    var modRouting := Field(params, "modRouting");
    var tempo := Field(params, "tempo");
    PresetParams(
      if IsObjectSection(master) then MigrateMaster(master.value, d.master) else d.master,
      SectionOr(Field(params, "effects"), d.effects),
      if IsObjectSection(osc) then MigrateOscillator(osc.value, d.oscillator) else d.oscillator,
      SectionOr(Field(params, "lfo"), d.lfo),
      if modRouting.Some? && modRouting.value.Arr? then RoutingFrom(routing) else d.modRouting,
      SectionOr(Field(params, "glide"), d.glide),
      SectionOr(Field(params, "filterEnvelope"), d.filterEnvelope),
      SectionOr(Field(params, "chorus"), d.chorus),
      SectionOr(Field(params, "phaser"), d.phaser),
      SectionOr(Field(params, "arpeggiator"), d.arpeggiator),
      if IsObjectSection(tempo) then TempoParams(NumberOr(Field(tempo.value, "bpm"), d.tempo.bpm)) else d.tempo,
      NumberOr(Field(params, "pitchBendRange"), d.pitchBendRange))
  }

  /** `migratePresetParams` as written: reading a field of a `null` or missing body, or the `target` of a `null`
      routing entry met before a match, throws. */
  function MigrateAsWritten(params: Option<Json>, d: PresetParams): (r: Result<PresetParams>)
    ensures params.None? || params == Some(Null) ==> r.Err?
  {
    if params.None? || params.value.Null? then Err("TypeError: cannot read properties of " + (if params.None? then "undefined" else "null"))
    else
      var modRouting := Field(params.value, "modRouting");
      if modRouting.Some? && modRouting.value.Arr? then
        match FindCutoffAsWritten(modRouting.value.items)
        case Err(e) => Err(e)
        case Ok(found) => Ok(MigrateBody(params.value, found, d))
      else Ok(MigrateBody(params.value, None, d))
  }

  /** `migratePresetParams`, total: a `null` or missing body migrates like an empty one, and `null` routing entries
      are passed over. */
  function Migrate(params: Option<Json>, d: PresetParams): (r: PresetParams)
    ensures params.None? || !params.value.Obj? ==> r == MigrateBody(Obj(map[]), None, d)
  {
    var body := if params.None? || params.value.Null? then Obj(map[]) else params.value;
    var modRouting := Field(body, "modRouting");
    var found := if modRouting.Some? && modRouting.value.Arr? then FindCutoff(modRouting.value.items) else None;
    MigrateBody(body, found, d)
  }

  // ---------------------------------------------------------------------------
  // Properties of the migration

  /** A body that is not an object keeps every default. */
  lemma NonObjectKeepsDefaults(params: Option<Json>, d: PresetParams)
    requires params.None? || !params.value.Obj?
    ensures Migrate(params, d) == d
  {
  }

  /** Each section that is absent or not an object keeps its default; the untyped sections that are objects are
      copied unchanged. */
  lemma SectionsFallBack(fields: map<string, Json>, d: PresetParams)
    ensures var r := Migrate(Some(Obj(fields)), d);
            && (!IsObjectSection(Field(Obj(fields), "master")) ==> r.master == d.master)
            && (!IsObjectSection(Field(Obj(fields), "oscillator")) ==> r.oscillator == d.oscillator)
            && (!IsObjectSection(Field(Obj(fields), "tempo")) ==> r.tempo == d.tempo)
            && (!("modRouting" in fields && fields["modRouting"].Arr?) ==> r.modRouting == d.modRouting)
    ensures var r := Migrate(Some(Obj(fields)), d);
            && (!IsObjectSection(Field(Obj(fields), "effects")) ==> r.effects == d.effects)
            && (IsObjectSection(Field(Obj(fields), "effects")) ==> r.effects == fields["effects"])
            && (!IsObjectSection(Field(Obj(fields), "lfo")) ==> r.lfo == d.lfo)
            && (IsObjectSection(Field(Obj(fields), "lfo")) ==> r.lfo == fields["lfo"])
            && (!IsObjectSection(Field(Obj(fields), "glide")) ==> r.glide == d.glide)
            && (IsObjectSection(Field(Obj(fields), "glide")) ==> r.glide == fields["glide"])
    ensures var r := Migrate(Some(Obj(fields)), d);
            && (!IsObjectSection(Field(Obj(fields), "filterEnvelope")) ==> r.filterEnvelope == d.filterEnvelope)
            && (IsObjectSection(Field(Obj(fields), "filterEnvelope")) ==> r.filterEnvelope == fields["filterEnvelope"])
            && (!IsObjectSection(Field(Obj(fields), "chorus")) ==> r.chorus == d.chorus)
            && (IsObjectSection(Field(Obj(fields), "chorus")) ==> r.chorus == fields["chorus"])
            && (!IsObjectSection(Field(Obj(fields), "phaser")) ==> r.phaser == d.phaser)
            && (IsObjectSection(Field(Obj(fields), "phaser")) ==> r.phaser == fields["phaser"])
            && (!IsObjectSection(Field(Obj(fields), "arpeggiator")) ==> r.arpeggiator == d.arpeggiator)
            && (IsObjectSection(Field(Obj(fields), "arpeggiator")) ==> r.arpeggiator == fields["arpeggiator"])
  {
  }

  /** The tempo takes a numeric `bpm` from a tempo object and otherwise the default; the pitch-bend range is taken
      when it is a number and otherwise defaults. */
  lemma TempoFieldsTyped(fields: map<string, Json>, d: PresetParams)
    ensures var r := Migrate(Some(Obj(fields)), d);
            var tempo := Field(Obj(fields), "tempo");
            var bpm := FieldOf(tempo, "bpm");
            && (IsObjectSection(tempo) && bpm.Some? && bpm.value.Num? ==> r.tempo.bpm == bpm.value.n)
            && (IsObjectSection(tempo) && !(bpm.Some? && bpm.value.Num?) ==> r.tempo.bpm == d.tempo.bpm)
            && ("pitchBendRange" in fields && fields["pitchBendRange"].Num? ==> r.pitchBendRange == fields["pitchBendRange"].n)
            && (!("pitchBendRange" in fields && fields["pitchBendRange"].Num?) ==> r.pitchBendRange == d.pitchBendRange)
  {
  }

  /** In any stored body whose master section is an object, a master field is taken only when it has the right
      primitive type; the waveform only when truthy. The other sections play no part. */
  lemma MasterFieldsTyped(fields: map<string, Json>, d: PresetParams)
    requires "master" in fields && fields["master"].Obj?
    ensures var m := fields["master"].fields;
            var r := Migrate(Some(Obj(fields)), d).master;
            && ("volume" in m && m["volume"].Num? ==> r.volume == m["volume"].n)
            && (!("volume" in m && m["volume"].Num?) ==> r.volume == d.master.volume)
            && ("attack" in m && m["attack"].Num? ==> r.attack == m["attack"].n)
            && (!("attack" in m && m["attack"].Num?) ==> r.attack == d.master.attack)
            && ("release" in m && m["release"].Num? ==> r.release == m["release"].n)
            && (!("release" in m && m["release"].Num?) ==> r.release == d.master.release)
            && ("octave" in m && m["octave"].Num? ==> r.octave == m["octave"].n)
            && (!("octave" in m && m["octave"].Num?) ==> r.octave == d.master.octave)
            && ("mono" in m && m["mono"].Bool? ==> r.mono == m["mono"].b)
            && (!("mono" in m && m["mono"].Bool?) ==> r.mono == d.master.mono)
            && (Truthy(Field(Obj(m), "waveform")) ==> r.waveform == m["waveform"])
            && (!Truthy(Field(Obj(m), "waveform")) ==> r.waveform == d.master.waveform)
  {
  }

  /** In any stored body whose oscillator section is an object, a level is taken only when it is a number; the
      waveform, sub-oscillator octave and noise type only when truthy. The other sections play no part. */
  lemma OscillatorFieldsTyped(fields: map<string, Json>, d: PresetParams)
    requires "oscillator" in fields && fields["oscillator"].Obj?
    ensures var o := fields["oscillator"].fields;
            var r := Migrate(Some(Obj(fields)), d).oscillator;
            && ("subOscLevel" in o && o["subOscLevel"].Num? ==> r.subOscLevel == o["subOscLevel"].n)
            && (!("subOscLevel" in o && o["subOscLevel"].Num?) ==> r.subOscLevel == d.oscillator.subOscLevel)
            && ("noiseLevel" in o && o["noiseLevel"].Num? ==> r.noiseLevel == o["noiseLevel"].n)
            && (!("noiseLevel" in o && o["noiseLevel"].Num?) ==> r.noiseLevel == d.oscillator.noiseLevel)
            && (Truthy(Field(Obj(o), "waveform")) ==> r.waveform == o["waveform"])
            && (!Truthy(Field(Obj(o), "waveform")) ==> r.waveform == d.oscillator.waveform)
            && (Truthy(Field(Obj(o), "subOscOctave")) ==> r.subOscOctave == o["subOscOctave"])
            && (!Truthy(Field(Obj(o), "subOscOctave")) ==> r.subOscOctave == d.oscillator.subOscOctave)
            && (Truthy(Field(Obj(o), "noiseType")) ==> r.noiseType == o["noiseType"])
            && (!Truthy(Field(Obj(o), "noiseType")) ==> r.noiseType == d.oscillator.noiseType)
  {
  }

  /** A routing array always migrates to exactly one filter-cutoff entry. It takes the first cutoff entry's amount
      when that is a number (else 0) and its flag when that is a boolean (else false); with no matching entry it is
      the disabled zero routing. */
  lemma RoutingArrayMigratesToOne(fields: map<string, Json>, d: PresetParams)
    requires "modRouting" in fields && fields["modRouting"].Arr?
    ensures var r := Migrate(Some(Obj(fields)), d).modRouting;
            && |r| == 1 && r[0].target == FilterCutoff
            && ((forall i :: 0 <= i < |fields["modRouting"].items| ==> !TargetsCutoff(fields["modRouting"].items[i]))
                ==> r[0] == ModRouting(FilterCutoff, 0.0, false))
    ensures var found := FindCutoff(fields["modRouting"].items);
            found.Some? ==>
              Migrate(Some(Obj(fields)), d).modRouting
                == [ModRouting(FilterCutoff, NumberOr(Field(found.value, "amount"), 0.0), BoolOr(Field(found.value, "enabled"), false))]
  {
  }

  /** The migration the source performs, whenever it does not throw, is the total one. */
  lemma {:induction false} AsWrittenAgrees(params: Option<Json>, d: PresetParams)
    ensures MigrateAsWritten(params, d).Ok? ==> MigrateAsWritten(params, d).value == Migrate(params, d)
  {
    if params.Some? && !params.value.Null? {
      var modRouting := Field(params.value, "modRouting");
      if modRouting.Some? && modRouting.value.Arr? {
        FindAgrees(modRouting.value.items);
      }
    }
  }

  lemma {:induction false} FindAgrees(items: seq<Json>)
    ensures FindCutoffAsWritten(items).Ok? ==> FindCutoffAsWritten(items).value == FindCutoff(items)
  {
    if items != [] && !items[0].Null? && !TargetsCutoff(items[0]) {
      FindAgrees(items[1..]);
    }
  }

  /** A stored body whose routing list holds a `null` before any match makes the source throw. */
  lemma NullRoutingEntryThrows(d: PresetParams)
    ensures MigrateAsWritten(Some(Obj(map["modRouting" := Arr([Null])])), d).Err?
    ensures Migrate(Some(Obj(map["modRouting" := Arr([Null])])), d).modRouting == [ModRouting(FilterCutoff, 0.0, false)]
  {
  }

  // ---------------------------------------------------------------------------
  // Serialisation, and migrating a migrated preset

  function RoutingToJson(r: ModRouting): Json {
    Obj(map["target" := Str(r.target), "amount" := Num(r.amount), "enabled" := Bool(r.enabled)])
  }

  function RoutingsToJson(rs: seq<ModRouting>): (r: seq<Json>)
    ensures |r| == |rs|
    ensures forall i :: 0 <= i < |rs| ==> r[i] == RoutingToJson(rs[i])
  {
    if rs == [] then [] else [RoutingToJson(rs[0])] + RoutingsToJson(rs[1..])
  }

  function MasterToJson(m: MasterParams): Json {
    Obj(map["volume" := Num(m.volume), "attack" := Num(m.attack), "release" := Num(m.release),
            "waveform" := m.waveform, "octave" := Num(m.octave), "mono" := Bool(m.mono)])
  }

  function OscillatorToJson(o: OscillatorParams): Json {
    Obj(map["waveform" := o.waveform, "subOscLevel" := Num(o.subOscLevel), "subOscOctave" := o.subOscOctave,
            "noiseLevel" := Num(o.noiseLevel), "noiseType" := o.noiseType])
  }

  /** The stored form of a parameter record (`JSON.stringify` then `JSON.parse`). */
  function ToJson(p: PresetParams): (r: Json)
    ensures r.Obj?
    ensures r.fields.Keys == {"master", "effects", "oscillator", "lfo", "modRouting", "glide", "filterEnvelope",
                              "chorus", "phaser", "arpeggiator", "tempo", "pitchBendRange"}
  {
    Obj(map[
      "master" := MasterToJson(p.master),
      "effects" := p.effects,
      "oscillator" := OscillatorToJson(p.oscillator),
      "lfo" := p.lfo,
      "modRouting" := Arr(RoutingsToJson(p.modRouting)),
      "glide" := p.glide,
      "filterEnvelope" := p.filterEnvelope,
      "chorus" := p.chorus,
      "phaser" := p.phaser,
      "arpeggiator" := p.arpeggiator,
      "tempo" := Obj(map["bpm" := Num(p.tempo.bpm)]),
      "pitchBendRange" := Num(p.pitchBendRange)])
  }

  /** A single filter-cutoff routing entry: the shape every migrated routing list has. */
  predicate SingleCutoffRouting(rs: seq<ModRouting>) {
    |rs| == 1 && rs[0].target == FilterCutoff
  }

  /** A field that survives a truthiness test, or is the default it would fall back to. */
  predicate KeepsTruthy(v: Json, fallback: Json) {
    Truthy(Some(v)) || v == fallback
  }

  /** A section that survives the object test, or is the default it would fall back to. */
  predicate KeepsSection(v: Json, fallback: Json) {
    IsObjectSection(Some(v)) || v == fallback
  }

  /** The records that migrate to themselves from their stored form. */
  predicate Reloadable(p: PresetParams, d: PresetParams) {
    && KeepsTruthy(p.master.waveform, d.master.waveform)
    && KeepsTruthy(p.oscillator.waveform, d.oscillator.waveform)
    && KeepsTruthy(p.oscillator.subOscOctave, d.oscillator.subOscOctave)
    && KeepsTruthy(p.oscillator.noiseType, d.oscillator.noiseType)
    && KeepsSection(p.effects, d.effects)
    && KeepsSection(p.lfo, d.lfo)
    && KeepsSection(p.glide, d.glide)
    && KeepsSection(p.filterEnvelope, d.filterEnvelope)
    && KeepsSection(p.chorus, d.chorus)
    && KeepsSection(p.phaser, d.phaser)
    && KeepsSection(p.arpeggiator, d.arpeggiator)
    && SingleCutoffRouting(p.modRouting)
  }

  lemma MasterRoundTrip(m: MasterParams, d: MasterParams)
    requires KeepsTruthy(m.waveform, d.waveform)
    ensures MigrateMaster(MasterToJson(m), d) == m
  {
  }

  lemma OscillatorRoundTrip(o: OscillatorParams, d: OscillatorParams)
    requires KeepsTruthy(o.waveform, d.waveform)
    requires KeepsTruthy(o.subOscOctave, d.subOscOctave)
    requires KeepsTruthy(o.noiseType, d.noiseType)
    ensures MigrateOscillator(OscillatorToJson(o), d) == o
  {
  }

  /** The routing list of a stored record migrates back to itself when it is a single filter-cutoff entry. */
  lemma RoutingRoundTrip(rs: seq<ModRouting>)
    requires SingleCutoffRouting(rs)
    ensures RoutingFrom(FindCutoff(RoutingsToJson(rs))) == rs
  {
  }

  /** Every top-level field of the stored form is found under its own key. */
  lemma StoredFields(p: PresetParams)
    ensures var stored := ToJson(p);
            && Field(stored, "master") == Some(MasterToJson(p.master))
            && Field(stored, "oscillator") == Some(OscillatorToJson(p.oscillator))
            && Field(stored, "modRouting") == Some(Arr(RoutingsToJson(p.modRouting)))
            && Field(stored, "tempo") == Some(Obj(map["bpm" := Num(p.tempo.bpm)]))
            && Field(stored, "effects") == Some(p.effects)
            && Field(stored, "lfo") == Some(p.lfo)
            && Field(stored, "glide") == Some(p.glide)
            && Field(stored, "filterEnvelope") == Some(p.filterEnvelope)
            && Field(stored, "chorus") == Some(p.chorus)
            && Field(stored, "phaser") == Some(p.phaser)
            && Field(stored, "arpeggiator") == Some(p.arpeggiator)
            && Field(stored, "pitchBendRange") == Some(Num(p.pitchBendRange))
  {
  }

  /** A reloadable record survives being stored and migrated again. */
  lemma StoredRoundTrip(p: PresetParams, d: PresetParams)
    requires Reloadable(p, d)
    ensures Migrate(Some(ToJson(p)), d) == p
  {
    StoredFields(p);
    MasterRoundTrip(p.master, d.master);
    OscillatorRoundTrip(p.oscillator, d.oscillator);
    RoutingRoundTrip(p.modRouting);
  }

  /** Whatever the stored body, its migration is reloadable (given a default routing of the migrated shape). */
  lemma MigrateIsReloadable(params: Option<Json>, d: PresetParams)
    requires SingleCutoffRouting(d.modRouting)
    ensures Reloadable(Migrate(params, d), d)
  {
  }

  /** Migrating the stored form of a migrated preset gives it back unchanged: migration is idempotent, so presets
      saved by this version load as they were saved. */
  lemma MigrateIdempotent(params: Option<Json>, d: PresetParams)
    requires SingleCutoffRouting(d.modRouting)
    ensures Migrate(Some(ToJson(Migrate(params, d))), d) == Migrate(params, d)
  {
    MigrateIsReloadable(params, d);
    StoredRoundTrip(Migrate(params, d), d);
  }

  // ---------------------------------------------------------------------------
  // The preset list

  /** `id.startsWith('user-')`. */
  predicate IsUserPreset(id: string)
    ensures IsUserPreset(id) <==> |id| >= 5 && id[..5] == "user-"
  {
    UserPrefix <= id
  }

  function DigitChar(d: nat): (c: char)
    requires d < 10
    ensures '0' <= c <= '9'
    ensures c as int - '0' as int == d
  {
    ['0', '1', '2', '3', '4', '5', '6', '7', '8', '9'][d]
  }

  /** The decimal digits of n (`${n}`). */
  function Decimal(n: nat): (r: string)
    ensures |r| >= 1
    ensures forall i :: 0 <= i < |r| ==> '0' <= r[i] <= '9'
  {
    if n < 10 then [DigitChar(n)] else Decimal(n / 10) + [DigitChar(n % 10)]
  }

  /** Different timestamps are written differently, so saves in different milliseconds get different ids. */
  lemma {:induction false} DecimalInjective(m: nat, n: nat)
    ensures Decimal(m) == Decimal(n) ==> m == n
    ensures UserPrefix + Decimal(m) == UserPrefix + Decimal(n) ==> m == n
    decreases m
  {
    if UserPrefix + Decimal(m) == UserPrefix + Decimal(n) {
      assert Decimal(m) == (UserPrefix + Decimal(m))[|UserPrefix|..];
      assert Decimal(n) == (UserPrefix + Decimal(n))[|UserPrefix|..];
    }
    var s, t := Decimal(m), Decimal(n);
    if s == t {
      if m < 10 && n < 10 {
        assert s[0] == DigitChar(m) && t[0] == DigitChar(n);
      } else if m >= 10 && n >= 10 {
        assert s[..|s| - 1] == Decimal(m / 10) && t[..|t| - 1] == Decimal(n / 10);
        assert s[|s| - 1] == DigitChar(m % 10) && t[|t| - 1] == DigitChar(n % 10);
        DecimalInjective(m / 10, n / 10);
      }
    }
  }

  /** `{ ...p, ...patch }`. */
  function ApplyPatch(p: Preset, patch: PresetPatch): (r: Preset)
    ensures patch == PresetPatch(None, None, None, None) ==> r == p
  {
    Preset(
      if patch.id.Some? then patch.id.value else p.id,
      if patch.name.Some? then patch.name.value else p.name,
      if patch.category.Some? then patch.category.value else p.category,
      if patch.params.Some? then patch.params.value else p.params)
  }

  /** `presets.map((p) => p.id === id ? { ...p, ...patch } : p)`. */
  function PatchWhere(presets: seq<Preset>, id: string, patch: PresetPatch): (r: seq<Preset>)
    ensures |r| == |presets|
    ensures forall i :: 0 <= i < |presets| ==> r[i] == if presets[i].id == id then ApplyPatch(presets[i], patch) else presets[i]
  {
    if presets == [] then [] else [if presets[0].id == id then ApplyPatch(presets[0], patch) else presets[0]] + PatchWhere(presets[1..], id, patch)
  }

  /** `presets.filter((p) => p.id !== id)`. */
  function WithoutId(presets: seq<Preset>, id: string): (r: seq<Preset>)
    ensures forall p :: p in r <==> p in presets && p.id != id
    ensures |r| <= |presets|
  {
    if presets == [] then []
    else if presets[0].id == id then WithoutId(presets[1..], id)
    else [presets[0]] + WithoutId(presets[1..], id)
  }

  /** Filtering distributes over concatenation, so the survivors keep their order and their number of copies. */
  lemma {:induction false} WithoutIdAppend(a: seq<Preset>, b: seq<Preset>, id: string)
    ensures WithoutId(a + b, id) == WithoutId(a, id) + WithoutId(b, id)
    decreases |a|
  {
    if a == [] {
      assert a + b == b;
    } else {
      var ab := a + b;
      assert ab[0] == a[0] && ab[1..] == a[1..] + b;
      WithoutIdAppend(a[1..], b, id);
    }
  }

  /** A single preset is kept exactly when its id differs. */
  lemma WithoutIdSingle(p: Preset, id: string)
    ensures WithoutId([p], id) == if p.id == id then [] else [p]
  {
    assert [p][1..] == [];
  }

  /** `presets.find((p) => p.id === id)`. */
  function FindById(presets: seq<Preset>, id: string): (r: Option<Preset>)
    ensures r.None? <==> forall i :: 0 <= i < |presets| ==> presets[i].id != id
    ensures r.Some? ==> r.value in presets && r.value.id == id
    ensures r.Some? ==> exists i :: 0 <= i < |presets| && presets[i] == r.value && forall k :: 0 <= k < i ==> presets[k].id != id
  {
    if presets == [] then None
    else if presets[0].id == id then Some(presets[0])
    else
      var r := FindById(presets[1..], id);
      assert forall i :: 1 <= i < |presets| ==> presets[i] == presets[1..][i - 1];
      if r.Some? then
        var j :| 0 <= j < |presets[1..]| && presets[1..][j] == r.value && forall k :: 0 <= k < j ==> presets[1..][k].id != id;
        assert presets[j + 1] == r.value;
        r
      else r
  }

  /** A preset as read back from storage, before its parameters are migrated. */
  datatype StoredPreset = StoredPreset(id: string, name: string, category: string, params: Option<Json>)

  /** Loading on mount: every stored preset keeps its id, name and category and gets migrated parameters. */
  function MigrateStored(stored: seq<StoredPreset>, d: PresetParams): (r: seq<Preset>)
    ensures |r| == |stored|
    ensures forall i :: 0 <= i < |stored| ==>
              r[i] == Preset(stored[i].id, stored[i].name, stored[i].category, Migrate(stored[i].params, d))
  {
    if stored == [] then []
    else [Preset(stored[0].id, stored[0].name, stored[0].category, Migrate(stored[0].params, d))] + MigrateStored(stored[1..], d)
  }

  /** The migrations of the mount load, run one after another as `parsed.map` does: the first one that throws
      aborts the whole list. */
  function MigrateAllAsWritten(stored: seq<StoredPreset>, d: PresetParams): (r: Result<seq<Preset>>)
    ensures r.Ok? ==> |r.value| == |stored|
  {
    if stored == [] then Ok([])
    else match MigrateAsWritten(stored[0].params, d)
      case Err(e) => Err(e)
      case Ok(p) =>
        match MigrateAllAsWritten(stored[1..], d)
        case Err(e) => Err(e)
        case Ok(rest) => Ok([Preset(stored[0].id, stored[0].name, stored[0].category, p)] + rest)
  }

  /** Loading on mount as written: the migrations run inside one `try`, so a single preset whose migration throws
      leaves the user list empty. */
  function LoadStoredAsWritten(stored: seq<StoredPreset>, d: PresetParams): (r: seq<Preset>)
    ensures |r| == 0 || |r| == |stored|
  {
    match MigrateAllAsWritten(stored, d)
    case Err(_) => []
    case Ok(presets) => presets
  }

  /** When no stored preset makes the migration throw, the load as written is the total one. */
  lemma {:induction false} LoadAsWrittenAgrees(stored: seq<StoredPreset>, d: PresetParams)
    requires forall i :: 0 <= i < |stored| ==> MigrateAsWritten(stored[i].params, d).Ok?
    ensures MigrateAllAsWritten(stored, d) == Ok(MigrateStored(stored, d))
    ensures LoadStoredAsWritten(stored, d) == MigrateStored(stored, d)
  {
    if stored != [] {
      AsWrittenAgrees(stored[0].params, d);
      assert forall i :: 0 <= i < |stored[1..]| ==> stored[1..][i] == stored[i + 1];
      LoadAsWrittenAgrees(stored[1..], d);
    }
  }

  /** One stored preset with `null` parameters, anywhere in the list, loses every user preset on load. */
  lemma {:induction false} NullParamsLoseAllPresets(before: seq<StoredPreset>, bad: StoredPreset, after: seq<StoredPreset>, d: PresetParams)
    requires bad.params == Some(Null)
    ensures MigrateAllAsWritten(before + [bad] + after, d).Err?
    ensures LoadStoredAsWritten(before + [bad] + after, d) == []
    ensures |MigrateStored(before + [bad] + after, d)| == |before| + 1 + |after|
    decreases |before|
  {
    var all := before + [bad] + after;
    if before == [] {
      assert all[0] == bad;
    } else {
      assert all[0] == before[0];
      assert all[1..] == before[1..] + [bad] + after;
      NullParamsLoseAllPresets(before[1..], bad, after, d);
    }
  }

  /** `usePresets`: the factory presets, the user presets and the current preset id. */
  class PresetStore {
    const factory: seq<Preset>
    const defaults: PresetParams
    var userPresets: seq<Preset>
    var currentPresetId: Option<string>

    /** Mounting: the stored user presets are loaded with their parameters migrated. */
    constructor (factory: seq<Preset>, defaults: PresetParams, stored: seq<StoredPreset>)
      ensures this.factory == factory && this.defaults == defaults
      ensures userPresets == MigrateStored(stored, defaults) && currentPresetId.None?
    {
      this.factory := factory;
      this.defaults := defaults;
      userPresets := MigrateStored(stored, defaults);
      currentPresetId := None;
    }

    /** `allPresets`: factory presets first, then user presets. */
    function AllPresets(): (r: seq<Preset>)
      reads `userPresets
      ensures |r| == |factory| + |userPresets|
      ensures r[..|factory|] == factory && r[|factory|..] == userPresets
    {
      factory + userPresets
    }

    /** `savePreset`: appends one preset with id "user-<now>" and makes it current. */
    method SavePreset(name: string, category: string, params: PresetParams, now: nat) returns (p: Preset)
      modifies this
      ensures p == Preset(UserPrefix + Decimal(now), name, category, params)
      ensures IsUserPreset(p.id)
      ensures userPresets == old(userPresets) + [p]
      ensures currentPresetId == Some(p.id)
    {
      p := Preset(UserPrefix + Decimal(now), name, category, params);
      userPresets := userPresets + [p];
      currentPresetId := Some(p.id);
    }

    /** `updatePreset`: patches every user preset with that id and nothing else. */
    method UpdatePreset(id: string, patch: PresetPatch)
      modifies this
      ensures userPresets == PatchWhere(old(userPresets), id, patch)
      ensures currentPresetId == old(currentPresetId)
    {
      userPresets := PatchWhere(userPresets, id, patch);
    }

    /** `deletePreset`: refuses ids without the user prefix; otherwise removes every preset with that id and
        clears the current id. */
    method DeletePreset(id: string) returns (deleted: bool)
      modifies this
      ensures deleted == IsUserPreset(id)
      ensures !deleted ==> userPresets == old(userPresets) && currentPresetId == old(currentPresetId)
      ensures deleted ==> userPresets == WithoutId(old(userPresets), id) && currentPresetId.None?
    {
      if !(UserPrefix <= id) {
        return false;
      }
      userPresets := WithoutId(userPresets, id);
      currentPresetId := None;
      return true;
    }

    /** `loadPreset`: the parameters of the first preset with that id, which becomes current; `null` and no change
        when there is none. */
    method LoadPreset(id: string) returns (params: Option<PresetParams>)
      modifies this
      ensures userPresets == old(userPresets)
      ensures params.Some? <==> exists i :: 0 <= i < |AllPresets()| && AllPresets()[i].id == id
      ensures params.Some? ==> currentPresetId == Some(id) && params == Some(FindById(AllPresets(), id).value.params)
      ensures params.None? ==> currentPresetId == old(currentPresetId)
    {
      var preset := FindById(AllPresets(), id);
      if preset.Some? {
        var all := AllPresets();
        var i :| 0 <= i < |all| && all[i] == preset.value;
        currentPresetId := Some(id);
        assert AllPresets()[i].id == id;
        return Some(preset.value.params);
      }
      return None;
    }

    /** `initPreset`: no current preset, and the default parameters. */
    method InitPreset() returns (params: PresetParams)
      modifies this
      ensures params == defaults && currentPresetId.None? && userPresets == old(userPresets)
    {
      currentPresetId := None;
      params := defaults;
    }
  }

  /** A saved preset is a user preset, so it can be deleted again, and deleting it removes it. */
  lemma SavedPresetIsDeletable(presets: seq<Preset>, p: Preset)
    requires IsUserPreset(p.id)
    ensures p !in WithoutId(presets + [p], p.id)
  {
  }

  /** Deleting removes every preset with the id and keeps every other one. */
  lemma DeleteKeepsOthers(presets: seq<Preset>, id: string, q: Preset)
    requires q in presets && q.id != id
    ensures q in WithoutId(presets, id)
  {
  }
}
