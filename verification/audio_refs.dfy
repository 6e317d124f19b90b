/**
 * Guards over the engine's node references. A reference slot holds a node, or JavaScript's
 * `null` (the engine's "not yet constructed" value), or `undefined`; the helpers treat only
 * `null` as missing.
 */
module AudioRefs {

  datatype Slot<T> = Null | Undefined | Node(node: T)

  datatype Outcome = Pass | Throw(message: string)

  /** `assertAudioNode`: throws, naming the node, exactly when the reference is null. */
  function AssertAudioNode<T>(ref: Slot<T>, name: string): (r: Outcome)
    ensures r.Throw? <==> ref.Null?
    ensures r.Throw? ==> r.message == "Audio node \"" + name + "\" not initialized. Call initializeAudio() first."
  {
    if ref.Null? then Throw("Audio node \"" + name + "\" not initialized. Call initializeAudio() first.") else Pass
  }

  /** `getAudioNode` (`ref ?? undefined`): null becomes undefined, anything else is returned unchanged. */
  function GetAudioNode<T>(ref: Slot<T>): (r: Slot<T>)
    ensures !r.Null?
    ensures ref.Null? ==> r.Undefined?
    ensures !ref.Null? ==> r == ref
  {
    match ref
    case Null => Undefined
    case _ => ref
  }

  /** `isAudioInitialized`: `Object.values(refs).every((ref) => ref !== null)`, over the values in enumeration order. */
  function IsAudioInitialized<T>(values: seq<Slot<T>>): (r: bool)
    ensures r <==> forall i :: 0 <= i < |values| ==> !values[i].Null?
  {
    if values == [] then true
    else !values[0].Null? && IsAudioInitialized(values[1..])
  }

  /** A record with no entries counts as initialised, and `undefined` entries do not count as missing. */
  lemma EmptyAndUndefinedAreInitialized<T>(values: seq<Slot<T>>)
    requires forall i :: 0 <= i < |values| ==> values[i].Undefined?
    ensures IsAudioInitialized(values)
    ensures IsAudioInitialized<T>([])
  {
  }

  /** One null entry anywhere makes the whole record uninitialised. */
  lemma OneNullIsEnough<T>(before: seq<Slot<T>>, after: seq<Slot<T>>)
    ensures !IsAudioInitialized(before + [Null] + after)
  {
    assert (before + [Null] + after)[|before|] == Null;
  }
}
