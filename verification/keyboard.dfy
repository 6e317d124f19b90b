/**
 * The computer-keyboard gate: turns key-down, key-up and window-blur events into note-on,
 * note-off and octave-change requests, remembering which note keys are down so that key
 * auto-repeat and a second press of a held key do not start the note again.
 */
module Keyboard {
  import opened Collections
  import Frequencies

  datatype Direction = Down | Up

  /** A request the gate sends on: the three callbacks it is given. */
  datatype Request = NoteOn(code: string) | NoteOff(code: string) | OctaveChange(direction: Direction)

  const OctaveDownKey: string := "KeyZ"
  const OctaveUpKey: string := "KeyX"

  /** The keys held after one more request. */
  function Step(held: seq<string>, q: Request): (r: seq<string>)
    ensures q.NoteOn? ==> q.code in r
    ensures q.NoteOff? ==> q.code !in r
    ensures forall k :: k in r ==> k in held || q == NoteOn(k)
  {
    match q
    case NoteOn(code) => Insert(held, code)
    case NoteOff(code) => Remove(held, code)
    case OctaveChange(_) => held
  }

  /** The keys held after a sequence of requests, starting from `held`. */
  function Replay(held: seq<string>, requests: seq<Request>): (r: seq<string>)
    decreases |requests|
  {
    if requests == [] then held else Replay(Step(held, requests[0]), requests[1..])
  }

  /** The keys a sequence of requests leaves held, from no key held. */
  function Held(requests: seq<Request>): (r: seq<string>)
    ensures Distinct(r)
  {
    ReplayDistinct([], requests);
    Replay([], requests)
  }

  /** No key is ever held twice. */
  lemma {:induction false} ReplayDistinct(held: seq<string>, requests: seq<Request>)
    requires Distinct(held)
    ensures Distinct(Replay(held, requests))
    decreases |requests|
  {
    if requests != [] {
      if requests[0].NoteOff? {
        RemoveDistinct(held, requests[0].code);
      }
      ReplayDistinct(Step(held, requests[0]), requests[1..]);
    }
  }

  /** Replaying two runs of requests is replaying the second from where the first ends. */
  lemma {:induction false} ReplayAppend(held: seq<string>, a: seq<Request>, b: seq<Request>)
    ensures Replay(held, a + b) == Replay(Replay(held, a), b)
    decreases |a|
  {
    if a == [] {
      assert a + b == b;
    } else {
      assert (a + b)[0] == a[0] && (a + b)[1..] == a[1..] + b;
      ReplayAppend(Step(held, a[0]), a[1..], b);
    }
  }

  /** Replaying one more request. */
  lemma HeldAppend(requests: seq<Request>, q: Request)
    ensures Held(requests + [q]) == Step(Held(requests), q)
  {
    ReplayAppend([], requests, [q]);
  }

  /** One note-off per code, in order. */
  function NoteOffs(codes: seq<string>): (r: seq<Request>)
    ensures |r| == |codes|
    ensures forall i :: 0 <= i < |codes| ==> r[i] == NoteOff(codes[i])
  {
    if codes == [] then [] else [NoteOff(codes[0])] + NoteOffs(codes[1..])
  }

  /** The octave keys are not note keys, so their presses never start a note. */
  lemma OctaveKeysAreNotNoteKeys()
    ensures OctaveDownKey !in Frequencies.NoteKeyCodes && OctaveUpKey !in Frequencies.NoteKeyCodes
  {
    Frequencies.NoteKeyCodesExact();
    Frequencies.CodesAreKeyLetters();
    forall i | 0 <= i < |Frequencies.KeyMapping|
      ensures Frequencies.KeyMapping[i].code != OctaveDownKey && Frequencies.KeyMapping[i].code != OctaveUpKey
    {
      assert Frequencies.KeyMapping[i].code[3] == Frequencies.Letters[i];
      assert OctaveDownKey[3] == 'Z' && OctaveUpKey[3] == 'X';
    }
  }

  /** `useKeyboard`: the held note keys and every request sent so far. */
  class KeyboardGate {
    var enabled: bool
    var activeKeys: seq<string>
    var requests: seq<Request>

    /** The held keys are note keys, and exactly the ones the requests sent so far leave held. */
    ghost predicate Valid()
      reads this
    {
      && activeKeys == Held(requests)
      && (forall k :: k in activeKeys ==> k in Frequencies.NoteKeyCodes)
    }

    constructor (enabled: bool)
      ensures Valid()
      ensures this.enabled == enabled && activeKeys == [] && requests == []
    {
      this.enabled := enabled;
      activeKeys := [];
      requests := [];
    }

    /** A key-down event; `prevented` is whether the browser's default action is suppressed. */
    method KeyDown(code: string, repeat: bool) returns (prevented: bool)
      requires Valid()
      modifies this
      ensures Valid() && enabled == old(enabled)
      ensures prevented <==> enabled && !repeat && (code in Frequencies.NoteKeyCodes || code == OctaveDownKey || code == OctaveUpKey)
      ensures !enabled || repeat ==> activeKeys == old(activeKeys) && requests == old(requests)
      ensures enabled && !repeat && code == OctaveDownKey ==>
                activeKeys == old(activeKeys) && requests == old(requests) + [OctaveChange(Down)]
      ensures enabled && !repeat && code == OctaveUpKey ==>
                activeKeys == old(activeKeys) && requests == old(requests) + [OctaveChange(Up)]
      ensures enabled && !repeat && code in Frequencies.NoteKeyCodes ==>
                if code in old(activeKeys) then activeKeys == old(activeKeys) && requests == old(requests)
                else activeKeys == old(activeKeys) + [code] && requests == old(requests) + [NoteOn(code)]
      ensures code !in Frequencies.NoteKeyCodes && code != OctaveDownKey && code != OctaveUpKey ==>
                activeKeys == old(activeKeys) && requests == old(requests)
    {
      OctaveKeysAreNotNoteKeys();
      if !enabled || repeat {
        return false;
      }
      prevented := code in Frequencies.NoteKeyCodes || code == OctaveDownKey || code == OctaveUpKey;
      if code == OctaveDownKey {
        HeldAppend(requests, OctaveChange(Down));
        requests := requests + [OctaveChange(Down)];
        return;
      }
      if code == OctaveUpKey {
        HeldAppend(requests, OctaveChange(Up));
        requests := requests + [OctaveChange(Up)];
        return;
      }
      if code in Frequencies.NoteKeyCodes && code !in activeKeys {
        HeldAppend(requests, NoteOn(code));
        activeKeys := Insert(activeKeys, code);
        requests := requests + [NoteOn(code)];
      }
    }

    /** A key-up event: a note key is forgotten and released, whether or not it was held. */
    method KeyUp(code: string)
      requires Valid()
      modifies this
      ensures Valid() && enabled == old(enabled)
      ensures enabled && code in Frequencies.NoteKeyCodes ==>
                activeKeys == Remove(old(activeKeys), code) && requests == old(requests) + [NoteOff(code)]
      ensures !(enabled && code in Frequencies.NoteKeyCodes) ==> activeKeys == old(activeKeys) && requests == old(requests)
    {
      if enabled && code in Frequencies.NoteKeyCodes {
        HeldAppend(requests, NoteOff(code));
        activeKeys := Remove(activeKeys, code);
        requests := requests + [NoteOff(code)];
      }
    }

    /** A window blur: every held key is released, in the order it was pressed, and none stays held. The listener is
        attached only while the gate is enabled. */
    method Blur()
      requires Valid()
      modifies this
      ensures Valid() && enabled == old(enabled)
      ensures enabled ==> activeKeys == [] && requests == old(requests) + NoteOffs(old(activeKeys))
      ensures !enabled ==> activeKeys == old(activeKeys) && requests == old(requests)
    {
      if enabled {
        var keys := activeKeys;
        var i := 0;
        while i < |keys|
          invariant 0 <= i <= |keys|
          invariant requests == old(requests) + NoteOffs(keys[..i])
          invariant activeKeys == keys && enabled
        {
          assert NoteOffs(keys[..i + 1]) == NoteOffs(keys[..i]) + [NoteOff(keys[i])];
          requests := requests + [NoteOff(keys[i])];
          i := i + 1;
        }
        assert keys[..i] == keys;
        assert keys == Held(old(requests));
        BlurHoldsNothing(old(requests));
        activeKeys := [];
      }
    }

    /** Turning the gate on or off attaches or detaches its listeners; held keys are kept. */
    method SetEnabled(enabled: bool)
      requires Valid()
      modifies this
      ensures Valid() && this.enabled == enabled && activeKeys == old(activeKeys) && requests == old(requests)
    {
      this.enabled := enabled;
    }
  }

  /** Pressing a key that is not held and releasing it leaves the same keys held as before. */
  lemma PressThenReleaseRestores(requests: seq<Request>, code: string)
    requires code !in Held(requests)
    ensures Held(requests + [NoteOn(code)] + [NoteOff(code)]) == Held(requests)
  {
    HeldAppend(requests, NoteOn(code));
    HeldAppend(requests + [NoteOn(code)], NoteOff(code));
    RemoveInsert(Held(requests), code);
    assert Held(requests + [NoteOn(code)]) == Insert(Held(requests), code);
  }

  /** After a blur's releases nothing is held. */
  lemma BlurHoldsNothing(requests: seq<Request>)
    ensures Held(requests + NoteOffs(Held(requests))) == []
  {
    ReplayAppend([], requests, NoteOffs(Held(requests)));
    ReplayDistinct([], requests);
    ReleasingAllHoldsNothing(Held(requests));
  }

  /** Releasing every held key, in order, leaves nothing held. */
  lemma {:induction false} ReleasingAllHoldsNothing(keys: seq<string>)
    requires Distinct(keys)
    ensures Replay(keys, NoteOffs(keys)) == []
  {
    if keys != [] {
      RemoveFirst(keys);
      var offs := NoteOffs(keys);
      assert offs[0] == NoteOff(keys[0]) && offs[1..] == NoteOffs(keys[1..]);
      assert Distinct(keys[1..]) by {
        forall i, j | 0 <= i < j < |keys[1..]| ensures keys[1..][i] != keys[1..][j] {
          assert keys[1..][i] == keys[i + 1] && keys[1..][j] == keys[j + 1];
        }
      }
      ReleasingAllHoldsNothing(keys[1..]);
    }
  }
}
