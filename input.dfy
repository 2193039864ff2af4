/** The 16-key keypad of src/chip8/input.rs. */
module Input {
  import opened Types

  const KEY_COUNT: nat := 16

  /**
   * The iterator pipeline `enumerate().filter(pressed).map(index).next()`,
   * started at position `from`: the first pressed key at or after `from`.
   */
  function FirstPressed(keys: seq<bool>, from: nat): (r: Option<nat>)
    requires from <= |keys|
    decreases |keys| - from
    ensures r.Some? ==> from <= r.value < |keys| && keys[r.value]
    ensures r.Some? ==> forall j :: from <= j < r.value ==> !keys[j]
    ensures r.None? <==> forall j :: from <= j < |keys| ==> !keys[j]
  {
    if from == |keys| then None
    else if keys[from] then Some(from)
    else FirstPressed(keys, from + 1)
  }

  class Chip8Input {
    /** Key i is held when `keysStatus[i]`; written in place through `get_keys_status_mut`. */
    const keysStatus: array<bool>

    ghost predicate Valid() {
      keysStatus.Length == KEY_COUNT
    }

    /** `new`: no key held. */
    constructor ()
      ensures Valid() && fresh(keysStatus)
      ensures forall k :: 0 <= k < KEY_COUNT ==> !keysStatus[k]
    {
      keysStatus := new bool[KEY_COUNT](_ => false);
    }

    /** `get_keys_status`. */
    function GetKeysStatus(): (s: seq<bool>)
      reads keysStatus
      requires Valid()
      ensures |s| == KEY_COUNT
    {
      keysStatus[..]
    }

    /**
     * `get_current_key`: the lowest-numbered held key, or None exactly when
     * no key is held. Being a function, it cannot change `keysStatus`.
     */
    function GetCurrentKey(): (r: Option<nat>)
      reads keysStatus
      requires Valid()
      ensures r.Some? ==> r.value < KEY_COUNT && keysStatus[r.value]
      ensures r.Some? ==> forall j :: 0 <= j < r.value ==> !keysStatus[j]
      ensures r.None? <==> forall j :: 0 <= j < KEY_COUNT ==> !keysStatus[j]
    {
      FirstPressed(GetKeysStatus(), 0)
    }
  }
}
