/** The live, in-memory status the controller keeps: a power/input state per
    device and the current scene with its status (Api/models/Status.py; the
    same state tracking is repeated verbatim in Api/models/DeviceState.py and
    modelled once here). */
module DeviceStatus {
  import opened Wrappers
  import opened Catalog

  /** Tracked state of one device. */
  datatype DeviceState = DeviceState(powered: bool, input: Option<nat>)

  /** An unpowered device has no current input. */
  predicate Consistent(s: DeviceState)
  {
    s.powered || s.input == None
  }

  /** The stored entry for a device, or a fresh default; the map is not changed. */
  function Lookup(states: map<nat, DeviceState>, id: nat): (r: DeviceState)
    ensures id in states ==> r == states[id]
    ensures id !in states ==> r == DeviceState(false, None)
  {
    if id in states then states[id] else DeviceState(false, None)
  }

  /** The state `set_state` leaves behind: the toggle is applied first, then
      the explicit power value, then the new input, and an unpowered device
      loses its input. */
  function NextState(cur: DeviceState, newPower: Option<bool>, newInput: Option<nat>, toggle: bool): (r: DeviceState)
    ensures newPower.Some? ==> r.powered == newPower.value
    ensures newPower.None? ==> r.powered == (cur.powered != toggle)
    ensures r.powered ==> r.input == (if newInput.Some? then newInput else cur.input)
    ensures Consistent(r)
  {
    var toggled := if toggle then !cur.powered else cur.powered;
    var powered := if newPower.Some? then newPower.value else toggled;
    var input := if newInput.Some? then newInput else cur.input;
    DeviceState(powered, if powered then input else None)
  }

  /** Setting the same power and input twice is the same as setting them once. */
  lemma NextStateIdempotent(cur: DeviceState, newPower: Option<bool>, newInput: Option<nat>)
    ensures NextState(NextState(cur, newPower, newInput, false), newPower, newInput, false)
         == NextState(cur, newPower, newInput, false)
  {
  }

  /** Toggling a powered device twice powers it back on but forgets its input. */
  lemma ToggleTwiceForgetsInput(cur: DeviceState)
    requires cur.powered
    ensures NextState(NextState(cur, None, None, true), None, None, true) == DeviceState(true, None)
  {
  }

  /** The per-device state map of `DeviceStates`. */
  class DeviceStates {
    var states: map<nat, DeviceState>

    /** Every stored entry keeps "unpowered implies no input". */
    ghost predicate Valid()
      reads this
    {
      forall id :: id in states ==> Consistent(states[id])
    }

    constructor ()
      ensures states == map[] && Valid()
    {
      states := map[];
    }

    /** `state(for_device_id)`: a lookup that never inserts. */
    function State(forDeviceId: nat): DeviceState
      reads this
    {
      Lookup(states, forDeviceId)
    }

    /** `set_state`: only the addressed entry is written. */
    method SetState(deviceId: nat, newPowerState: Option<bool>, newInput: Option<nat>, togglePower: bool)
      modifies this
      ensures states == old(states)[deviceId := NextState(old(Lookup(states, deviceId)), newPowerState, newInput, togglePower)]
      ensures forall id :: id in old(states) && id != deviceId ==> id in states && states[id] == old(states)[id]
      ensures Consistent(states[deviceId])
      ensures old(Valid()) ==> Valid()
    {
      var current := State(deviceId);
      if togglePower {
        current := current.(powered := !current.powered);
      }
      if newPowerState.Some? {
        current := current.(powered := newPowerState.value);
      }
      if newInput.Some? {
        current := current.(input := newInput);
      }
      if !current.powered {
        current := current.(input := None);
      }
      states := states[deviceId := current];
    }
  }

  /** The status report: current scene, its status, and the device states. */
  class StatusReport {
    var currentScene: Option<Scene>
    var sceneStatus: Option<SceneStatus>
    const devices: DeviceStates

    constructor ()
      ensures currentScene == None && sceneStatus == None
      ensures fresh(devices) && devices.states == map[] && devices.Valid()
    {
      currentScene := None;
      sceneStatus := None;
      devices := new DeviceStates();
    }
  }
}
