/** The orchestrator (RemoteController/RemoteController.py): dispatch of a
    stored command by its type, with the power and input guards used while
    a scene starts or stops; the device-state table; scene start, stop and
    bookkeeping; keymap loading; and the RF button handlers that fill the
    task queue.

    Every call into the IR, BLE and HTTP subsystems, and every sleep, is an
    `Event` appended to a log; the catalog, keymap files and HTTP peer are
    fixed inputs. Errors the source raises are returned as values and end
    the operation where the source's exception would. */
module Controller {
  import opened Wrappers
  import opened Catalog
  import opened Errors
  import opened DeviceStatus
  import BleKeyboard

  /** An HTTP request made for a network command. */
  datatype HttpRequest = HttpRequest(httpMethod: NetworkRequestType, host: string, body: Option<string>)

  /** What the peer does with a request. */
  datatype HttpOutcome = Replied(status: int, content: string) | ReadTimeout | ConnectError

  /** What `send_network_command` returns. */
  datatype NetReply = Response(status: int, content: string) | Message(text: string)

  /** A call into another subsystem, or a sleep (in milliseconds). */
  datatype Event =
    | IrSend(code: seq<int>)
    | IrSendAndRepeat(code: seq<int>)
    | IrStopRepeating
    | KeySend(key: string)
    | KeyPress(key: string)
    | KeysRelease
    | MediaSend(key: string)
    | MediaPress(key: string)
    | MediaKeysRelease
    | Request(request: HttpRequest)
    | Sleep(millis: int)
    | BleUnregisterServices
    | BleConnect(address: string)
    | BleRegisterServices
    | BleDisconnect(address: string)

  /** An entry of the task queue. `NotAwaitable` is the None a synchronous
      call returns when its result is enqueued. */
  datatype Task =
    | StopSceneTask
    | StartSceneTask(sceneId: int)
    | SendCommandTask(commandId: int)
    | NotAwaitable

  /** The fixed inputs: the catalog, the scene keymap file (None when it is
      missing) and the keymap files by name. */
  datatype Config = Config(
    catalog: Catalog,
    sceneKeymap: Option<map<string, int>>,
    keymaps: map<string, map<string, int>>)

  /** Everything the controller changes. */
  datatype World = World(
    devices: map<nat, DeviceState>,
    currentScene: Option<Scene>,
    sceneStatus: Option<SceneStatus>,
    keymap: map<string, int>,
    keymapScene: map<string, int>,
    log: seq<Event>,
    queue: seq<Task>)

  /** The state after an operation, and the error it raised, if any. */
  datatype Step = Step(w: World, err: Option<Error>)

  // ---------------------------------------------------------------------
  // Guards and dispatch

  /** While a scene starts: the device is already on, or already on this
      input. */
  predicate SkipOnStart(devices: map<nat, DeviceState>, c: Command)
  {
    c.deviceId.Some? &&
    var st := Lookup(devices, c.deviceId.value);
    (PowersOn(c.button) && st.powered) || (c.group == Input && st.input == Some(c.id))
  }

  /** While a scene stops: the device is already off. */
  predicate SkipOnStop(devices: map<nat, DeviceState>, c: Command)
  {
    c.deviceId.Some? && PowersOff(c.button) && !Lookup(devices, c.deviceId.value).powered
  }

  predicate Skipped(devices: map<nat, DeviceState>, c: Command, fromStart: bool, fromStop: bool)
  {
    (fromStart && SkipOnStart(devices, c)) || (fromStop && SkipOnStop(devices, c))
  }

  /** `send_ir_command`: an empty code is an error; a press without release
      repeats the code. */
  function IrEvents(c: Command, press: bool): (r: Result<seq<Event>, Error>)
    ensures r.Err? <==> c.irAction == []
    ensures r.Err? ==> r.error == HttpError(500, NoExecutableAction)
    ensures r.Ok? ==> r.value == [if press then IrSendAndRepeat(c.irAction) else IrSend(c.irAction)]
  {
    if c.irAction != [] then
      Ok([if press then IrSendAndRepeat(c.irAction) else IrSend(c.irAction)])
    else
      Err(HttpError(500, NoExecutableAction))
  }

  /** `send_bt_command`: the key action wins over the media action; with
      neither it is an error. */
  function BtEvents(c: Command, press: bool, releaseOnly: bool): (r: Result<seq<Event>, Error>)
    ensures r.Err? <==> !Truthy(c.btAction) && !Truthy(c.btMediaAction)
    ensures r.Err? ==> r.error == HttpError(500, NoExecutableAction)
    ensures Truthy(c.btAction) && releaseOnly ==> r == Ok([KeysRelease])
    ensures Truthy(c.btAction) && !releaseOnly && press ==> r == Ok([KeyPress(c.btAction.value)])
    ensures Truthy(c.btAction) && !releaseOnly && !press ==> r == Ok([KeySend(c.btAction.value)])
    ensures !Truthy(c.btAction) && Truthy(c.btMediaAction) && releaseOnly ==> r == Ok([MediaKeysRelease])
    ensures !Truthy(c.btAction) && Truthy(c.btMediaAction) && !releaseOnly && press ==>
              r == Ok([MediaPress(c.btMediaAction.value)])
    ensures !Truthy(c.btAction) && Truthy(c.btMediaAction) && !releaseOnly && !press ==>
              r == Ok([MediaSend(c.btMediaAction.value)])
  {
    if Truthy(c.btAction) then
      var key := c.btAction.value;
      Ok([if releaseOnly then KeysRelease else if press then KeyPress(key) else KeySend(key)])
    else if Truthy(c.btMediaAction) then
      var key := c.btMediaAction.value;
      Ok([if releaseOnly then MediaKeysRelease else if press then MediaPress(key) else MediaSend(key)])
    else
      Err(HttpError(500, NoExecutableAction))
  }

  /** Sends a body with the request. */
  predicate HasBody(m: NetworkRequestType)
  {
    m == Post || m == Patch || m == Put
  }

  /** The request of `send_network_command`: none without a method, and a
      body only for POST, PATCH and PUT. A missing host makes httpx reject
      the URL with a TypeError, which the handler does not catch. */
  function NetworkRequest(c: Command): (r: Result<HttpRequest, Error>)
    ensures r.Err? <==> c.httpMethod.None? || c.host.None?
    ensures c.httpMethod.None? ==> r == Err(HttpError(500, NoExecutableAction))
    ensures c.httpMethod.Some? && c.host.None? ==> r == Err(TypeError)
    ensures r.Ok? ==> r.value.httpMethod == c.httpMethod.value && c.host == Some(r.value.host)
    ensures r.Ok? && HasBody(r.value.httpMethod) ==> r.value.body == c.body
    ensures r.Ok? && !HasBody(r.value.httpMethod) ==> r.value.body == None
  {
    match c.httpMethod
    case None => Err(HttpError(500, NoExecutableAction))
    case Some(m) =>
      if c.host.None? then Err(TypeError)
      else Ok(HttpRequest(m, c.host.value, if HasBody(m) then c.body else None))
  }

  /** A timeout or a refused connection becomes a fixed message instead of
      an error. */
  function Reply(o: HttpOutcome): (r: NetReply)
    ensures o.Replied? <==> r.Response?
    ensures o.Replied? ==> r == Response(o.status, o.content)
    ensures o.ReadTimeout? ==> r == Message("Encountered a timeout")
    ensures o.ConnectError? ==> r == Message("All connection attempts failed")
  {
    match o
    case Replied(status, content) => Response(status, content)
    case ReadTimeout => Message("Encountered a timeout")
    case ConnectError => Message("All connection attempts failed")
  }

  /** The calls made for a command by its type, or the error raised. */
  function Dispatch(c: Command, press: bool): (r: Result<seq<Event>, Error>)
    ensures c.kind == Ir ==> r == IrEvents(c, press)
    ensures c.kind == Bluetooth ==> r == BtEvents(c, press, false)
    ensures c.kind == Network && NetworkRequest(c).Ok? ==> r == Ok([Request(NetworkRequest(c).value)])
    ensures c.kind == Network && NetworkRequest(c).Err? ==> r == Err(NetworkRequest(c).error)
    ensures c.kind == Script ==> r == Err(HttpError(400, ScriptNotImplemented))
    ensures r.Err? <==> (|| (c.kind == Ir && c.irAction == [])
                         || (c.kind == Bluetooth && !Truthy(c.btAction) && !Truthy(c.btMediaAction))
                         || (c.kind == Network && (c.httpMethod.None? || c.host.None?))
                         || c.kind == Script)
    ensures r.Err? ==> r.error.HttpError? || r.error == TypeError
    ensures r.Ok? ==> |r.value| == 1 && !r.value[0].Sleep?
  {
    match c.kind
    case Ir => IrEvents(c, press)
    case Bluetooth => BtEvents(c, press, false)
    case Network =>
      (match NetworkRequest(c)
       case Ok(req) => Ok([Request(req)])
       case Err(e) => Err(e))
    case Script => Err(HttpError(400, ScriptNotImplemented))
  }

  // ---------------------------------------------------------------------
  // Device state

  /** `set_state_for_command`: an input command powers the device and
      selects the input, then the power buttons apply; a command without a
      device changes nothing, and only the command's device changes. */
  function StateUpdate(devices: map<nat, DeviceState>, c: Command): (r: map<nat, DeviceState>)
    ensures c.deviceId.None? ==> r == devices
    ensures forall k :: c.deviceId != Some(k) ==> (k in r <==> k in devices) && (k in r ==> r[k] == devices[k])
    ensures c.deviceId.Some? ==>
              var d := c.deviceId.value;
              && (c.button == PowerOn ==> d in r && r[d].powered && Consistent(r[d]))
              && (c.button == PowerOff ==> d in r && r[d] == DeviceState(false, None))
              && (c.button == PowerToggle ==>
                    d in r && Consistent(r[d]) && r[d].powered == !(c.group == Input || Lookup(devices, d).powered))
              && (c.group == Input && !PowersOff(c.button) ==> d in r && r[d] == DeviceState(true, Some(c.id)))
              && (c.group != Input && !PowersOn(c.button) && !PowersOff(c.button) ==> r == devices)
  {
    if c.deviceId.None? then devices
    else
      var d := c.deviceId.value;
      var afterInput := if c.group == Input then devices[d := NextState(Lookup(devices, d), Some(true), Some(c.id), false)]
                        else devices;
      if c.button == PowerOn then afterInput[d := NextState(Lookup(afterInput, d), Some(true), None, false)]
      else if c.button == PowerOff then afterInput[d := NextState(Lookup(afterInput, d), Some(false), None, false)]
      else if c.button == PowerToggle then afterInput[d := NextState(Lookup(afterInput, d), None, None, true)]
      else afterInput
  }

  /** The state table as written: Api/models/CommandGroupType.py has no
      INPUT member, so for every command with a device the comparison with
      `CommandGroupType.INPUT` raises AttributeError. */
  function StateUpdateAsWritten(devices: map<nat, DeviceState>, c: Command): (r: Result<map<nat, DeviceState>, Error>)
    ensures c.deviceId.None? ==> r == Ok(StateUpdate(devices, c))
    ensures c.deviceId.Some? ==> r == Err(AttributeError)
  {
    if c.deviceId.None? then Ok(devices) else Err(AttributeError)
  }

  /** The start guard as written: only an already-satisfied power-on returns
      before the INPUT comparison; every other command with a device raises. */
  function StartGuardAsWritten(devices: map<nat, DeviceState>, c: Command): (r: Result<bool, Error>)
    ensures r.Ok? ==> r.value == SkipOnStart(devices, c)
    ensures r.Err? <==> c.deviceId.Some? && !(PowersOn(c.button) && Lookup(devices, c.deviceId.value).powered)
  {
    if c.deviceId.None? then Ok(false)
    else if PowersOn(c.button) && Lookup(devices, c.deviceId.value).powered then Ok(true)
    else Err(AttributeError)
  }

  /** A power-on command for device 1. */
  const PowerOnDevice1: Command :=
    Command(1, "Power", PowerOn, Ir, Power, Some(1), None, None, None, None, None, [9000, 4500])

  /** As written, powering on an unknown device raises after the IR code is
      sent and records nothing; the intended table records it as on. */
  lemma PowerOnAsWritten()
    ensures StartGuardAsWritten(map[], PowerOnDevice1) == Err(AttributeError)
    ensures StateUpdateAsWritten(map[], PowerOnDevice1) == Err(AttributeError)
    ensures StateUpdate(map[], PowerOnDevice1) == map[1 := DeviceState(true, None)]
  {
  }

  /** `set_states_for_commands`: the updates in command order. */
  function StateUpdates(devices: map<nat, DeviceState>, cmds: seq<Command>): map<nat, DeviceState>
    decreases |cmds|
  {
    if cmds == [] then devices else StateUpdates(StateUpdate(devices, cmds[0]), cmds[1..])
  }

  /** A device no command names keeps its state. */
  lemma {:induction false} StateUpdatesFrame(devices: map<nat, DeviceState>, cmds: seq<Command>, d: nat)
    requires forall k :: 0 <= k < |cmds| ==> cmds[k].deviceId != Some(d)
    ensures Lookup(StateUpdates(devices, cmds), d) == Lookup(devices, d)
    decreases |cmds|
  {
    if cmds != [] {
      StateUpdatesFrame(StateUpdate(devices, cmds[0]), cmds[1..], d);
    }
  }

  /** Running two command lists one after the other updates the states as
      running their concatenation. */
  lemma {:induction false} StateUpdatesAppend(devices: map<nat, DeviceState>, a: seq<Command>, b: seq<Command>)
    ensures StateUpdates(devices, a + b) == StateUpdates(StateUpdates(devices, a), b)
    decreases |a|
  {
    if a != [] {
      assert (a + b)[1..] == a[1..] + b;
      StateUpdatesAppend(StateUpdate(devices, a[0]), a[1..], b);
    } else {
      assert a + b == b;
    }
  }

  /** What a start-guarded skip saves: an already powered device would stay
      as it is under its power-on, and a device already on the command's
      input would stay as it is under it; a toggle, skipped too, would have
      switched the device off. */
  lemma StartSkipRedundant(devices: map<nat, DeviceState>, c: Command)
    requires c.deviceId.Some? && Consistent(Lookup(devices, c.deviceId.value))
    requires SkipOnStart(devices, c)
    ensures var d := c.deviceId.value;
            var after := Lookup(StateUpdate(devices, c), d);
            && (c.button == PowerOn && c.group != Input ==> after == Lookup(devices, d))
            && (c.group == Input && !PowersOn(c.button) && !PowersOff(c.button) ==> after == Lookup(devices, d))
            && (c.button == PowerToggle && c.group != Input ==> !after.powered)
  {
  }

  /** What a stop-guarded skip saves: a device already off would stay as it
      is under its power-off; a toggle, skipped too, would have switched the
      device on. */
  lemma StopSkipRedundant(devices: map<nat, DeviceState>, c: Command)
    requires c.deviceId.Some? && Consistent(Lookup(devices, c.deviceId.value))
    requires SkipOnStop(devices, c)
    ensures var d := c.deviceId.value;
            var after := Lookup(StateUpdate(devices, c), d);
            && (c.button == PowerOff ==> after == Lookup(devices, d))
            && (c.button == PowerToggle && c.group != Input ==> after.powered)
  {
  }

  /** `send_db_command`: a guarded command changes nothing; otherwise the
      command is dispatched and, if that raised nothing, the state table is
      applied. */
  function SendDb(w: World, c: Command, press: bool, fromStart: bool, fromStop: bool): (r: Step)
    ensures Skipped(w.devices, c, fromStart, fromStop) ==> r == Step(w, None)
    ensures !Skipped(w.devices, c, fromStart, fromStop) && Dispatch(c, press).Err? ==>
              r == Step(w, Some(Dispatch(c, press).error))
    ensures !Skipped(w.devices, c, fromStart, fromStop) && Dispatch(c, press).Ok? ==>
              r == Step(w.(log := w.log + Dispatch(c, press).value, devices := StateUpdate(w.devices, c)), None)
    ensures r.err.None? ==> r.w.devices == (if Skipped(w.devices, c, fromStart, fromStop) then w.devices
                                            else StateUpdate(w.devices, c))
    ensures r.err.Some? ==> (r.err.value.HttpError? || r.err.value == TypeError) && r.w == w
    ensures r.w == w.(devices := r.w.devices, log := r.w.log)
    ensures |w.log| <= |r.w.log| <= |w.log| + 1 && r.w.log[..|w.log|] == w.log
  {
    if Skipped(w.devices, c, fromStart, fromStop) then Step(w, None)
    else
      match Dispatch(c, press)
      case Err(e) => Step(w, Some(e))
      case Ok(events) => Step(w.(log := w.log + events, devices := StateUpdate(w.devices, c)), None)
  }

  /** `send_command`: look up the command, then dispatch it unguarded. */
  function SendCommandStep(w: World, cfg: Config, commandId: int, press: bool): (r: Step)
    ensures (commandId < 0 || commandId as nat !in cfg.catalog.commands) ==>
              r == Step(w, Some(HttpError(404, CommandNotFound(commandId))))
    ensures 0 <= commandId && commandId as nat in cfg.catalog.commands ==>
              r == SendDb(w, cfg.catalog.commands[commandId as nat], press, false, false)
  {
    if commandId < 0 || commandId as nat !in cfg.catalog.commands then
      Step(w, Some(HttpError(404, CommandNotFound(commandId))))
    else
      SendDb(w, cfg.catalog.commands[commandId as nat], press, false, false)
  }

  // ---------------------------------------------------------------------
  // Macros of a scene

  /** The start loop from command `i`: each command guarded by `from_start`,
      then the delay after it unless it is the last. */
  function StartRun(w: World, m: Macro, i: nat): Step
    requires i <= |m.commands|
    decreases |m.commands| - i
  {
    if i == |m.commands| then Step(w, None)
    else
      var s := SendDb(w, m.commands[i], false, true, false);
      if s.err.Some? then s
      else if i < |m.commands| - 1 then
        if i < |m.delays| then StartRun(s.w.(log := s.w.log + [Sleep(m.delays[i])]), m, i + 1)
        else Step(s.w, Some(IndexError))
      else StartRun(s.w, m, i + 1)
  }

  /** Whether the stop loop sends a command. */
  predicate StopSends(c: Command, skip: set<nat>)
  {
    (c.deviceId.None? || c.deviceId.value !in skip) && PowersOff(c.button)
  }

  /** The stop loop from command `i`: only power-off and toggle commands of
      devices outside `skip`, guarded by `from_stop`; a delay follows only a
      sent command that is not the last. */
  function StopRun(w: World, m: Macro, skip: set<nat>, i: nat): Step
    requires i <= |m.commands|
    decreases |m.commands| - i
  {
    if i == |m.commands| then Step(w, None)
    else if StopSends(m.commands[i], skip) then
      var s := SendDb(w, m.commands[i], false, false, true);
      if s.err.Some? then s
      else if i < |m.commands| - 1 then
        if i < |m.delays| then StopRun(s.w.(log := s.w.log + [Sleep(m.delays[i])]), m, skip, i + 1)
        else Step(s.w, Some(IndexError))
      else StopRun(s.w, m, skip, i + 1)
    else StopRun(w, m, skip, i + 1)
  }

  /** The start loop raises only what a send raises, or an IndexError for a
      missing delay. */
  lemma {:induction false} StartRunErrors(w: World, m: Macro, i: nat)
    requires i <= |m.commands|
    ensures var r := StartRun(w, m, i);
            r.err.Some? ==> r.err.value.HttpError? || r.err.value == TypeError || r.err.value == IndexError
    decreases |m.commands| - i
  {
    if i < |m.commands| {
      var s := SendDb(w, m.commands[i], false, true, false);
      if s.err.None? {
        if i < |m.commands| - 1 {
          if i < |m.delays| {
            StartRunErrors(s.w.(log := s.w.log + [Sleep(m.delays[i])]), m, i + 1);
          }
        } else {
          StartRunErrors(s.w, m, i + 1);
        }
      }
    }
  }

  /** The stop loop raises only what a send raises, or an IndexError for a
      missing delay. */
  lemma {:induction false} StopRunErrors(w: World, m: Macro, skip: set<nat>, i: nat)
    requires i <= |m.commands|
    ensures var r := StopRun(w, m, skip, i);
            r.err.Some? ==> r.err.value.HttpError? || r.err.value == TypeError || r.err.value == IndexError
    decreases |m.commands| - i
  {
    if i < |m.commands| {
      if StopSends(m.commands[i], skip) {
        var s := SendDb(w, m.commands[i], false, false, true);
        if s.err.None? {
          if i < |m.commands| - 1 {
            if i < |m.delays| {
              StopRunErrors(s.w.(log := s.w.log + [Sleep(m.delays[i])]), m, skip, i + 1);
            }
          } else {
            StopRunErrors(s.w, m, skip, i + 1);
          }
        }
      } else {
        StopRunErrors(w, m, skip, i + 1);
      }
    }
  }

  /** The start loop only touches the device states and the log, and only
      appends to the log. */
  lemma {:induction false} StartRunFrame(w: World, m: Macro, i: nat)
    requires i <= |m.commands|
    ensures var r := StartRun(w, m, i);
            r.w == w.(devices := r.w.devices, log := r.w.log) && |w.log| <= |r.w.log| && r.w.log[..|w.log|] == w.log
    decreases |m.commands| - i
  {
    if i < |m.commands| {
      var s := SendDb(w, m.commands[i], false, true, false);
      if s.err.None? {
        if i < |m.commands| - 1 {
          if i < |m.delays| {
            var w1 := s.w.(log := s.w.log + [Sleep(m.delays[i])]);
            StartRunFrame(w1, m, i + 1);
            assert w1.log[..|w.log|] == w.log;
          }
        } else {
          StartRunFrame(s.w, m, i + 1);
        }
      }
    }
  }

  /** A macro with one delay between each pair of commands never makes the
      start loop index past its delays. */
  lemma {:induction false} StartRunWellFormed(w: World, m: Macro, i: nat)
    requires i <= |m.commands| && WellFormedMacro(m)
    ensures StartRun(w, m, i).err != Some(IndexError)
    decreases |m.commands| - i
  {
    if i < |m.commands| {
      var s := SendDb(w, m.commands[i], false, true, false);
      if s.err.None? {
        if i < |m.commands| - 1 {
          StartRunWellFormed(s.w.(log := s.w.log + [Sleep(m.delays[i])]), m, i + 1);
        } else {
          StartRunWellFormed(s.w, m, i + 1);
        }
      }
    }
  }

  /** The stop loop sends nothing when no remaining command is a power-off or
      toggle of a device outside `skip`. */
  lemma {:induction false} StopRunSendsOnlyPowerOff(w: World, m: Macro, skip: set<nat>, i: nat)
    requires i <= |m.commands|
    requires forall k :: i <= k < |m.commands| ==> !StopSends(m.commands[k], skip)
    ensures StopRun(w, m, skip, i) == Step(w, None)
    decreases |m.commands| - i
  {
    if i < |m.commands| {
      StopRunSendsOnlyPowerOff(w, m, skip, i + 1);
    }
  }

  /** The devices in `skip` keep their state through the stop loop. */
  lemma {:induction false} StopRunSparesSkipped(w: World, m: Macro, skip: set<nat>, i: nat, d: nat)
    requires i <= |m.commands| && d in skip
    ensures Lookup(StopRun(w, m, skip, i).w.devices, d) == Lookup(w.devices, d)
    decreases |m.commands| - i
  {
    if i < |m.commands| {
      var c := m.commands[i];
      if StopSends(c, skip) {
        var s := SendDb(w, c, false, false, true);
        assert Lookup(s.w.devices, d) == Lookup(w.devices, d);
        if s.err.None? {
          if i < |m.commands| - 1 {
            if i < |m.delays| {
              StopRunSparesSkipped(s.w.(log := s.w.log + [Sleep(m.delays[i])]), m, skip, i + 1, d);
            }
          } else {
            StopRunSparesSkipped(s.w, m, skip, i + 1, d);
          }
        }
      } else {
        StopRunSparesSkipped(w, m, skip, i + 1, d);
      }
    }
  }

  /** The delays of the sleeps in a log, in order. */
  function Sleeps(log: seq<Event>): seq<int>
  {
    if log == [] then []
    else Sleeps(log[..|log| - 1]) + (if log[|log| - 1].Sleep? then [log[|log| - 1].millis] else [])
  }

  lemma SleepsAppend(log: seq<Event>, e: Event)
    ensures Sleeps(log + [e]) == Sleeps(log) + (if e.Sleep? then [e.millis] else [])
  {
    assert (log + [e])[..|log|] == log;
  }

  /** A guarded send appends at most the one event its command dispatches,
      and never a sleep. */
  lemma SendDbEvent(w: World, c: Command, press: bool, fromStart: bool, fromStop: bool)
    ensures var s := SendDb(w, c, press, fromStart, fromStop);
            && Sleeps(s.w.log) == Sleeps(w.log)
            && forall j :: |w.log| <= j < |s.w.log| ==> Dispatch(c, press) == Ok([s.w.log[j]])
  {
    var s := SendDb(w, c, press, fromStart, fromStop);
    if |s.w.log| > |w.log| {
      assert s.w.log == w.log + [s.w.log[|w.log|]];
      SleepsAppend(w.log, s.w.log[|w.log|]);
    }
  }

  /** An event dispatched for one of the macro's commands from `i` on. */
  ghost predicate StartEvent(e: Event, m: Macro, i: nat)
  {
    exists k :: i <= k < |m.commands| && Dispatch(m.commands[k], false) == Ok([e])
  }

  /** An event dispatched for an eligible command of the stop macro from `i`
      on. */
  ghost predicate StopEvent(e: Event, m: Macro, skip: set<nat>, i: nat)
  {
    exists k :: i <= k < |m.commands| && StopSends(m.commands[k], skip) && Dispatch(m.commands[k], false) == Ok([e])
  }

  /** Every event the start loop logs other than a sleep is the dispatch of
      one of its commands. */
  lemma {:induction false} StartRunEvents(w: World, m: Macro, i: nat)
    requires i <= |m.commands|
    ensures var r := StartRun(w, m, i);
            forall j :: |w.log| <= j < |r.w.log| && !r.w.log[j].Sleep? ==> StartEvent(r.w.log[j], m, i)
    decreases |m.commands| - i
  {
    if i < |m.commands| {
      var s := SendDb(w, m.commands[i], false, true, false);
      SendDbEvent(w, m.commands[i], false, true, false);
      if s.err.None? && (i == |m.commands| - 1 || i < |m.delays|) {
        var w1 := if i < |m.commands| - 1 then s.w.(log := s.w.log + [Sleep(m.delays[i])]) else s.w;
        assert StartRun(w, m, i) == StartRun(w1, m, i + 1);
        StartRunEvents(w1, m, i + 1);
        StartRunFrame(w1, m, i + 1);
        var r := StartRun(w1, m, i + 1);
        forall j | |w.log| <= j < |r.w.log| && !r.w.log[j].Sleep?
          ensures StartEvent(r.w.log[j], m, i)
        {
          if j < |w1.log| {
            assert r.w.log[j] == w1.log[j];
            assert j < |s.w.log| && w1.log[j] == s.w.log[j];
            assert Dispatch(m.commands[i], false) == Ok([r.w.log[j]]);
          } else {
            var k :| i + 1 <= k < |m.commands| && Dispatch(m.commands[k], false) == Ok([r.w.log[j]]);
          }
        }
      }
    }
  }

  /** The delays the start loop sleeps: one after each command but the last,
      as far as the macro has delays. */
  function StartDelays(m: Macro, i: nat): seq<int>
    requires i <= |m.commands|
    decreases |m.commands| - i
  {
    if i >= |m.commands| - 1 then []
    else (if i < |m.delays| then [m.delays[i]] else []) + StartDelays(m, i + 1)
  }

  /** With a delay for every command but the last, those are the delays
      slept, in order. */
  lemma {:induction false} StartDelaysSlice(m: Macro, i: nat)
    requires i <= |m.commands| - 1 <= |m.delays|
    ensures StartDelays(m, i) == m.delays[i..|m.commands| - 1]
    decreases |m.commands| - i
  {
    if i < |m.commands| - 1 {
      StartDelaysSlice(m, i + 1);
      assert m.delays[i..|m.commands| - 1] == [m.delays[i]] + m.delays[i + 1..|m.commands| - 1];
    }
  }

  /** When the start loop finishes, it has slept `StartDelays`, in order. */
  lemma {:induction false} StartRunSleeps(w: World, m: Macro, i: nat)
    requires i <= |m.commands|
    ensures var r := StartRun(w, m, i);
            r.err.None? ==> Sleeps(r.w.log) == Sleeps(w.log) + StartDelays(m, i)
    decreases |m.commands| - i
  {
    if i < |m.commands| {
      var s := SendDb(w, m.commands[i], false, true, false);
      if s.err.Some? {
        assert StartRun(w, m, i) == s;
      } else if i == |m.commands| - 1 {
        assert StartRun(w, m, i) == StartRun(s.w, m, i + 1) == Step(s.w, None);
        SendDbEvent(w, m.commands[i], false, true, false);
      } else if i < |m.delays| {
        var w1 := s.w.(log := s.w.log + [Sleep(m.delays[i])]);
        assert StartRun(w, m, i) == StartRun(w1, m, i + 1);
        assert StartDelays(m, i) == [m.delays[i]] + StartDelays(m, i + 1);
        SendDbEvent(w, m.commands[i], false, true, false);
        SleepsAppend(s.w.log, Sleep(m.delays[i]));
        StartRunSleeps(w1, m, i + 1);
      } else {
        assert StartRun(w, m, i) == Step(s.w, Some(IndexError));
      }
    }
  }

  /** A start loop that finishes had a delay for every command but the
      last. */
  lemma {:induction false} StartRunHasDelays(w: World, m: Macro, i: nat)
    requires i < |m.commands| - 1
    ensures StartRun(w, m, i).err.None? ==> |m.commands| - 1 <= |m.delays|
    decreases |m.commands| - i
  {
    var s := SendDb(w, m.commands[i], false, true, false);
    if s.err.None? && i < |m.delays| && i + 1 < |m.commands| - 1 {
      StartRunHasDelays(s.w.(log := s.w.log + [Sleep(m.delays[i])]), m, i + 1);
    }
  }

  /** The stop loop only touches the device states and the log, and only
      appends to the log. */
  lemma {:induction false} StopRunFrame(w: World, m: Macro, skip: set<nat>, i: nat)
    requires i <= |m.commands|
    ensures var r := StopRun(w, m, skip, i);
            r.w == w.(devices := r.w.devices, log := r.w.log) && |w.log| <= |r.w.log| && r.w.log[..|w.log|] == w.log
    decreases |m.commands| - i
  {
    if i < |m.commands| {
      if StopSends(m.commands[i], skip) {
        var s := SendDb(w, m.commands[i], false, false, true);
        if s.err.None? {
          if i < |m.commands| - 1 {
            if i < |m.delays| {
              var w1 := s.w.(log := s.w.log + [Sleep(m.delays[i])]);
              StopRunFrame(w1, m, skip, i + 1);
              assert w1.log[..|w.log|] == w.log;
            }
          } else {
            StopRunFrame(s.w, m, skip, i + 1);
          }
        }
      } else {
        StopRunFrame(w, m, skip, i + 1);
      }
    }
  }

  /** The stop loop sends only power-off and toggle commands of devices
      outside `skip`: every other event it logs is a sleep. */
  lemma {:induction false} StopRunSendsOnlyEligible(w: World, m: Macro, skip: set<nat>, i: nat)
    requires i <= |m.commands|
    ensures var r := StopRun(w, m, skip, i);
            forall j :: |w.log| <= j < |r.w.log| && !r.w.log[j].Sleep? ==> StopEvent(r.w.log[j], m, skip, i)
    decreases |m.commands| - i
  {
    if i < |m.commands| {
      if !StopSends(m.commands[i], skip) {
        var w1 := w;
        assert StopRun(w, m, skip, i) == StopRun(w1, m, skip, i + 1);
        StopRunSendsOnlyEligible(w1, m, skip, i + 1);
        WidenStopEvents(w.log, StopRun(w1, m, skip, i + 1).w.log, m, skip, i);
      } else {
        var s := SendDb(w, m.commands[i], false, false, true);
        if s.err.Some? {
          assert StopRun(w, m, skip, i) == s;
          SendDbEvent(w, m.commands[i], false, false, true);
        } else if i == |m.commands| - 1 || i < |m.delays| {
          var w1 := if i < |m.commands| - 1 then s.w.(log := s.w.log + [Sleep(m.delays[i])]) else s.w;
          assert StopRun(w, m, skip, i) == StopRun(w1, m, skip, i + 1);
          SendDbEvent(w, m.commands[i], false, false, true);
          StopRunSendsOnlyEligible(w1, m, skip, i + 1);
          StopRunFrame(w1, m, skip, i + 1);
          var r := StopRun(w1, m, skip, i + 1);
          forall j | |w.log| <= j < |w1.log| && !r.w.log[j].Sleep?
            ensures StopEvent(r.w.log[j], m, skip, i)
          {
            assert r.w.log[j] == w1.log[j] == s.w.log[j];
          }
          WidenStopEvents(w1.log, r.w.log, m, skip, i);
        } else {
          assert StopRun(w, m, skip, i) == Step(s.w, Some(IndexError));
          SendDbEvent(w, m.commands[i], false, false, true);
        }
      }
    }
  }

  /** Events past a log prefix that are stop events from `i + 1` on are stop
      events from `i` on. */
  lemma WidenStopEvents(prefix: seq<Event>, log: seq<Event>, m: Macro, skip: set<nat>, i: nat)
    requires forall j :: |prefix| <= j < |log| && !log[j].Sleep? ==> StopEvent(log[j], m, skip, i + 1)
    ensures forall j :: |prefix| <= j < |log| && !log[j].Sleep? ==> StopEvent(log[j], m, skip, i)
  {
    forall j | |prefix| <= j < |log| && !log[j].Sleep?
      ensures StopEvent(log[j], m, skip, i)
    {
      var k :| i + 1 <= k < |m.commands| && StopSends(m.commands[k], skip) && Dispatch(m.commands[k], false) == Ok([log[j]]);
    }
  }

  /** The delays the stop loop sleeps: one after each eligible command that
      is not the last. */
  function StopDelays(m: Macro, skip: set<nat>, i: nat): seq<int>
    requires i <= |m.commands|
    decreases |m.commands| - i
  {
    if i == |m.commands| then []
    else (if StopSends(m.commands[i], skip) && i < |m.commands| - 1 && i < |m.delays| then [m.delays[i]] else [])
         + StopDelays(m, skip, i + 1)
  }

  /** When the stop loop finishes, it has slept exactly after each eligible
      non-final command, with that command's delay, in order. */
  lemma {:induction false} StopRunSleeps(w: World, m: Macro, skip: set<nat>, i: nat)
    requires i <= |m.commands|
    ensures var r := StopRun(w, m, skip, i);
            r.err.None? ==> Sleeps(r.w.log) == Sleeps(w.log) + StopDelays(m, skip, i)
    decreases |m.commands| - i
  {
    if i < |m.commands| {
      var rest := StopDelays(m, skip, i + 1);
      if !StopSends(m.commands[i], skip) {
        assert StopDelays(m, skip, i) == rest;
        StopRunSleeps(w, m, skip, i + 1);
      } else {
        var s := SendDb(w, m.commands[i], false, false, true);
        SendDbEvent(w, m.commands[i], false, false, true);
        if s.err.None? {
          if i == |m.commands| - 1 {
            assert StopDelays(m, skip, i) == rest;
            assert StopRun(w, m, skip, i) == StopRun(s.w, m, skip, i + 1);
            StopRunSleeps(s.w, m, skip, i + 1);
          } else if i < |m.delays| {
            var w1 := s.w.(log := s.w.log + [Sleep(m.delays[i])]);
            assert StopDelays(m, skip, i) == [m.delays[i]] + rest;
            assert StopRun(w, m, skip, i) == StopRun(w1, m, skip, i + 1);
            SleepsAppend(s.w.log, Sleep(m.delays[i]));
            StopRunSleeps(w1, m, skip, i + 1);
          }
        }
      }
    }
  }

  /** Every delay the stop loop sleeps belongs to an eligible command that
      is not the last. */
  lemma {:induction false} StopDelaysEligible(m: Macro, skip: set<nat>, i: nat, x: int)
    requires i <= |m.commands|
    ensures x in StopDelays(m, skip, i) <==>
              exists k :: i <= k < |m.commands| - 1 && k < |m.delays| && StopSends(m.commands[k], skip) && x == m.delays[k]
    decreases |m.commands| - i
  {
    if i < |m.commands| {
      StopDelaysEligible(m, skip, i + 1, x);
      var now := StopSends(m.commands[i], skip) && i < |m.commands| - 1 && i < |m.delays|;
      var head := if now then [m.delays[i]] else [];
      assert StopDelays(m, skip, i) == head + StopDelays(m, skip, i + 1);
      if x in head {
        assert i < |m.commands| - 1 && i < |m.delays| && StopSends(m.commands[i], skip) && x == m.delays[i];
      } else if x !in StopDelays(m, skip, i + 1) {
        forall k | i <= k < |m.commands| - 1 && k < |m.delays| && StopSends(m.commands[k], skip)
          ensures x != m.delays[k]
        {
          if k == i {
            assert now && head == [m.delays[i]];
          }
        }
      }
    }
  }

  /** The devices the new scene's start macro turns on: `skip_power_down_for`. */
  function SkipSet(cmds: seq<Command>): (r: set<nat>)
    ensures forall d :: d in r <==> exists k :: 0 <= k < |cmds| && cmds[k].deviceId == Some(d) && PowersOn(cmds[k].button)
  {
    set k | 0 <= k < |cmds| && cmds[k].deviceId.Some? && PowersOn(cmds[k].button) :: cmds[k].deviceId.value
  }

  // ---------------------------------------------------------------------
  // Keymaps and scenes

  /** `load_key_map(name)`: read the scene keymap, then the named keymap; a
      missing file raises after the earlier assignment took effect. */
  function LoadKeymapStep(w: World, cfg: Config, name: string): (r: Step)
    ensures cfg.sceneKeymap.None? ==> r == Step(w, Some(FileNotFound(SceneKeymapFile)))
    ensures cfg.sceneKeymap.Some? ==> r.w.keymapScene == cfg.sceneKeymap.value
    ensures cfg.sceneKeymap.Some? && name !in cfg.keymaps ==>
              r == Step(w.(keymapScene := cfg.sceneKeymap.value), Some(FileNotFound(KeymapFile(name))))
    ensures r.err.None? <==> cfg.sceneKeymap.Some? && name in cfg.keymaps
    ensures r.err.None? ==> r.w == w.(keymapScene := cfg.sceneKeymap.value, keymap := cfg.keymaps[name])
    ensures r.w == w.(keymapScene := r.w.keymapScene, keymap := r.w.keymap)
  {
    match cfg.sceneKeymap
    case None => Step(w, Some(FileNotFound(SceneKeymapFile)))
    case Some(scenes) =>
      var w1 := w.(keymapScene := scenes);
      if name in cfg.keymaps then Step(w1.(keymap := cfg.keymaps[name]), None)
      else Step(w1, Some(FileNotFound(KeymapFile(name))))
  }

  /** The guard of `stop_current_scene`, intended: no scene (or one whose id
      is falsy) is a 404. */
  function StopGuard(current: Option<Scene>): (r: Option<Error>)
    ensures r.None? <==> current.Some? && current.value.id != 0
    ensures r.Some? ==> r.value == HttpError(404, NoSceneActive)
  {
    if current.None? || current.value.id == 0 then Some(HttpError(404, NoSceneActive)) else None
  }

  /** The same guard as written: reading `.id` of None raises AttributeError. */
  function StopGuardAsWritten(current: Option<Scene>): (r: Option<Error>)
    ensures current.Some? ==> r == StopGuard(current)
  {
    if current.None? then Some(AttributeError)
    else if current.value.id == 0 then Some(HttpError(404, NoSceneActive))
    else None
  }

  /** With no current scene the guard as written raises AttributeError, not
      the 404 its message describes. */
  lemma StopWithoutSceneAsWritten()
    ensures StopGuardAsWritten(None) == Some(AttributeError)
    ensures StopGuard(None) == Some(HttpError(404, NoSceneActive))
  {
  }

  /** `stop_current_scene(skip)`. */
  function StopSceneStep(w: World, cfg: Config, skip: set<nat>): (r: Step)
    ensures StopGuard(w.currentScene).Some? ==> r == Step(w, StopGuard(w.currentScene))
    ensures r.err.None? ==> r.w.currentScene == None && r.w.sceneStatus == None
  {
    match StopGuard(w.currentScene)
    case Some(e) => Step(w, Some(e))
    case None =>
      var id := w.currentScene.value.id;
      var l := LoadKeymapStep(w, cfg, "default");
      if l.err.Some? then l
      else if id !in cfg.catalog.scenes then Step(l.w, Some(HttpError(404, SceneNotFound(id))))
      else
        var scene := cfg.catalog.scenes[id];
        var w1 := l.w.(sceneStatus := Some(Stopping));
        var w2 := if Truthy(scene.bluetoothAddress) then w1.(log := w1.log + [BleDisconnect(scene.bluetoothAddress.value)])
                  else w1;
        var s := if scene.stopMacro.Some? then StopRun(w2, scene.stopMacro.value, skip, 0) else Step(w2, None);
        if s.err.Some? then s
        else Step(s.w.(currentScene := None, sceneStatus := None), None)
  }

  /** Stopping never changes the state of a device in `skip`. */
  lemma StopSceneSparesSkipped(w: World, cfg: Config, skip: set<nat>, d: nat)
    requires d in skip
    ensures Lookup(StopSceneStep(w, cfg, skip).w.devices, d) == Lookup(w.devices, d)
  {
    if StopGuard(w.currentScene).None? {
      var id := w.currentScene.value.id;
      var l := LoadKeymapStep(w, cfg, "default");
      if l.err.None? && id in cfg.catalog.scenes {
        var scene := cfg.catalog.scenes[id];
        var w1 := l.w.(sceneStatus := Some(Stopping));
        var w2 := if Truthy(scene.bluetoothAddress) then w1.(log := w1.log + [BleDisconnect(scene.bluetoothAddress.value)])
                  else w1;
        if scene.stopMacro.Some? {
          StopRunSparesSkipped(w2, scene.stopMacro.value, skip, 0, d);
        }
      }
    }
  }

  /** Past the guard, stopping loads the default keymap first; a scene id
      missing from the catalogue is then a 404; otherwise the scene is marked
      STOPPING and its keyboard disconnected before any stop command is sent,
      and every later event is a sleep or an eligible stop command. */
  lemma StopSceneOutcome(w: World, cfg: Config, skip: set<nat>)
    requires StopGuard(w.currentScene).None?
    ensures var r := StopSceneStep(w, cfg, skip);
            var id := w.currentScene.value.id;
            var l := LoadKeymapStep(w, cfg, "default");
            && (l.err.Some? ==> r == l)
            && (l.err.None? && id !in cfg.catalog.scenes ==> r == Step(l.w, Some(HttpError(404, SceneNotFound(id)))))
            && (l.err.None? && id in cfg.catalog.scenes ==>
                  var scene := cfg.catalog.scenes[id];
                  var pre := w.log + (if Truthy(scene.bluetoothAddress) then [BleDisconnect(scene.bluetoothAddress.value)] else []);
                  && r.w.keymap == cfg.keymaps["default"] && r.w.keymapScene == cfg.sceneKeymap.value
                  && |pre| <= |r.w.log| && r.w.log[..|pre|] == pre
                  && (scene.stopMacro.None? ==> r.w.log == pre)
                  && (scene.stopMacro.Some? ==>
                        forall j :: |pre| <= j < |r.w.log| && !r.w.log[j].Sleep? ==> StopEvent(r.w.log[j], scene.stopMacro.value, skip, 0))
                  && (r.err.Some? ==> r.w.currentScene == w.currentScene && r.w.sceneStatus == Some(Stopping)))
  {
    var id := w.currentScene.value.id;
    var l := LoadKeymapStep(w, cfg, "default");
    if l.err.None? && id in cfg.catalog.scenes {
      var scene := cfg.catalog.scenes[id];
      var w1 := l.w.(sceneStatus := Some(Stopping));
      var w2 := if Truthy(scene.bluetoothAddress) then w1.(log := w1.log + [BleDisconnect(scene.bluetoothAddress.value)])
                else w1;
      if scene.stopMacro.Some? {
        StopRunFrame(w2, scene.stopMacro.value, skip, 0);
        StopRunSendsOnlyEligible(w2, scene.stopMacro.value, skip, 0);
      }
    }
  }

  /** `start_scene(id)`: stop the previous scene (sparing the devices the new
      start macro turns on), mark the scene STARTING, connect its keyboard,
      run the start macro, load its keymap and mark it ACTIVE. */
  function StartSceneStep(w: World, cfg: Config, sceneId: int): (r: Step)
    ensures (sceneId < 0 || sceneId as nat !in cfg.catalog.scenes) ==>
              r == Step(w, Some(HttpError(404, SceneNotFound(sceneId))))
    ensures r.err.None? ==>
              0 <= sceneId && sceneId as nat in cfg.catalog.scenes
              && r.w.currentScene == Some(cfg.catalog.scenes[sceneId as nat]) && r.w.sceneStatus == Some(Active)
    ensures 0 <= sceneId && sceneId as nat in cfg.catalog.scenes ==>
              var scene := cfg.catalog.scenes[sceneId as nat];
              var stopFirst := w.currentScene.Some? && scene.startMacro.Some?;
              var s0 := StopSceneStep(w, cfg, if scene.startMacro.Some? then SkipSet(scene.startMacro.value.commands) else {});
              && (stopFirst && s0.err.Some? ==> r == s0)
              && (stopFirst && s0.err.None? ==> r == EnterScene(s0.w, cfg, scene))
              && (!stopFirst ==> r == EnterScene(w, cfg, scene))
  {
    if sceneId < 0 || sceneId as nat !in cfg.catalog.scenes then
      Step(w, Some(HttpError(404, SceneNotFound(sceneId))))
    else
      var scene := cfg.catalog.scenes[sceneId as nat];
      var s0 := if w.currentScene.Some? && scene.startMacro.Some? then
                  StopSceneStep(w, cfg, SkipSet(scene.startMacro.value.commands))
                else Step(w, None);
      if s0.err.Some? then s0 else EnterScene(s0.w, cfg, scene)
  }

  /** The BLE calls that move the keyboard to a scene's host. */
  function Reconnect(scene: Scene): seq<Event>
  {
    if Truthy(scene.bluetoothAddress) then
      [BleUnregisterServices, BleConnect(scene.bluetoothAddress.value), BleRegisterServices]
    else []
  }

  /** The part of `start_scene` after the previous scene is stopped. */
  function EnterScene(w: World, cfg: Config, scene: Scene): (r: Step)
    ensures r.err.None? ==> r.w.currentScene == Some(scene) && r.w.sceneStatus == Some(Active)
  {
    var w1 := w.(currentScene := Some(scene), sceneStatus := Some(Starting), log := w.log + Reconnect(scene));
    var s1 := if scene.startMacro.Some? then StartRun(w1, scene.startMacro.value, 0) else Step(w1, None);
    if s1.err.Some? then s1
    else
      var s2 := if Truthy(scene.keymap) then LoadKeymapStep(s1.w, cfg, scene.keymap.value) else Step(s1.w, None);
      if s2.err.Some? then s2
      else Step(s2.w.(currentScene := Some(scene), sceneStatus := Some(Active)), None)
  }

  /** The keyboard is moved before any start command is sent, and a start
      that fails leaves the new scene current and STARTING. */
  lemma EnterSceneOutcome(w: World, cfg: Config, scene: Scene)
    ensures var r := EnterScene(w, cfg, scene);
            && |w.log| + |Reconnect(scene)| <= |r.w.log|
            && r.w.log[..|w.log| + |Reconnect(scene)|] == w.log + Reconnect(scene)
            && (r.err.Some? ==> r.w.currentScene == Some(scene) && r.w.sceneStatus == Some(Starting))
            && (scene.startMacro.None? ==> r.w.log == w.log + Reconnect(scene))
            && (scene.startMacro.Some? ==>
                  forall j :: |w.log| + |Reconnect(scene)| <= j < |r.w.log| && !r.w.log[j].Sleep? ==>
                    StartEvent(r.w.log[j], scene.startMacro.value, 0))
  {
    var w1 := w.(currentScene := Some(scene), sceneStatus := Some(Starting), log := w.log + Reconnect(scene));
    if scene.startMacro.Some? {
      StartRunFrame(w1, scene.startMacro.value, 0);
      StartRunEvents(w1, scene.startMacro.value, 0);
      var s1 := StartRun(w1, scene.startMacro.value, 0);
      assert EnterScene(w, cfg, scene).w.log == s1.w.log;
    }
  }

  /** The start commands of `set_current_scene`, intended: a scene without a
      start macro has none. */
  function StartCommands(scene: Scene): (r: seq<Command>)
    ensures scene.startMacro.None? ==> r == []
    ensures scene.startMacro.Some? ==> r == scene.startMacro.value.commands
  {
    if scene.startMacro.Some? then scene.startMacro.value.commands else []
  }

  /** The same as written: `start_macro.commands` of None raises
      AttributeError. */
  function StartCommandsAsWritten(scene: Scene): (r: Result<seq<Command>, Error>)
    ensures scene.startMacro.Some? ==> r == Ok(StartCommands(scene))
  {
    if scene.startMacro.Some? then Ok(scene.startMacro.value.commands) else Err(AttributeError)
  }

  /** Setting a scene without a start macro raises as written. */
  lemma SetSceneWithoutStartMacroAsWritten(scene: Scene)
    requires scene.startMacro.None?
    ensures StartCommandsAsWritten(scene) == Err(AttributeError)
    ensures StartCommands(scene) == []
  {
  }

  /** The commands of a scene's stop macro, none when there is no scene or
      no stop macro. */
  function StopCommands(scene: Option<Scene>): seq<Command>
  {
    if scene.Some? && scene.value.stopMacro.Some? then scene.value.stopMacro.value.commands else []
  }

  /** `set_current_scene(id)`: bookkeeping only. The previous scene's stop
      commands and the new scene's start commands are applied to the device
      states without being sent, and the scene becomes ACTIVE. */
  function SetSceneStep(w: World, cfg: Config, sceneId: int): (r: Step)
    ensures (sceneId < 0 || sceneId as nat !in cfg.catalog.scenes) ==>
              r == Step(w, Some(HttpError(404, SceneNotFound(sceneId))))
    ensures 0 <= sceneId && sceneId as nat in cfg.catalog.scenes ==>
              r.w.currentScene == Some(cfg.catalog.scenes[sceneId as nat]) && r.w.sceneStatus == Some(Active)
    ensures 0 <= sceneId && sceneId as nat in cfg.catalog.scenes ==>
              r.w.devices == StateUpdates(StateUpdates(w.devices, StopCommands(w.currentScene)),
                                          StartCommands(cfg.catalog.scenes[sceneId as nat]))
    ensures 0 <= sceneId && sceneId as nat in cfg.catalog.scenes ==>
              var keymap := cfg.catalog.scenes[sceneId as nat].keymap;
              (r.err.None? <==> !Truthy(keymap) || (cfg.sceneKeymap.Some? && keymap.value in cfg.keymaps))
  {
    if sceneId < 0 || sceneId as nat !in cfg.catalog.scenes then
      Step(w, Some(HttpError(404, SceneNotFound(sceneId))))
    else
      var scene := cfg.catalog.scenes[sceneId as nat];
      var w1 := if Truthy(scene.bluetoothAddress) then
                  w.(log := w.log + [BleUnregisterServices, BleConnect(scene.bluetoothAddress.value), BleRegisterServices])
                else w;
      var prev := w1.currentScene;
      var w2 := if prev.Some? && prev.value.stopMacro.Some? then
                  w1.(devices := StateUpdates(w1.devices, prev.value.stopMacro.value.commands))
                else w1;
      var w3 := w2.(devices := StateUpdates(w2.devices, StartCommands(scene)));
      var w4 := w3.(currentScene := Some(scene), sceneStatus := Some(Active));
      if Truthy(scene.keymap) then LoadKeymapStep(w4, cfg, scene.keymap.value) else Step(w4, None)
  }

  /** Setting a scene sends nothing but the keyboard connection calls. */
  lemma SetSceneSendsNothing(w: World, cfg: Config, sceneId: nat)
    requires sceneId in cfg.catalog.scenes
    ensures var scene := cfg.catalog.scenes[sceneId];
            SetSceneStep(w, cfg, sceneId).w.log
              == w.log + (if Truthy(scene.bluetoothAddress) then
                            [BleUnregisterServices, BleConnect(scene.bluetoothAddress.value), BleRegisterServices]
                          else [])
  {
  }

  // ---------------------------------------------------------------------
  // RF button handlers

  /** `handle_button_press(button)`: "Off" stops the scene; otherwise a
      truthy scene keymap entry starts a scene; otherwise a truthy keymap
      entry sends a command held down. */
  function PressTask(keymap: map<string, int>, keymapScene: map<string, int>, button: string): (r: Option<Task>)
    ensures button == "Off" ==> r == Some(StopSceneTask)
    ensures button != "Off" && button in keymapScene && keymapScene[button] != 0 ==>
              r == Some(StartSceneTask(keymapScene[button]))
    ensures button != "Off" && !(button in keymapScene && keymapScene[button] != 0)
              && button in keymap && keymap[button] != 0 ==>
              r == Some(SendCommandTask(keymap[button]))
    ensures r.None? <==> button != "Off" && !(button in keymapScene && keymapScene[button] != 0)
                         && !(button in keymap && keymap[button] != 0)
  {
    if button == "Off" then Some(StopSceneTask)
    else if button in keymapScene && keymapScene[button] != 0 then Some(StartSceneTask(keymapScene[button]))
    else if button in keymap && keymap[button] != 0 then Some(SendCommandTask(keymap[button]))
    else None
  }

  /** A BLE device as reported to clients. */
  datatype BleDevice = BleDevice(name: string, address: string, connected: bool, paired: bool)

  function Reported(d: BleKeyboard.ListedDevice): BleDevice
  {
    BleDevice(d.alias, d.address, d.connected == Some(true), d.paired == Some(true))
  }

  /** A reported list shows a device both connected and paired exactly when
      the keyboard's `is_connected` holds. */
  lemma ReportedConnected(devs: seq<BleKeyboard.ListedDevice>)
    ensures (exists i :: 0 <= i < |devs| && Reported(devs[i]).connected && Reported(devs[i]).paired)
            <==> BleKeyboard.AnyConnected(devs)
  {
    if BleKeyboard.AnyConnected(devs) {
      var i :| 0 <= i < |devs| && devs[i].paired == Some(true) && devs[i].connected == Some(true);
      assert Reported(devs[i]).connected && Reported(devs[i]).paired;
    }
  }

  // ---------------------------------------------------------------------
  // The controller

  class RemoteController {
    const config: Config
    const peer: HttpRequest -> HttpOutcome
    var devices: map<nat, DeviceState>
    var currentScene: Option<Scene>
    var sceneStatus: Option<SceneStatus>
    var keymap: map<string, int>
    var keymapScene: map<string, int>
    var log: seq<Event>
    var queue: seq<Task>

    function Snapshot(): World
      reads this
    {
      World(devices, currentScene, sceneStatus, keymap, keymapScene, log, queue)
    }

    /** A fresh controller: no scene, no device state, empty keymaps. */
    constructor (config: Config, peer: HttpRequest -> HttpOutcome)
      ensures this.config == config && this.peer == peer
      ensures Snapshot() == World(map[], None, None, map[], map[], [], [])
    {
      this.config := config;
      this.peer := peer;
      devices, currentScene, sceneStatus := map[], None, None;
      keymap, keymapScene, log, queue := map[], map[], [], [];
    }

    method SendIrCommand(c: Command, press: bool) returns (err: Option<Error>)
      modifies this`log
      ensures IrEvents(c, press).Ok? ==> err.None? && log == old(log) + IrEvents(c, press).value
      ensures IrEvents(c, press).Err? ==> err == Some(IrEvents(c, press).error) && log == old(log)
    {
      if c.irAction != [] {
        if press {
          log := log + [IrSendAndRepeat(c.irAction)];
        } else {
          log := log + [IrSend(c.irAction)];
        }
        return None;
      }
      return Some(HttpError(500, NoExecutableAction));
    }

    method SendBtCommand(c: Command, press: bool, releaseOnly: bool) returns (err: Option<Error>)
      modifies this`log
      ensures BtEvents(c, press, releaseOnly).Ok? ==> err.None? && log == old(log) + BtEvents(c, press, releaseOnly).value
      ensures BtEvents(c, press, releaseOnly).Err? ==> err == Some(BtEvents(c, press, releaseOnly).error) && log == old(log)
    {
      if Truthy(c.btAction) {
        var key := c.btAction.value;
        if releaseOnly {
          log := log + [KeysRelease];
        } else if press {
          log := log + [KeyPress(key)];
        } else {
          log := log + [KeySend(key)];
        }
        return None;
      } else if Truthy(c.btMediaAction) {
        var key := c.btMediaAction.value;
        if releaseOnly {
          log := log + [MediaKeysRelease];
        } else if press {
          log := log + [MediaPress(key)];
        } else {
          log := log + [MediaSend(key)];
        }
        return None;
      }
      return Some(HttpError(500, NoExecutableAction));
    }

    method SendNetworkCommand(c: Command) returns (r: Result<NetReply, Error>)
      modifies this`log
      ensures NetworkRequest(c).Err? ==> r == Err(NetworkRequest(c).error) && log == old(log)
      ensures NetworkRequest(c).Ok? ==>
                var req := NetworkRequest(c).value;
                r == Ok(Reply(peer(req))) && log == old(log) + [Request(req)]
    {
      match c.httpMethod
      case None =>
        return Err(HttpError(500, NoExecutableAction));
      case Some(m) =>
        if c.host.None? {
          return Err(TypeError);
        }
        var body := if m == Post || m == Patch || m == Put then c.body else None;
        var req := HttpRequest(m, c.host.value, body);
        log := log + [Request(req)];
        var outcome := peer(req);
        match outcome
        case Replied(status, content) =>
          return Ok(Response(status, content));
        case ReadTimeout =>
          return Ok(Message("Encountered a timeout"));
        case ConnectError =>
          return Ok(Message("All connection attempts failed"));
    }

    method SendScriptCommand(c: Command) returns (err: Option<Error>)
      ensures err == Some(HttpError(400, ScriptNotImplemented))
    {
      return Some(HttpError(400, ScriptNotImplemented));
    }

    /** The type switch of `send_db_command`. */
    method DispatchCommand(c: Command, press: bool) returns (err: Option<Error>)
      modifies this`log
      ensures Dispatch(c, press).Ok? ==> err.None? && log == old(log) + Dispatch(c, press).value
      ensures Dispatch(c, press).Err? ==> err == Some(Dispatch(c, press).error) && log == old(log)
    {
      match c.kind
      case Ir =>
        err := SendIrCommand(c, press);
      case Bluetooth =>
        err := SendBtCommand(c, press, false);
      case Network =>
        var r := SendNetworkCommand(c);
        err := if r.Err? then Some(r.error) else None;
      case Script =>
        err := SendScriptCommand(c);
    }

    /** `update_device_status`: one `set_state` on the device's entry. */
    method UpdateDeviceStatus(deviceId: nat, newPower: Option<bool>, newInput: Option<nat>, toggle: bool)
      modifies this`devices
      ensures devices == old(devices)[deviceId := NextState(Lookup(old(devices), deviceId), newPower, newInput, toggle)]
    {
      devices := devices[deviceId := NextState(Lookup(devices, deviceId), newPower, newInput, toggle)];
    }

    method SetStateForCommand(c: Command)
      modifies this`devices
      ensures devices == StateUpdate(old(devices), c)
    {
      if c.deviceId.Some? {
        var d := c.deviceId.value;
        if c.group == Input {
          UpdateDeviceStatus(d, Some(true), Some(c.id), false);
        }
        if c.button == PowerOn {
          UpdateDeviceStatus(d, Some(true), None, false);
        } else if c.button == PowerOff {
          UpdateDeviceStatus(d, Some(false), None, false);
        } else if c.button == PowerToggle {
          UpdateDeviceStatus(d, None, None, true);
        }
      }
    }

    method SetStatesForCommands(cmds: seq<Command>)
      modifies this`devices
      ensures devices == StateUpdates(old(devices), cmds)
    {
      for i := 0 to |cmds|
        invariant StateUpdates(old(devices), cmds) == StateUpdates(devices, cmds[i..])
      {
        assert cmds[i..][1..] == cmds[i + 1..];
        SetStateForCommand(cmds[i]);
      }
    }

    method SendDbCommand(c: Command, press: bool, fromStart: bool, fromStop: bool) returns (err: Option<Error>)
      modifies this
      ensures Step(Snapshot(), err) == SendDb(old(Snapshot()), c, press, fromStart, fromStop)
    {
      if fromStart && c.deviceId.Some? {
        var current := Lookup(devices, c.deviceId.value);
        if PowersOn(c.button) && current.powered {
          return None;
        }
        if c.group == Input && current.input == Some(c.id) {
          return None;
        }
      }
      if fromStop && c.deviceId.Some? {
        var current := Lookup(devices, c.deviceId.value);
        if PowersOff(c.button) && !current.powered {
          return None;
        }
      }
      assert !Skipped(devices, c, fromStart, fromStop);
      ghost var before := Snapshot();
      err := DispatchCommand(c, press);
      if err.Some? {
        return;
      }
      assert Snapshot() == before.(log := before.log + Dispatch(c, press).value);
      SetStateForCommand(c);
    }

    method SendCommand(commandId: int, press: bool) returns (err: Option<Error>)
      modifies this
      ensures Step(Snapshot(), err) == SendCommandStep(old(Snapshot()), config, commandId, press)
    {
      if commandId < 0 || commandId as nat !in config.catalog.commands {
        return Some(HttpError(404, CommandNotFound(commandId)));
      }
      err := SendDbCommand(config.catalog.commands[commandId as nat], press, false, false);
    }

    method LoadKeyMap(name: string) returns (err: Option<Error>)
      modifies this`keymap, this`keymapScene
      ensures Step(Snapshot(), err) == LoadKeymapStep(old(Snapshot()), config, name)
    {
      if config.sceneKeymap.None? {
        return Some(FileNotFound(SceneKeymapFile));
      }
      keymapScene := config.sceneKeymap.value;
      if name !in config.keymaps {
        return Some(FileNotFound(KeymapFile(name)));
      }
      keymap := config.keymaps[name];
      return None;
    }

    /** The loop over the start macro's commands. */
    method RunStartMacro(m: Macro) returns (err: Option<Error>)
      modifies this
      ensures Step(Snapshot(), err) == StartRun(old(Snapshot()), m, 0)
    {
      var index := 0;
      while index < |m.commands|
        invariant 0 <= index <= |m.commands|
        invariant StartRun(old(Snapshot()), m, 0) == StartRun(Snapshot(), m, index)
      {
        err := SendDbCommand(m.commands[index], false, true, false);
        if err.Some? {
          return;
        }
        if index < |m.commands| - 1 {
          if index >= |m.delays| {
            return Some(IndexError);
          }
          log := log + [Sleep(m.delays[index])];
        }
        index := index + 1;
      }
      return None;
    }

    /** The loop over the stop macro's commands. */
    method RunStopMacro(m: Macro, skip: set<nat>) returns (err: Option<Error>)
      modifies this
      ensures Step(Snapshot(), err) == StopRun(old(Snapshot()), m, skip, 0)
    {
      var index := 0;
      while index < |m.commands|
        invariant 0 <= index <= |m.commands|
        invariant StopRun(old(Snapshot()), m, skip, 0) == StopRun(Snapshot(), m, skip, index)
      {
        var c := m.commands[index];
        if (c.deviceId.None? || c.deviceId.value !in skip) && (c.button == PowerToggle || c.button == PowerOff) {
          err := SendDbCommand(c, false, false, true);
          if err.Some? {
            return;
          }
          if index < |m.commands| - 1 {
            if index >= |m.delays| {
              return Some(IndexError);
            }
            log := log + [Sleep(m.delays[index])];
          }
        }
        index := index + 1;
      }
      return None;
    }

    /** `skip_power_down_for`, built by adding one device at a time. */
    static method PowerOnDevices(cmds: seq<Command>) returns (skip: set<nat>)
      ensures skip == SkipSet(cmds)
    {
      skip := {};
      for i := 0 to |cmds|
        invariant forall d :: d in skip <==>
                    exists k :: 0 <= k < i && cmds[k].deviceId == Some(d) && PowersOn(cmds[k].button)
      {
        if cmds[i].deviceId.Some? && (cmds[i].button == PowerToggle || cmds[i].button == PowerOn) {
          skip := skip + {cmds[i].deviceId.value};
        }
      }
    }

    method StopCurrentScene(skip: set<nat>) returns (err: Option<Error>)
      modifies this
      ensures Step(Snapshot(), err) == StopSceneStep(old(Snapshot()), config, skip)
    {
      if currentScene.None? || currentScene.value.id == 0 {
        return Some(HttpError(404, NoSceneActive));
      }
      var id := currentScene.value.id;
      err := LoadKeyMap("default");
      if err.Some? {
        return;
      }
      if id !in config.catalog.scenes {
        return Some(HttpError(404, SceneNotFound(id)));
      }
      var scene := config.catalog.scenes[id];
      sceneStatus := Some(Stopping);
      if Truthy(scene.bluetoothAddress) {
        log := log + [BleDisconnect(scene.bluetoothAddress.value)];
      }
      if scene.stopMacro.Some? {
        err := RunStopMacro(scene.stopMacro.value, skip);
        if err.Some? {
          return;
        }
      }
      currentScene, sceneStatus := None, None;
      return None;
    }

    method StartScene(sceneId: int) returns (err: Option<Error>)
      modifies this
      ensures Step(Snapshot(), err) == StartSceneStep(old(Snapshot()), config, sceneId)
    {
      if sceneId < 0 || sceneId as nat !in config.catalog.scenes {
        return Some(HttpError(404, SceneNotFound(sceneId)));
      }
      var scene := config.catalog.scenes[sceneId as nat];
      if currentScene.Some? && scene.startMacro.Some? {
        var skip := PowerOnDevices(scene.startMacro.value.commands);
        err := StopCurrentScene(skip);
        if err.Some? {
          return;
        }
      }
      err := Enter(scene);
    }

    /** `start_scene` from the STARTING status on. */
    method Enter(scene: Scene) returns (err: Option<Error>)
      modifies this
      ensures Step(Snapshot(), err) == EnterScene(old(Snapshot()), config, scene)
    {
      currentScene, sceneStatus := Some(scene), Some(Starting);
      if Truthy(scene.bluetoothAddress) {
        log := log + [BleUnregisterServices, BleConnect(scene.bluetoothAddress.value), BleRegisterServices];
      }
      assert Snapshot() == old(Snapshot()).(currentScene := Some(scene), sceneStatus := Some(Starting),
                                          log := old(log) + Reconnect(scene));
      if scene.startMacro.Some? {
        err := RunStartMacro(scene.startMacro.value);
        if err.Some? {
          return;
        }
      }
      if Truthy(scene.keymap) {
        err := LoadKeyMap(scene.keymap.value);
        if err.Some? {
          return;
        }
      }
      currentScene, sceneStatus := Some(scene), Some(Active);
      return None;
    }

    method SetCurrentScene(sceneId: int) returns (err: Option<Error>)
      modifies this
      ensures Step(Snapshot(), err) == SetSceneStep(old(Snapshot()), config, sceneId)
    {
      if sceneId < 0 || sceneId as nat !in config.catalog.scenes {
        return Some(HttpError(404, SceneNotFound(sceneId)));
      }
      var scene := config.catalog.scenes[sceneId as nat];
      if Truthy(scene.bluetoothAddress) {
        log := log + [BleUnregisterServices, BleConnect(scene.bluetoothAddress.value), BleRegisterServices];
      }
      var previous := currentScene;
      if previous.Some? && previous.value.stopMacro.Some? {
        var stopCommands := previous.value.stopMacro.value.commands;
        if stopCommands != [] {
          SetStatesForCommands(stopCommands);
        }
      }
      var startCommands := StartCommands(scene);
      if startCommands != [] {
        SetStatesForCommands(startCommands);
      }
      currentScene, sceneStatus := Some(scene), Some(Active);
      if Truthy(scene.keymap) {
        err := LoadKeyMap(scene.keymap.value);
        return;
      }
      return None;
    }

    method HandleButtonPress(button: string)
      modifies this`queue
      ensures queue == old(queue) + (match PressTask(keymap, keymapScene, button)
                                     case Some(t) => [t]
                                     case None => [])
    {
      if button == "Off" {
        queue := queue + [StopSceneTask];
        return;
      }
      var sceneId := if button in keymapScene then keymapScene[button] else 0;
      if sceneId != 0 {
        queue := queue + [StartSceneTask(sceneId)];
        return;
      }
      var commandId := if button in keymap then keymap[button] else 0;
      if commandId != 0 {
        queue := queue + [SendCommandTask(commandId)];
      }
    }

    /** `handle_button_release`: the three release calls are synchronous, so
        they happen at the call site, in order, and the queue receives the
        three None results. */
    method HandleButtonRelease()
      modifies this`log, this`queue
      ensures log == old(log) + [KeysRelease, MediaKeysRelease, IrStopRepeating]
      ensures queue == old(queue) + [NotAwaitable, NotAwaitable, NotAwaitable]
    {
      log := log + [KeysRelease];
      queue := queue + [NotAwaitable];
      log := log + [MediaKeysRelease];
      queue := queue + [NotAwaitable];
      log := log + [IrStopRepeating];
      queue := queue + [NotAwaitable];
    }

    /** `get_ble_devices`, from the keyboard's device list. */
    static method GetBleDevices(devs: seq<BleKeyboard.ListedDevice>) returns (r: seq<BleDevice>)
      ensures |r| == |devs| && forall i :: 0 <= i < |r| ==> r[i] == Reported(devs[i])
    {
      r := [];
      for i := 0 to |devs|
        invariant |r| == i && forall k :: 0 <= k < i ==> r[k] == Reported(devs[k])
      {
        var d := devs[i];
        var device := BleDevice(d.alias, d.address, if d.connected == Some(true) then true else false,
                                if d.paired == Some(true) then true else false);
        r := r + [device];
      }
    }
  }
}
