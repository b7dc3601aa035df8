# Equilibrium home-theater controller — a Dafny model

Equilibrium runs on a Raspberry Pi and drives a home-theater setup. The
controller sends infrared codes with pigpio and key presses as a Bluetooth LE
HID keyboard over BlueZ/D-Bus. It also makes HTTP requests to networked
devices. Button presses come in from an NRF24 radio remote and are translated
through keymaps into scene changes and commands. The controller remembers
which scene is active and what power state and input each device was last
driven to. Scenes are started and stopped by running their start and stop
macros, skipping commands that the remembered device state makes redundant.

This project models that core and proves properties of it.

- `Wrappers.dfy`: `Option` and `Result`.
- `Catalog.dfy`:
  - the stored entities: commands, macros, scenes and their enumerations;
  - Python truthiness of optional fields;
  - the errors the core raises (`Errors`).
- `DeviceStatus.dfy`: the per-device power/input memory (`Status.py`,
  `DeviceState.py`) and the status report.
- `Macros.dfy`: validation and assembly of a new macro (`routers/macros.py`).
- `IrCodec.dfy`: the infrared transmitter and recorder (`IrManager.py`):
  - carrier generation;
  - wave tables kept in a modelled pigpio daemon;
  - chained transmission and send-and-repeat;
  - the recording callback, normalisation and comparison.
- `RfDecoder.dfy`: the NRF24 receive loop (`RfManager.py`):
  - hex rendering of payloads;
  - classification of payloads;
  - dispatch to the press, repeat and release callbacks.
- `BleKeyboard.dfy`: the BLE keyboard (`BleKeyboard.py`):
  - HID key and media-key reports;
  - service registration;
  - device listing, pairing, connection and disconnection as D-Bus calls.
- `Controller.dfy`: the remote controller (`RemoteController.py`).
  - The controller's mutable state is a `World` value.
  - Every operation is a pure step function from world to world plus an
    optional error, standing in for the Python exception.
  - The `RemoteController` class methods are proved equal to those step
    functions.
  - Outbound actions (IR sends, BLE calls, HTTP requests, sleeps) are recorded
    in order in an event log.

## Model

| member | source | states |
|---|---|---|
| `DeviceStatus.Lookup` | Api/models/Status.py:12-13 | the remembered state of a device, or powered-off with no input when it was never set |
| `DeviceStatus.NextState` | Api/models/Status.py:15-31 | an explicit power value wins; without one, a toggle flips power; a powered device takes the new input or keeps its old one; an unpowered device has no input |
| `DeviceStatus.NextStateIdempotent` | Api/models/Status.py:15-31 | applying the same explicit update twice gives the same state as applying it once |
| `DeviceStatus.ToggleTwiceForgetsInput` | Api/models/DeviceState.py:14-30 | toggling a powered device off and on again leaves it powered with its input forgotten |
| `DeviceStatus.DeviceStates.SetState` | Api/models/DeviceState.py:14-30 | only the given device's entry changes, to the next state; every other entry is kept; the stored state stays consistent |
| `DeviceStatus.DeviceStates.constructor` | Api/models/Status.py:9-10 | starts with no device remembered |
| `DeviceStatus.StatusReport.constructor` | Api/models/Status.py:33-36 | no current scene, no scene status, empty device memory |
| `Macros.CreateMacro` | Api/routers/macros.py:27-49 | 400 when the command and delay counts do not fit; 404 naming the first unknown command (a negative id is unknown), then the first unknown scene; otherwise a macro holding exactly the looked-up commands in order with the given delays, plus exactly the looked-up scenes; success exactly when all checks pass |
| `IrCodec.RoundDiv` | IrManager/IrManager.py:58-62 | `round(n / d)` on integers; `RoundDivNearest` proves it is the nearest integer, ties to even |
| `IrCodec.RoundDivNearest` | IrManager/IrManager.py:58-62 | rounded division lands within half a divisor of the quotient and breaks ties to even (Python `round`) |
| `IrCodec.RoundReal` | IrManager/IrManager.py:201 | the result is within one half of the input and ties go to the even integer |
| `IrCodec.CarrierWave` | IrManager/IrManager.py:51-68 | a carrier has two pulses per cycle of the rounded cycle count |
| `IrCodec.CyclesPrefixDuration` | IrManager/IrManager.py:60-65 | after c cycles the accumulated pulse time equals the rounded end of cycle c; rounding errors do not build up |
| `IrCodec.CarrierDuration` | IrManager/IrManager.py:51-68 | the whole carrier lasts exactly up to the rounded end of its last cycle |
| `IrCodec.Carrier` | IrManager/IrManager.py:51-68 | the generating loop produces the carrier wave |
| `IrCodec.EveryOther` | IrManager/IrManager.py:74-90 | the marks are the entries at even positions and the spaces those at odd positions |
| `IrCodec.DedupSpec` | IrManager/IrManager.py:74-90 | the key table holds each length once and holds exactly the lengths that occur |
| `IrCodec.EntryHasKey` | IrManager/IrManager.py:98-103 | every entry of the code has a wave in the table for its parity |
| `IrCodec.Signal` | IrManager/IrManager.py:98-105 | the transmitted chain has one wave per code entry |
| `IrCodec.Resolve` | IrManager/IrManager.py:105 | a chain of wave ids resolves to the stored waves in order |
| `IrCodec.ChainIsSignal` | IrManager/IrManager.py:98-105 | the chain built from the mark and space tables resolves to carrier bursts at even positions and silences at odd ones |
| `IrCodec.CreateThenDelete` | IrManager/IrManager.py:80-113 | creating both tables and then deleting them leaves the daemon's wave store as it was |
| `IrCodec.Pigpio.WaveCreate` | IrManager/IrManager.py:82-95 | the pending pulses become a new wave under a fresh id |
| `IrCodec.Pigpio.WaveChain` | IrManager/IrManager.py:105 | the transmitted signal is the chain's waves in order |
| `IrCodec.Pigpio.WaveDelete` | IrManager/IrManager.py:110-113 | only that wave is removed |
| `IrCodec.IrManager.constructor` | IrManager/IrManager.py:28-35 | a fresh daemon connection with no waves and nothing sent, not repeating |
| `IrCodec.IrManager.CollectKeys` | IrManager/IrManager.py:74-90 | the distinct lengths of one parity in first-occurrence order |
| `IrCodec.IrManager.CreateWaves` | IrManager/IrManager.py:80-95 | each key gets a new consecutive wave id holding its carrier (marks) or silence (spaces); existing waves are kept |
| `IrCodec.IrManager.DeleteWaves` | IrManager/IrManager.py:110-113 | exactly the table's waves are deleted |
| `IrCodec.IrManager.BuildChain` | IrManager/IrManager.py:98-103 | position i of the chain is the wave id of code[i] in the space table for odd i and the mark table for even i |
| `IrCodec.IrManager.CreateTables` | IrManager/IrManager.py:74-95 | mark and space tables for every distinct length, with waves stored and ids numbered consecutively |
| `IrCodec.IrManager.Transmit` | IrManager/IrManager.py:98-108 | exactly the code's signal is sent |
| `IrCodec.IrManager.DeleteTables` | IrManager/IrManager.py:110-113 | the wave store returns to its state before the tables were created |
| `IrCodec.IrManager.SendCommand` | IrManager/IrManager.py:50-113 | the transmitter is an output; exactly one signal, the code's, is sent; the wave store is left as it was |
| `IrCodec.IrManager.SendAndRepeat` | IrManager/IrManager.py:41-45 | the code is sent once per round until repetition is stopped, and nothing else is sent |
| `IrCodec.IrManager.StopRepeating` | IrManager/IrManager.py:47-48 | clears the repeat flag |
| `IrCodec.StepValues` | IrManager/IrManager.py:139-154 | one normalisation step keeps the length |
| `IrCodec.StepGroups` | IrManager/IrManager.py:139-154 | one step changes only entry i and unprocessed same-parity entries similar to it; all of them get the group mean and are marked processed |
| `IrCodec.RunKeeps` | IrManager/IrManager.py:138-139 | entries already processed, or before the current index, are never changed again |
| `IrCodec.Normalised` | IrManager/IrManager.py:135-154 | normalisation keeps the length |
| `IrCodec.GroupAverage` | IrManager/IrManager.py:140-148 | the computed value is the mean of entry i and its similar unprocessed partners |
| `IrCodec.SetGroup` | IrManager/IrManager.py:149-154 | the arrays become the values and flags of one step |
| `IrCodec.Normalise` | IrManager/IrManager.py:135-154 | the in-place loop leaves the array equal to its normalised value |
| `IrCodec.Averaged` | IrManager/IrManager.py:200-201 | each entry is the rounded mean of the two recordings, an integer within one half of the exact mean |
| `IrCodec.Compare` | IrManager/IrManager.py:191-202 | true exactly when the lengths agree and every ratio lies in [0.8, 1.2] with a non-zero divisor; then the first recording is replaced by the averages, else it is untouched |
| `IrCodec.MatchesNotSymmetric` | IrManager/IrManager.py:194-199 | comparison depends on argument order: 80 matches 100, but 100 does not match 80 |
| `IrCodec.AveragedExample` | IrManager/IrManager.py:200-201 | two similar recordings give their entrywise rounded means |
| `IrCodec.TickDiff` | IrManager/IrManager.py:170 | the wrap-around difference of two 32-bit microsecond ticks |
| `IrCodec.EndCode` | IrManager/IrManager.py:156-163 | `end_of_code`; `EndCodeOutcome` proves a burst over eight entries is kept and done, a shorter one dropped with a short-code message |
| `IrCodec.EndCodeOutcome` | IrManager/IrManager.py:156-163 | a code longer than 8 entries completes with its length kept; a shorter one is discarded and reported as short |
| `IrCodec.FirstEdgeOnlyRecordsTick` | IrManager/IrManager.py:166-189 | the first edge only records its tick, and a timeout records nothing |
| `IrCodec.OnEdge` | IrManager/IrManager.py:166-189 | the edge callback; `FirstEdgeOnlyRecordsTick`, `TimeoutKeepsTick` and `GapRules` prove its first-edge, timeout, long-gap and in-code rules |
| `IrCodec.TimeoutKeepsTick` | IrManager/IrManager.py:183-189 | a timeout keeps the last tick, ends any code in progress and cancels the watchdog |
| `IrCodec.GapRules` | IrManager/IrManager.py:166-189 | a gap over the pre-silence ends a code in progress or starts one when none is done; a shorter gap is appended only inside a code |
| `IrCodec.Recorder.constructor` | IrManager/IrManager.py:125-128 | no last tick, not in a code, empty code, not done |
| `IrCodec.Recorder.EndOfCode` | IrManager/IrManager.py:156-163 | the recorder's state becomes the end-of-code outcome |
| `IrCodec.Recorder.Cbf` | IrManager/IrManager.py:166-189 | the recorder's state becomes the edge-callback outcome |
| `IrCodec.FirstMatch` | IrManager/IrManager.py:221-239 | the index of the first repeat recording that matches the first one; no earlier one matches |
| `IrCodec.Repeats` | IrManager/IrManager.py:228 | n repeat prompts |
| `IrCodec.RecordCommand` | IrManager/IrManager.py:212-241 | prompt for the key, then one repeat prompt per try: a match within five tries records the averaged code; a sixth try gives up with a too-many-retries message |
| `RfDecoder.HexDigit` | RfManager/RfManager.py:90 | a nibble renders as a lower-case hex digit, a decimal digit exactly below ten |
| `RfDecoder.HexByte` | RfManager/RfManager.py:90 | a byte renders as two lower-case hex digits, the high nibble first |
| `RfDecoder.RenderHex` | RfManager/RfManager.py:90 | a payload renders as its bytes' digits joined by colons; empty exactly for the empty payload; n bytes render in 3n-1 characters |
| `RfDecoder.HexByteInjective` | RfManager/RfManager.py:90 | different bytes render differently |
| `RfDecoder.RenderHexInjective` | RfManager/RfManager.py:90-122 | different payloads render differently, so comparing renderings is comparing bytes |
| `RfDecoder.RepeatFrame` | RfManager/RfManager.py:93 | the repeat frame's bytes render as the string the loop compares with |
| `RfDecoder.IdleFrame` | RfManager/RfManager.py:97 | the idle frame's bytes render as the string the loop compares with |
| `RfDecoder.Classify` | RfManager/RfManager.py:92-130 | a press exactly for a 10-byte payload whose rendering the table maps to a non-empty name, and that name is the key; a table hit wins over every 10-byte sentinel; repeat and idle exactly for their renderings; sleep, release (either frame), wake and confirm exactly for their renderings when the table does not hit; unrecognised for the remaining 10-byte payloads; 5-byte payloads are repeat, idle or unexpected; any other length is very unexpected |
| `RfDecoder.Effect` | RfManager/RfManager.py:95-117 | a press calls the press callback with the pressed name and makes it the last key; a repeat or a release calls its callback with the last key; each only when that callback is set; nothing else calls anything or changes the last key |
| `RfDecoder.Fold` | RfManager/RfManager.py:81-130 | the receive loop over the classified payloads, in order; `FoldLastKey` and `FoldCallsBounded` prove what it leaves in `last_key` and how many callbacks it makes |
| `RfDecoder.FoldLastKey` | RfManager/RfManager.py:105-111 | after a batch the last key is the last pressed name, or unchanged when nothing was pressed |
| `RfDecoder.FoldCallsBounded` | RfManager/RfManager.py:81-130 | a batch of n payloads causes at most n callbacks |
| `RfDecoder.RfManager.constructor` | RfManager/RfManager.py:16-37 | the callbacks and known-command table as given; not started, not listening, no radio calls, no callbacks made |
| `RfDecoder.RfManager.SetCallback` | RfManager/RfManager.py:139-140 | only the press callback changes |
| `RfDecoder.RfManager.SetRepeatCallback` | RfManager/RfManager.py:142-143 | only the repeat callback changes |
| `RfDecoder.RfManager.SetReleaseCallback` | RfManager/RfManager.py:145 | only the release callback changes |
| `RfDecoder.RfManager.StartListener` | RfManager/RfManager.py:43-65 | default addresses when none are given; radio powered up, address width and pipes set from the first two addresses; listening only when there are two |
| `RfDecoder.RfManager.StopListener` | RfManager/RfManager.py:53-56 | clears the run flag and powers the radio down |
| `RfDecoder.RfManager.Receive` | RfManager/RfManager.py:83-130 | one payload: count incremented, its callback and last key as classified |
| `RfDecoder.RfManager.Drain` | RfManager/RfManager.py:81-130 | the ready payloads are handled in order: the count, callbacks and last key are those of the batch |
| `RfDecoder.RfManager.Poll` | RfManager/RfManager.py:79-132 | while running, the ready payloads are handled as a batch; after a stop nothing is handled |
| `BleKeyboard.Keycode` | BleKeyboard/BleKeyboard.py:94-136 | a key name yields its report exactly when the table has a non-empty entry |
| `BleKeyboard.Listed` | BleKeyboard/BleKeyboard.py:187-212 | the listed devices in object order; `ListedIff` proves which objects are listed and with what values |
| `BleKeyboard.ListedIff` | BleKeyboard/BleKeyboard.py:187-212 | a device is listed exactly when some managed object has an address, an alias and a paired or connected value, and it is listed with those values |
| `BleKeyboard.PairCalls` | BleKeyboard/BleKeyboard.py:196-202 | the pair calls in object order; `PairCallsIff` proves exactly the connected, unpaired objects get one |
| `BleKeyboard.PairCallsIff` | BleKeyboard/BleKeyboard.py:196-202 | pairing is requested exactly for objects that are connected but not paired |
| `BleKeyboard.DisconnectCalls` | BleKeyboard/BleKeyboard.py:254-262 | the disconnect calls in listing order; `DisconnectCallsIff` proves exactly the connected targets with a path get one |
| `BleKeyboard.DisconnectCallsIff` | BleKeyboard/BleKeyboard.py:254-262 | a path is disconnected exactly when a listed connected device with that non-empty path matches the address, or every connected device matches when no address is given; only disconnects are issued |
| `BleKeyboard.ConnectCalls` | BleKeyboard/BleKeyboard.py:236-246 | at most one connect call |
| `BleKeyboard.ConnectCallsFirst` | BleKeyboard/BleKeyboard.py:236-246 | a connect call, when made, is for the first listed device with the address and has a path; there is none when no device has the address |
| `BleKeyboard.ConnectCallsMade` | BleKeyboard/BleKeyboard.py:236-246 | the first listed device with the address is connected exactly when it has a path, whatever follows it |
| `BleKeyboard.UnregisterCalls` | BleKeyboard/BleKeyboard.py:63-69 | only registered services are unregistered, at most three |
| `BleKeyboard.UnregisterCallsComplete` | BleKeyboard/BleKeyboard.py:63-69 | every registered service is unregistered |
| `BleKeyboard.BleKeyboard.constructor` | BleKeyboard/BleKeyboard.py:32-51 | nothing pressed, no report sent, no service registered |
| `BleKeyboard.BleKeyboard.RegisterServices` | BleKeyboard/BleKeyboard.py:53-61 | battery, device-information and HID services registered, in that order, at their object paths |
| `BleKeyboard.BleKeyboard.UnregisterServices` | BleKeyboard/BleKeyboard.py:63-69 | the unregister calls for the registered services |
| `BleKeyboard.BleKeyboard.ReleaseKeys` | BleKeyboard/BleKeyboard.py:106-112 | an all-zero release report only when a key was pressed; afterwards none is pressed |
| `BleKeyboard.BleKeyboard.PressKey` | BleKeyboard/BleKeyboard.py:94-104 | an unknown key changes nothing; a known one releases any pressed key first, then reports and remembers the new one; at most one key is ever pressed |
| `BleKeyboard.BleKeyboard.SendKey` | BleKeyboard/BleKeyboard.py:115-123 | press then release: the key's report followed by a release report, and nothing pressed afterwards |
| `BleKeyboard.BleKeyboard.ReleaseMediaKeys` | BleKeyboard/BleKeyboard.py:138-144 | a two-byte zero media report only when a media key was pressed |
| `BleKeyboard.BleKeyboard.PressMediaKey` | BleKeyboard/BleKeyboard.py:126-136 | as for keys, on the media-key channel |
| `BleKeyboard.BleKeyboard.SendMediaKey` | BleKeyboard/BleKeyboard.py:146-154 | as for keys, on the media-key channel |
| `BleKeyboard.BleKeyboard.Devices` | BleKeyboard/BleKeyboard.py:177-212 | the listed devices in object order, with a pair call for each connected unpaired object |
| `BleKeyboard.BleKeyboard.IsConnected` | BleKeyboard/BleKeyboard.py:216-225 | true exactly when some listed device is both paired and connected |
| `BleKeyboard.BleKeyboard.Disconnect` | BleKeyboard/BleKeyboard.py:249-262 | lists the devices, then issues the disconnect calls |
| `BleKeyboard.BleKeyboard.DisconnectEach` | BleKeyboard/BleKeyboard.py:255-262 | a disconnect for each matching connected device with a path |
| `BleKeyboard.BleKeyboard.Connect` | BleKeyboard/BleKeyboard.py:228-246 | first disconnects everything, then lists again and makes `ConnectCalls`, which `ConnectCallsFirst` and `ConnectCallsMade` prove connects exactly the first device with the address, when it has a path |
| `Controller.IrEvents` | RemoteController/RemoteController.py:165-175 | an empty IR code is a 500 error; otherwise one send, or send-and-repeat for a press without release |
| `Controller.BtEvents` | RemoteController/RemoteController.py:177-199 | a key action takes precedence over a media action; release-only gives a release of all keys, otherwise a press when held down and a send when not; 500 when neither is present |
| `Controller.NetworkRequest` | RemoteController/RemoteController.py:201-247 | no method is a 500 error; a missing host is a TypeError; otherwise a request of that method to the host, carrying the command's body exactly for POST, PATCH and PUT |
| `Controller.Reply` | RemoteController/RemoteController.py:207-252 | a reply gives its status and content; a read timeout and a connect error give their fixed messages |
| `Controller.Dispatch` | RemoteController/RemoteController.py:143-255 | IR, Bluetooth and network commands give exactly what their senders give; a script command is always a 400 error; failure exactly when an action, a method or a host is missing; success is one event, never a sleep |
| `Controller.StateUpdate` | RemoteController/RemoteController.py:329-339 | no device means no change; only the command's device may change; power-on powers it, power-off clears it, toggle flips it (after an input command powers it on); an input command selects itself as input |
| `Controller.StateUpdateAsWritten` | RemoteController/RemoteController.py:330-331 | any command with a device fails with AttributeError |
| `Controller.StartGuardAsWritten` | RemoteController/RemoteController.py:128-135 | the start-macro skip check fails with AttributeError unless a power-on for a powered device returns first |
| `Controller.PowerOnAsWritten` | RemoteController/RemoteController.py:128-339 | a power-on for device 1 fails in both places as written, while the corrected update powers the device on |
| `Controller.StateUpdates` | RemoteController/RemoteController.py:341-343 | the updates in command order; `StateUpdatesFrame` and `StateUpdatesAppend` prove unnamed devices keep their state and lists compose by concatenation |
| `Controller.StateUpdatesAppend` | RemoteController/RemoteController.py:341-343 | updating with one list and then another is updating with their concatenation |
| `Controller.StateUpdatesFrame` | RemoteController/RemoteController.py:341-343 | a device that no command names keeps its state |
| `Controller.SkipOnStart` | RemoteController/RemoteController.py:128-135 | a start command for a device already on, or already on its input, is skipped; `StartSkipRedundant` proves what skipping saves |
| `Controller.SkipOnStop` | RemoteController/RemoteController.py:137-141 | a stop power-off or toggle for a device already off is skipped; `StopSkipRedundant` proves what skipping saves |
| `Controller.Skipped` | RemoteController/RemoteController.py:128-141 | the start guard when called from a start, the stop guard when called from a stop; `SendDb` proves a skipped command changes nothing |
| `Controller.StartSkipRedundant` | RemoteController/RemoteController.py:128-135 | sending a skipped power-on or input command would have left the device as it is; a skipped toggle would have turned it off |
| `Controller.StopSkipRedundant` | RemoteController/RemoteController.py:137-141 | sending a skipped power-off would have left the device as it is; a skipped toggle would have turned it on |
| `Controller.SendDb` | RemoteController/RemoteController.py:126-153 | a redundant start or stop command does nothing; a send error stops before the state update; otherwise the dispatched event is logged and the device memory updated; nothing else changes |
| `Controller.SendCommandStep` | RemoteController/RemoteController.py:156-162 | an unknown command id is a 404; otherwise the stored command is sent |
| `Controller.StartRun` | RemoteController/RemoteController.py:281-286 | the start loop from command `i`; `StartRunErrors` and the lemmas below prove its errors, frame, events and sleeps |
| `Controller.StartRunErrors` | RemoteController/RemoteController.py:281-286 | the loop raises only an HTTP error or TypeError from a send, or an IndexError for a missing delay |
| `Controller.StartRunFrame` | RemoteController/RemoteController.py:281-286 | a start macro only changes the device memory and extends the log |
| `Controller.StartRunWellFormed` | RemoteController/RemoteController.py:285-286 | a macro with one delay fewer than commands never reads past its delays |
| `Controller.SendDbEvent` | RemoteController/RemoteController.py:126-153 | a guarded send logs at most the one event its command dispatches, and no sleep |
| `Controller.StartRunEvents` | RemoteController/RemoteController.py:281-286 | every event a start macro logs is a sleep or the dispatch of one of its commands |
| `Controller.StartRunSleeps` | RemoteController/RemoteController.py:281-286 | a completed start macro slept exactly `StartDelays`, in order |
| `Controller.StartDelaysSlice` | RemoteController/RemoteController.py:284-286 | with a delay for every command but the last, the delays slept are exactly those delays, in order |
| `Controller.StartRunHasDelays` | RemoteController/RemoteController.py:284-286 | a start macro of several commands completes only if it has a delay for every command but the last |
| `Controller.StopRunSendsOnlyPowerOff` | RemoteController/RemoteController.py:365-371 | a stop macro without eligible power-off or toggle commands does nothing at all |
| `Controller.StopRun` | RemoteController/RemoteController.py:365-371 | the stop loop from command `i`; `StopRunErrors` and the lemmas below prove its errors, frame, events and sleeps |
| `Controller.StopRunErrors` | RemoteController/RemoteController.py:365-371 | the loop raises only an HTTP error or TypeError from a send, or an IndexError for a missing delay |
| `Controller.StopRunFrame` | RemoteController/RemoteController.py:365-371 | a stop macro only changes the device memory and extends the log |
| `Controller.StopRunSendsOnlyEligible` | RemoteController/RemoteController.py:365-369 | every event a stop macro logs is a sleep or the dispatch of a power-off or toggle command of a device outside the skip set |
| `Controller.StopRunSleeps` | RemoteController/RemoteController.py:365-371 | a completed stop macro slept exactly the delays of its eligible commands (`StopDelays`), in order |
| `Controller.StopDelaysEligible` | RemoteController/RemoteController.py:366-371 | a delay is slept exactly when it belongs to an eligible command that is not the last |
| `Controller.StopRunSparesSkipped` | RemoteController/RemoteController.py:367-369 | a device in the skip set keeps its state through the stop macro |
| `Controller.SkipSet` | RemoteController/RemoteController.py:264-269 | exactly the devices that some start command powers on or toggles |
| `Controller.LoadKeymapStep` | RemoteController/RemoteController.py:378-391 | a missing scene keymap file loads nothing; a missing named keymap keeps the old keymap but the scene keymap is already loaded; on success both are loaded; nothing else changes |
| `Controller.StopGuard` | RemoteController/RemoteController.py:349-350 | stopping is allowed exactly when a scene with a non-zero id is current; otherwise 404 "No scene active" |
| `Controller.StopGuardAsWritten` | RemoteController/RemoteController.py:349 | agrees with the corrected guard whenever a scene is current |
| `Controller.StopWithoutSceneAsWritten` | RemoteController/RemoteController.py:349 | with no current scene the written guard raises AttributeError, not the 404 |
| `Controller.StopSceneStep` | RemoteController/RemoteController.py:345-375 | a refused stop changes nothing; a completed stop leaves no current scene and no status |
| `Controller.StopSceneOutcome` | RemoteController/RemoteController.py:349-371 | past the guard the default keymap is loaded first; an unknown scene id is then a 404; otherwise the keyboard is disconnected before any stop command, only sleeps and eligible stop commands follow, and a failure leaves the scene current with status stopping |
| `Controller.StopSceneSparesSkipped` | RemoteController/RemoteController.py:345-375 | a skipped device keeps its state through the whole stop |
| `Controller.StartSceneStep` | RemoteController/RemoteController.py:257-293 | an unknown scene id is a 404 that changes nothing; with a current scene and a start macro, the old scene is stopped first, sparing the devices the start macro powers on, and a failed stop ends the start; otherwise the scene is entered directly; a completed start leaves that scene current and active |
| `Controller.EnterScene` | RemoteController/RemoteController.py:273-291 | on success the scene is current and active |
| `Controller.EnterSceneOutcome` | RemoteController/RemoteController.py:273-286 | the BLE reconnection is logged before any macro event; without a start macro it is the only event; with one, every later non-sleep event is the dispatch of a start-macro command; a failure mid-start leaves the scene current with status starting |
| `Controller.StartCommands` | RemoteController/RemoteController.py:318 | the start macro's commands, or none without a start macro |
| `Controller.StartCommandsAsWritten` | RemoteController/RemoteController.py:318 | agrees with the corrected lookup whenever the scene has a start macro |
| `Controller.SetSceneWithoutStartMacroAsWritten` | RemoteController/RemoteController.py:318 | without a start macro the written lookup raises AttributeError |
| `Controller.SetSceneStep` | RemoteController/RemoteController.py:299-327 | an unknown scene id is a 404; otherwise the device memory takes the previous scene's stop commands and then the new scene's start commands, the scene becomes current and active, and the step fails exactly when its truthy keymap cannot be loaded |
| `Controller.SetSceneSendsNothing` | RemoteController/RemoteController.py:299-327 | setting a scene sends no command: the only events are the BLE reconnection calls |
| `Controller.PressTask` | RemoteController/RemoteController.py:396-408 | "Off" stops the scene; else a truthy scene keymap entry starts that scene; else a truthy keymap entry sends that command held down; else nothing |
| `Controller.ReportedConnected` | RemoteController/RemoteController.py:441-455 | some reported device is connected and paired exactly when the keyboard reports a connection |
| `Controller.RemoteController.constructor` | RemoteController/RemoteController.py:48-71 | empty device memory, no scene, empty keymaps, nothing logged or queued |
| `Controller.RemoteController.SendIrCommand` | RemoteController/RemoteController.py:165-175 | logs the IR events, or returns the error and logs nothing |
| `Controller.RemoteController.SendBtCommand` | RemoteController/RemoteController.py:177-199 | logs the keyboard event, or returns the error and logs nothing |
| `Controller.RemoteController.SendNetworkCommand` | RemoteController/RemoteController.py:201-252 | logs the request and returns the peer's reply or the error message, or returns the error (no method, or no host) and logs nothing |
| `Controller.RemoteController.SendScriptCommand` | RemoteController/RemoteController.py:254-255 | always the 400 error |
| `Controller.RemoteController.DispatchCommand` | RemoteController/RemoteController.py:143-151 | logs the dispatched events or returns the dispatch error |
| `Controller.RemoteController.UpdateDeviceStatus` | RemoteController/RemoteController.py:415-420 | only that device's entry changes, to its next state |
| `Controller.RemoteController.SetStateForCommand` | RemoteController/RemoteController.py:329-339 | the device memory becomes the command's state update |
| `Controller.RemoteController.SetStatesForCommands` | RemoteController/RemoteController.py:341-343 | the device memory becomes the updates of the commands in order |
| `Controller.RemoteController.SendDbCommand` | RemoteController/RemoteController.py:126-153 | the new state and error are those of the send step |
| `Controller.RemoteController.SendCommand` | RemoteController/RemoteController.py:156-162 | the new state and error are those of the command step |
| `Controller.RemoteController.LoadKeyMap` | RemoteController/RemoteController.py:378-391 | the new keymaps and error are those of the load step |
| `Controller.RemoteController.RunStartMacro` | RemoteController/RemoteController.py:281-286 | the loop's outcome is the start-macro run |
| `Controller.RemoteController.RunStopMacro` | RemoteController/RemoteController.py:365-371 | the loop's outcome is the stop-macro run |
| `Controller.RemoteController.PowerOnDevices` | RemoteController/RemoteController.py:264-269 | the set-building loop yields the skip set |
| `Controller.RemoteController.StopCurrentScene` | RemoteController/RemoteController.py:345-375 | the new state and error are those of the stop step |
| `Controller.RemoteController.StartScene` | RemoteController/RemoteController.py:257-293 | the new state and error are those of the start step |
| `Controller.RemoteController.Enter` | RemoteController/RemoteController.py:273-291 | the new state and error are those of entering the scene |
| `Controller.RemoteController.SetCurrentScene` | RemoteController/RemoteController.py:299-327 | the new state and error are those of the set step |
| `Controller.RemoteController.HandleButtonPress` | RemoteController/RemoteController.py:396-408 | enqueues exactly the task chosen for the button, or nothing |
| `Controller.RemoteController.HandleButtonRelease` | RemoteController/RemoteController.py:410-413 | the key, media-key and IR-repeat releases happen at once, and three non-awaitable entries are queued |
| `Controller.RemoteController.GetBleDevices` | RemoteController/RemoteController.py:441-455 | one report per listed device, in order, with names and addresses copied and flags made boolean |

## Left out

- Floating point: IR timings and averages are exact reals. Python's `round`
  (half to even) is modelled exactly; binary rounding of the divisions is not.
- Hardware and services are not executed:
  - pigpio is a modelled daemon (`IrCodec.Pigpio`).
  - The NRF24 radio is a log of radio calls; ready payloads arrive as a
    sequence.
  - D-Bus/BlueZ is a log of bus calls, with managed objects given as input.
  - HTTP is a fixed peer function from request to outcome.
  - In the controller, IR and keyboard actions are logged events. The
    controller does not call into the IR and keyboard classes.
- Timing: `asyncio.sleep` and `time.sleep` are logged as `Sleep` events in the
  macros, or dropped elsewhere. The transmitter's busy-wait is left out.
- Concurrency and scheduling (asyncio, the listener thread):
  - The task queue is modelled only as the list of enqueued entries. The
    worker's one-slot semaphore (AsyncQueueManager.py) is not modelled,
    including that it is never released when an awaited entry raises.
  - `IrCodec.IrManager.SendAndRepeat`: how many rounds run before
    `stop_repeating` arrives from elsewhere is a parameter.
  - `IrCodec.RecordCommand` takes the completed recordings as input and does
    not model the edge callbacks interleaving with the waiting loop.
  - `RfDecoder.RfManager.Poll` models one round of the receive loop.
- `RfDecoder.RfManager.StartListener`: with fewer than two addresses the
  source indexing fails in the listener thread before its exception handler.
  The model stops at that point and receives nothing; the log message and the
  thread's death are not modelled.
- The listener's catch-all exception handler and the debug register dump are
  left out.
- Files and JSON: `known_commands.json` and the keymap files are maps given to
  the model. A missing keymap file is an error. Malformed JSON is left out.
- `BleKeyboard.Keycode`: the key tables of `KeymapHelper` are parameters;
  `KeymapHelper.py` is not part of this model.
- `Controller.RemoteController.constructor`: the keymap loading that `create`
  ends with is left out. The model starts with empty keymaps, and a caller
  loads them with `LoadKeyMap`.
- `load_key_map`: the rewiring of the RF callbacks and the `is_dev` flag are
  left out.
- HTTP: only read timeouts and connection errors are caught, as in the
  source. Other transport errors are left out.
- Response bodies are opaque values.
- Changes the model does not capture:
  - `BleKeyboard` keeps its pressed-key lists as class attributes shared by
    all instances; the model gives each keyboard its own.
  - Before registration, `hid_service` is `None`; the model does not fail on a
    press before registration.
- `BleKeyboard.UnregisterCalls` bounds the number of calls by three and does
  not state it equals the number of registered services. Completeness is the
  separate lemma `BleKeyboard.UnregisterCallsComplete`.
- `IrCodec.IrManager.SendCommand`: the model's wave ids only grow. A real
  pigpio daemon may reuse deleted ids; the proofs need only that a new id is
  not in use.
- `Controller.StopSceneStep` states the guard and final-status cases in its
  own contract. The keymap reset, the scene lookup, the BLE disconnect and
  the stop macro are stated by `Controller.StopSceneOutcome`.
- The macro lemmas state the sleeps (`Sleeps`) and the non-sleep events of a
  run separately. They do not state how the two interleave.
- `Controller.StartRunEvents` states that every non-sleep event of a start
  run is the dispatch of one of the macro's commands. It does not state that
  every command not skipped is sent, in macro order. Whether a power command
  is skipped depends on the device memory each earlier send updates, so that
  claim would need a second model of the loop.
- Error details are abstracted to their kind and id. `CommandNotFound` also
  stands for the controller's id-less command-not-found reply, and
  `SceneNotFound` for both wordings of the missing-scene reply; the message
  texts themselves are not modelled.
- Not modelled:
  - recording IR over a websocket, `cancel_recording`, shutdown and cleanup;
  - BLE advertising, pairing agents and the battery level;
  - `ble_connect` and `ble_disconnect`, which only delegate;
  - status callbacks and websocket notifications;
  - `get_current_status`, a plain accessor;
  - the database session: the catalog is a read-only map.
- The stored `Scene` and `Status` records are declared differently from how
  the controller uses them. The model follows the controller: a scene's start
  and stop macros, and the report's current scene and status.

## Findings

| source | as written | input that shows it | evidently intended | confidence | as-written member | corrected member |
|---|---|---|---|---|---|---|
| RemoteController/RemoteController.py:128-339 | `CommandGroupType.INPUT` is referenced at lines 134 and 331, but the enumeration in Api/models/CommandGroupType.py:4-12 has no such member, so every command with a device raises AttributeError when its state is updated | a POWER_ON command for device 1 on an unpowered device | input commands select the device's input; other commands update power | not executed | `Controller.StateUpdateAsWritten`, `Controller.StartGuardAsWritten` (shown by `Controller.PowerOnAsWritten`) | `Controller.StateUpdate` |
| RemoteController/RemoteController.py:349 | `self.status.current_scene.id` is read while no scene is current, raising AttributeError | stop_current_scene with no scene started | a 404 "No scene active" | not executed | `Controller.StopGuardAsWritten` (shown by `Controller.StopWithoutSceneAsWritten`) | `Controller.StopGuard` |
| RemoteController/RemoteController.py:318 | `scene_db.start_macro.commands` is read for a scene without a start macro, raising AttributeError | set_current_scene on a scene whose start macro is None | no start-macro state updates | not executed | `Controller.StartCommandsAsWritten` (shown by `Controller.SetSceneWithoutStartMacroAsWritten`) | `Controller.StartCommands` |
