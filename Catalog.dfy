/** The catalog entities the controller reads: commands, macros and scenes,
    with the enumerations they use. The catalog itself is an immutable map
    from ids to entities; the database behind it is not part of this model. */
module Catalog {
  import opened Wrappers

  /** The command types of Api/models/CommandType.py. */
  datatype CommandType = Ir | Bluetooth | Network | Script

  /** The command groups. Api/models/CommandGroupType.py has no Input member,
      but the controller compares against one; the model includes it (see the
      findings in README.md). */
  datatype CommandGroupType =
    | Volume | Navigation | Transport | ColoredButtons | Channel | Power | Numeric | Other
    | Input

  /** The buttons of Api/models/RemoteButton.py. */
  datatype RemoteButton =
    | PowerToggle | PowerOff | PowerOn
    | VolumeUp | VolumeDown | Mute
    | DirectionUp | DirectionDown | DirectionLeft | DirectionRight | Select | Guide | Back | Menu | Home | Exit
    | Play | Pause | PlayPause | Stop | FastForward | Rewind | NextTrack | PreviousTrack | Record
    | ChannelUp | ChannelDown
    | Green | Red | Blue | Yellow
    | NumberZero | NumberOne | NumberTwo | NumberThree | NumberFour
    | NumberFive | NumberSix | NumberSeven | NumberEight | NumberNine
    | BrightnessUp | BrightnessDown | TurnOn | TurnOff
    | OtherButton

  /** The HTTP methods of Api/models/NetworkRequestType.py. */
  datatype NetworkRequestType = Get | Post | Delete | Head | Patch | Put

  /** The scene states of Api/models/SceneStatus.py; "no state" is None. */
  datatype SceneStatus = Starting | Active | Stopping

  /** A stored command with its type-specific payloads. */
  datatype Command = Command(
    id: nat,
    name: string,
    button: RemoteButton,
    kind: CommandType,
    group: CommandGroupType,
    deviceId: Option<nat>,
    host: Option<string>,
    httpMethod: Option<NetworkRequestType>,
    body: Option<string>,
    btAction: Option<string>,
    btMediaAction: Option<string>,
    irAction: seq<int>)

  /** A macro: commands in order, with the delays (in milliseconds) between them. */
  datatype Macro = Macro(id: nat, name: Option<string>, commands: seq<Command>, delays: seq<int>)

  /** A scene in the shape the controller uses it: an optional start macro
      and stop macro, an optional BLE address and keymap name. */
  datatype Scene = Scene(
    id: nat,
    name: Option<string>,
    bluetoothAddress: Option<string>,
    startMacro: Option<Macro>,
    stopMacro: Option<Macro>,
    keymap: Option<string>)

  /** The catalog, addressed by id. */
  datatype Catalog = Catalog(commands: map<nat, Command>, scenes: map<nat, Scene>, macros: map<nat, Macro>)

  /** Python truthiness of an optional string: present and non-empty. */
  predicate Truthy(s: Option<string>)
  {
    s.Some? && s.value != ""
  }

  /** The buttons that may turn a device on, and those that may turn it off. */
  predicate PowersOn(b: RemoteButton)
  {
    b == PowerOn || b == PowerToggle
  }

  predicate PowersOff(b: RemoteButton)
  {
    b == PowerOff || b == PowerToggle
  }

  /** A macro whose delay list has one entry between each pair of commands,
      the shape the macro router enforces. */
  predicate WellFormedMacro(m: Macro)
  {
    |m.commands| == |m.delays| + 1
  }
}

/** The exceptions the core raises, as values. */
module Errors {

  /** The detail of an HTTP error raised by the controller or the routers. */
  datatype Detail =
    | DelayCountMismatch
    | CommandNotFound(commandId: int)
    | SceneNotFound(sceneId: int)
    | NoSceneActive
    | NoExecutableAction
    | ScriptNotImplemented

  /** The keymap files the controller reads: config/keymap_scenes.json and
      config/keymap_<name>.json. */
  datatype ConfigFile = SceneKeymapFile | KeymapFile(name: string)

  datatype Error =
    | HttpError(status: nat, detail: Detail)
    | AttributeError
    | IndexError
    | TypeError
    | FileNotFound(file: ConfigFile)
}
