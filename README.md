# OpenDrop board driver — a Dafny model

This project models the OpenDrop board driver (`OpenDropBoard` in
`opendrop_board.py`) and the decision rules of the OpenDrop plugin that
drives it (`OpenDropPlugin` in `__init__.py`).

The board is a multiplexed electrode driver. It has 9 gate lines G0..G8 on
digital pins 2..10 and 8 source lines S1..S8 on pins 11..18. The driver
reports 68 channels. Channel `c` is addressed by one (gate, source) pair:

- channels 0 and 1 use gate 0 with sources 1 and 3;
- channels 2 and 3 use gate 0 with sources 6 and 8;
- from channel 4 on, the gate is `(c - 4) / 8 + 1` (floor division) and the
  source is `(c - 4) % 8 + 1`.

Switching a channel writes its gate to the channel's state and then its
source to the negation of that state. Clearing the board writes every gate
HIGH, in increasing order, and then every source LOW, in increasing order.
Setting all channels clears the board, then switches every channel whose
state is truthy, in increasing channel order. Connecting resolves a port:
the port given, else the port of the current device, else the first
enumerated port. Unless the board already has a device on that port and
baud rate, it opens a new device, makes pins 2..18 outputs and clears the
board. The new device is assigned before the firmware proxy is built on it,
so a proxy that fails to build leaves the board holding the new, open
device.

Files:

- `wrappers.dfy`: `Option`, standing for Python's `None`.
- `channel_map.dfy` (module `ChannelMap`): pin numbers, the channel to
  (gate, source) mapping, its inverse `ChannelAt`, and the range,
  distinctness and inverse lemmas.
- `pin_log.dfy` (module `PinLog`): the proxy commands; the write sequences
  the driver must produce (`ClearPattern`, `ChannelWrites`, `StateWrites`,
  `PinModes`); `PinLevels`, the level each pin was last written to; and the
  lemmas about the order, the count and the pin levels these leave.
- `board.dfy` (module `Board`): the session value (`Session`), the effect
  of `connect` and `disconnect` as functions (`ConnectSpec`,
  `DisconnectSpec`) with their lemmas, and the class `OpenDropBoard`. Each
  of its methods is proved against those functions, with loops where the
  source loops.
- `plugin.dfy` (module `Plugin`): the plugin's rules as functions and as
  methods of the class `OpenDropPlugin`. These are fitting the channel
  states to the board, when to send them, the reconnect decision, the
  connect fallback, the name and version check, the scheduling table and
  step completion.

Abstractions:

- The serial device is a value owned by the board: its port, baud rate and
  open flag.
- The proxy is the append-only log `sent`: every `digital_write` and
  `pin_mode` is appended in the order issued.
- Port enumeration is a parameter (`available`). So is the outcome of
  opening the serial device and its proxy (`OpenResult`: success, the
  serial device failing to open, or the proxy raising a RuntimeError or
  another error after the device was assigned).
- Channel states are integers. A state is truthy when non-zero. The gate
  gets the raw state and the source gets `int(not bool(state))`.

Properties proved beyond the mapping itself:

- `PinLog.BinaryStateEndsIdle`: when every state is 0 or 1, setting all
  channels leaves every output pin at its idle level. With the polarity of
  this driver, switching a channel on writes HIGH to its gate and LOW to
  its source, which are the idle levels.
- `Board.ReconnectAfterDisconnectIsSkipped`: the "already connected" test
  in `connect` compares only port and baud rate. `disconnect` closes the
  device but keeps it, so connecting again to the same port and baud rate
  is skipped and the board stays disconnected.
- `ChannelMap.ChannelPastCountHitsSourcePin`: channel 68 would drive pin 11,
  the pin of source S1, as a gate. Because the plugin fits every array to
  68 channels before sending it, channel 68 is never sent
  (`Plugin.FittedStateStaysOnOutputs`).
- `Plugin.PluginConnectFallsBack`: the plugin's fallback after a
  RuntimeError never reaches another port. The failed attempt has already
  assigned the new device, so the retry without a port resolves to that
  same port and is skipped. The plugin then reports no error, stores the
  port that failed in its `serial_port` option, and the board reports
  itself connected although nothing was sent to it.
- `Plugin.DriverBoardIsRejected`: the plugin accepts only a device named
  "open_drop", and this driver's board names itself "OpenDrop". So the
  firmware check always rejects it and never offers an update.

## Model

| member | source | states |
|---|---|---|
| `ChannelMap.GateOf` | opendrop_board.py:148-157 | the gate index is at most 8 exactly for channels below 68; channels 0..3 use gate 0 and later channels gates 1 and up |
| `ChannelMap.SourceOf` | opendrop_board.py:148-157 | the source index of every channel lies in 1..8 |
| `ChannelMap.ChannelAt` | opendrop_board.py:148-157 | the inverse layout only ever names channels below 68 |
| `ChannelMap.ChannelAtInverts` | opendrop_board.py:148-157 | every channel 0..67 is recovered from its (gate, source) pair |
| `ChannelMap.ChannelAtIsMapped` | opendrop_board.py:148-157 | every (gate, source) pair that addresses a channel is exactly that channel's pair |
| `ChannelMap.ChannelsAreDistinct` | opendrop_board.py:148-157 | distinct channels 0..67 never share both gate and source |
| `ChannelMap.ChannelPinsAreOutputs` | opendrop_board.py:129-157 | for channels 0..67 the gate pin lies in 2..10 and the source pin in 11..18, so all are output pins and gates and sources never meet |
| `ChannelMap.ChannelPastCountHitsSourcePin` | opendrop_board.py:156 | channel 68 would drive the source S1 pin as its gate pin |
| `ChannelMap.MappingSpotValues` | opendrop_board.py:148-157 | 0→(0,1), 1→(0,3), 2→(0,6), 3→(0,8), 4→(1,1), 11→(1,8), 12→(2,1), 67→(8,8) |
| `PinLog.Negate` | opendrop_board.py:151 | the source level is 0 or 1 and truthy exactly when the state is falsy |
| `PinLog.ChannelsWrites` | opendrop_board.py:93-97 | the channel loop issues exactly two writes per truthy state |
| `PinLog.ClearPattern` | opendrop_board.py:139-146 | clearing issues 17 writes, to pins 2..18 in increasing order, each to its idle level: gates HIGH and sources LOW |
| `PinLog.ChannelWrites` | opendrop_board.py:148-157 | two writes: the gate gets the state, then the source a level of opposite truthiness; for channels below 68 both pins are outputs, the gate's below the source's |
| `PinLog.StateWrites` | opendrop_board.py:91-97 | setting all channels writes the clear pattern first, then two writes per truthy state |
| `PinLog.PinModes` | opendrop_board.py:71-72 | connecting sets pins 2..18 to output mode, once each, in increasing order |
| `PinLog.ChannelWritesLevels` | opendrop_board.py:148-157 | after a channel's two writes its gate pin holds the state and its source pin the negation, other pins unchanged |
| `PinLog.ClearDrivesIdle` | opendrop_board.py:139-146 | after clearing, pins 2..10 are HIGH and 11..18 LOW, whatever was written before |
| `PinLog.ChannelWritesPosition` | opendrop_board.py:91-97 | a truthy channel's gate write and then its source write follow the clear pattern and the writes of the truthy channels below it |
| `PinLog.AllFalsyWritesClearPattern` | opendrop_board.py:91-97 | an array with no truthy state produces exactly the clear pattern |
| `PinLog.ZeroPaddingAddsNoWrites` | opendrop_board.py:93-94 | padding an array with zeros adds no writes |
| `PinLog.ChannelsWritesOnOutputs` | opendrop_board.py:93-97 | for at most 68 states every channel write is a digital write to a pin in 2..18 |
| `PinLog.StateWritesLevels` | opendrop_board.py:91-97 | for at most 68 states, afterwards every gate pin holds a truthy level and every source pin is LOW |
| `PinLog.BinaryStateEndsIdle` | opendrop_board.py:139-157 | for 0/1 states, afterwards every output pin is at its idle level |
| `Board.Session.Port` | opendrop_board.py:31-36 | `port` is None exactly when there is no device, else the device's port |
| `Board.Session.BaudRate` | opendrop_board.py:38-43 | `baud_rate` is None exactly when there is no device, else the device's baud rate |
| `Board.ResolvePort` | opendrop_board.py:51-57 | the port given (not None or 'None') wins, then the current port, then the first enumerated one; resolution fails only when none exists |
| `Board.DisconnectSpec` | opendrop_board.py:75-85 | after disconnecting, `connected()` is false, port and baud rate are kept and nothing is sent |
| `Board.Session.Connected` | opendrop_board.py:81-85 | `connected()` holds exactly when a device exists and is open; a connected session has a port and a baud rate |
| `Board.ConnectSpec` | opendrop_board.py:50-73 | commands are sent only by a successful connect (pin modes, then the clear pattern); failing to resolve a port or to open the serial device leaves the session unchanged; when the resolved port or the baud rate differs from the device's, a successful open replaces the device with an open one on that port and baud rate and a failing serial open raises without changes; a session that changes is connected on the resolved port and baud rate |
| `Board.ProxyFailureLeavesDeviceConnected` | opendrop_board.py:63-65 | when the proxy fails to build, the new device stays assigned and open on the resolved port, nothing is sent, and a connect without a port then is skipped |
| `Board.ConnectWithoutPortsFails` | opendrop_board.py:56-57 | with no port given, no device and no enumerated port, connect fails and the board stays disconnected |
| `Board.ConnectSameConnectionIsSkipped` | opendrop_board.py:63 | connecting to the current device's port and baud rate changes nothing and sends nothing |
| `Board.ConnectOpensAndClears` | opendrop_board.py:63-73 | when the resolved port or the baud rate differs from the device's and the open succeeds, connect raises nothing, leaves the new device open on that port and baud rate, and sends pin modes for 2..18 then the clear pattern, so every output pin is idle |
| `Board.ConnectTwiceIsSkipped` | opendrop_board.py:50-73 | after a successful connect, the same call again is skipped |
| `Board.ReconnectAfterDisconnectIsSkipped` | opendrop_board.py:63 | after disconnect, connecting to the same port and baud rate is skipped and the board stays disconnected |
| `Board.OpenDropBoard.constructor` | opendrop_board.py:21-22 | a new board has no device and has sent nothing |
| `Board.OpenDropBoard.Connected` | opendrop_board.py:81-85 | `connected()` holds exactly when the board has a device and it is open |
| `Board.OpenDropBoard.NumberOfChannels` | opendrop_board.py:106-108 | the board reports 68 channels, each of which maps to one of the nine gates |
| `Board.OpenDropBoard.Name` | opendrop_board.py:110-112 | the board's fixed name, "OpenDrop", is not the plugin's name "open_drop" |
| `Board.OpenDropBoard.HostSoftwareVersion` | opendrop_board.py:114-120 | the host version, fixed at "0.0.0", equals the firmware version the board reports |
| `Board.OpenDropBoard.SetBaudRate` | opendrop_board.py:45-48 | assigning `baud_rate` changes nothing |
| `Board.OpenDropBoard.SetGate` | opendrop_board.py:129-132 | exactly one write, to pin 2 + i with the given level |
| `Board.OpenDropBoard.SetSource` | opendrop_board.py:134-137 | exactly one write, to pin 10 + i with the given level |
| `Board.OpenDropBoard.ClearAllChannels` | opendrop_board.py:139-146 | appends exactly the clear pattern and keeps the device |
| `Board.OpenDropBoard.SetChannelState` | opendrop_board.py:148-157 | appends the gate write with the state, then the source write with its negation |
| `Board.OpenDropBoard.SetStateOfAllChannels` | opendrop_board.py:91-97 | appends the clear pattern, then the channel writes of every truthy state in increasing order |
| `Board.OpenDropBoard.Connect` | opendrop_board.py:50-73 | the new session and error are those of `ConnectSpec` |
| `Board.OpenDropBoard.Disconnect` | opendrop_board.py:75-79 | the new session is that of `DisconnectSpec`; it never fails |
| `Plugin.FitToChannels` | __init__.py:303-310 | the fitted array has exactly the board's channel count, keeps the original entries as a prefix and is zero beyond them |
| `Plugin.FittedStateWrites` | __init__.py:304-318 | a short array padded with zeros drives the board exactly as the array itself; a long one as its prefix |
| `Plugin.FittedStateStaysOnOutputs` | __init__.py:303-318 | whatever its length, a fitted array writes only to pins 2..18 and leaves gates truthy and sources LOW |
| `Plugin.PortArgument` | __init__.py:197 | `str()` of the option reaches the board as "no port" exactly when the option is None or the text 'None'; otherwise the option itself |
| `Plugin.ReconnectIffOptionDiffers` | __init__.py:163-169 | with the two options in either order, a reconnect is called for exactly when the serial port or the baud rate differs |
| `Plugin.PluginConnectSpec` | __init__.py:193-208 | no enumerated port raises and changes nothing; the configured port is tried first, and unless that attempt raises a RuntimeError the session is the one it leaves, a success stores the board's port in the option and a failure re-raises its error and keeps the option |
| `Plugin.PluginConnectFallsBack` | __init__.py:196-206 | after a RuntimeError on the configured port, the retry is skipped: no error, the board keeps the device on the port that failed and reports itself connected with nothing sent, and the option becomes that port |
| `Plugin.NameAndVersionVerdict` | __init__.py:223-237 | a name other than "open_drop" is rejected before versions are compared; an update is offered exactly when the version strings differ |
| `Plugin.DriverBoardIsRejected` | __init__.py:223-225 | the driver's board, named "OpenDrop", always fails the name check |
| `Plugin.OpenDropPlugin.constructor` | __init__.py:127-132 | the plugin starts with a fresh, disconnected board and no step timer |
| `Plugin.OpenDropPlugin.ReconnectWanted` | __init__.py:160-169 | the flag is set exactly when the board is connected and some option item differs from the board's value |
| `Plugin.OpenDropPlugin.Connect` | __init__.py:184-208 | the new session, `serial_port` option and error are those of `PluginConnectSpec` |
| `Plugin.OpenDropPlugin.OnAppOptionsChanged` | __init__.py:156-182 | for this plugin, reconnect exactly when connected and an option differs; for the application, send the clear pattern only when connected and not in realtime mode or running |
| `Plugin.OpenDropPlugin.CheckDeviceNameAndVersion` | __init__.py:210-241 | the verdict is a connect failure exactly when connecting raised; otherwise it is the name and version verdict, which for this board is always a rejection |
| `Plugin.OpenDropPlugin.OnStepRun` | __init__.py:282-329 | the fitted states are sent only when connected and in realtime mode or running; a running protocol records the new step timer |
| `Plugin.OpenDropPlugin.OnStepComplete` | __init__.py:336-338 | the step timer is cleared exactly when the completed plugin is this one, else kept |
| `Plugin.OpenDropPlugin.GetScheduleRequests` | __init__.py:449-465 | two requests placing this plugin before the grid and protocol controllers for step option changes, one for app option changes and one for protocol swaps, none otherwise |

## Left out

- Serial I/O and the RPC proxy are an ordered command log, an open flag
  and an environment-chosen open result. The log does not record which
  device a command went to.
- `Board.OpenDropBoard.Connect`: a `pin_mode` or `digital_write` that
  raises during connect, after the proxy was built, is not modelled; only
  the serial device and the proxy construction can fail.
- `Board.OpenDropBoard.SetGate`, `Board.OpenDropBoard.SetSource`,
  `Board.OpenDropBoard.ClearAllChannels`, `Board.OpenDropBoard.SetChannelState`
  and `Board.OpenDropBoard.SetStateOfAllChannels` require a connected board
  instead of modelling the exception the source raises when no proxy was
  ever built or its port is closed. After a proxy failure the source sends
  through the proxy of an earlier device, if any; the model logs such
  writes like any other.
- The two-second settle delay after opening, and all logging: timing and
  side effects with no logical content.
- `flash_firmware`, `set_waveform_voltage`, `set_waveform_frequency`: empty
  stubs in the driver; voltage and frequency are floating point.
- `serial_number` (the integer 0) and the waveform limits (a maximum
  voltage of 200.0, a minimum frequency of the integer 0 and a maximum
  frequency of 10e3): constants that nothing in the modelled rules reads.
- The `max_voltage` and `check_frequency` validators: floating-point
  comparisons reached through a service lookup.
- GTK dialogs and the firmware-update prompt, gobject timers (only the
  timer id they return is kept), signal emission, protocol-grid updates,
  connection-status text, experiment-log writing and plugin registration:
  host GUI and framework glue. `on_protocol_pause`, `on_step_options_changed`
  and `on_step_swapped` are such glue.
- Channel states that are floating point: states are modelled as integers.
- The source's `if serial_port is None: return` after port resolution
  cannot be reached: every path through the resolution sets a port.
- A second, inverted pin-polarity convention: it appears in no code of
  this driver.
- `release.py` and `on_plugin_install.py`: packaging and installation I/O.
- `hardware_version()`: a constant that nothing in the modelled rules reads.
- The default `baud_rate=115200` of `connect`: every modelled caller
  passes a baud rate, so `Board.OpenDropBoard.Connect` takes it as a
  required integer.
- A `baud_rate` option that is None (the option is optional): the baud
  rate is an integer in the model. With None the skip test of `connect`
  never holds and opening the serial device raises.
