/**
 * The decision rules the OpenDrop plugin applies around the board: fitting
 * the channel-state array to the board, when to send it, when to reconnect,
 * the connect fallback, the device name and firmware version check, the
 * scheduling table and the step-completion bookkeeping.
 */
module Plugin {
  import opened Wrappers
  import opened ChannelMap
  import opened PinLog
  import opened Board

  /** An application option value as the host stores it. */
  datatype AppValue = NoneValue | Text(s: string) | Number(n: int)

  /** The errors the plugin's `connect` raises. */
  datatype PluginError = NoSerialPorts | BoardFailure(cause: ConnectError)

  /** What checking the device name and firmware version concludes. */
  datatype DeviceCheck = ConnectFailed | WrongDevice | FirmwareCurrent | UpdateOffered

  /** A request that plugin `before` handle a signal before plugin `after`. */
  datatype ScheduleRequest = ScheduleRequest(before: string, after: string)

  /**
   * The channel-state array fitted to the board's channel count: truncated
   * when longer, padded with zeros when shorter.
   */
  function FitToChannels(states: seq<int>, maxChannels: nat): (r: seq<int>)
    ensures |r| == maxChannels
    ensures forall i :: 0 <= i < |r| && i < |states| ==> r[i] == states[i]
    ensures forall i :: |states| <= i < |r| ==> r[i] == 0
  {
    if |states| > maxChannels then states[..maxChannels]
    else if |states| < maxChannels then states + Zeros(maxChannels - |states|)
    else states
  }

  /**
   * Sending a fitted array drives the board exactly as sending the original
   * would when it is short, and as sending its prefix when it is long.
   */
  lemma FittedStateWrites(states: seq<int>, maxChannels: nat)
    ensures |states| <= maxChannels ==> StateWrites(FitToChannels(states, maxChannels)) == StateWrites(states)
    ensures |states| > maxChannels ==>
      StateWrites(FitToChannels(states, maxChannels)) == StateWrites(states[..maxChannels])
  {
    if |states| < maxChannels {
      ZeroPaddingAddsNoWrites(states, maxChannels - |states|);
    }
  }

  /**
   * Whatever the array, the fitted array only writes to output pins and
   * leaves every gate pin truthy and every source pin LOW.
   */
  lemma FittedStateStaysOnOutputs(prior: seq<Command>, states: seq<int>)
    ensures forall k :: 0 <= k < |StateWrites(FitToChannels(states, CHANNELS))| ==>
      StateWrites(FitToChannels(states, CHANNELS))[k].DigitalWrite? &&
      FIRST_PIN <= StateWrites(FitToChannels(states, CHANNELS))[k].pin <= LAST_PIN
    ensures GatesOnSourcesLow(PinLevels(prior + StateWrites(FitToChannels(states, CHANNELS))))
  {
    var fitted := FitToChannels(states, CHANNELS);
    ChannelsWritesOnOutputs(fitted);
    StateWritesLevels(prior, fitted);
  }

  /** The value the plugin compares with the `serial_port` option. */
  function PortValue(port: Option<string>): AppValue
  {
    match port
    case None => NoneValue
    case Some(p) => Text(p)
  }

  /** The value the plugin compares with the `baud_rate` option. */
  function BaudValue(baudRate: Option<int>): AppValue
  {
    match baudRate
    case None => NoneValue
    case Some(b) => Number(b)
  }

  /** `str(value)` of the `serial_port` option, as passed to the board's `connect`. */
  function PortArgument(option: Option<string>): (r: string)
    ensures IsPortGiven(Some(r)) <==> option.Some? && option.value != "None"
    ensures IsPortGiven(Some(r)) ==> r == option.value
  {
    match option
    case None => "None"
    case Some(p) => p
  }

  /** An option item that calls for a reconnect: a baud rate or serial port unlike the board's. */
  predicate Differs(item: (string, AppValue), port: AppValue, baudRate: AppValue)
  {
    || (item.0 == "baud_rate" && baudRate != item.1)
    || (item.0 == "serial_port" && port != item.1)
  }

  /** Some option item calls for a reconnect. */
  predicate AnyDiffers(items: seq<(string, AppValue)>, port: AppValue, baudRate: AppValue)
  {
    exists i :: 0 <= i < |items| && Differs(items[i], port, baudRate)
  }

  /**
   * With the plugin's two options, in either order, a reconnect is called
   * for exactly when the serial port or the baud rate differs from the board's.
   */
  lemma ReconnectIffOptionDiffers(serialPort: AppValue, baudRate: AppValue, port: AppValue, boardBaud: AppValue)
    ensures AnyDiffers([("serial_port", serialPort), ("baud_rate", baudRate)], port, boardBaud)
      <==> serialPort != port || baudRate != boardBaud
    ensures AnyDiffers([("baud_rate", baudRate), ("serial_port", serialPort)], port, boardBaud)
      <==> serialPort != port || baudRate != boardBaud
  {
    var one := [("serial_port", serialPort), ("baud_rate", baudRate)];
    var two := [("baud_rate", baudRate), ("serial_port", serialPort)];
    if serialPort != port {
      assert Differs(one[0], port, boardBaud) && Differs(two[1], port, boardBaud);
    }
    if baudRate != boardBaud {
      assert Differs(one[1], port, boardBaud) && Differs(two[0], port, boardBaud);
    }
  }

  /**
   * The effect of the plugin's `connect` on the board session and on the
   * `serial_port` option: the new session, the new option and the error raised.
   * The configured port is tried first; unless that attempt raises a
   * RuntimeError, its outcome is the plugin's.
   */
  function PluginConnectSpec(s: Session, serialPorts: seq<string>, appPort: Option<string>, baudRate: int,
                             available: seq<string>, first: OpenResult, retry: OpenResult)
    : (r: (Session, Option<string>, Option<PluginError>))
    ensures serialPorts == [] ==> r == (s, appPort, Some(NoSerialPorts))
    ensures r.2.Some? ==> r.1 == appPort
    ensures r.2.None? ==> r.1 == r.0.Port() && r.1.Some?
    ensures serialPorts != [] ==>
      var (s1, e1) := ConnectSpec(s, Some(PortArgument(appPort)), baudRate, available, first);
      e1 != Some(RuntimeFailure) ==>
        && r.0 == s1
        && (e1.None? ==> r.1 == s1.Port() && r.2.None?)
        && (e1.Some? ==> r.1 == appPort && r.2 == Some(BoardFailure(e1.value)))
  {
    if serialPorts == [] then (s, appPort, Some(NoSerialPorts))
    else
      var (s1, e1) := ConnectSpec(s, Some(PortArgument(appPort)), baudRate, available, first);
      var (s2, e2) :=
        if e1 == Some(RuntimeFailure) then ConnectSpec(s1, None, baudRate, available, retry) else (s1, e1);
      match e2
      case Some(e) => (s2, appPort, Some(BoardFailure(e)))
      case None => (s2, s2.Port(), None)
  }

  /**
   * The fallback after a RuntimeError never reaches another port: the
   * failed attempt has already assigned the new device, so the retry
   * without a port resolves to that device's port and is skipped. The
   * plugin reports no error, records the port that failed in its
   * `serial_port` option, and the board reports itself connected although
   * nothing was sent to it.
   */
  lemma PluginConnectFallsBack(s: Session, serialPorts: seq<string>, appPort: Option<string>, baudRate: int,
                               available: seq<string>, first: OpenResult, retry: OpenResult)
    requires serialPorts != []
    requires ConnectSpec(s, Some(PortArgument(appPort)), baudRate, available, first).1 == Some(RuntimeFailure)
    ensures var r := PluginConnectSpec(s, serialPorts, appPort, baudRate, available, first, retry);
      && r.0 == ConnectSpec(s, Some(PortArgument(appPort)), baudRate, available, first).0
      && r.2.None?
      && r.1 == ResolvePort(Some(PortArgument(appPort)), s.Port(), available)
      && r.0.Connected()
      && r.0.sent == s.sent
  {
    var requested := Some(PortArgument(appPort));
    assert first.ProxyRaisesRuntimeError?;
    ProxyFailureLeavesDeviceConnected(s, requested, baudRate, available, first, retry);
  }

  /**
   * The verdict on a connected device: anything not named "open_drop" is
   * rejected before versions are compared; otherwise an update is offered
   * exactly when the host and firmware versions differ as strings.
   */
  function NameAndVersionVerdict(name: string, hostVersion: string, firmwareVersion: string): (v: DeviceCheck)
    ensures v != ConnectFailed
    ensures v == WrongDevice <==> name != "open_drop"
    ensures v == UpdateOffered <==> name == "open_drop" && hostVersion != firmwareVersion
  {
    if name != "open_drop" then WrongDevice
    else if hostVersion != firmwareVersion then UpdateOffered
    else FirmwareCurrent
  }

  /** The board in this driver names itself "OpenDrop", so the name check always rejects it. */
  lemma DriverBoardIsRejected(board: OpenDropBoard)
    ensures NameAndVersionVerdict(board.Name(), board.HostSoftwareVersion(), board.SoftwareVersion()) == WrongDevice
  {
  }

  /** The OpenDrop plugin, reduced to the state its decision rules read and write. */
  class OpenDropPlugin {
    /** The plugin's registered name. */
    const name: string
    const board: OpenDropBoard
    /** The serial ports enumerated when the plugin was loaded. */
    const serialPorts: seq<string>
    /** The `serial_port` and `baud_rate` application options. */
    var appSerialPort: Option<string>
    var appBaudRate: int
    /** The pending step timer, if any. */
    var timeoutId: Option<int>

    constructor (name: string, serialPorts: seq<string>, appSerialPort: Option<string>, appBaudRate: int)
      ensures this.name == name && this.serialPorts == serialPorts
      ensures this.appSerialPort == appSerialPort && this.appBaudRate == appBaudRate
      ensures fresh(board) && board.State() == Session(None, [])
      ensures timeoutId == None
    {
      this.name := name;
      this.serialPorts := serialPorts;
      this.appSerialPort := appSerialPort;
      this.appBaudRate := appBaudRate;
      board := new OpenDropBoard();
      timeoutId := None;
    }

    /** The application option items, as `get_app_values().items()` lists them. */
    function AppItems(): seq<(string, AppValue)>
      reads this
    {
      [("serial_port", PortValue(appSerialPort)), ("baud_rate", Number(appBaudRate))]
    }

    /**
     * The reconnect flag of `on_app_options_changed`: set when the board is
     * connected and some option item differs from the board's value.
     */
    method ReconnectWanted(items: seq<(string, AppValue)>) returns (reconnect: bool)
      ensures reconnect <==>
        board.Connected() && AnyDiffers(items, PortValue(board.Port()), BaudValue(board.BaudRate()))
    {
      reconnect := false;
      if board.Connected() {
        var port, baudRate := PortValue(board.Port()), BaudValue(board.BaudRate());
        for i := 0 to |items|
          invariant reconnect <==> exists j :: 0 <= j < i && Differs(items[j], port, baudRate)
        {
          var (k, v) := items[i];
          if k == "baud_rate" && baudRate != v {
            if v.Number? {
              board.SetBaudRate(v.n);
            }
            reconnect := true;
          }
          if k == "serial_port" && port != v {
            reconnect := true;
          }
        }
      }
    }

    /**
     * `connect`: fail when no serial port was enumerated; otherwise try the
     * configured port, retry without a port after a RuntimeError, and record
     * the board's port in the options.
     */
    method Connect(available: seq<string>, first: OpenResult, retry: OpenResult) returns (err: Option<PluginError>)
      modifies this, board
      ensures (board.State(), appSerialPort, err) ==
        PluginConnectSpec(old(board.State()), serialPorts, old(appSerialPort), old(appBaudRate), available, first, retry)
      ensures appBaudRate == old(appBaudRate) && timeoutId == old(timeoutId)
    {
      if |serialPorts| > 0 {
        var e := board.Connect(Some(PortArgument(appSerialPort)), appBaudRate, available, first);
        if e == Some(RuntimeFailure) {
          e := board.Connect(None, appBaudRate, available, retry);
        }
        if e.Some? {
          return Some(BoardFailure(e.value));
        }
        appSerialPort := board.Port();
        err := None;
      } else {
        err := Some(NoSerialPorts);
      }
    }

    /**
     * `on_app_options_changed(pluginName)`: for this plugin's options,
     * reconnect when the connected board's port or baud rate differs; for
     * the application's options, turn every electrode off when the board
     * is connected and neither realtime mode nor a protocol is running.
     */
    method OnAppOptionsChanged(pluginName: string, appName: string, realtimeMode: bool, running: bool,
                               available: seq<string>, first: OpenResult, retry: OpenResult)
      returns (err: Option<PluginError>)
      modifies this, board
      ensures appBaudRate == old(appBaudRate) && timeoutId == old(timeoutId)
      ensures pluginName == name ==>
        if old(board.Connected()) && AnyDiffers(old(AppItems()), PortValue(old(board.Port())), BaudValue(old(board.BaudRate())))
        then (board.State(), appSerialPort, err) ==
          PluginConnectSpec(old(board.State()), serialPorts, old(appSerialPort), old(appBaudRate), available, first, retry)
        else board.State() == old(board.State()) && appSerialPort == old(appSerialPort) && err.None?
      ensures pluginName != name ==> appSerialPort == old(appSerialPort) && err.None?
      ensures pluginName != name && pluginName == appName && old(board.Connected()) && !realtimeMode && !running ==>
        board.State() == Session(old(board.device), old(board.sent) + ClearPattern())
      ensures pluginName != name && !(pluginName == appName && old(board.Connected()) && !realtimeMode && !running) ==>
        board.State() == old(board.State())
    {
      err := None;
      if pluginName == name {
        var reconnect := ReconnectWanted(AppItems());
        if reconnect {
          err := Connect(available, first, retry);
        }
      } else if pluginName == appName {
        if board.Connected() && !realtimeMode && !running {
          var zeros := Zeros(board.NumberOfChannels());
          board.SetStateOfAllChannels(zeros);
          AllFalsyWritesClearPattern(zeros);
        }
      }
    }

    /**
     * `check_device_name_and_version`: connect, then judge the device's name
     * and firmware version; any failure to connect is caught.
     */
    method CheckDeviceNameAndVersion(available: seq<string>, first: OpenResult, retry: OpenResult)
      returns (verdict: DeviceCheck)
      modifies this, board
      ensures (board.State(), appSerialPort) ==
        (PluginConnectSpec(old(board.State()), serialPorts, old(appSerialPort), old(appBaudRate), available, first, retry).0,
         PluginConnectSpec(old(board.State()), serialPorts, old(appSerialPort), old(appBaudRate), available, first, retry).1)
      ensures verdict == ConnectFailed <==>
        PluginConnectSpec(old(board.State()), serialPorts, old(appSerialPort), old(appBaudRate), available, first, retry).2.Some?
      ensures verdict == ConnectFailed || verdict == WrongDevice
      ensures appBaudRate == old(appBaudRate) && timeoutId == old(timeoutId)
    {
      var err := Connect(available, first, retry);
      if err.Some? {
        verdict := ConnectFailed;
      } else {
        verdict := NameAndVersionVerdict(board.Name(), board.HostSoftwareVersion(), board.SoftwareVersion());
        DriverBoardIsRejected(board);
      }
    }

    /**
     * `on_step_run`: when the board is connected and realtime mode is on or
     * a protocol is running, send the step's channel states fitted to the
     * board; while a protocol runs, remember the new step timer.
     */
    method OnStepRun(statesOfChannels: seq<int>, realtimeMode: bool, running: bool, newTimeoutId: int)
      modifies this, board
      ensures old(board.Connected()) && (realtimeMode || running) ==>
        board.State() == Session(old(board.device), old(board.sent) + StateWrites(FitToChannels(statesOfChannels, CHANNELS)))
      ensures !(old(board.Connected()) && (realtimeMode || running)) ==> board.State() == old(board.State())
      ensures timeoutId == if running then Some(newTimeoutId) else old(timeoutId)
      ensures appSerialPort == old(appSerialPort) && appBaudRate == old(appBaudRate)
    {
      if board.Connected() && (realtimeMode || running) {
        var maxChannels := board.NumberOfChannels();
        var states := statesOfChannels;
        if |states| > maxChannels {
          states := states[..maxChannels];
        } else if |states| < maxChannels {
          states := states + Zeros(maxChannels - |states|);
          assert |states| == maxChannels;
        }
        board.SetStateOfAllChannels(states);
      }
      if running {
        timeoutId := Some(newTimeoutId);
      }
    }

    /** `on_step_complete(pluginName)`: forget the step timer when the completed step is this plugin's. */
    method OnStepComplete(pluginName: string)
      modifies this
      ensures timeoutId == if pluginName == name then None else old(timeoutId)
      ensures appSerialPort == old(appSerialPort) && appBaudRate == old(appBaudRate)
    {
      if pluginName == name {
        timeoutId := None;
      }
    }

    /**
     * `get_schedule_requests(functionName)`: this plugin handles step option
     * changes before the protocol grid and protocol controllers, application
     * option changes after the application, and protocol swaps after the
     * protocol grid controller; there are no requests for anything else.
     */
    function GetScheduleRequests(functionName: string): (r: seq<ScheduleRequest>)
      ensures functionName == "on_step_options_changed" ==>
        |r| == 2 && forall q :: q in r ==> q.before == name
      ensures functionName == "on_step_options_changed" ==>
        r[0].after == "microdrop.gui.protocol_grid_controller" && r[1].after == "microdrop.gui.protocol_controller"
      ensures functionName == "on_app_options_changed" ==> r == [ScheduleRequest("microdrop.app", name)]
      ensures functionName == "on_protocol_swapped" ==>
        r == [ScheduleRequest("microdrop.gui.protocol_grid_controller", name)]
      ensures r == [] <==>
        functionName !in {"on_step_options_changed", "on_app_options_changed", "on_protocol_swapped"}
    {
      if functionName == "on_step_options_changed" then
        [ScheduleRequest(name, "microdrop.gui.protocol_grid_controller"),
         ScheduleRequest(name, "microdrop.gui.protocol_controller")]
      else if functionName == "on_app_options_changed" then
        [ScheduleRequest("microdrop.app", name)]
      else if functionName == "on_protocol_swapped" then
        [ScheduleRequest("microdrop.gui.protocol_grid_controller", name)]
      else
        []
    }
  }
}
