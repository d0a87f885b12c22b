/**
 * The OpenDrop board driver: a connection session to the board's serial
 * device and the channel-state operations built on the firmware proxy.
 *
 * The serial link and the proxy are abstracted: the serial device is a
 * value owned by the board (its port, baud rate and open flag), and every
 * command the proxy is asked to send is appended, in order, to the log
 * `sent`. How an attempt to open the device and its proxy ends is decided
 * by the environment and passed in as an `OpenResult`.
 */
module Board {
  import opened Wrappers
  import opened ChannelMap
  import opened PinLog

  /** The serial device the board talks through. */
  datatype SerialDevice = SerialDevice(port: string, baudRate: int, isOpen: bool)

  /**
   * How an attempt to open the serial device and attach the proxy ends.
   * The device is assigned to the board before the proxy is built, so a
   * proxy that fails leaves the new device in place.
   */
  datatype OpenResult =
    | OpenOk
    | SerialRaises             // opening the serial device raised; nothing was assigned
    | ProxyRaisesRuntimeError  // the device was assigned, then building the proxy raised a RuntimeError
    | ProxyRaisesOther         // the device was assigned, then building the proxy raised another error

  /** The ways `connect` can fail. */
  datatype ConnectError =
    | NoPortAvailable   // no port given or remembered and none enumerated (an IndexError)
    | SerialFailure     // opening the serial device raised
    | RuntimeFailure    // building the proxy raised a RuntimeError
    | ProxyFailure      // building the proxy raised any other error

  /** The observable state of a board: its serial device, if any, and every command sent so far. */
  datatype Session = Session(device: Option<SerialDevice>, sent: seq<Command>)
  {
    /** The `port` property: the device's port, or None without a device. */
    function Port(): (p: Option<string>)
      ensures p.None? <==> device.None?
      ensures p.Some? ==> p.value == device.value.port
    {
      match device
      case None => None
      case Some(d) => Some(d.port)
    }

    /** The `baud_rate` property: the device's baud rate, or None without a device. */
    function BaudRate(): (b: Option<int>)
      ensures b.None? <==> device.None?
      ensures b.Some? ==> b.value == device.value.baudRate
    {
      match device
      case None => None
      case Some(d) => Some(d.baudRate)
    }

    /** `connected()`: a device exists and reports itself open; a connected session has a port and a baud rate. */
    predicate Connected()
      ensures Connected() ==> Port().Some? && BaudRate().Some?
    {
      device.Some? && device.value.isOpen
    }
  }

  /** Whether `connect` was given a port: Python's `None` and the string 'None' both mean "no port". */
  predicate IsPortGiven(requested: Option<string>)
  {
    requested.Some? && requested.value != "None"
  }

  /**
   * The port `connect` tries: the port given, else the port of the current
   * device, else the first enumerated port; None when there is no candidate.
   */
  function ResolvePort(requested: Option<string>, current: Option<string>, available: seq<string>): (r: Option<string>)
    ensures r.None? <==> !IsPortGiven(requested) && current.None? && available == []
    ensures IsPortGiven(requested) ==> r == requested
    ensures !IsPortGiven(requested) && current.Some? ==> r == current
    ensures !IsPortGiven(requested) && current.None? && available != [] ==> r == Some(available[0])
  {
    if IsPortGiven(requested) then requested
    else if current.Some? then current
    else if available != [] then Some(available[0])
    else None
  }

  /**
   * The effect of `connect(requested, baudRate)` on a session: the new
   * session and the error raised, if any. Commands are sent only by a
   * successful connect; a session that changes at all is connected on the
   * resolved port and baud rate, even when building the proxy failed.
   */
  function ConnectSpec(s: Session, requested: Option<string>, baudRate: int, available: seq<string>,
                       opening: OpenResult): (r: (Session, Option<ConnectError>))
    ensures r.0.sent == s.sent || (r.1.None? && r.0.sent == s.sent + PinModes() + ClearPattern())
    ensures r.1 == Some(NoPortAvailable) || r.1 == Some(SerialFailure) ==> r.0 == s
    ensures r.1 == Some(NoPortAvailable) <==> ResolvePort(requested, s.Port(), available).None?
    ensures r.0 != s ==>
      && r.0.Connected()
      && r.0.Port() == ResolvePort(requested, s.Port(), available)
      && r.0.BaudRate() == Some(baudRate)
    ensures (&& ResolvePort(requested, s.Port(), available).Some?
             && !(s.Port() == ResolvePort(requested, s.Port(), available) && s.BaudRate() == Some(baudRate))) ==>
      && (opening.SerialRaises? ==> r == (s, Some(SerialFailure)))
      && (opening.OpenOk? ==> r.1.None? && r.0.device == Some(SerialDevice(ResolvePort(requested, s.Port(), available).value, baudRate, true)))
  {
    match ResolvePort(requested, s.Port(), available)
    case None => (s, Some(NoPortAvailable))
    case Some(port) =>
      if s.Port() == Some(port) && s.BaudRate() == Some(baudRate) then (s, None)
      else
        var replaced := Session(Some(SerialDevice(port, baudRate, true)), s.sent);
        match opening
        case SerialRaises => (s, Some(SerialFailure))
        case ProxyRaisesRuntimeError => (replaced, Some(RuntimeFailure))
        case ProxyRaisesOther => (replaced, Some(ProxyFailure))
        case OpenOk => (replaced.(sent := s.sent + PinModes() + ClearPattern()), None)
  }

  /** The effect of `disconnect()`: the device, if any, is closed; nothing is sent. */
  function DisconnectSpec(s: Session): (r: Session)
    ensures !r.Connected()
    ensures r.Port() == s.Port() && r.BaudRate() == s.BaudRate()
    ensures r.sent == s.sent
  {
    match s.device
    case None => s
    case Some(d) => Session(Some(d.(isOpen := false)), s.sent)
  }

  /**
   * A proxy that fails to build leaves the new device assigned and open, on
   * the resolved port and baud rate, with nothing sent: the board reports
   * itself connected. A second `connect` without a port then resolves to
   * that same port and is skipped.
   */
  lemma ProxyFailureLeavesDeviceConnected(s: Session, requested: Option<string>, baudRate: int,
                                          available: seq<string>, opening: OpenResult, again: OpenResult)
    requires opening.ProxyRaisesRuntimeError? || opening.ProxyRaisesOther?
    requires ResolvePort(requested, s.Port(), available).Some?
    requires !(s.Port() == ResolvePort(requested, s.Port(), available) && s.BaudRate() == Some(baudRate))
    ensures var (r, err) := ConnectSpec(s, requested, baudRate, available, opening);
      && err == (if opening.ProxyRaisesRuntimeError? then Some(RuntimeFailure) else Some(ProxyFailure))
      && r.Connected()
      && r.Port() == ResolvePort(requested, s.Port(), available)
      && r.sent == s.sent
      && ConnectSpec(r, None, baudRate, available, again) == (r, None)
  {
    var (r, err) := ConnectSpec(s, requested, baudRate, available, opening);
    assert r.Port() == ResolvePort(None, r.Port(), available);
  }

  /** Without a port given, a device or an enumerated port, `connect` fails and the board stays disconnected. */
  lemma ConnectWithoutPortsFails(s: Session, requested: Option<string>, baudRate: int, opening: OpenResult)
    requires !IsPortGiven(requested) && s.device.None?
    ensures ConnectSpec(s, requested, baudRate, [], opening) == (s, Some(NoPortAvailable))
    ensures !ConnectSpec(s, requested, baudRate, [], opening).0.Connected()
  {
  }

  /** Connecting to the port and baud rate of the current device changes nothing and sends nothing. */
  lemma ConnectSameConnectionIsSkipped(s: Session, requested: Option<string>, baudRate: int,
                                       available: seq<string>, opening: OpenResult)
    requires ResolvePort(requested, s.Port(), available) == s.Port()
    requires s.BaudRate() == Some(baudRate)
    ensures ConnectSpec(s, requested, baudRate, available, opening) == (s, None)
  {
  }

  /**
   * When the resolved port or the baud rate differs from the current
   * device's and opening succeeds, `connect` replaces the device with an
   * open one on the resolved port and baud rate, sends the pin modes for
   * pins 2..18 and then the clear pattern, so that every output pin ends at
   * its idle level, and raises nothing.
   */
  lemma ConnectOpensAndClears(s: Session, requested: Option<string>, baudRate: int, available: seq<string>)
    requires ResolvePort(requested, s.Port(), available).Some?
    requires !(s.Port() == ResolvePort(requested, s.Port(), available) && s.BaudRate() == Some(baudRate))
    ensures ConnectSpec(s, requested, baudRate, available, OpenOk).1.None?
    ensures var r := ConnectSpec(s, requested, baudRate, available, OpenOk).0;
      && r.Connected()
      && r.Port() == ResolvePort(requested, s.Port(), available)
      && r.BaudRate() == Some(baudRate)
      && r.sent == s.sent + PinModes() + ClearPattern()
      && AtIdle(PinLevels(r.sent))
  {
    ClearDrivesIdle(s.sent + PinModes());
  }

  /** After a successful `connect`, repeating the call is skipped. */
  lemma ConnectTwiceIsSkipped(s: Session, requested: Option<string>, baudRate: int,
                              available: seq<string>, opening: OpenResult, again: OpenResult)
    requires ConnectSpec(s, requested, baudRate, available, opening).1.None?
    ensures var r := ConnectSpec(s, requested, baudRate, available, opening).0;
      ConnectSpec(r, requested, baudRate, available, again) == (r, None)
  {
  }

  /**
   * The skip compares only port and baud rate, not whether the device is
   * open: after `disconnect`, connecting again to the same port and baud
   * rate is skipped and the board stays disconnected.
   */
  lemma ReconnectAfterDisconnectIsSkipped(s: Session, baudRate: int, available: seq<string>, opening: OpenResult)
    requires s.Connected() && s.BaudRate() == Some(baudRate)
    ensures var d := DisconnectSpec(s);
      && ConnectSpec(d, s.Port(), baudRate, available, opening) == (d, None)
      && !d.Connected()
  {
  }

  /** The OpenDrop board driver. */
  class OpenDropBoard {
    var device: Option<SerialDevice>
    var sent: seq<Command>

    /** A new board has no serial device and has sent nothing. */
    constructor ()
      ensures State() == Session(None, [])
    {
      device := None;
      sent := [];
    }

    function State(): Session
      reads this
    {
      Session(device, sent)
    }

    function Port(): Option<string>
      reads this
    {
      State().Port()
    }

    function BaudRate(): Option<int>
      reads this
    {
      State().BaudRate()
    }

    /** `connected()`: the board has a serial device and it reports itself open. */
    predicate Connected()
      reads this
      ensures Connected() <==> device.Some? && device.value.isOpen
    {
      State().Connected()
    }

    /** Assigning the `baud_rate` property has no effect. */
    method SetBaudRate(value: int)
      ensures State() == old(State())
    {
    }

    /** `number_of_channels()`: a fixed 68; every channel it reports maps to one of the nine gates. */
    function NumberOfChannels(): (n: nat)
      ensures n == CHANNELS
      ensures forall c: nat :: c < n ==> GateOf(c) <= 8
    {
      CHANNELS
    }

    /** `name()`: a fixed name, which is not the plugin's own name. */
    function Name(): (r: string)
      ensures r != "open_drop"
    {
      "OpenDrop"
    }

    /** `host_software_version()`: a fixed version, the same as the one the firmware reports. */
    function HostSoftwareVersion(): (r: string)
      ensures r == SoftwareVersion()
    {
      "0.0.0"
    }

    /** `software_version()`: a fixed firmware version. */
    function SoftwareVersion(): string
    {
      "0.0.0"
    }

    /** The proxy's `digital_write`. */
    method SendDigitalWrite(pin: int, level: int)
      requires Connected()
      modifies this
      ensures device == old(device)
      ensures sent == old(sent) + [DigitalWrite(pin, level)]
    {
      sent := sent + [DigitalWrite(pin, level)];
    }

    /** The proxy's `pin_mode`. */
    method SendPinMode(pin: int, mode: int)
      requires Connected()
      modifies this
      ensures device == old(device)
      ensures sent == old(sent) + [PinMode(pin, mode)]
    {
      sent := sent + [PinMode(pin, mode)];
    }

    /** `set_gate(i, state)`: exactly one write, to pin 2 + i. */
    method SetGate(i: int, state: int)
      requires Connected()
      modifies this
      ensures device == old(device)
      ensures sent == old(sent) + [DigitalWrite(2 + i, state)]
    {
      SendDigitalWrite(GatePin(i), state);
    }

    /** `set_source(i, state)`: exactly one write, to pin 10 + i. */
    method SetSource(i: int, state: int)
      requires Connected()
      modifies this
      ensures device == old(device)
      ensures sent == old(sent) + [DigitalWrite(10 + i, state)]
    {
      SendDigitalWrite(SourcePin(i), state);
    }

    /** `clear_all_channels`: all gates HIGH in increasing order, then all sources LOW. */
    method ClearAllChannels()
      requires Connected()
      modifies this
      ensures device == old(device)
      ensures sent == old(sent) + ClearPattern()
    {
      for i := 0 to 9
        invariant device == old(device)
        invariant sent == old(sent) + seq(i, k => GateWrite(k, HIGH))
      {
        SetGate(i, HIGH);
        assert seq(i + 1, k => GateWrite(k, HIGH)) == seq(i, k => GateWrite(k, HIGH)) + [GateWrite(i, HIGH)];
      }
      ghost var gates := sent;
      for i := 1 to 9
        invariant device == old(device)
        invariant sent == gates + seq(i - 1, k => SourceWrite(k + 1, LOW))
      {
        SetSource(i, LOW);
        assert seq(i, k => SourceWrite(k + 1, LOW)) == seq(i - 1, k => SourceWrite(k + 1, LOW)) + [SourceWrite(i, LOW)];
      }
    }

    /** `set_channel_state(channel, state)`: the gate gets the state, then the source its negation. */
    method SetChannelState(channel: nat, state: int)
      requires Connected()
      modifies this
      ensures device == old(device)
      ensures sent == old(sent) + ChannelWrites(channel, state)
    {
      if channel < 2 {
        SetGate(0, state);
        SetSource(2 * channel + 1, Negate(state));
      } else if channel < 4 {
        SetGate(0, state);
        SetSource(2 * channel + 2, Negate(state));
      } else {
        SetGate((channel - 4) / 8 + 1, state);
        SetSource((channel - 4) % 8 + 1, Negate(state));
      }
    }

    /**
     * `set_state_of_all_channels(states)`: clear every channel, then set each
     * channel whose state is truthy, in increasing channel order.
     */
    method SetStateOfAllChannels(states: seq<int>)
      requires Connected()
      modifies this
      ensures device == old(device)
      ensures sent == old(sent) + StateWrites(states)
    {
      ClearAllChannels();
      for channel := 0 to |states|
        invariant device == old(device)
        invariant sent == old(sent) + ClearPattern() + ChannelsWrites(states[..channel])
      {
        assert states[..channel + 1][..channel] == states[..channel];
        if Truthy(states[channel]) {
          SetChannelState(channel, states[channel]);
        }
      }
      assert states[..|states|] == states;
    }

    /**
     * `connect(requested, baudRate)`: resolve the port, and unless the board
     * already has a device on that port and baud rate, open a new one, set
     * pins 2..18 to outputs and clear every channel.
     */
    method Connect(requested: Option<string>, baudRate: int, available: seq<string>, opening: OpenResult)
      returns (err: Option<ConnectError>)
      modifies this
      ensures (State(), err) == ConnectSpec(old(State()), requested, baudRate, available, opening)
    {
      var port := requested;
      if port.None? || port == Some("None") {
        // reconnecting: use the port of the current device, else the first enumerated one
        port := Port();
        if port.None? {
          if |available| == 0 {
            return Some(NoPortAvailable);
          }
          port := Some(available[0]);
        }
      }
      if !(Port() == port && BaudRate() == Some(baudRate)) {
        if opening == SerialRaises {
          return Some(SerialFailure);
        }
        device := Some(SerialDevice(port.value, baudRate, true));
        if opening == ProxyRaisesRuntimeError {
          return Some(RuntimeFailure);
        } else if opening == ProxyRaisesOther {
          return Some(ProxyFailure);
        }
        for pin := FIRST_PIN to LAST_PIN + 1
          invariant device == Some(SerialDevice(port.value, baudRate, true))
          invariant sent == old(sent) + PinModes()[..pin - FIRST_PIN]
        {
          SendPinMode(pin, OUTPUT);
          assert PinModes()[..pin + 1 - FIRST_PIN] == PinModes()[..pin - FIRST_PIN] + [PinMode(pin, OUTPUT)];
        }
        assert PinModes()[..LAST_PIN + 1 - FIRST_PIN] == PinModes();
        ClearAllChannels();
      }
      err := None;
    }

    /** `disconnect()`: close the device if there is one; never fails. */
    method Disconnect()
      modifies this
      ensures State() == DisconnectSpec(old(State()))
    {
      if device.Some? {
        device := Some(device.value.(isOpen := false));
      }
    }
  }
}
