/**
 * The commands the board driver sends to the firmware proxy, the write
 * sequences it is specified to produce, and the pin levels a sequence of
 * writes leaves behind (last write wins).
 */
module PinLog {
  import opened ChannelMap

  /** One command sent through the proxy. */
  datatype Command = DigitalWrite(pin: int, level: int) | PinMode(pin: int, mode: int)

  /** Python truthiness of a channel state. */
  predicate Truthy(state: int) { state != 0 }

  /** `int(not bool(state))`: the level a source line gets for a channel state. */
  function Negate(state: int): (r: int)
    ensures r == LOW || r == HIGH
    ensures Truthy(r) <==> !Truthy(state)
  {
    if Truthy(state) then LOW else HIGH
  }

  /** The write issued by `set_gate(i, level)`. */
  function GateWrite(i: int, level: int): Command { DigitalWrite(GatePin(i), level) }

  /** The write issued by `set_source(i, level)`. */
  function SourceWrite(i: int, level: int): Command { DigitalWrite(SourcePin(i), level) }

  /** Idle level of an output pin: gates HIGH, sources LOW. */
  function IdleLevel(pin: int): int { if pin <= GatePin(8) then HIGH else LOW }

  /**
   * The writes of `clear_all_channels`: gates 0..8 HIGH, then sources 1..8
   * LOW, which writes pins 2..18 once each, in increasing order, each to its
   * idle level.
   */
  function ClearPattern(): (r: seq<Command>)
    ensures |r| == LAST_PIN - FIRST_PIN + 1
    ensures forall k :: 0 <= k < |r| ==> r[k] == DigitalWrite(FIRST_PIN + k, IdleLevel(FIRST_PIN + k))
  {
    seq(9, i => GateWrite(i, HIGH)) + seq(8, i => SourceWrite(i + 1, LOW))
  }

  /**
   * The writes of `set_channel_state(channel, state)`: the gate gets the
   * state, then the source gets a level of the opposite truthiness; for a
   * channel below the count both are output pins, the gate's below the
   * source's.
   */
  function ChannelWrites(channel: nat, state: int): (r: seq<Command>)
    ensures |r| == 2 && r[0].DigitalWrite? && r[1].DigitalWrite?
    ensures r[0].level == state && Truthy(r[1].level) != Truthy(state)
    ensures channel < CHANNELS ==> FIRST_PIN <= r[0].pin <= GatePin(8) < r[1].pin <= LAST_PIN
  {
    [GateWrite(GateOf(channel), state), SourceWrite(SourceOf(channel), Negate(state))]
  }

  /** Number of truthy entries of a channel-state array. */
  function TruthyCount(states: seq<int>): nat
  {
    if states == [] then 0
    else TruthyCount(states[..|states| - 1]) + (if Truthy(states[|states| - 1]) then 1 else 0)
  }

  /** The channel writes of `set_state_of_all_channels`, in increasing channel order. */
  function ChannelsWrites(states: seq<int>): (log: seq<Command>)
    ensures |log| == 2 * TruthyCount(states)
  {
    if states == [] then []
    else
      var c := |states| - 1;
      ChannelsWrites(states[..c]) + (if Truthy(states[c]) then ChannelWrites(c, states[c]) else [])
  }

  /** All writes of `set_state_of_all_channels(states)`: the clear pattern, then the channels. */
  function StateWrites(states: seq<int>): (r: seq<Command>)
    ensures |r| == |ClearPattern()| + 2 * TruthyCount(states)
    ensures r[..|ClearPattern()|] == ClearPattern()
  {
    ClearPattern() + ChannelsWrites(states)
  }

  /** The `pin_mode` commands issued on connect: pins 2..18 as outputs, in increasing order. */
  function PinModes(): (r: seq<Command>)
    ensures |r| == LAST_PIN - FIRST_PIN + 1
    ensures forall k :: 0 <= k < |r| ==> r[k].PinMode? && r[k].pin == FIRST_PIN + k && r[k].mode == OUTPUT
  {
    seq(LAST_PIN - FIRST_PIN + 1, i => PinMode(FIRST_PIN + i, OUTPUT))
  }

  /** A channel-state array of `n` zeros. */
  function Zeros(n: nat): (z: seq<int>)
    ensures |z| == n && forall i :: 0 <= i < n ==> z[i] == 0
  {
    seq(n, _ => 0)
  }

  /** The level each pin was last written to by a command sequence. */
  function PinLevels(log: seq<Command>): map<int, int>
  {
    if log == [] then map[]
    else
      var before := PinLevels(log[..|log| - 1]);
      match log[|log| - 1]
      case DigitalWrite(pin, level) => before[pin := level]
      case PinMode(_, _) => before
  }

  /** Every output pin holds its idle level. */
  ghost predicate AtIdle(levels: map<int, int>)
  {
    forall p :: FIRST_PIN <= p <= LAST_PIN ==> p in levels && levels[p] == IdleLevel(p)
  }

  /** Every gate pin holds a truthy level and every source pin is LOW. */
  ghost predicate GatesOnSourcesLow(levels: map<int, int>)
  {
    && (forall p :: FIRST_PIN <= p <= GatePin(8) ==> p in levels && Truthy(levels[p]))
    && (forall p :: SourcePin(1) <= p <= LAST_PIN ==> p in levels && levels[p] == LOW)
  }

  /** Appending one command updates the levels by that command alone. */
  lemma PinLevelsSnoc(log: seq<Command>, cmd: Command)
    ensures PinLevels(log + [cmd]) == match cmd
      case DigitalWrite(pin, level) => PinLevels(log)[pin := level]
      case PinMode(_, _) => PinLevels(log)
  {
  }

  /** After a prefix of the clear pattern, the pins it covered are idle, whatever came before. */
  lemma {:induction false} ClearPrefixLevels(prior: seq<Command>, k: nat)
    requires k <= |ClearPattern()|
    ensures forall p :: FIRST_PIN <= p < FIRST_PIN + k ==>
      p in PinLevels(prior + ClearPattern()[..k]) && PinLevels(prior + ClearPattern()[..k])[p] == IdleLevel(p)
  {
    if k > 0 {
      ClearPrefixLevels(prior, k - 1);
      var cmd := ClearPattern()[k - 1];
      assert prior + ClearPattern()[..k] == (prior + ClearPattern()[..k - 1]) + [cmd];
      PinLevelsSnoc(prior + ClearPattern()[..k - 1], cmd);
    }
  }

  /** `clear_all_channels` leaves every output pin at its idle level, regardless of the prior state. */
  lemma ClearDrivesIdle(prior: seq<Command>)
    ensures AtIdle(PinLevels(prior + ClearPattern()))
  {
    ClearPrefixLevels(prior, |ClearPattern()|);
    assert ClearPattern()[..|ClearPattern()|] == ClearPattern();
  }

  /** Channel writes for the first `k` channels are a prefix of the writes for all of them. */
  lemma {:induction false} ChannelsWritesPrefix(states: seq<int>, k: nat)
    requires k <= |states|
    ensures ChannelsWrites(states[..k]) <= ChannelsWrites(states)
  {
    if k < |states| {
      var c := |states| - 1;
      assert states[..k] == states[..c][..k];
      ChannelsWritesPrefix(states[..c], k);
    } else {
      assert states[..k] == states;
    }
  }

  /**
   * The writes for a truthy channel `k` sit right after the clear pattern and
   * the writes of the truthy channels below `k`: gate first with the state,
   * then source with its negation.
   */
  lemma ChannelWritesPosition(states: seq<int>, k: nat)
    requires k < |states| && Truthy(states[k])
    ensures var i := |ClearPattern()| + 2 * TruthyCount(states[..k]);
      && i + 1 < |StateWrites(states)|
      && StateWrites(states)[i] == GateWrite(GateOf(k), states[k])
      && StateWrites(states)[i + 1] == SourceWrite(SourceOf(k), Negate(states[k]))
  {
    ChannelsWritesPrefix(states, k + 1);
    assert states[..k + 1][..k] == states[..k];
    assert ChannelsWrites(states[..k + 1]) == ChannelsWrites(states[..k]) + ChannelWrites(k, states[k]);
  }

  /** Falsy entries produce no writes: an array with no truthy entry writes exactly the clear pattern. */
  lemma {:induction false} AllFalsyWritesClearPattern(states: seq<int>)
    requires forall i :: 0 <= i < |states| ==> !Truthy(states[i])
    ensures StateWrites(states) == ClearPattern()
    ensures TruthyCount(states) == 0
  {
    if states != [] {
      AllFalsyWritesClearPattern(states[..|states| - 1]);
    }
  }

  /** Padding a channel-state array with zeros adds no writes. */
  lemma {:induction false} ZeroPaddingAddsNoWrites(states: seq<int>, n: nat)
    ensures ChannelsWrites(states + Zeros(n)) == ChannelsWrites(states)
    ensures TruthyCount(states + Zeros(n)) == TruthyCount(states)
  {
    if n > 0 {
      var padded := states + Zeros(n);
      assert padded[..|padded| - 1] == states + Zeros(n - 1);
      ZeroPaddingAddsNoWrites(states, n - 1);
    } else {
      assert states + Zeros(n) == states;
    }
  }

  /** A channel's two writes set its gate pin to the state and its source pin to the negation. */
  lemma ChannelWritesLevels(before: seq<Command>, channel: nat, state: int)
    ensures PinLevels(before + ChannelWrites(channel, state)) ==
      PinLevels(before)[GatePin(GateOf(channel)) := state][SourcePin(SourceOf(channel)) := Negate(state)]
  {
    var w := ChannelWrites(channel, state);
    assert before + w == before + [w[0]] + [w[1]];
    PinLevelsSnoc(before, w[0]);
    PinLevelsSnoc(before + [w[0]], w[1]);
  }

  /** For an array no longer than the channel count, every write goes to an output pin. */
  lemma {:induction false} ChannelsWritesOnOutputs(states: seq<int>)
    requires |states| <= CHANNELS
    ensures forall k :: 0 <= k < |ChannelsWrites(states)| ==>
      ChannelsWrites(states)[k].DigitalWrite? &&
      FIRST_PIN <= ChannelsWrites(states)[k].pin <= LAST_PIN
  {
    if states != [] {
      var c := |states| - 1;
      ChannelsWritesOnOutputs(states[..c]);
      if Truthy(states[c]) {
        ChannelPinsAreOutputs(c);
      }
    }
  }

  /**
   * Channel writes keep every gate pin truthy and every source pin LOW: the
   * state a channel gets is written to its gate and its negation, LOW, to
   * its source.
   */
  lemma {:induction false} ChannelsKeepGatesOnSourcesLow(base: seq<Command>, states: seq<int>)
    requires |states| <= CHANNELS
    requires GatesOnSourcesLow(PinLevels(base))
    ensures GatesOnSourcesLow(PinLevels(base + ChannelsWrites(states)))
  {
    if states != [] {
      var c := |states| - 1;
      var before := base + ChannelsWrites(states[..c]);
      ChannelsKeepGatesOnSourcesLow(base, states[..c]);
      if Truthy(states[c]) {
        assert base + ChannelsWrites(states) == before + ChannelWrites(c, states[c]);
        ChannelPinsAreOutputs(c);
        ChannelWritesLevels(before, c, states[c]);
      } else {
        assert base + ChannelsWrites(states) == before;
      }
    } else {
      assert base + ChannelsWrites(states) == base;
    }
  }

  /** Channel writes with states that are all 0 or 1 keep every output pin at its idle level. */
  lemma {:induction false} BinaryChannelsKeepIdle(base: seq<Command>, states: seq<int>)
    requires |states| <= CHANNELS
    requires forall i :: 0 <= i < |states| ==> states[i] == LOW || states[i] == HIGH
    requires AtIdle(PinLevels(base))
    ensures AtIdle(PinLevels(base + ChannelsWrites(states)))
  {
    if states != [] {
      var c := |states| - 1;
      var before := base + ChannelsWrites(states[..c]);
      BinaryChannelsKeepIdle(base, states[..c]);
      if Truthy(states[c]) {
        assert base + ChannelsWrites(states) == before + ChannelWrites(c, states[c]);
        ChannelPinsAreOutputs(c);
        ChannelWritesLevels(before, c, states[c]);
      } else {
        assert base + ChannelsWrites(states) == before;
      }
    } else {
      assert base + ChannelsWrites(states) == base;
    }
  }

  /**
   * After `set_state_of_all_channels(states)`, for an array no longer than the
   * channel count, every gate pin holds a truthy level and every source pin
   * is LOW, whatever the pins held before.
   */
  lemma StateWritesLevels(prior: seq<Command>, states: seq<int>)
    requires |states| <= CHANNELS
    ensures GatesOnSourcesLow(PinLevels(prior + StateWrites(states)))
  {
    ClearDrivesIdle(prior);
    assert prior + StateWrites(states) == (prior + ClearPattern()) + ChannelsWrites(states);
    ChannelsKeepGatesOnSourcesLow(prior + ClearPattern(), states);
  }

  /**
   * With states that are all 0 or 1, `set_state_of_all_channels` ends with
   * every output pin at the same level as `clear_all_channels` leaves it:
   * under this driver's polarity, switching a channel on writes the idle
   * levels to its gate and source.
   */
  lemma BinaryStateEndsIdle(prior: seq<Command>, states: seq<int>)
    requires |states| <= CHANNELS
    requires forall i :: 0 <= i < |states| ==> states[i] == LOW || states[i] == HIGH
    ensures AtIdle(PinLevels(prior + StateWrites(states)))
  {
    ClearDrivesIdle(prior);
    assert prior + StateWrites(states) == (prior + ClearPattern()) + ChannelsWrites(states);
    BinaryChannelsKeepIdle(prior + ClearPattern(), states);
  }
}
