/**
 * Pin numbering of the OpenDrop board and the mapping of a logical electrode
 * channel onto one gate line and one source line of the multiplexed board.
 */
module ChannelMap {
  import opened Wrappers

  /** Pin directions and levels, as the driver names them. */
  const INPUT: int := 0
  const OUTPUT: int := 1
  const LOW: int := 0
  const HIGH: int := 1

  /** Number of channels the driver reports. */
  const CHANNELS: nat := 68

  /** First and last digital pin the driver configures as an output. */
  const FIRST_PIN: int := 2
  const LAST_PIN: int := 18

  /** Digital pin that drives gate line `i` (G0..G8 are pins 2..10). */
  function GatePin(i: int): int { 2 + i }

  /** Digital pin that drives source line `i` (S1..S8 are pins 11..18). */
  function SourcePin(i: int): int { 10 + i }

  /**
   * Gate line of a channel: channels 0..3 share gate 0, then each further
   * gate serves a block of eight consecutive channels (floor division).
   */
  function GateOf(channel: nat): (g: nat)
    ensures g <= 8 <==> channel < CHANNELS
    ensures channel < 4 ==> g == 0
    ensures 4 <= channel ==> 1 <= g
  {
    if channel < 4 then 0 else (channel - 4) / 8 + 1
  }

  /**
   * Source line of a channel: channels 0 and 1 use odd sources 1 and 3,
   * channels 2 and 3 use sources 6 and 8, and from channel 4 on the source
   * cycles through 1..8.
   */
  function SourceOf(channel: nat): (s: nat)
    ensures 1 <= s <= 8
  {
    if channel < 2 then 2 * channel + 1
    else if channel < 4 then 2 * channel + 2
    else (channel - 4) % 8 + 1
  }

  /**
   * The channel addressed by a (gate, source) pair, if any: the layout of
   * the board read the other way round.
   */
  function ChannelAt(gate: int, source: int): (c: Option<nat>)
    ensures c.Some? ==> c.value < CHANNELS
  {
    if gate == 0 then
      if source == 1 then Some(0)
      else if source == 3 then Some(1)
      else if source == 6 then Some(2)
      else if source == 8 then Some(3)
      else None
    else if 1 <= gate <= 8 && 1 <= source <= 8 then
      Some(4 + 8 * (gate - 1) + (source - 1))
    else
      None
  }

  /** Every channel the driver reports is found again from its (gate, source) pair. */
  lemma ChannelAtInverts(channel: nat)
    requires channel < CHANNELS
    ensures ChannelAt(GateOf(channel), SourceOf(channel)) == Some(channel)
  {
  }

  /** Every pair that addresses a channel is the pair that channel maps to. */
  lemma ChannelAtIsMapped(gate: int, source: int)
    requires ChannelAt(gate, source).Some?
    ensures var c := ChannelAt(gate, source).value;
      GateOf(c) == gate && SourceOf(c) == source
  {
  }

  /** Distinct channels never share both their gate and their source. */
  lemma ChannelsAreDistinct(c1: nat, c2: nat)
    requires c1 < CHANNELS && c2 < CHANNELS && c1 != c2
    ensures GateOf(c1) != GateOf(c2) || SourceOf(c1) != SourceOf(c2)
  {
  }

  /**
   * Every channel below the channel count drives only output pins, gate
   * pins among 2..10 and source pins among 11..18, so the two never meet.
   */
  lemma ChannelPinsAreOutputs(channel: nat)
    requires channel < CHANNELS
    ensures FIRST_PIN <= GatePin(GateOf(channel)) <= 10
    ensures 11 <= SourcePin(SourceOf(channel)) <= LAST_PIN
  {
  }

  /** The first channel past the channel count would drive source pin S1 as a gate. */
  lemma ChannelPastCountHitsSourcePin()
    ensures GatePin(GateOf(CHANNELS)) == SourcePin(1)
  {
  }

  /** Spot values of the mapping, one per boundary of its three cases. */
  lemma MappingSpotValues()
    ensures GateOf(0) == 0 && SourceOf(0) == 1
    ensures GateOf(1) == 0 && SourceOf(1) == 3
    ensures GateOf(2) == 0 && SourceOf(2) == 6
    ensures GateOf(3) == 0 && SourceOf(3) == 8
    ensures GateOf(4) == 1 && SourceOf(4) == 1
    ensures GateOf(11) == 1 && SourceOf(11) == 8
    ensures GateOf(12) == 2 && SourceOf(12) == 1
    ensures GateOf(67) == 8 && SourceOf(67) == 8
  {
  }
}
