/** The state of a television as a value, and one pure transition per
    remote-control command. Each transition gives the state after the
    command from the state before it; the class in TvObject performs the
    same transitions in place. */
module TvState {

  const MIN_VOLUME: int := 0
  const MAX_VOLUME: int := 2
  const MIN_CHANNEL: int := 0
  const MAX_CHANNEL: int := 3

  /** The five fields of a television: power, mute flag, volume, channel and
      the volume to restore when mute is released. */
  datatype State = State(
    status: bool,
    muted: bool,
    volume: int,
    channel: int,
    prevVolume: int)

  /** The object invariant: volume, remembered volume and channel in range,
      and a muted set plays at the minimum volume. */
  predicate Valid(s: State) {
    && MIN_VOLUME <= s.volume <= MAX_VOLUME
    && MIN_VOLUME <= s.prevVolume <= MAX_VOLUME
    && MIN_CHANNEL <= s.channel <= MAX_CHANNEL
    && (s.muted ==> s.volume == MIN_VOLUME)
  }

  /** Everything but the power switch is equal in the two states. */
  predicate SameSettings(a: State, b: State) {
    a.muted == b.muted && a.volume == b.volume && a.channel == b.channel && a.prevVolume == b.prevVolume
  }

  function Min(a: int, b: int): int { if a <= b then a else b }
  function Max(a: int, b: int): int { if a <= b then b else a }

  /** A new set: off, unmuted, on the lowest channel at the lowest volume,
      remembering that volume. */
  function Init(): (r: State)
    ensures Valid(r)
    ensures !r.status && !r.muted
    ensures r.volume == MIN_VOLUME && r.channel == MIN_CHANNEL && r.prevVolume == r.volume
  {
    State(false, false, MIN_VOLUME, MIN_CHANNEL, MIN_VOLUME)
  }

  /** Toggle the power: the other settings survive the power cycle. */
  function Power(s: State): (r: State)
    ensures r.status != s.status
    ensures SameSettings(r, s)
    ensures Valid(r) <==> Valid(s)
  {
    s.(status := !s.status)
  }

  /** Toggle mute. Muting remembers the volume and drops it to the minimum;
      unmuting restores the remembered volume. No effect when off. */
  function Mute(s: State): (r: State)
    ensures !s.status ==> r == s
    ensures r.status == s.status && r.channel == s.channel
    ensures s.status ==> r.muted == !s.muted
    ensures s.status && !s.muted ==> r.volume == MIN_VOLUME && r.prevVolume == s.volume
    ensures s.status && s.muted ==> r.volume == s.prevVolume && r.prevVolume == s.prevVolume
    ensures Valid(s) ==> Valid(r)
  {
    if !s.status then s
    else if !s.muted then s.(prevVolume := s.volume, volume := MIN_VOLUME, muted := true)
    else s.(volume := s.prevVolume, muted := false)
  }

  /** Next channel, wrapping from the highest to the lowest. No effect when off. */
  function ChannelUp(s: State): (r: State)
    ensures !s.status ==> r == s
    ensures r.status == s.status && r.muted == s.muted
    ensures r.volume == s.volume && r.prevVolume == s.prevVolume
    ensures s.status && Valid(s) ==>
      r.channel == (if s.channel == MAX_CHANNEL then MIN_CHANNEL else s.channel + 1)
    ensures Valid(s) ==> Valid(r)
  {
    if !s.status then s
    else s.(channel := (s.channel + 1) % (MAX_CHANNEL + 1))
  }

  /** Previous channel, wrapping from the lowest to the highest. Dafny's `%`
      never yields a negative remainder for a positive modulus, exactly as
      the source's operator does. No effect when off. */
  function ChannelDown(s: State): (r: State)
    ensures !s.status ==> r == s
    ensures r.status == s.status && r.muted == s.muted
    ensures r.volume == s.volume && r.prevVolume == s.prevVolume
    ensures s.status && Valid(s) ==>
      r.channel == (if s.channel == MIN_CHANNEL then MAX_CHANNEL else s.channel - 1)
    ensures Valid(s) ==> Valid(r)
  {
    if !s.status then s
    else s.(channel := (s.channel - 1) % (MAX_CHANNEL + 1))
  }

  /** The volume a set that is on plays at once it is unmuted. */
  function Audible(s: State): int {
    if s.muted then s.prevVolume else s.volume
  }

  /** Louder by one step, saturating at the maximum. A muted set is unmuted
      first, and the step then applies to the restored volume in the same
      call. No effect when off. */
  function VolumeUp(s: State): (r: State)
    ensures !s.status ==> r == s
    ensures r.status == s.status && r.channel == s.channel && r.prevVolume == s.prevVolume
    ensures s.status ==> !r.muted
    ensures s.status && Valid(s) ==> r.volume == Min(Audible(s) + 1, MAX_VOLUME)
    ensures Valid(s) ==> Valid(r) && r.volume >= s.volume
  {
    if !s.status then s
    else
      var t := if s.muted then s.(muted := false, volume := s.prevVolume) else s;
      if t.volume < MAX_VOLUME then t.(volume := t.volume + 1) else t
  }

  /** Quieter by one step, saturating at the minimum. A muted set is unmuted
      first, and the step then applies to the restored volume in the same
      call. No effect when off. */
  function VolumeDown(s: State): (r: State)
    ensures !s.status ==> r == s
    ensures r.status == s.status && r.channel == s.channel && r.prevVolume == s.prevVolume
    ensures s.status ==> !r.muted
    ensures s.status && Valid(s) ==> r.volume == Max(Audible(s) - 1, MIN_VOLUME)
    ensures Valid(s) ==> Valid(r) && r.volume <= Audible(s)
  {
    if !s.status then s
    else
      var t := if s.muted then s.(muted := false, volume := s.prevVolume) else s;
      if t.volume > MIN_VOLUME then t.(volume := t.volume - 1) else t
  }

  /** The decimal spelling of a single digit. */
  function Digit(n: int): (r: string)
    requires 0 <= n <= 9
    ensures |r| == 1 && r[0] as int - '0' as int == n
  {
    [('0' as int + n) as char]
  }

  /** How the power flag prints. */
  function BoolText(b: bool): (r: string)
    ensures |r| == if b then 4 else 5
  {
    if b then "True" else "False"
  }

  /** The text shown for a set: power, channel and volume, nothing else.
      The power flag is spelled out after "Power = ", the channel digit
      follows ", Channel = " and the volume digit ends the text. */
  function Render(s: State): (r: string)
    requires Valid(s)
    ensures |r| == 33 + |BoolText(s.status)|
    ensures r[..8] == "Power = " && r[8..8 + |BoolText(s.status)|] == BoolText(s.status)
    ensures r[8 + |BoolText(s.status)|..20 + |BoolText(s.status)|] == ", Channel = "
    ensures r[20 + |BoolText(s.status)|] as int - '0' as int == s.channel
    ensures r[21 + |BoolText(s.status)|..32 + |BoolText(s.status)|] == ", Volume = "
    ensures r[|r| - 1] as int - '0' as int == s.volume
  {
    "Power = " + BoolText(s.status) + ", Channel = " + Digit(s.channel) + ", Volume = " + Digit(s.volume)
  }

  /** Pressing power twice gives back exactly the state before. */
  lemma PowerTwice(s: State)
    ensures Power(Power(s)) == s
  {
  }

  /** Muting and unmuting give back the volume and the mute flag; the
      remembered volume is then the volume that was playing. Unmuting and
      muting again give back the whole state. */
  lemma MuteTwice(s: State)
    requires Valid(s) && s.status
    ensures Mute(Mute(s)).volume == s.volume && Mute(Mute(s)).muted == s.muted
    ensures !s.muted ==> Mute(Mute(s)) == s.(prevVolume := s.volume)
    ensures s.muted ==> Mute(Mute(s)) == s
  {
  }

  /** Channel up and channel down undo each other. */
  lemma ChannelUpDownInverse(s: State)
    requires Valid(s)
    ensures ChannelDown(ChannelUp(s)) == s
    ensures ChannelUp(ChannelDown(s)) == s
  {
  }

  /** The text of a new set. */
  lemma InitRender()
    ensures Render(Init()) == "Power = False, Channel = 0, Volume = 0"
  {
  }

  /** The text tells power, channel and volume apart: two states print the
      same exactly when they agree on these three. */
  lemma RenderInjective(a: State, b: State)
    requires Valid(a) && Valid(b)
    ensures Render(a) == Render(b) <==>
      a.status == b.status && a.channel == b.channel && a.volume == b.volume
  {
  }
}
