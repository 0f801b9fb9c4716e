/** A television driven by a sequence of button presses: the invariant holds
    after every press, and repeated presses wrap the channel and saturate
    the volume. The last lemmas replay the scenarios of
    test_television.py on the state model. */
module TvRuns {
  import opened TvState

  /** One press of a remote-control button. */
  datatype Command =
    | PressPower
    | PressMute
    | PressChannelUp
    | PressChannelDown
    | PressVolumeUp
    | PressVolumeDown

  /** The state after one press. */
  function Step(s: State, c: Command): (r: State)
    ensures Valid(s) ==> Valid(r)
    ensures c != PressPower && !s.status ==> r == s
    ensures r.status == (if c == PressPower then !s.status else s.status)
  {
    match c
    case PressPower => Power(s)
    case PressMute => Mute(s)
    case PressChannelUp => ChannelUp(s)
    case PressChannelDown => ChannelDown(s)
    case PressVolumeUp => VolumeUp(s)
    case PressVolumeDown => VolumeDown(s)
  }

  /** The state after pressing the buttons in order. Every sequence of
      presses from a valid state ends in a valid state. */
  function Run(s: State, cmds: seq<Command>): (r: State)
    ensures Valid(s) ==> Valid(r)
    decreases |cmds|
  {
    if cmds == [] then s else Run(Step(s, cmds[0]), cmds[1..])
  }

  /** The same button pressed n times. */
  function Repeat(c: Command, n: nat): (r: seq<Command>)
    ensures |r| == n
    ensures forall i :: 0 <= i < n ==> r[i] == c
  {
    if n == 0 then [] else [c] + Repeat(c, n - 1)
  }

  /** Pressing a then b is pressing a, then pressing b on the result. */
  lemma {:induction false} RunAppend(s: State, a: seq<Command>, b: seq<Command>)
    ensures Run(s, a + b) == Run(Run(s, a), b)
    decreases |a|
  {
    if a == [] {
      assert a + b == b;
    } else {
      assert (a + b)[1..] == a[1..] + b;
      RunAppend(Step(s, a[0]), a[1..], b);
    }
  }

  /** Every state a new set can reach keeps the invariant. */
  lemma ReachableValid(cmds: seq<Command>)
    ensures Valid(Run(Init(), cmds))
  {
  }

  /** While the set is off only the power button has an effect. */
  lemma {:induction false} OffIgnoresAllButPower(s: State, cmds: seq<Command>)
    requires !s.status
    requires forall i :: 0 <= i < |cmds| ==> cmds[i] != PressPower
    ensures Run(s, cmds) == s
    decreases |cmds|
  {
    if cmds != [] {
      OffIgnoresAllButPower(Step(s, cmds[0]), cmds[1..]);
    }
  }

  /** n presses of channel up move n channels up, modulo the channel count;
      nothing else changes. */
  lemma {:induction false} ChannelUps(s: State, n: nat)
    requires Valid(s) && s.status
    ensures Run(s, Repeat(PressChannelUp, n)) == s.(channel := (s.channel + n) % (MAX_CHANNEL + 1))
    decreases n
  {
    if n > 0 {
      var t := ChannelUp(s);
      ChannelUps(t, n - 1);
      assert t.channel == (s.channel + 1) % 4;
      assert (t.channel + (n - 1)) % 4 == (s.channel + n) % 4;
    }
  }

  /** n presses of channel down move n channels down, modulo the channel
      count; nothing else changes. */
  lemma {:induction false} ChannelDowns(s: State, n: nat)
    requires Valid(s) && s.status
    ensures Run(s, Repeat(PressChannelDown, n)) == s.(channel := (s.channel - n) % (MAX_CHANNEL + 1))
    decreases n
  {
    if n > 0 {
      var t := ChannelDown(s);
      ChannelDowns(t, n - 1);
      assert t.channel == (s.channel - 1) % 4;
      assert (t.channel - (n - 1)) % 4 == (s.channel - n) % 4;
    }
  }

  /** n presses of volume up on an unmuted set raise the volume by n, but
      never past the maximum; nothing else changes. */
  lemma {:induction false} VolumeUps(s: State, n: nat)
    requires Valid(s) && s.status && !s.muted
    ensures Run(s, Repeat(PressVolumeUp, n)) == s.(volume := Min(s.volume + n, MAX_VOLUME))
    decreases n
  {
    if n > 0 {
      VolumeUps(VolumeUp(s), n - 1);
    }
  }

  /** n presses of volume down on an unmuted set lower the volume by n, but
      never below the minimum; nothing else changes. */
  lemma {:induction false} VolumeDowns(s: State, n: nat)
    requires Valid(s) && s.status && !s.muted
    ensures Run(s, Repeat(PressVolumeDown, n)) == s.(volume := Max(s.volume - n, MIN_VOLUME))
    decreases n
  {
    if n > 0 {
      VolumeDowns(VolumeDown(s), n - 1);
    }
  }

  /** n >= 1 presses of volume up on a set that is on, muted or not: the
      first press unmutes and restores the remembered volume, and the
      volume then rises by n in all, never past the maximum. */
  lemma {:induction false} VolumeUpsUnmuting(s: State, n: nat)
    requires Valid(s) && s.status && n >= 1
    ensures Run(s, Repeat(PressVolumeUp, n)) == s.(muted := false, volume := Min(Audible(s) + n, MAX_VOLUME))
  {
    RunAppend(s, [PressVolumeUp], Repeat(PressVolumeUp, n - 1));
    assert [PressVolumeUp] + Repeat(PressVolumeUp, n - 1) == Repeat(PressVolumeUp, n);
    VolumeUps(VolumeUp(s), n - 1);
  }

  /** n >= 1 presses of volume down on a set that is on, muted or not: the
      first press unmutes and restores the remembered volume, and the
      volume then falls by n in all, never below the minimum. */
  lemma {:induction false} VolumeDownsUnmuting(s: State, n: nat)
    requires Valid(s) && s.status && n >= 1
    ensures Run(s, Repeat(PressVolumeDown, n)) == s.(muted := false, volume := Max(Audible(s) - n, MIN_VOLUME))
  {
    RunAppend(s, [PressVolumeDown], Repeat(PressVolumeDown, n - 1));
    assert [PressVolumeDown] + Repeat(PressVolumeDown, n - 1) == Repeat(PressVolumeDown, n);
    VolumeDowns(VolumeDown(s), n - 1);
  }

  /** A new set, switched on, then channel up five times shows channel 1;
      then channel down three times shows channel 2. */
  lemma ChannelWrappingScenario()
    ensures Run(Init(), [PressPower] + Repeat(PressChannelUp, 5)).channel == 1
    ensures Run(Init(), [PressPower] + Repeat(PressChannelUp, 5) + Repeat(PressChannelDown, 3)).channel == 2
  {
    var on := Run(Init(), [PressPower]);
    RunAppend(Init(), [PressPower], Repeat(PressChannelUp, 5));
    ChannelUps(on, 5);
    var up := Run(on, Repeat(PressChannelUp, 5));
    RunAppend(Init(), [PressPower] + Repeat(PressChannelUp, 5), Repeat(PressChannelDown, 3));
    ChannelDowns(up, 3);
  }

  /** A new set, switched on, then volume up five times plays at 2; then
      volume down five times plays at 0. */
  lemma VolumeBoundsScenario()
    ensures Run(Init(), [PressPower] + Repeat(PressVolumeUp, 5)).volume == MAX_VOLUME
    ensures Run(Init(), [PressPower] + Repeat(PressVolumeUp, 5) + Repeat(PressVolumeDown, 5)).volume == MIN_VOLUME
  {
    var on := Run(Init(), [PressPower]);
    RunAppend(Init(), [PressPower], Repeat(PressVolumeUp, 5));
    VolumeUps(on, 5);
    var up := Run(on, Repeat(PressVolumeUp, 5));
    RunAppend(Init(), [PressPower] + Repeat(PressVolumeUp, 5), Repeat(PressVolumeDown, 5));
    VolumeDowns(up, 5);
  }

  /** Volume raised to 2, muted (plays at 0), volume up (restores 2, then
      saturates at 2), muted again (plays at 0). */
  lemma MuteUnmuteScenario()
    ensures Run(Init(), [PressPower, PressVolumeUp, PressVolumeUp]).volume == 2
    ensures Run(Init(), [PressPower, PressVolumeUp, PressVolumeUp, PressMute]).volume == 0
    ensures Run(Init(), [PressPower, PressVolumeUp, PressVolumeUp, PressMute, PressVolumeUp]).volume == 2
    ensures Run(Init(), [PressPower, PressVolumeUp, PressVolumeUp, PressMute, PressVolumeUp, PressMute]).volume == 0
  {
  }

  /** Mute, volume up and channel up on a set that is off change nothing:
      it still prints as a new set. */
  lemma OffScenario()
    ensures Render(Run(Init(), [PressMute, PressVolumeUp, PressChannelUp]))
         == "Power = False, Channel = 0, Volume = 0"
  {
  }

  /** A set switched on, channel up once and volume up once prints all
      three values. */
  lemma ShowsAllScenario()
    ensures Render(Run(Init(), [PressPower, PressChannelUp, PressVolumeUp]))
         == "Power = True, Channel = 1, Volume = 1"
  {
  }
}
