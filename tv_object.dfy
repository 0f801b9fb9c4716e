/** The television as an object whose commands update its fields in place.
    Every command states its exact new fields in terms of the old ones and
    that it performs the corresponding transition of TvState, so the
    lemmas about states and runs carry over to the object. */
module TvObject {
  import opened TvState

  class Television {
    var status: bool
    var muted: bool
    var volume: int
    var channel: int
    var prevVolume: int

    /** The fields as a state value. */
    function Snapshot(): State
      reads this
    {
      State(status, muted, volume, channel, prevVolume)
    }

    /** The object invariant of TvState.Valid on the fields. */
    ghost predicate Valid()
      reads this
    {
      TvState.Valid(Snapshot())
    }

    /** A powered-off set on the lowest channel at the lowest volume, unmuted. */
    constructor ()
      ensures Valid() && Snapshot() == Init()
      ensures !status && !muted && volume == MIN_VOLUME && channel == MIN_CHANNEL && prevVolume == volume
    {
      status := false;
      muted := false;
      volume := MIN_VOLUME;
      channel := MIN_CHANNEL;
      prevVolume := volume;
    }

    /** Toggle the power. */
    method Power()
      requires Valid()
      modifies this
      ensures Valid() && Snapshot() == TvState.Power(old(Snapshot()))
      ensures status == !old(status)
      ensures muted == old(muted) && volume == old(volume) && channel == old(channel) && prevVolume == old(prevVolume)
    {
      status := !status;
    }

    /** Toggle mute, remembering the volume on the way in and restoring it
        on the way out; nothing happens while the set is off. */
    method Mute()
      requires Valid()
      modifies this
      ensures Valid() && Snapshot() == TvState.Mute(old(Snapshot()))
      ensures status == old(status) && channel == old(channel)
      ensures !old(status) ==> unchanged(this)
      ensures old(status) && !old(muted) ==> muted && prevVolume == old(volume) && volume == MIN_VOLUME
      ensures old(status) && old(muted) ==> !muted && volume == old(prevVolume) && prevVolume == old(prevVolume)
    {
      if !status {
        return;
      }
      if !muted {
        prevVolume := volume;
        volume := MIN_VOLUME;
        muted := true;
      } else {
        volume := prevVolume;
        muted := false;
      }
    }

    /** Next channel, wrapping from the highest to the lowest; nothing
        happens while the set is off. */
    method ChannelUp()
      requires Valid()
      modifies this
      ensures Valid() && Snapshot() == TvState.ChannelUp(old(Snapshot()))
      ensures status == old(status) && muted == old(muted) && volume == old(volume) && prevVolume == old(prevVolume)
      ensures !old(status) ==> channel == old(channel)
      ensures old(status) ==> channel == (if old(channel) == MAX_CHANNEL then MIN_CHANNEL else old(channel) + 1)
    {
      if !status {
        return;
      }
      channel := (channel + 1) % (MAX_CHANNEL + 1);
    }

    /** Previous channel, wrapping from the lowest to the highest; nothing
        happens while the set is off. */
    method ChannelDown()
      requires Valid()
      modifies this
      ensures Valid() && Snapshot() == TvState.ChannelDown(old(Snapshot()))
      ensures status == old(status) && muted == old(muted) && volume == old(volume) && prevVolume == old(prevVolume)
      ensures !old(status) ==> channel == old(channel)
      ensures old(status) ==> channel == (if old(channel) == MIN_CHANNEL then MAX_CHANNEL else old(channel) - 1)
    {
      if !status {
        return;
      }
      channel := (channel - 1) % (MAX_CHANNEL + 1);
    }

    /** Louder by one step up to the maximum, unmuting first; nothing
        happens while the set is off. */
    method VolumeUp()
      requires Valid()
      modifies this
      ensures Valid() && Snapshot() == TvState.VolumeUp(old(Snapshot()))
      ensures status == old(status) && channel == old(channel) && prevVolume == old(prevVolume)
      ensures !old(status) ==> unchanged(this)
      ensures old(status) ==> !muted
      ensures old(status) ==> volume == Min((if old(muted) then old(prevVolume) else old(volume)) + 1, MAX_VOLUME)
    {
      if !status {
        return;
      }
      if muted {
        muted := false;
        volume := prevVolume;
      }
      if volume < MAX_VOLUME {
        volume := volume + 1;
      }
    }

    /** Quieter by one step down to the minimum, unmuting first; nothing
        happens while the set is off. */
    method VolumeDown()
      requires Valid()
      modifies this
      ensures Valid() && Snapshot() == TvState.VolumeDown(old(Snapshot()))
      ensures status == old(status) && channel == old(channel) && prevVolume == old(prevVolume)
      ensures !old(status) ==> unchanged(this)
      ensures old(status) ==> !muted
      ensures old(status) ==> volume == Max((if old(muted) then old(prevVolume) else old(volume)) - 1, MIN_VOLUME)
    {
      if !status {
        return;
      }
      if muted {
        muted := false;
        volume := prevVolume;
      }
      if volume > MIN_VOLUME {
        volume := volume - 1;
      }
    }

    /** The printed form of the set: the power flag spelled True or False
        after "Power = ", the channel digit after ", Channel = " and the
        volume digit, last, after ", Volume = ". */
    function ToString(): (r: string)
      reads this
      requires Valid()
      ensures |r| == if status then 37 else 38
      ensures status ==> r[..12] == "Power = True"
      ensures !status ==> r[..13] == "Power = False"
      ensures r[8 + |BoolText(status)|..20 + |BoolText(status)|] == ", Channel = "
      ensures r[20 + |BoolText(status)|] as int - '0' as int == channel
      ensures r[21 + |BoolText(status)|..32 + |BoolText(status)|] == ", Volume = "
      ensures r[|r| - 1] as int - '0' as int == volume
    {
      Render(Snapshot())
    }
  }

  /** A client of the class: the mute scenario of test_television.py,
      proved from the method contracts alone. Returns the volume after
      two volume ups, after mute, after volume up and after mute again. */
  method MuteUnmuteClient() returns (volumes: seq<int>)
    ensures volumes == [2, 0, 2, 0]
  {
    var tv := new Television();
    tv.Power();
    tv.VolumeUp();
    tv.VolumeUp();
    var loud := tv.volume;
    tv.Mute();
    var muted := tv.volume;
    tv.VolumeUp();
    var restored := tv.volume;
    tv.Mute();
    var mutedAgain := tv.volume;
    volumes := [loud, muted, restored, mutedAgain];
  }

  /** A client of the class: mute, volume up and channel up on a set that
      is off leave it printing as a new set. Returns the text before and
      after the three commands. The command contracts give the unchanged
      fields; the text itself comes from ToString's definition through
      Render and InitRender. */
  method OffClient() returns (before: string, after: string)
    ensures before == after == "Power = False, Channel = 0, Volume = 0"
  {
    var tv := new Television();
    InitRender();
    before := tv.ToString();
    tv.Mute();
    tv.VolumeUp();
    tv.ChannelUp();
    assert tv.Snapshot() == Init();
    after := tv.ToString();
  }
}
