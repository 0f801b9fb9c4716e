# Television state machine in Dafny

A model of the `Television` class of `television.py`: a set with a power
switch, a mute toggle that remembers and restores the volume, a channel that
wraps around in `[0, 3]` and a volume that saturates in `[0, 2]`. Every
command other than power does nothing while the set is off.

The model has three modules:

- `TvState` (`tv_state.dfy`): the five fields as a `State` value
  (`status`, `muted`, `volume`, `channel`, `prevVolume`), the constants
  `MIN_VOLUME = 0`, `MAX_VOLUME = 2`, `MIN_CHANNEL = 0`, `MAX_CHANNEL = 3`,
  the object invariant `Valid`, one pure transition per command, and
  `Render`, the `"Power = …, Channel = …, Volume = …"` text with power
  spelled `True`/`False`.
- `TvRuns` (`tv_runs.dfy`): button presses as a `Command` datatype, `Run`
  over any sequence of presses, and lemmas about repeated presses and the
  scenarios of `test_television.py`.
- `TvObject` (`tv_object.dfy`): the class `Television` with the five fields
  as `var`s, a constructor and one method per command that updates the
  fields in place with the source's early-return guards. Each method
  states its exact new fields in terms of `old(…)` and that the new
  `Snapshot()` is the `TvState` transition of the old one, so every lemma
  about states and runs applies to the object. `ToString` prints the object
  through `Render`. Two client methods replay test scenarios on the object:
  `MuteUnmuteClient` from the method contracts alone, `OffClient` from the
  method contracts together with the definition of `ToString`.

Python's `%` and Dafny's `%` agree for the positive modulus used here, so
channel down is written `(channel - 1) % (MAX_CHANNEL + 1)` as in the source.

## Model

| member | source | states |
|---|---|---|
| TvState.Init | television.py:14-20 | a new set is off, unmuted, on channel `MIN_CHANNEL` at `MIN_VOLUME`, remembers that volume, and satisfies the invariant |
| TvState.Power | television.py:22-24 | power flips the status, keeps mute, volume, channel and remembered volume, and keeps the invariant both ways |
| TvState.Mute | television.py:26-42 | off: no change; on and unmuted: muted, volume at the minimum, old volume remembered; on and muted: unmuted, remembered volume restored; channel and power kept; invariant kept |
| TvState.ChannelUp | television.py:44-48 | off: no change; on: the next channel, the highest wrapping to the lowest; no other field changes; invariant kept |
| TvState.ChannelDown | television.py:50-54 | off: no change; on: the previous channel, the lowest wrapping to the highest; no other field changes; invariant kept |
| TvState.VolumeUp | television.py:56-68 | off: no change; on: unmuted and playing min(audible volume + 1, `MAX_VOLUME`), where the audible volume is the remembered one if it was muted; never quieter; invariant kept |
| TvState.VolumeDown | television.py:70-82 | off: no change; on: unmuted and playing max(audible volume - 1, `MIN_VOLUME`); never louder than the audible volume; invariant kept |
| TvState.Render | television.py:84-89 | a valid state prints as `Power = ` followed by `True` or `False`, then `, Channel = ` and the channel digit, then `, Volume = ` and the volume digit as the last character; length 37 when on, 38 when off (the new-set text is `TvState.InitRender`, and distinct settings print distinctly by `TvState.RenderInjective`) |
| TvState.PowerTwice | television.py:22-24 | pressing power twice restores the whole state |
| TvState.MuteTwice | television.py:26-42 | mute twice on a set that is on restores volume and mute flag; from unmuted only the remembered volume changes (to the playing volume), from muted the whole state comes back |
| TvState.ChannelUpDownInverse | television.py:44-54 | channel up and channel down undo each other in both orders on every valid state |
| TvState.InitRender | test_television.py:9-11 | a new set prints `Power = False, Channel = 0, Volume = 0` |
| TvState.RenderInjective | television.py:84-89 | two valid states print the same text if and only if they agree on power, channel and volume |
| TvRuns.Step | television.py:22-82 | one press keeps the invariant, changes nothing but power when the set is off, and changes the status exactly when it is the power button |
| TvRuns.Run | television.py:14-82 | any sequence of presses from a valid state ends in a valid state |
| TvRuns.RunAppend | television.py:22-82 | pressing two sequences in turn is running the second from where the first ends |
| TvRuns.ReachableValid | television.py:14-82 | every state reachable from a new set satisfies the invariant: volume and remembered volume in `[0, 2]`, channel in `[0, 3]`, muted implies volume 0 |
| TvRuns.OffIgnoresAllButPower | television.py:26-82 | while the set is off, any sequence of presses without power leaves every field unchanged |
| TvRuns.ChannelUps | television.py:44-48 | n channel-up presses on a set that is on give channel (c + n) mod 4 and change nothing else |
| TvRuns.ChannelDowns | television.py:50-54 | n channel-down presses on a set that is on give channel (c - n) mod 4 and change nothing else |
| TvRuns.VolumeUps | television.py:56-68 | n volume-up presses on a set that is on and unmuted give volume min(v + n, 2) and change nothing else |
| TvRuns.VolumeDowns | television.py:70-82 | n volume-down presses on a set that is on and unmuted give volume max(v - n, 0) and change nothing else |
| TvRuns.VolumeUpsUnmuting | television.py:56-68 | n >= 1 volume-up presses on a set that is on, muted or not, leave it unmuted at min(audible volume + n, 2) and change nothing else |
| TvRuns.VolumeDownsUnmuting | television.py:70-82 | n >= 1 volume-down presses on a set that is on, muted or not, leave it unmuted at max(audible volume - n, 0) and change nothing else |
| TvRuns.ChannelWrappingScenario | test_television.py:19-30 | power on, five channel ups give channel 1, then three channel downs give channel 2 |
| TvRuns.VolumeBoundsScenario | test_television.py:32-41 | power on, five volume ups give volume 2, then five volume downs give volume 0 |
| TvRuns.MuteUnmuteScenario | test_television.py:43-56 | volume 2, mute gives 0, volume up restores 2 and saturates at 2, mute again gives 0 |
| TvRuns.OffScenario | test_television.py:58-61 | mute, volume up and channel up on a set that is off leave it printing as a new set |
| TvRuns.ShowsAllScenario | test_television.py:63-68 | power, channel up and volume up print `Power = True, Channel = 1, Volume = 1` |
| TvObject.Television.constructor | television.py:14-20 | the fields start as in `TvState.Init` and satisfy the invariant |
| TvObject.Television.Power | television.py:22-24 | the status flips in place and the other four fields are unchanged |
| TvObject.Television.Mute | television.py:26-42 | in place: no change when off; mute stores the volume and drops it to the minimum; unmute restores the stored volume |
| TvObject.Television.ChannelUp | television.py:44-48 | in place: no change when off; otherwise the next channel with wrap-around; other fields unchanged |
| TvObject.Television.ChannelDown | television.py:50-54 | in place: no change when off; otherwise the previous channel with wrap-around; other fields unchanged |
| TvObject.Television.VolumeUp | television.py:56-68 | in place: no change when off; otherwise unmuted and one step louder than the audible volume, saturating at the maximum |
| TvObject.Television.VolumeDown | television.py:70-82 | in place: no change when off; otherwise unmuted and one step quieter than the audible volume, saturating at the minimum |
| TvObject.Television.ToString | television.py:84-89 | the object's text starts with `Power = True` when on and `Power = False` when off, then `, Channel = ` and the channel digit, then `, Volume = ` and the volume digit as the last character; length 37 when on, 38 when off |
| TvObject.MuteUnmuteClient | test_television.py:43-56 | on a new object: power, two volume ups, mute, volume up, mute give the volumes 2, 0, 2, 0, from the method contracts alone |
| TvObject.OffClient | test_television.py:58-61 | on a new object that is off, mute, volume up and channel up leave the text equal to `Power = False, Channel = 0, Volume = 0` before and after |

## Left out

- Name mangling of the private `__` fields: Dafny has no private fields, so the class fields are public; the model relies on callers changing them only through the methods, and every method requires and restores `Valid()`.
- General Python `str()` formatting in `__str__`: `Render` prints the power flag as `True`/`False` and channel and volume as single decimal digits, which covers every value the invariant allows; it therefore requires `Valid`.
- The pytest fixture and the test loops: the loops of repeated presses are modelled as `Repeat` sequences fed to `Run`, and the assertions become the scenario lemmas.
- The substring assertions of `test_power_toggle` are covered by `TvState.Power` and `TvState.PowerTwice` rather than by a separate scenario.
