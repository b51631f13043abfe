/** `set_volume`: which transport carries a new setting, what it sends, and
    which confirmation is spoken. A setting is a level in [0, 100], with 0
    also meaning "mute" and -1 meaning "unmute" (restore). */
module Dispatch {
  import opened Wrappers
  import Resolver

  datatype Channel = Input | Output

  /** The shell script `functions.sh` on the device, or the message bus to
      the enclosure. */
  datatype Transport = ShellScript | MessageBus

  /** The device types whose volume is driven by the shell script. */
  const ScriptDevices: set<string> := {"generic", "neonK", "neonX", "neonAlpha", "neonU"}

  /** The transport for a device type ("" when none is configured, which
      counts as "generic") and whether the script file exists. */
  function TransportFor(devType: string, scriptPresent: bool): (t: Transport)
    ensures t == ShellScript <==> scriptPresent && (devType == "" || devType in ScriptDevices)
  {
    var enclosure := if devType == "" then "generic" else devType;
    if enclosure in ScriptDevices && scriptPresent then ShellScript else MessageBus
  }

  /** What one call of `set_volume` sends. */
  datatype Transmission =
    | RunSetLevel(io: Channel, setting: int)  // `setLevel <io> <setting>` through the script, not awaited
    | BusMute(mute: bool)                     // "mycroft.volume.mute"
    | BusSetPercent(fraction: real)           // "mycroft.volume.set" with the level as a fraction of 1
    | InputNotImplemented                     // a warning in the log, nothing sent

  datatype DialogName = SetVolumeDialog | ResetVolumeDialog  // "set.volume", "reset.volume"

  datatype Dialog = Dialog(name: DialogName, kind: string, volume: int)

  datatype SetVolumeEffect = SetVolumeEffect(sent: Transmission, spoken: Option<Dialog>)

  /** The transport half of `set_volume`: the script is handed any setting
      for either channel; the bus only serves the output channel, muting for
      0, unmuting for -1 and setting the fraction otherwise. */
  function Transmit(t: Transport, io: Channel, setting: int): (m: Transmission)
    ensures t == ShellScript ==> m == RunSetLevel(io, setting)
    ensures t == MessageBus ==> (m == InputNotImplemented <==> io == Input)
    ensures t == MessageBus ==> (m == BusMute(true) <==> io == Output && setting == 0)
    ensures t == MessageBus ==> (m == BusMute(false) <==> io == Output && setting == -1)
    ensures m.BusSetPercent? <==> t == MessageBus && io == Output && setting != 0 && setting != -1
    ensures m.BusSetPercent? ==> m.fraction * 100.0 == setting as real
  {
    match t
    case ShellScript => RunSetLevel(io, setting)
    case MessageBus =>
      if io.Input? then InputNotImplemented
      else if setting == 0 then BusMute(true)
      else if setting == -1 then BusMute(false)
      else BusSetPercent(setting as real / 100.0)
  }

  /** The dialog half of `set_volume`: nothing for a mute; "reset.volume"
      with the cached level of the channel for an unmute; "set.volume" with
      the setting otherwise; and nothing at all when speaking is off. */
  function Confirmation(io: Channel, setting: int, speak: bool, volLevel: int, micLevel: int): (d: Option<Dialog>)
    ensures d.None? <==> !speak || setting == 0
    ensures d.Some? ==> (d.value.name == ResetVolumeDialog <==> setting == -1)
    ensures d.Some? && setting == -1 ==> d.value.volume == (if io == Output then volLevel else micLevel)
    ensures d.Some? && setting != -1 ==> d.value.volume == setting
    ensures d.Some? && io == Output ==> d.value.kind == "Volume"
    ensures d.Some? && io == Input ==> d.value.kind == (if setting == -1 then "Microphone level" else "Microphone Level")
  {
    if setting == 0 || !speak then None
    else if setting == -1 then
      Some(if io == Output then Dialog(ResetVolumeDialog, "Volume", volLevel)
           else Dialog(ResetVolumeDialog, "Microphone level", micLevel))
    else
      Some(Dialog(SetVolumeDialog, if io == Output then "Volume" else "Microphone Level", setting))
  }

  /** Both halves of `set_volume`, given the cached levels. */
  function SetVolumeEffects(t: Transport, io: Channel, setting: int, speak: bool, volLevel: int, micLevel: int): (e: SetVolumeEffect)
    ensures e.sent.BusMute? && e.sent.mute ==> e.spoken.None?
    ensures e.sent.BusMute? && !e.sent.mute && e.spoken.Some? ==> e.spoken.value.name == ResetVolumeDialog
    ensures e.sent.BusSetPercent? && e.spoken.Some? ==> e.sent.fraction * 100.0 == e.spoken.value.volume as real
    ensures e.sent.RunSetLevel? && e.spoken.Some? && setting != -1 ==> e.sent.setting == e.spoken.value.volume
  {
    SetVolumeEffect(Transmit(t, io, setting), Confirmation(io, setting, speak, volLevel, micLevel))
  }

  /** A spoken level never reaches the unmute branch of `set_volume`: it is
      confirmed, if at all, with "set.volume", and the bus is never told to
      unmute. */
  lemma SpokenLevelIsNeverUnmute(io: Channel, t: Transport, levelSlot: string, utterance: string,
                                 defaultLevel: int, volLevel: int, micLevel: int)
    ensures var level := Resolver.SpokenLevel(levelSlot, utterance, defaultLevel);
      var d := Confirmation(io, level, true, volLevel, micLevel);
      (d.Some? ==> d.value.name == SetVolumeDialog && d.value.volume == level) &&
      Transmit(t, io, level) != BusMute(false)
  {
  }

  /** The spoken confirmation does not depend on the transport, and on the
      bus a setting that is a level (not the mute or unmute marker) is
      confirmed with exactly the level that was sent. */
  lemma ConfirmationMatchesBusLevel(io: Channel, setting: int, volLevel: int, micLevel: int)
    requires 0 < setting <= 100
    ensures var e := SetVolumeEffects(MessageBus, io, setting, true, volLevel, micLevel);
      e.spoken.Some? && e.spoken.value.name == SetVolumeDialog &&
      (io == Output ==> e.sent.BusSetPercent? && e.sent.fraction * 100.0 == e.spoken.value.volume as real)
    ensures SetVolumeEffects(MessageBus, io, setting, true, volLevel, micLevel).spoken
         == SetVolumeEffects(ShellScript, io, setting, true, volLevel, micLevel).spoken
  {
  }
}
