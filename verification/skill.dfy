/** The skill object: the cached input and output levels, their re-reading
    from the device, the relative volume change, and the handlers' local
    actions. The device itself is outside the model: each re-read takes what
    the device reports as a parameter. */
module Skill {
  import opened Wrappers
  import opened Resolver
  import opened Dispatch
  import opened Routing

  /** The enclosure's answer to "mycroft.volume.get": none at all, an
      integer percentage, a fraction already scaled and rounded to a
      percentage, or something else. */
  datatype Reply = NoReply | IntPercent(percent: int) | FloatPercent(rounded: int) | OtherPercent

  /** What the device reports when the levels are re-read: the contents of
      the `input_volume` and `output_volume` files written by the script
      (None when a file does not hold an integer), and the bus reply. */
  datatype Outside = Outside(inputFile: Option<int>, outputFile: Option<int>, reply: Reply)

  datatype Cached = Cached(mic: int, vol: int)

  /** Whether a re-read completed, and the cached levels after it. */
  datatype Refresh = Refresh(ok: bool, levels: Cached)

  /** `_get_volume`: the script path reads the input file, then the output
      file, and stops at the first that fails; the bus path first sets the
      microphone level to 100, fails when the enclosure does not answer, and
      otherwise takes the reported output level, 0 when it is not a number. */
  function Reconcile(t: Transport, o: Outside, before: Cached): (r: Refresh)
    ensures r.ok <==> (if t.ShellScript? then o.inputFile.Some? && o.outputFile.Some? else !o.reply.NoReply?)
    ensures t.ShellScript? && r.ok ==> r.levels == Cached(o.inputFile.value, o.outputFile.value)
    ensures t.ShellScript? && o.inputFile.None? ==> r.levels == before
    ensures t.ShellScript? && o.inputFile.Some? ==> r.levels.mic == o.inputFile.value
    ensures t.MessageBus? ==> r.levels.mic == 100
    ensures t.MessageBus? && o.reply.IntPercent? ==> r.levels.vol == o.reply.percent
    ensures t.MessageBus? && o.reply.FloatPercent? ==> r.levels.vol == o.reply.rounded
    ensures t.MessageBus? && o.reply.OtherPercent? ==> r.levels.vol == 0
    ensures !r.ok ==> r.levels.vol == before.vol
  {
    match t
    case ShellScript =>
      if o.inputFile.None? then Refresh(false, before)
      else if o.outputFile.None? then Refresh(false, Cached(o.inputFile.value, before.vol))
      else Refresh(true, Cached(o.inputFile.value, o.outputFile.value))
    case MessageBus =>
      match o.reply
      case NoReply => Refresh(false, Cached(100, before.vol))
      case IntPercent(p) => Refresh(true, Cached(100, p))
      case FloatPercent(x) => Refresh(true, Cached(100, x))
      case OtherPercent => Refresh(true, Cached(100, 0))
  }

  datatype Adjustment = Adjustment(level: int, changed: bool)

  /** The arithmetic of a relative change: the new level is the old one
      moved by `change` and clamped, and `changed` tells whether it differs
      from the old one. */
  function Adjust(current: int, change: int): (a: Adjustment)
    ensures MinLevel <= a.level <= MaxLevel
    ensures a.changed <==> a.level != current
    ensures MinLevel <= current + change <= MaxLevel ==> a.level == current + change
    ensures current + change > MaxLevel ==> a.level == MaxLevel
    ensures current + change < MinLevel ==> a.level == MinLevel
    ensures change >= 0 && current <= MaxLevel ==> a.level >= current
    ensures change <= 0 && current >= MinLevel ==> a.level <= current
  {
    var level := Bound(current + change);
    Adjustment(level, level != current)
  }

  /** The outcome of `update_volume` / `update_mic_volume`: the exception of
      the re-read, or the new level, whether it changed, and what
      `set_volume` did with it. */
  datatype Update = Raised | Updated(level: int, changed: bool, effect: SetVolumeEffect)

  function RelativeUpdate(t: Transport, o: Outside, before: Cached, io: Channel, change: int): (u: Update)
    ensures u.Raised? <==> !Reconcile(t, o, before).ok
    ensures u.Updated? ==> MinLevel <= u.level <= MaxLevel
    ensures u.Updated? ==> u.effect.sent == Transmit(t, io, u.level)
  {
    var reread := Reconcile(t, o, before);
    if !reread.ok then Raised
    else
      var current := if io.Output? then reread.levels.vol else reread.levels.mic;
      var a := Adjust(current, change);
      Updated(a.level, a.changed, SetVolumeEffects(t, io, a.level, true, reread.levels.vol, reread.levels.mic))
  }

  /** A relative change is computed from the freshly read level of its own
      channel, is sent as that new level, and is confirmed by a "set.volume"
      dialog with that level unless the level is 0, which is a silent mute. */
  lemma RelativeUpdateSendsNewLevel(t: Transport, o: Outside, before: Cached, io: Channel, change: int)
    ensures var u := RelativeUpdate(t, o, before, io, change);
      var reread := Reconcile(t, o, before);
      (u.Raised? <==> !reread.ok) &&
      (u.Updated? ==>
        var current := if io.Output? then reread.levels.vol else reread.levels.mic;
        && MinLevel <= u.level <= MaxLevel
        && (MinLevel <= current + change <= MaxLevel ==> u.level == current + change)
        && (current + change > MaxLevel ==> u.level == MaxLevel)
        && (current + change < MinLevel ==> u.level == MinLevel)
        && (u.changed <==> u.level != current)
        && (t.ShellScript? ==> u.effect.sent == RunSetLevel(io, u.level))
        && (u.effect.spoken.None? <==> u.level == 0)
        && (u.effect.spoken.Some? ==> u.effect.spoken.value.name == SetVolumeDialog && u.effect.spoken.value.volume == u.level))
  {
  }

  /** On the bus, a relative change of the output mutes exactly when it
      reaches 0 and never unmutes; a relative change of the microphone always
      starts from 100 and sends nothing. */
  lemma BusRelativeUpdate(o: Outside, before: Cached, io: Channel, change: int)
    requires !o.reply.NoReply?
    ensures var u := RelativeUpdate(MessageBus, o, before, io, change);
      && u.Updated?
      && u.effect.sent != BusMute(false)
      && (io.Output? ==> (u.effect.sent == BusMute(true) <==> u.level == 0))
      && (io.Input? ==> u.level == Bound(100 + change) && u.effect.sent == InputNotImplemented)
  {
  }

  /** A zero change on a channel whose device level is already in range
      reports no change and resends the same level, so repeating it changes
      nothing. */
  lemma ZeroChangeIsIdle(t: Transport, o: Outside, before: Cached, io: Channel)
    requires Reconcile(t, o, before).ok
    requires var l := Reconcile(t, o, before).levels;
      MinLevel <= (if io.Output? then l.vol else l.mic) <= MaxLevel
    ensures var u := RelativeUpdate(t, o, before, io, 0);
      var l := Reconcile(t, o, before).levels;
      u.Updated? && !u.changed && u.level == (if io.Output? then l.vol else l.mic)
  {
  }

  /** Worked cases on the script path: from 60, +10 gives 70 and is
      confirmed; -100 gives 0, counts as a change and is not spoken. */
  lemma RelativeUpdateExamples(mic: int, before: Cached)
    ensures RelativeUpdate(ShellScript, Outside(Some(mic), Some(60), NoReply), before, Output, 10)
         == Updated(70, true, SetVolumeEffect(RunSetLevel(Output, 70), Some(Dialog(SetVolumeDialog, "Volume", 70))))
    ensures RelativeUpdate(ShellScript, Outside(Some(mic), Some(60), NoReply), before, Output, -100)
         == Updated(0, true, SetVolumeEffect(RunSetLevel(Output, 0), None))
  {
  }

  /** How a query on this device answers: the "volume.is" dialog, or the
      plain sentence "The volume is at N percent." */
  datatype Report = VolumeIs(kind: string, volume: int) | PlainReport(volume: int)

  /** What a local step of a handler did. */
  datatype LocalOutcome =
    | SetDone(effect: SetVolumeEffect)
    | UpdateDone(update: Update)
    | QueryDone(answered: bool, report: Option<Report>)

  class VolumeSkill {
    const server: bool
    const defaultLevel: int
    var micLevel: int
    var volLevel: int

    function Levels(): Cached
      reads this
    {
      Cached(micLevel, volLevel)
    }

    /** `__init__`: the default level is the configured default microphone
        volume, or 100; the levels are read through the script when this is
        not a server and the script exists, and are 0 when that is not so or
        the read fails. */
    constructor (isServer: bool, configuredDefault: Option<int>, scriptPresent: bool, startup: Option<Cached>)
      ensures server == isServer
      ensures defaultLevel == configuredDefault.GetOr(100)
      ensures Levels() == (if !isServer && scriptPresent && startup.Some? then startup.value else Cached(0, 0))
    {
      server := isServer;
      defaultLevel := configuredDefault.GetOr(100);
      if !isServer && scriptPresent && startup.Some? {
        micLevel := startup.value.mic;
        volLevel := startup.value.vol;
      } else {
        micLevel := 0;
        volLevel := 0;
      }
    }

    /** `_get_volume`: overwrite the cached levels with what the device
        reports; `ok` is false where the source raises. */
    method GetVolume(t: Transport, o: Outside) returns (ok: bool)
      modifies this
      ensures Refresh(ok, Levels()) == Reconcile(t, o, old(Levels()))
    {
      match t
      case ShellScript =>
        if o.inputFile.None? {
          return false;
        }
        micLevel := o.inputFile.value;
        if o.outputFile.None? {
          return false;
        }
        volLevel := o.outputFile.value;
        ok := true;
      case MessageBus =>
        micLevel := 100;
        match o.reply {
          case NoReply =>
            return false;
          case IntPercent(p) =>
            volLevel := p;
          case FloatPercent(x) =>
            volLevel := x;
          case OtherPercent =>
            volLevel := 0;
        }
        ok := true;
    }

    /** `set_volume` with the current cached levels. */
    function SetVolume(t: Transport, io: Channel, setting: int, speak: bool): (e: SetVolumeEffect)
      reads this
      ensures speak && setting == -1 ==> e.spoken.Some? && e.spoken.value.volume == (if io.Output? then volLevel else micLevel)
      ensures e.spoken.Some? && setting != -1 ==> e.spoken.value.volume == setting
      ensures e.sent == Transmit(t, io, setting)
      ensures e.spoken == Confirmation(io, setting, speak, volLevel, micLevel)
    {
      SetVolumeEffects(t, io, setting, speak, volLevel, micLevel)
    }

    /** `update_volume`: re-read, move the output level by `change`, send
        it; the cached level is left as read. */
    method UpdateVolume(t: Transport, o: Outside, change: int) returns (u: Update)
      modifies this
      ensures Levels() == Reconcile(t, o, old(Levels())).levels
      ensures u == RelativeUpdate(t, o, old(Levels()), Output, change)
    {
      var ok := GetVolume(t, o);
      if !ok {
        return Raised;
      }
      var oldLevel := volLevel;
      var newLevel := Bound(oldLevel + change);
      u := Updated(newLevel, newLevel != oldLevel, SetVolume(t, Output, newLevel, true));
    }

    /** `update_mic_volume`: the same for the microphone level. */
    method UpdateMicVolume(t: Transport, o: Outside, change: int) returns (u: Update)
      modifies this
      ensures Levels() == Reconcile(t, o, old(Levels())).levels
      ensures u == RelativeUpdate(t, o, old(Levels()), Input, change)
    {
      var ok := GetVolume(t, o);
      if !ok {
        return Raised;
      }
      var oldLevel := micLevel;
      var newLevel := Bound(oldLevel + change);
      u := Updated(newLevel, newLevel != oldLevel, SetVolume(t, Input, newLevel, true));
    }

    /** The local half of `handle_query_volume`: re-read, then report the
        microphone level, or the output level as a dialog unless the
        default-responses signal is set. */
    method QueryLevel(t: Transport, o: Outside, io: Channel, useDefaultResponses: bool)
      returns (answered: bool, report: Option<Report>)
      modifies this
      ensures Refresh(answered, Levels()) == Reconcile(t, o, old(Levels()))
      ensures report.Some? <==> answered
      ensures answered && io.Input? ==> report == Some(VolumeIs("microphone", micLevel))
      ensures answered && io.Output? ==> report == Some(if useDefaultResponses then PlainReport(volLevel) else VolumeIs("volume", volLevel))
    {
      answered := GetVolume(t, o);
      if !answered {
        return answered, None;
      }
      if io.Input? {
        report := Some(VolumeIs("microphone", micLevel));
      } else if !useDefaultResponses {
        report := Some(VolumeIs("volume", volLevel));
      } else {
        report := Some(PlainReport(volLevel));
      }
    }

    /** `handle_set_volume`: re-read the levels (the handler stops if that
        raises), resolve the spoken level against this skill's default level,
        then route it. */
    method HandleSetVolume(t: Transport, o: Outside, levelSlot: string, utterance: string, mic: bool, fromMobile: bool, requestId: string)
      returns (raised: bool, steps: seq<Step>)
      modifies this
      ensures Refresh(!raised, Levels()) == Reconcile(t, o, old(Levels()))
      ensures steps == if raised then [] else
        Route(SetLevel(SpokenLevel(levelSlot, utterance, defaultLevel)), mic, ModeOf(fromMobile, server), requestId)
    {
      var ok := GetVolume(t, o);
      if !ok {
        return true, [];
      }
      var level := SpokenLevel(levelSlot, utterance, defaultLevel);
      raised := false;
      steps := Route(SetLevel(level), mic, ModeOf(fromMobile, server), requestId);
    }

    /** Carry out the local step of a handler: a `set_volume` call, a
        relative change on the chosen channel, or a query. */
    method RunLocal(step: Step, t: Transport, o: Outside, useDefaultResponses: bool) returns (outcome: LocalOutcome)
      requires step.IsLocal()
      modifies this
      ensures step.CallSetVolume? ==>
        Levels() == old(Levels()) &&
        outcome == SetDone(SetVolumeEffects(t, step.io, step.setting, step.speak, volLevel, micLevel))
      ensures step.CallUpdate? ==>
        Levels() == Reconcile(t, o, old(Levels())).levels &&
        outcome == UpdateDone(RelativeUpdate(t, o, old(Levels()), step.io, step.change))
      ensures step.ReportLevel? ==> outcome.QueryDone? && Refresh(outcome.answered, Levels()) == Reconcile(t, o, old(Levels()))
      ensures step.ReportLevel? ==> (outcome.report.Some? <==> outcome.answered)
      ensures step.ReportLevel? && outcome.answered && step.io.Input? ==>
        outcome.report == Some(VolumeIs("microphone", micLevel))
      ensures step.ReportLevel? && outcome.answered && step.io.Output? ==>
        outcome.report == Some(if useDefaultResponses then PlainReport(volLevel) else VolumeIs("volume", volLevel))
    {
      match step
      case CallSetVolume(io, setting, speak) =>
        outcome := SetDone(SetVolume(t, io, setting, speak));
      case CallUpdate(io, change) =>
        var u;
        if io.Output? {
          u := UpdateVolume(t, o, change);
        } else {
          u := UpdateMicVolume(t, o, change);
        }
        outcome := UpdateDone(u);
      case ReportLevel(io) =>
        var answered, report := QueryLevel(t, o, io, useDefaultResponses);
        outcome := QueryDone(answered, report);
    }
  }
}
