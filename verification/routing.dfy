/** The intent handlers' choice between answering from the mobile app,
    forwarding to the server, or acting on this device. */
module Routing {
  import opened Dispatch

  /** Where a request is served: a request from the mobile app goes back to
      the app, a server instance forwards to its server, anything else acts
      on the local device. */
  datatype Mode = Mobile | Server | Local

  function ModeOf(fromMobile: bool, isServer: bool): (m: Mode)
    ensures m == Mobile <==> fromMobile
    ensures m == Server <==> !fromMobile && isServer
    ensures m == Local <==> !fromMobile && !isServer
  {
    if fromMobile then Mobile else if isServer then Server else Local
  }

  /** The recognised intents; `SetLevel` carries the already resolved level
      and `Mute` whether the "muting" announcement is wanted. */
  datatype Intent = SetLevel(level: int) | Query | Increase | Decrease | Mute(speakMessage: bool) | Unmute

  datatype Payload = Number(n: int) | Word(w: string) | Flag(b: bool)

  /** Who a step addresses: this device, the mobile app, the server, or
      nobody beyond the speaker. */
  datatype Target = Device | App | ServerSide | Speaker

  /** One thing a handler does, in order. The last three act on this device
      and are carried out by `Skill.VolumeSkill`. */
  datatype Step =
    | Say(text: string)                                  // speak
    | SayDialog(dialog: string, kind: string)            // speak_dialog
    | WaitWhileSpeaking
    | ToMobile(intentName: string, key: string, value: Payload)   // mobile_skill_intent
    | ToServer(target: string, value: Payload, requestId: string) // "audio control" to the server
    | PlayNotification                                   // play_wav of the configured notify sound
    | CallSetVolume(io: Channel, setting: int, speak: bool)
    | CallUpdate(io: Channel, change: int)
    | ReportLevel(io: Channel)
  {
    function Target(): (t: Target) {
      if CallSetVolume? || CallUpdate? || ReportLevel? then Device
      else if ToMobile? then App
      else if ToServer? then ServerSide
      else Speaker
    }

    predicate IsLocal() {
      Target() == Device
    }
  }

  /** The steps that address `target`, in order. */
  function StepsTo(steps: seq<Step>, target: Target): (r: seq<Step>)
  {
    if steps == [] then []
    else (if steps[0].Target() == target then [steps[0]] else []) + StepsTo(steps[1..], target)
  }

  function ChannelOf(mic: bool): (io: Channel) {
    if mic then Input else Output
  }

  /** The one local action of each intent: setting the level, reporting it,
      moving it by 10 either way, muting with 0 and unmuting with -1. */
  function LocalCall(intent: Intent, mic: bool): (s: Step)
  {
    var io := ChannelOf(mic);
    match intent
    case SetLevel(level) => CallSetVolume(io, level, true)
    case Query => ReportLevel(io)
    case Increase => CallUpdate(io, 10)
    case Decrease => CallUpdate(io, -10)
    case Mute(_) => CallSetVolume(io, 0, true)
    case Unmute => CallSetVolume(io, -1, true)
  }

  /** What each intent forwards to the server: the resolved level or the
      action's name for the volume, and on or off for the microphone and
      for speech. */
  function ServerCall(intent: Intent, mic: bool, requestId: string): (s: Step)
  {
    match intent
    case SetLevel(level) => ToServer("volume", Number(level), requestId)
    case Query => ToServer("volume", Word("query"), requestId)
    case Increase => ToServer("volume", Word("increase"), requestId)
    case Decrease => ToServer("volume", Word("decrease"), requestId)
    case Mute(_) => ToServer(if mic then "microphone" else "speech", Flag(false), requestId)
    case Unmute => ToServer(if mic then "microphone" else "speech", Flag(true), requestId)
  }

  /** What each intent forwards to the mobile app; muting the output has no
      such message. */
  function MobileCall(intent: Intent, mic: bool): (r: seq<Step>)
  {
    match intent
    case SetLevel(level) => [ToMobile("volume", "level", Number(level))]
    case Query => [ToMobile("volume", "query", Word(""))]
    case Increase => [ToMobile("volume", "level", Word("increase"))]
    case Decrease => [ToMobile("volume", "level", Word("decrease"))]
    case Mute(_) => if mic then [ToMobile("volume", "state", Word("mute"))] else []
    case Unmute => [if mic then ToMobile("microphone", "state", Word("unmute")) else ToMobile("volume", "level", Word("unmute"))]
  }

  /** The handlers `handle_set_volume`, `handle_query_volume`,
      `handle_increase_volume`, `handle_decrease_volume`,
      `handle_mute_volume` and `handle_unmute_volume`, after the level (for
      SetLevel) has been resolved. */
  function Route(intent: Intent, mic: bool, mode: Mode, requestId: string): (r: seq<Step>)
    ensures forall i :: 0 <= i < |r| ==> (r[i].ToMobile? ==> mode == Mobile) && (r[i].ToServer? ==> mode == Server)
    ensures forall i :: 0 <= i < |r| && r[i].ToServer? ==> r[i].requestId == requestId
  {
    var io := ChannelOf(mic);
    match intent
    case SetLevel(level) =>
      if mode.Mobile? then [ToMobile("volume", "level", Number(level))]
      else if mode.Server? then [ToServer("volume", Number(level), requestId)]
      else [CallSetVolume(io, level, true)]
    case Query =>
      if mode.Mobile? then [ToMobile("volume", "query", Word(""))]
      else if mode.Server? then [ToServer("volume", Word("query"), requestId)]
      else [ReportLevel(io)]
    case Increase =>
      if mode.Mobile? then [Say("Increasing volume."), ToMobile("volume", "level", Word("increase"))]
      else if mode.Server? then [ToServer("volume", Word("increase"), requestId)]
      else [CallUpdate(io, 10)]
    case Decrease =>
      if mode.Mobile? then [Say("Decreasing volume."), ToMobile("volume", "level", Word("decrease"))]
      else if mode.Server? then [ToServer("volume", Word("decrease"), requestId)]
      else [CallUpdate(io, -10)]
    case Mute(speakMessage) =>
      if mic then
        var announce := SayDialog("mute.volume", "Microphone");
        if mode.Mobile? then [ToMobile("volume", "state", Word("mute")), announce]
        else if mode.Server? then [ToServer("microphone", Flag(false), requestId), announce]
        else [CallSetVolume(Input, 0, true), announce]
      else
        var announce := if speakMessage then [SayDialog("mute.volume", "Audio"), WaitWhileSpeaking] else [];
        if mode.Mobile? then announce
        else if mode.Server? then announce + [ToServer("speech", Flag(false), requestId)]
        else announce + [CallSetVolume(Output, 0, true)]
    case Unmute =>
      if mic then
        if mode.Mobile? then [ToMobile("microphone", "state", Word("unmute"))]
        else if mode.Server? then [ToServer("microphone", Flag(true), requestId), Say("Microphone listening.")]
        else [CallSetVolume(Input, -1, true)]
      else
        if mode.Mobile? then [Say("Unmuting volume."), ToMobile("volume", "level", Word("unmute"))]
        else if mode.Server? then [Say("Audio restored."), ToServer("speech", Flag(true), requestId)]
        else [CallSetVolume(Output, -1, true)]
  }

  lemma {:induction false} StepsToAppend(a: seq<Step>, b: seq<Step>, target: Target)
    ensures StepsTo(a + b, target) == StepsTo(a, target) + StepsTo(b, target)
  {
    if a != [] {
      StepsToAppend(a[1..], b, target);
      assert (a + b)[1..] == a[1..] + b;
    } else {
      assert a + b == b;
    }
  }

  /** A step, kept when it addresses `target`. */
  function Keep(step: Step, target: Target): (r: seq<Step>) {
    if step.Target() == target then [step] else []
  }

  /** The steps of a handler, which has at most three, split by whom they
      address. */
  lemma StepsOfShort(r: seq<Step>, target: Target)
    requires |r| <= 3
    ensures |r| == 0 ==> StepsTo(r, target) == []
    ensures |r| == 1 ==> StepsTo(r, target) == Keep(r[0], target)
    ensures |r| == 2 ==> StepsTo(r, target) == Keep(r[0], target) + Keep(r[1], target)
    ensures |r| == 3 ==> StepsTo(r, target) == Keep(r[0], target) + Keep(r[1], target) + Keep(r[2], target)
  {
    if |r| > 0 {
      StepsToAppend([r[0]], r[1..], target);
      assert r == [r[0]] + r[1..];
      if |r| > 1 {
        StepsToAppend([r[1]], r[2..], target);
        assert r[1..] == [r[1]] + r[2..];
        if |r| > 2 {
          StepsToAppend([r[2]], r[3..], target);
          assert r[2..] == [r[2]] + r[3..];
        }
      }
    }
  }

  /** Every handler acts on this device exactly once in local mode, through
      the call `LocalCall` names, and never acts on it otherwise. */
  lemma RouteActsLocallyOnce(intent: Intent, mic: bool, mode: Mode, requestId: string)
    ensures mode == Local ==> StepsTo(Route(intent, mic, mode, requestId), Device) == [LocalCall(intent, mic)]
    ensures mode != Local ==> StepsTo(Route(intent, mic, mode, requestId), Device) == []
  {
    StepsOfShort(Route(intent, mic, mode, requestId), Device);
  }

  /** A server instance forwards every request to its server exactly once,
      with the resolved level or the action; in any other mode nothing goes
      to the server. */
  lemma RouteForwardsToServerOnce(intent: Intent, mic: bool, mode: Mode, requestId: string)
    ensures mode == Server ==> StepsTo(Route(intent, mic, mode, requestId), ServerSide) == [ServerCall(intent, mic, requestId)]
    ensures mode != Server ==> StepsTo(Route(intent, mic, mode, requestId), ServerSide) == []
  {
    var r := Route(intent, mic, mode, requestId);
    StepsOfShort(r, ServerSide);
    match intent
    case Mute(_) =>
    case Unmute =>
    case _ =>
  }

  /** A mobile request sends the app exactly the message `MobileCall` names
      (none for muting the output, which only speaks); in any other mode
      nothing goes to the app. */
  lemma RouteForwardsToAppOnce(intent: Intent, mic: bool, mode: Mode, requestId: string)
    ensures mode == Mobile ==> StepsTo(Route(intent, mic, mode, requestId), App) == MobileCall(intent, mic)
    ensures mode != Mobile ==> StepsTo(Route(intent, mic, mode, requestId), App) == []
  {
    var r := Route(intent, mic, mode, requestId);
    StepsOfShort(r, App);
    match intent
    case Mute(_) =>
    case Unmute =>
    case _ =>
  }

  /** The resolved level of a "set volume" request is what reaches the
      server or the app. */
  lemma SetLevelForwardsLevel(level: int, mic: bool, requestId: string)
    ensures ToServer("volume", Number(level), requestId) in Route(SetLevel(level), mic, Server, requestId)
    ensures ToMobile("volume", "level", Number(level)) in Route(SetLevel(level), mic, Mobile, requestId)
  {
  }

  /** Volume up and down on this device move the level by +10 and -10 on
      the chosen channel, and do nothing else. */
  lemma RelativeSteps(mic: bool, requestId: string)
    ensures Route(Increase, mic, Local, requestId) == [CallUpdate(ChannelOf(mic), 10)]
    ensures Route(Decrease, mic, Local, requestId) == [CallUpdate(ChannelOf(mic), -10)]
  {
  }

  /** `_unmute_on_loaded`: play the notification sound when one is
      configured, then restore the microphone without speaking. */
  function OnLoaded(notifyFound: bool): (r: seq<Step>)
    ensures |r| == (if notifyFound then 2 else 1)
    ensures r[|r| - 1] == CallSetVolume(Input, -1, false)
    ensures PlayNotification in r <==> notifyFound
    ensures StepsTo(r, Device) == [CallSetVolume(Input, -1, false)]
  {
    var r := (if notifyFound then [PlayNotification] else []) + [CallSetVolume(Input, -1, false)];
    StepsOfShort(r, Device);
    r
  }
}
