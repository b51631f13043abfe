# Volume skill: a Dafny model

This project models the level-handling core of the Neon `VolumeSkill`. The
skill is a voice-assistant plugin. It turns spoken volume commands into a
level between 0 and 100. It then sends that level to one of three places:
the device's `functions.sh` script, the message bus, or a mobile app or
server counterpart. The model covers:

- the clamp `bound_level`;
- the spoken-level resolver `extract_spoken_volume_level`: the volume words,
  the rule that a bare number up to 10 counts in tenths, the fallback to the
  skill's default level, and a model of Python's `int()`;
- `set_volume`: the choice of transport, what the script or the bus is sent,
  and which confirmation dialog is spoken;
- the two cached levels of the skill object: their start-up values, how
  `_get_volume` overwrites them, and the relative changes `update_volume` and
  `update_mic_volume`;
- the routing in the intent handlers, where a mobile request comes before a
  server instance, which comes before acting on the device. It also covers the
  start-up unmute hook.

Modules, one per concern:

- `Wrappers` (wrappers.dfy): `Option`.
- `Numerals` (numerals.dfy): integer literals, `int()` and `str()`, and the
  proof that `int(str(n)) == n`.
- `Resolver` (resolver.dfy): `Bound`, `VolumeWords`, the substring test
  behind `"percent" in utterance`, and `SpokenLevel`.
- `Dispatch` (dispatch.dfy): channels, transports, `Transmit` and
  `Confirmation`, the two halves of `set_volume`.
- `Routing` (routing.dfy): deployment mode, intents, and each handler as a
  sequence of steps.
- `Skill` (skill.dfy): the device's report as a value, the pure
  specification of re-reading and of relative updates, and the class
  `VolumeSkill` with fields `micLevel` and `volLevel`. Its methods are proved
  against those specifications.

The device is not part of the model. Each re-read of the levels takes what
the device reports as a parameter of type `Outside`: the two level files and
the bus reply. The same holds for whether the request came from the mobile
app, which transport applies, and whether the default-responses signal is
set.

Some behaviour of the code is easy to misread; the model follows the code:

- `extract_spoken_volume_level` takes a `default` parameter, but an
  unparsable level falls back to the field `default_level`, not to that
  argument (`__init__.py:473`). The argument only stands in for a missing
  `Level` slot (`__init__.py:472`). The field is the configured
  `defaultMicVolume`, or 100 (`__init__.py:81-86`).
- The cached levels start at the values in the level files, or at 0. They do
  not start at the default level (`__init__.py:94-106`).
- `handle_set_volume` re-reads the device levels before routing, so the
  cached levels are refreshed in mobile and server mode as well
  (`__init__.py:209`).
- When the bus does not answer, `_get_volume` has already set the
  microphone level to 100 before it raises (`__init__.py:147-150`).

## Model

| member | source | states |
|---|---|---|
| `Numerals.ParseInt` | __init__.py:477-478 | `int(level_str)` succeeds exactly on an integer literal, meaning an optional sign followed by decimal digits. Otherwise it is the ValueError path. |
| `Numerals.ParseDecimalString` | __init__.py:478 | Parsing the decimal rendering of any integer gives that integer back. The rendering starts with a digit or `-`. |
| `Resolver.Bound` | __init__.py:447-453 | The result lies in [0, 100]. An in-range input is returned unchanged. Inputs above 100 give 100 and inputs below 0 give 0. |
| `Resolver.BoundIsNearest` | __init__.py:447-453 | The clamped level is at least as close to the input as any level in [0, 100]. |
| `Resolver.BoundIdempotent` | __init__.py:447-453 | Clamping an already clamped level changes nothing. |
| `Resolver.HasSubstringIffOccurs` | __init__.py:479 | The recursive substring test holds exactly when the word occurs at some index of the utterance, as Python's `in` on strings does. |
| `Resolver.SpokenLevel` | __init__.py:471-485 | The resolved level always lies in [0, 100], whatever the slot, utterance and default. |
| `Resolver.WordLevels` | __init__.py:62-66 | "loud", "normal" and "quiet" resolve to exactly 90, 60 and 30 whatever the utterance. No ×10 scaling applies. |
| `Resolver.ParsedLevel` | __init__.py:477-481 | Any slot that parses as an integer n, in any spelling such as "+5" or "05", resolves to `Bound(10*n)` when n ≤ 10 and the utterance does not contain "percent", and to `Bound(n)` otherwise. No integer literal is a volume word. |
| `Resolver.NumericLevel` | __init__.py:477-481 | A spoken number n resolves to `Bound(10*n)` when n ≤ 10 and the utterance does not contain "percent". In every other case it resolves to `Bound(n)`. |
| `Resolver.UnparsableLevel` | __init__.py:473-484 | A slot that is neither a volume word nor an integer literal resolves to the clamped default level of the skill. |
| `Resolver.BareFiveExample` | __init__.py:479-481 | A bare "5" resolves to 50. |
| `Resolver.FivePercentExample` | __init__.py:479 | "5" in an utterance that says "percent" resolves to 5. |
| `Resolver.FallbackExamples` | __init__.py:477-484 | "15" stays 15. "xyz" resolves to the default level, 42 here. |
| `Dispatch.TransportFor` | __init__.py:167-169 | The script is used exactly when the script file exists and the device type is unset or one of generic, neonK, neonX, neonAlpha, neonU. |
| `Dispatch.Transmit` | __init__.py:167-181 | The script path passes any setting for either channel. On the bus, the input channel only logs a warning. The output channel sends mute=true exactly for 0 and mute=false exactly for -1. Any other setting is sent as a fraction whose hundredfold is the setting. |
| `Dispatch.Confirmation` | __init__.py:182-205 | No dialog is spoken exactly when speaking is off or the setting is 0. "reset.volume" is spoken exactly for -1, and it carries the cached level of the channel. Any other setting speaks "set.volume" with the setting. The kind is "Volume" for the output, and "Microphone level" (reset) or "Microphone Level" (set) for the microphone. |
| `Dispatch.SetVolumeEffects` | __init__.py:160-205 | The two halves of `set_volume` agree: a bus mute is never confirmed, a bus unmute is confirmed only as "reset.volume", a bus set confirms the level whose hundredth it sent, and the script is sent the level it confirms. |
| `Dispatch.SpokenLevelIsNeverUnmute` | __init__.py:182-205 | A spoken level never takes the unmute path of `set_volume`. When it is confirmed, the dialog is "set.volume" with that level. The bus is never told to unmute. |
| `Dispatch.ConfirmationMatchesBusLevel` | __init__.py:176-205 | For a level in 1..100 the spoken dialog is the same on both transports. On the bus, the output channel sends exactly the level it confirms. |
| `Routing.ModeOf` | __init__.py:212-220 | A mobile request is served by the app whatever the instance is. A server instance serves everything else. The device acts only when neither applies. |
| `Routing.Route` | __init__.py:208-383 | Only a mobile request sends to the app. Only server mode sends to the server, and always with the request's id. |
| `Routing.RouteActsLocallyOnce` | __init__.py:208-383 | In local mode every handler acts on the device exactly once: set, report, +10, -10, mute with 0, or unmute with -1, on the channel the Mic slot selects. In mobile and server mode no handler acts on the device. |
| `Routing.RouteForwardsToServerOnce` | __init__.py:208-383 | A server instance forwards every request to its server exactly once. "set volume" sends the resolved level. Up, down and query send the action's name. Mute and unmute send off or on, for "microphone" or "speech". In any other mode nothing reaches the server. |
| `Routing.RouteForwardsToAppOnce` | __init__.py:208-383 | A mobile request sends the app exactly one message: the resolved level, the query, increase, decrease, mute or unmute. The exception is muting the output, which only speaks and sends nothing. In any other mode nothing reaches the app. |
| `Routing.SetLevelForwardsLevel` | __init__.py:212-217 | The resolved level of a "set volume" request is what reaches the server or the app. |
| `Routing.RelativeSteps` | __init__.py:253-291 | Volume up on the device is a relative change of +10 and volume down one of -10. Neither handler does anything else locally. |
| `Routing.OnLoaded` | __init__.py:125-131 | At start-up the notification sound plays exactly when one is found. There are two steps with the sound and one without it. The only local action is the last step, which restores the microphone without speaking. |
| `Skill.Reconcile` | __init__.py:134-158 | The script path succeeds exactly when both level files hold integers, and then takes their values. If the input file fails, nothing changes. The microphone level from the input file is kept even when the output file then fails. The bus path always sets the microphone to 100. It fails exactly when there is no reply. It takes an integer percentage, or the rounded float percentage, as the output level, or 0 for a reply that is not a number. A failure never changes the output level. |
| `Skill.Adjust` | __init__.py:455-461 | The new level is `bound(old + change)`: old + change when that is in [0, 100], 100 above, 0 below. `changed` holds exactly when the new level differs from the old one. A non-negative change never lowers an in-range level, and a non-positive change never raises one. |
| `Skill.RelativeUpdate` | __init__.py:455-469 | An update raises exactly when the re-read fails. Otherwise the new level lies in [0, 100] and is what the transport is sent for its channel. |
| `Skill.RelativeUpdateSendsNewLevel` | __init__.py:455-469 | An update raises exactly when the re-read fails. Otherwise the new level is `bound(current + change)` for the freshly read level of its own channel (current + change in range, 100 above, 0 below), `changed` holds exactly when it differs from that level, and the script is sent that level. The confirmation is "set.volume" with the new level. A result of 0 is a mute and is not spoken. |
| `Skill.BusRelativeUpdate` | __init__.py:146-181 | On the bus, a relative change never unmutes. On the output channel it mutes exactly when it reaches 0. On the microphone it starts from 100 and sends nothing. |
| `Skill.ZeroChangeIsIdle` | __init__.py:455-461 | A zero change on a channel whose device level is in range reports no change and resends the same level. |
| `Skill.RelativeUpdateExamples` | __init__.py:455-461 | On the script path, +10 from 60 gives 70 and is confirmed. -100 from 60 gives 0, counts as a change, and is not spoken. |
| `Skill.VolumeSkill.constructor` | __init__.py:68-106 | The default level is the configured default microphone volume, or 100. The cached levels are those read through the script when this is not a server and the script exists. When that is not so, or the read fails, they are 0. |
| `Skill.VolumeSkill.GetVolume` | __init__.py:134-158 | The new cached levels and the success flag are exactly those `Reconcile` gives for the old levels. |
| `Skill.VolumeSkill.SetVolume` | __init__.py:160-205 | `set_volume` on this object: the transport is sent the setting. The spoken dialog is exactly the confirmation of `Dispatch.Confirmation` for the cached levels. So nothing is spoken for a mute (0) or when speaking is off. An unmute (-1) speaks "reset.volume" with the cached level of its channel. Any other setting speaks "set.volume" with the setting. The kind is "Volume" or the microphone kind. |
| `Skill.VolumeSkill.UpdateVolume` | __init__.py:455-461 | The cached levels end as re-read; the method does not store the new level itself. The result is the relative update of the output channel. |
| `Skill.VolumeSkill.UpdateMicVolume` | __init__.py:463-469 | The same as `UpdateVolume`, for the microphone channel. |
| `Skill.VolumeSkill.QueryLevel` | __init__.py:241-251 | The query re-reads the levels and answers exactly when the re-read succeeds. The microphone is reported as "volume.is" with kind microphone. The output is reported as "volume.is" with kind volume, or as the plain sentence when the default-responses signal is set. |
| `Skill.VolumeSkill.HandleSetVolume` | __init__.py:207-225 | The handler re-reads first and stops if that raises. Otherwise it routes the level resolved against this skill's default level, in the mode given by the request origin and the server flag. |
| `Skill.VolumeSkill.RunLocal` | __init__.py:221-383 | Carries out the local step of any handler (set, query, up, down, mute, unmute). A `set_volume` step leaves the cached levels alone and has the effects `set_volume` chooses. A relative step is the relative update of its channel. A query step re-reads the levels and answers exactly when that succeeds, with the microphone dialog, the volume dialog or the plain sentence. |

## Left out

- The shell script and the level files (`subprocess.call`, `subprocess.Popen`, `open(...).read()`) are I/O. A script call is the tag `RunSetLevel`. A read is a value supplied from outside (`Outside`).
- The bus request `wait_for_response` and its timeout are I/O. The reply is the value `Reply`, and a missing reply is `NoReply`.
- `Skill.Reconcile`: a float reply is converted with `round(100 * vol_percent)`, which is floating point. The model receives the already rounded value (`FloatPercent`) and does not model the rounding.
- `Dispatch.Transmit`: the bus payload `setting/100` is a Python float. The model carries it as the exact real number.
- Each re-read is independent of the others. The model does not capture that a level sent by `set_volume` is what the device reports next, or that an unmute restores any particular level.
- `Numerals.ParseInt`: accepts only an optional sign followed by ASCII digits. Python's `int()` also strips surrounding whitespace, allows underscores between digits, and accepts non-ASCII decimal digits.
- A missing `Level` slot or `utterance` makes the source fail with a TypeError. Neither is modelled: the intent requires the slot, and the host always supplies the utterance.
- A missing `klat_data` request id in server mode, which raises a KeyError in the source, is not modelled.
- Dialog text rendering and the host-framework calls (`speak`, `speak_dialog`, `wait_while_speaking`, `play_wav`, `mobile_skill_intent`, `socket_emit_to_server`) are tags in `Routing.Step` and `Dispatch.Dialog` only. Whether the volume in a "reset.volume" dialog is passed as a string or as an integer is a rendering detail and is not distinguished.
- `request_from_mobile`, `check_for_signal`, the device type and the presence of `functions.sh` are supplied as parameters. Their sources are not part of this model.
- Intent registration in `initialize`, the `bus.once("mycroft.ready")` subscription and `stop` (a no-op) are framework glue.
- Config and YAML handling: the settings `default_level`, `min_volume` and `max_volume` (83 on a Mark 1), and the fields `min_volume`, `max_volume`, `vol_before_mute` and `_mixer`, are written but never read by the core. Writing a missing `defaultMicVolume` back to the YAML file is I/O.
- The commented-out code, including `volume_to_level`, `__level_to_volume` and the old handler bodies, is dead.
- The source is single-threaded and its handlers run one at a time. The model has no concurrency.
