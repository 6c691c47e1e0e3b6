# gain — a verified model of the slider mixer

gain is a hardware volume mixer. An Arduino reads six potentiometers. It
smooths each reading with an integer filter, suppresses jitter with
hysteresis and clamps values near the ends of the range. It sends a
`Slider { id, value }` record over serial whenever a channel's output
changes. A Windows host reads those records and looks the slider id up in a
TOML configuration, which it reloads when the file changes. It then sets the
volume of the target: the master endpoint, the foreground application, a
list of named applications, or every application not named anywhere in the
configuration.

This project models that core in Dafny:

- `gain_lib.dfy`: the shared `Slider` record (module `GainLib`) and the fixed-width integer types.
- `wrappers.dfy`: `Option` and `Result`.
- `arduino.dfy` (module `Arduino`): the firmware.
  - The class `Potentiometer` keeps the firmware's two fields and updates them in place. It is proved against the pure reference `Step`/`Output`.
  - `EmitChanges` and `PollOnce` are the poll loop over the `pots` and `last_output_values` arrays.
- `config.dfy` (module `Config`): the configuration.
  - Its defaults.
  - The snapshot construction (`BuildMappings`, `MappedApps`).
  - The class `LoadedConfig`, with the reload throttle (`ShouldReload`) and the reload (`ReloadIfNeeded`) as methods that change its fields.
- `volume.dfy` (module `Volume`): the session-selection rules of the `set_*` functions.
  - The audio API is replaced by the list of sessions that one enumeration returns.
  - Every volume change is recorded as a `VolumeCall`.
- `host.dfy` (module `Host`): the host program.
  - Port selection.
  - Dispatch of a slider to its target.
  - The loop that handles each read of the serial stream.

Inputs are parameters:

- **Time.** `Instant` and `SystemTime` are integers in nanoseconds.
- **Serial port.** A finite sequence of `ReadResult` values.
- **postcard/COBS codec.** The functions `encode` and `decode`.
- **Audio system.** An `AudioSystem` value: the master endpoint, the foreground pid, and the result of each session enumeration.
- **Configuration file.** Its modification time and the outcome of reading and parsing it.

## Model

| member | source | states |
|---|---|---|
| Arduino.Potentiometer.constructor | gain-arduino/src/main.rs:20-25 | A fresh potentiometer has accumulator 0 and stable value 0. |
| Arduino.Potentiometer.Update | gain-arduino/src/main.rs:27-52 | Updates the two fields exactly as the reference step `Step` does, with explicit i16 casts and a wrapping `abs`, and returns `EdgeClamp` of the stored stable value. The stored value itself is never clamped. |
| Arduino.NextAccumulator | gain-arduino/src/main.rs:29-33 | While the accumulator is 0 it is seeded with 2·raw, so the first smoothed value equals the raw reading. The accumulator is 0 afterwards exactly when it was 0 and raw is 0: once nonzero it never returns to 0. It stays within 2·0xFFFF, and within 2046 under 10-bit inputs. 2·raw and 2·raw+1 are fixed points. |
| Arduino.AsI16 | gain-arduino/src/main.rs:38 | The `as i16` cast always lands in the i16 range and is the identity on values that fit. |
| Arduino.WrappingAbs16 | gain-arduino/src/main.rs:38 | `i16::abs` with release-build wrapping: the true absolute value below 0x8000 for every i16 except -32768, which stays -32768. |
| Arduino.Diff16 | gain-arduino/src/main.rs:38 | For values below 0x8000, the wrapped i16 difference and its `abs` equal the true absolute difference. |
| Arduino.NextStable | gain-arduino/src/main.rs:38-42 | The stable value becomes either itself or the smoothed value. It is replaced exactly when the absolute difference exceeds 4. |
| Arduino.EdgeClamp | gain-arduino/src/main.rs:45-51 | The output is at most 1023 and never in 1..4 or 1019..1022. Values 5..1018 pass through unchanged. |
| Arduino.Step | gain-arduino/src/main.rs:27-43 | Keeps the accumulator bound, keeps the 10-bit bounds under 10-bit inputs, and sets the stable value either unchanged or to the new smoothed value. |
| Arduino.Outputs | gain-arduino/src/main.rs:27-52 | Repeated updates give one output per reading, each at most 1023. |
| Arduino.AccumulatorSettles | gain-arduino/src/main.rs:29-33 | Under a constant input r the accumulator reaches 2r or 2r+1 after finitely many updates. |
| Arduino.ConstantInputHoldsOutput | gain-arduino/src/main.rs:32-51 | Once the accumulator is at the fixed point of a constant 10-bit input and the stable value is 10-bit, every later output is the same. |
| Arduino.SettledIsFixed | gain-arduino/src/main.rs:29-42 | One update after the accumulator has settled on a constant 10-bit input, both fields are a fixed point of `update`. |
| Arduino.EventuallyConstant | gain-arduino/src/main.rs:27-52 | From any 10-bit state and under a constant 10-bit input, the fields, and with them the output, stop changing after finitely many updates. |
| Arduino.OutputsFollowSettle | gain-arduino/src/main.rs:27-52 | Under a constant input, the k-th returned value is the output of the fields after k + 1 updates. So with `EventuallyConstant`, every output from some index on is the same. |
| Arduino.SettleTracksAccumulator | gain-arduino/src/main.rs:29-33 | Repeated updates move the accumulator as the plain averaging recurrence does, and keep the 10-bit bounds. |
| Arduino.JitterIsSuppressed | gain-arduino/src/main.rs:29-51 | Once converged, readings inside a band within the hysteresis threshold of the stable value never change the output. Converged means the accumulator lies between twice the band's bounds (2·lo to 2·hi + 1), or is still 0. |
| Arduino.RestingBelowFiveIsSilent | gain-arduino/src/main.rs:20-51 | From the fresh state (or any state with accumulator at most 8 and stable value at most 4), readings below 5 always output 0. That equals the initial baseline 0, so no event is sent. |
| Arduino.ChangedExactly | gain-arduino/src/main.rs:95-107 | An event is built exactly for each listed channel whose output differs from its baseline. It has id = channel index and value = new output. Events come in increasing channel order. |
| Arduino.SettledBaselineIsSilent | gain-arduino/src/main.rs:100-101 | When the baselines equal the outputs, no event is built. Because the baseline is advanced before encoding, a change whose encoding failed is never sent again. |
| Arduino.Changed | gain-arduino/src/main.rs:95-107 | The events of one poll: at most one per channel. Their exact content is stated by `ChangedExactly`. |
| Arduino.SentIsTransmittedChanges | gain-arduino/src/main.rs:95-119 | The bytes the loop writes channel by channel equal the encodings of the changed-channel events, in order. Failed encodings write nothing. |
| Arduino.TransmittedSnoc | gain-arduino/src/main.rs:108-117 | Appending an event appends exactly its encoding, or nothing when encoding fails. |
| Arduino.EmitChanges | gain-arduino/src/main.rs:95-119 | Leaves every baseline equal to the new output, whether or not the encoding succeeded. The bytes written are the encodings of the changed-channel events. |
| Arduino.PollOnce | gain-arduino/src/main.rs:77-119 | Each potentiometer is updated once with its reading, and the outputs are those of `Step`. Baselines and written bytes are as in `EmitChanges`. |
| Config.WithDefaults | gain-bin/src/config.rs:8-89 | A missing `general` gives step 0.01 and no inversion. A missing `connection` gives baud 57600 with no port and no filters. Missing sliders give an empty list. A missing target gives `Apps([])`. Present values are kept. |
| Config.MappingWithDefault | gain-bin/src/config.rs:67-68 | An entry keeps its id. A missing target becomes `Apps([])`, and a present target is kept. |
| Config.BuildMappings | gain-bin/src/config.rs:129-134 | Every table entry is filed under its own id and is an entry of the slider list. |
| Config.MappingsKeys | gain-bin/src/config.rs:129-134 | The table has a key for exactly the ids present in the slider list. |
| Config.MappingsKeepLastEntry | gain-bin/src/config.rs:129-134 | For a duplicated id, the last list entry with that id is the one kept. |
| Config.AppsOfLists | gain-bin/src/config.rs:136-146 | Flattening the `Apps` lists of some ids yields exactly the apps those mappings list. |
| Config.MappedApps | gain-bin/src/config.rs:136-146 | An app is in the exclusion list exactly when some `Apps` mapping in the table lists it. |
| Config.MappedAppsOfSliders | gain-bin/src/config.rs:129-146 | In terms of the slider list: an app is excluded exactly when an `Apps` entry that survives the duplicate-id overwrite lists it. Master, current, unmapped and overwritten entries contribute nothing. |
| Config.ElapsedSecs | gain-bin/src/config.rs:161 | With saturating subtraction and whole-second truncation, fewer than 2 seconds have elapsed exactly when `now` is less than 2·10⁹ ns after the last check. |
| Config.LoadedConfig.constructor | gain-bin/src/config.rs:128-156 | Builds the snapshot: the configured `general` and `connection`, the id table, the exclusion list derived from it, the given modification time, and the current instant as the last check. |
| Config.LoadedConfig.Install | gain-bin/src/config.rs:148-155 | Overwrites every field with the snapshot `new` builds. |
| Config.LoadedConfig.NewFromFile | gain-bin/src/config.rs:108-115 | Fails exactly when the file cannot be read or parsed. Otherwise returns a valid snapshot whose modification time falls back to the wall clock. |
| Config.LoadedConfig.ShouldReload | gain-bin/src/config.rs:158-177 | Within 2 whole seconds of the last check it returns false and changes nothing. Otherwise it records `now` as the last check, and returns true exactly for a strictly newer modification time, which it then records. A metadata error returns false and keeps the old time. |
| Config.LoadedConfig.ReloadIfNeeded | gain-bin/src/config.rs:118-126 | Keeps the snapshot consistent and ends in the state `ReloadedFrom` describes. When not due, only the throttle bookkeeping changes. When due and the file does not parse, the old snapshot stays, but the new modification time is already recorded. When due and parsed, the whole snapshot is replaced. |
| Volume.Lower | gain-bin/src/volume.rs:87 | Lower-casing keeps the length and leaves no upper-case letter. Every other character is kept, and each upper-case letter becomes its lower-case partner. |
| Volume.LowerIsIdempotent | gain-bin/src/volume.rs:87 | Lower-casing an already lower-cased name changes nothing. |
| Volume.AppMatchIgnoresCase | gain-bin/src/volume.rs:87-100 | App matching is case-insensitive: names or targets that differ only in case select the same sessions. |
| Volume.Contains | gain-bin/src/volume.rs:100 | A contained string is no longer than the name, and the empty string is contained in every name. |
| Volume.ProcessName | gain-bin/src/volume.rs:179-182 | Pid 0 has no name. For any other pid the lookup result is used as it is. |
| Volume.Selects | gain-bin/src/volume.rs:64-134 | Only readable sessions are selected. The name rules skip pid 0 and sessions whose name cannot be read. The foreground rule selects exactly the sessions with the foreground pid. |
| Volume.SessionSetting | gain-bin/src/volume.rs:150-155 | The level is clamped to [0, 1], and mute is requested exactly when the clamped level is 0. |
| Volume.SessionCalls | gain-bin/src/volume.rs:90-109 | Every readable session is set exactly when the rule selects it: all matches, not only the first. Every call concerns a selected session and carries the clamped setting. Calls follow enumeration order. |
| Volume.EnumerationEffect | gain-bin/src/volume.rs:157-177 | A `set_*` call fails exactly when the enumeration cannot be set up, and then sets nothing. Otherwise its calls are those of the per-session loop. |
| Volume.SetMatchingSessions | gain-bin/src/volume.rs:91-109 | The loop over the enumeration makes exactly the calls `SessionCalls` describes, skipping the sessions that cannot be read and going on to the next. |
| Volume.SetAppVolume | gain-bin/src/volume.rs:86-114 | Sets every session whose lower-cased name contains the lower-cased target. Fails only when the enumeration cannot be set up. |
| Volume.SetUnmappedVolume | gain-bin/src/volume.rs:116-148 | Sets every named session whose lower-cased name contains none of the lower-cased excluded apps. Fails only when the enumeration cannot be set up. |
| Volume.SetCurrentAppVolume | gain-bin/src/volume.rs:49-84 | With no foreground window or pid 0 it succeeds without calls. Otherwise it sets every session with the foreground pid. |
| Volume.SetMasterVolume | gain-bin/src/volume.rs:28-47 | An unreachable endpoint is skipped successfully. A refused setting is an error. An accepted setting makes exactly one call, muting at or below 0. |
| Volume.UnmappedRuleEdgeCases | gain-bin/src/volume.rs:130-134 | An empty exclusion list selects every named session. An empty pattern excludes every session. |
| Volume.ExclusionIgnoresOrder | gain-bin/src/volume.rs:132 | Only the set of patterns matters, not their order or repetition. |
| Volume.NamedAndUnmappedAreDisjoint | gain-bin/src/volume.rs:130-134 | A session selected by a named app's rule is never selected by an unmapped rule whose list contains that app. |
| Host.FirstUsbPort | gain-bin/src/main.rs:61-63 | Finds the first USB port in enumeration order, or reports that there is none. |
| Host.ResolvePortName | gain-bin/src/main.rs:54-71 | A configured name is returned unchanged. Otherwise the result is the name of the first USB port. It is an error exactly when enumeration fails or no USB port exists. |
| Host.AppsCalls | gain-bin/src/main.rs:121-127 | The calls of an `Apps` target are exactly those of `set_app_volume` for each listed app. One app's failed enumeration does not stop the others. |
| Host.Dispatch | gain-bin/src/main.rs:116-134 | An unmapped id is a successful no-op. Master, current-app and unmapped targets can fail, but an `Apps` target always returns `Ok`. An `Unmapped` target sets only sessions selected by the exclusion rule built from the configuration-wide app list. |
| Host.ManageSlider | gain-bin/src/main.rs:108-135 | The match over the target, including the loop over an `Apps` list, does exactly what `Dispatch` describes. |
| Host.UnmappedSparesMappedApps | gain-bin/src/main.rs:116-120 | With a snapshot built from a slider list, an `Unmapped` slider never sets a session that a surviving `Apps` entry's app would select. |
| Host.StripDelimiter | gain-bin/src/main.rs:88-90 | At most one trailing 0x00 is removed, and one always is when present. |
| Host.FirstFatal | gain-bin/src/main.rs:101-103 | Finds the first read that is neither data, empty nor a timeout. |
| Host.DispatchedCases | gain-bin/src/main.rs:83-99 | A read dispatches at most one slider. It dispatches one exactly when the read is non-empty and its frame decodes, and that slider is the decoding. |
| Host.DecodedExactly | gain-bin/src/main.rs:79-105 | A run of reads dispatches at most one slider per read. A slider is dispatched exactly when some read of the run decodes to it. |
| Host.DecodedAppend | gain-bin/src/main.rs:79-105 | The sliders decoded from two consecutive runs of reads are those of the first run followed by those of the second. |
| Host.IdleReadsAreInvisible | gain-bin/src/main.rs:101-102 | Removing an empty read or a timeout from the stream changes nothing that is dispatched. |
| Host.HandleRead | gain-bin/src/main.rs:80-99 | An empty read changes nothing and dispatches nothing. A non-empty read first leaves the configuration exactly as `reload_if_needed` does. It then drops one trailing 0x00, decodes, and dispatches exactly the decoded slider. The effect is `Dispatch` of that slider against the snapshot in force after the reload. |
| Host.ReadCycle | gain-bin/src/main.rs:80-102 | One pass of the loop for a result that does not end it. A timeout or an empty read changes nothing and has no effect. A non-empty read leaves the configuration as `reload_if_needed` does (`ReloadedFrom`). The dispatched slider is the decoding of the stripped frame, and its effect is `Dispatch` against the snapshot in force after that reload. |
| Host.ProcessSerialStream | gain-bin/src/main.rs:73-106 | The stream ends exactly at the first I/O error other than a timeout, and otherwise runs through every read. Decode failures and failed dispatches do not end it. The sliders dispatched are exactly those decoded from the reads before that point, in order, each with its effect. |

## Left out

- Volume quantization in `manage_slider` (gain-bin/src/main.rs:109-114): f64 division, `round` and `clamp` are not modelled. The level is an opaque `real` computed by a `level` parameter from the value and the volume step.
- The postcard/COBS encoder and decoder are not part of this model. They are the parameters `encode` and `decode`.
- Hardware and operating-system effects are not modelled: ADC reads, `delay_ms`, serial writes, port opening, file reads, TOML parsing, COM initialisation and process-name lookup. Their outcomes are inputs.
- Lower-casing covers ASCII letters only; Unicode `to_lowercase` is not modelled.
- The host's main loop reads `config.config.comm_port`, `baud_rate` and `volume_step` (gain-bin/src/main.rs:29, 35, 109), but `LoadedConfig` has no `config` field. The model follows config.rs, where these live in `connection` and `general`.
- `invert_direction` is never read, so it has no behaviour to model.
- The outer reconnect loop (gain-bin/src/main.rs:24-51) and its 5-second sleep are not modelled. The stream model runs over a finite sequence of reads and reports how it ended.
- Host.ProcessSerialStream: the effects list states only one effect per dispatched slider. It does not say which snapshot each dispatch used, since a reload may replace the snapshot between reads. Its contract does not state the configuration the loop leaves behind, nor that each non-empty read was offered to `reload_if_needed`. Only `Host.ReadCycle` states those, one read at a time.
- Config.MappedApps: only membership is specified. The source's order is that of a hash map's values, and the model lists apps by ascending id.
- Config.LoadedConfig.ReloadIfNeeded: `new` reads the clock again. The model uses the same instant `now` for the throttle check and the new snapshot.
- Arduino.Potentiometer.Update: the i16 casts and `abs` wrap as in a release build. A debug build would panic on overflow, and that is not modelled.
- Volume.SessionCalls: a selected session whose volume interface cannot be obtained, or whose `SetMute` or level call fails (gain-bin/src/volume.rs:71-72, 101-102, 135-136, 152-153), is still recorded as set. Only failures before selection (an unreadable session, a missing name) are modelled as dropped.
- Volume.SetMasterVolume: the endpoint either accepts both calls or refuses. A `SetMute` that succeeds followed by a failing level call is not modelled separately.
- Each `set_*` call sees its own enumeration of sessions, given as `AudioSystem.enumerate(k)` for the k-th call of one dispatch. Sessions are snapshots, not live objects.
- Bytes that a timed-out read may already have appended are dropped along with the buffer, as the next cycle clears it.
