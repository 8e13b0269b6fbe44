# Telemetry metadata of the navigation SDK, modelled in Dafny

The navigation SDK attaches a snapshot of device and session metadata to every
telemetry event. `EventsMetadataProvider` computes it. This project models the
parts of that computation that carry logic:

- **Audio-route classification** (`AudioRoute`, `audio_route.dfy`). The
  `telemetryAudioType` extension of the audio session applies a priority rule
  to the output ports of the current route. A Bluetooth port (A2DP, HFP, LE)
  gives `bluetooth`. Otherwise a headphone-class port (headphones, AirPlay,
  HDMI, line out, car audio, USB audio) gives `headphones`. Otherwise the
  built-in speaker or receiver gives `speaker`. Anything else, or no output at
  all, gives `unknown`. The model proves that the result is the
  highest-priority category of any single output. Two consequences follow:
  joining two routes yields the preferred of their two categories, and the
  order of the outputs does not matter.
- **Battery derivations** (`Device`, `device.dfy`). "Plugged in" holds
  exactly when the battery is charging or full. The battery level is -1 for a
  negative reading and otherwise the reading times 100 truncated to a whole
  number. The reading is a `real`.
- **Time-split accounting** (`EventsMetadata`, `events_metadata.dfy`). The
  navigation session hands over a `SessionState`. It holds closed totals for
  foreground, background, portrait and landscape time, plus the instant at
  which each current interval began. `updateTimeState` adds the still-open
  interval to the bucket of the current orientation and to the bucket of the
  current activity state. It then derives whole-number percentages. The
  method is `EventsMetadataProvider.UpdateTimeState` on a class holding the
  four fields the source keeps. It is proved against the function `SplitAt`,
  and the lemmas state what `SplitAt` promises.

Instants and durations are whole milliseconds. The open interval is the
absolute distance between its start and `now`, as the source takes `abs` of
`timeIntervalSinceNow`. The percentage is `(part * 100) / (part + other)`
with integer division. This matches the source's truncating `Int(...)` up to
the floating-point rounding listed under "Left out". It is 100 when both
totals are zero.

The source computes `percentTimeInForeground` (line 77) from the portrait and
landscape totals, not from the foreground and background totals. The model
keeps this as written. `SplitAt` and `UpdateTimeState` state that both
percentages are equal. `ForegroundPercentIgnoresActivity` shows that the
foreground percentage does not depend on the application state. A concrete
session lemma shows a background-only session reporting 100 percent
foreground.

Three further points about the code:

- `Int(...)` truncates both percentages (lines 68 and 77); it does not round.
- The battery level is not clamped (line 40), so the model bounds it to
  [0,100] only for readings in [0,1].
- `updateTimeState` assigns the provider's fields (lines 68-77); it does not
  return the values.

`updateTimeState` is `private`, and nothing in `EventsMetadataProvider.swift`
calls it. The initializer also ignores its `sessionState` argument (line 13).
So, as written, `provideEventsMetadata` always reports the initial 0 for both
percentages. That is the state the constructor establishes.

## Model

| member | source | states |
|---|---|---|
| AudioRoute.ContainsWhere | Sources/MapboxCoreNavigation/EventsMetadataProvider.swift:83 | the scan over the outputs is true exactly when some output's port type is one of the given kinds |
| AudioRoute.TelemetryAudioType | Sources/MapboxCoreNavigation/EventsMetadataProvider.swift:82-93 | the route's category ranks at least as high as every output's own category, and is the category of some output unless it is unknown |
| AudioRoute.BluetoothWins | Sources/MapboxCoreNavigation/EventsMetadataProvider.swift:83-85 | the route is Bluetooth iff some output is A2DP, HFP or LE |
| AudioRoute.HeadphonesWhenNoBluetooth | Sources/MapboxCoreNavigation/EventsMetadataProvider.swift:86-88 | the route is headphones iff no output is Bluetooth and some output is headphones, AirPlay, HDMI, line out, car audio or USB |
| AudioRoute.SpeakerWhenNothingBetter | Sources/MapboxCoreNavigation/EventsMetadataProvider.swift:89-91 | the route is speaker iff no output is Bluetooth or headphone-class and some output is the built-in speaker or receiver |
| AudioRoute.UnknownWhenUnmatched | Sources/MapboxCoreNavigation/EventsMetadataProvider.swift:89-92 | the route is unknown iff no output matches any of the three lists, in particular for an empty route |
| AudioRoute.RouteOfJoin | Sources/MapboxCoreNavigation/EventsMetadataProvider.swift:82-93 | the category of two routes joined is the higher-priority of their two categories |
| AudioRoute.BluetoothAmongOthers | Sources/MapboxCoreNavigation/EventsMetadataProvider.swift:83-85 | a Bluetooth output keeps the route Bluetooth whatever other outputs come before or after it |
| AudioRoute.OutputOrderIrrelevant | Sources/MapboxCoreNavigation/EventsMetadataProvider.swift:82-93 | two routes with the same outputs in any order get the same category |
| Device.OrientationClasses | Sources/MapboxCoreNavigation/EventsMetadataProvider.swift:63-66 | no orientation is both portrait and landscape; unknown, face up and face down are neither |
| Device.BatteryPluggedIn | Sources/MapboxCoreNavigation/EventsMetadataProvider.swift:39 | plugged in iff the battery state is charging or full, and not plugged in iff it is unknown or unplugged |
| Device.BatteryLevel | Sources/MapboxCoreNavigation/EventsMetadataProvider.swift:40 | -1 iff the reading is negative; otherwise the largest whole number not above reading times 100, so in [0,100] for a reading in [0,1] |
| Device.BatteryLevelMonotone | Sources/MapboxCoreNavigation/EventsMetadataProvider.swift:40 | a higher non-negative reading never gives a lower battery level |
| EventsMetadata.Elapsed | Sources/MapboxCoreNavigation/EventsMetadataProvider.swift:64 | the open interval is the non-negative distance from its start to now, whichever comes first |
| EventsMetadata.PercentOf | Sources/MapboxCoreNavigation/EventsMetadataProvider.swift:68 | the percentage lies in [0,100], is 100 when both totals are zero or the other side is zero, 0 when only the other side has time, and otherwise is the truncation of part/(part+other)*100 |
| EventsMetadata.SplitAt | Sources/MapboxCoreNavigation/EventsMetadataProvider.swift:60-78 | only the current orientation's bucket grows, by the open interval, and neither grows when flat or unknown; the foreground bucket grows iff the app is active, else the background bucket does, and the other keeps its session value; the portrait percentage is `PercentOf` the two orientation totals, in [0,100] and 100 with no orientation time; the foreground percentage equals the portrait percentage |
| EventsMetadata.PercentGrowsWithPart | Sources/MapboxCoreNavigation/EventsMetadataProvider.swift:68 | adding time to the part never lowers its percentage |
| EventsMetadata.PercentShrinksWithOther | Sources/MapboxCoreNavigation/EventsMetadataProvider.swift:68 | adding time to the other side never raises the part's percentage |
| EventsMetadata.PortraitShareGrowsWithTime | Sources/MapboxCoreNavigation/EventsMetadataProvider.swift:61-68 | while upright, a later update adds exactly the extra time to portrait and reports a portrait percentage at least as high |
| EventsMetadata.LandscapeTimeLowersPortraitShare | Sources/MapboxCoreNavigation/EventsMetadataProvider.swift:61-68 | while on its side, a later update adds exactly the extra time to landscape and reports a portrait percentage no higher |
| EventsMetadata.FlatDeviceFreezesOrientation | Sources/MapboxCoreNavigation/EventsMetadataProvider.swift:63-68 | a flat or unknown orientation gives the percentage of the closed totals alone, the same at any instant |
| EventsMetadata.ForegroundPercentIgnoresActivity | Sources/MapboxCoreNavigation/EventsMetadataProvider.swift:70-77 | the foreground percentage is the same whatever the application state |
| EventsMetadata.BackgroundSessionReportsFullForeground | Sources/MapboxCoreNavigation/EventsMetadataProvider.swift:70-77 | a session spent only in the background while upright reports zero foreground time and 100 percent foreground |
| EventsMetadata.SixtyPercentPortrait | Sources/MapboxCoreNavigation/EventsMetadataProvider.swift:61-68 | 60 s each way plus 30 s upright gives 90 s portrait, 60 s landscape and 60 percent portrait |
| EventsMetadata.EventsMetadataProvider.constructor | Sources/MapboxCoreNavigation/EventsMetadataProvider.swift:42-46 | before any update both percentages and both totals are zero, and the invariant holds |
| EventsMetadata.EventsMetadataProvider.UpdateTimeState | Sources/MapboxCoreNavigation/EventsMetadataProvider.swift:60-78 | the four fields become the totals and percentages of `SplitAt` for the snapshot, orientation, activity state and instant, and the invariant (both percentages equal, in [0,100]) holds afterwards |

## Left out

- `applicationState` (lines 26-32) reads the state on the main thread and otherwise blocks on a hand-off to it. That is concurrency; the activity state is a parameter of `UpdateTimeState`.
- `screenBrightness` and `volumeLevel` (lines 35, 37) are truncating casts of readings from the screen and the audio session, with no logic beyond the cast.
- The initializer (lines 13-24) and `provideEventsMetadata` (lines 48-58) are not modelled. They build fixed application metadata, generate a UUID and bridge values to `NSNumber`. The `connectivity` stub (line 41) always returns an empty string.
- The clock and the device orientation are inputs: `now` and `orientation` are parameters, and instants are whole milliseconds.
- EventsMetadata.PercentOf: works on exact whole-millisecond totals and integer division, not on floating-point `TimeInterval` division. The floating-point result can fall just below a whole number and truncate one lower (for example 0.29 * 100).
- Device.BatteryLevel: the reading is an exact `real`, not a 32-bit float, so float rounding of level × 100 is not modelled.
- The raw numeric values of the audio type sent with the event come from a library that is not part of this model.
