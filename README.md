# FGRadio playback core in Dafny

This project models the sequential core of FGRadio, an iOS client that plays one internet-radio stream. There are five parts:

- **TrackTitles** (`track_title.dfy`): `TrackTitle.makeEmpty` and `TrackTitle.makeFrom(streamTitle:)`. They turn an ICY `StreamTitle` value into a title and a subtitle by splitting on `"-"`. No trimming is done.
- **Playback** (`player.dfy`): the `Player` class.
  - `status` and `trackTitle` are fields.
  - Two observer methods map the transport's readiness status (`AVPlayer.Status`) and its time-control status onto `Player.Status`. The last write wins.
  - `start()` succeeds or fails on the audio-session setup.
  - `play()` and `pause()` send one transport command each. The commands are recorded in a ghost log.
  - The metadata delegate walks groups and their items in order. Only a non-empty `icyMetadataStreamTitle` value replaces the title.
- **Connectivity** (`connection_observer.dfy`): the `ConnectionObserver` class and its `restorePlaying` latch.
  - Losing the connection while the player is playing sets the latch.
  - Regaining the connection while the latch is set issues one `play()` and clears the latch.
- **PlayerScreen** (`player_view_model.dfy`): the `PlayerViewModel` class.
  - Its initial published values.
  - `update(status:)`, which sets the four flags derived from the status.
  - The `buttonImage` asset names.
  - The `playTapped()` command choice.
  - The track-title and reachability subscriptions.
- **HexColor** (`color.dfy`): `Color.init(hex:)` up to the division by 255.
  - The two guards, which become error results.
  - The six-digit hex scan.
  - The mask-and-shift split of the 64-bit number into three bytes.
  - A reference encoder, with a round-trip proof.

`Wrappers` (`wrappers.dfy`) holds the `Option` and `Result` types.

The transport (AVFoundation), the reachability library and Combine are not modelled. Their callbacks become method calls whose parameters carry the delivered values. The stream URL is opaque and not represented.

What the code does, and so what the model does:
- `makeFrom` does no trimming. Its empty value is two empty strings.
- `play()` and `pause()` only forward to the transport. `Player` keeps no timer, no retry count and no flag to rebuild the transport.
- `ConnectionObserver` starts with the latch clear. Losing the connection changes only the latch; the player is not told.
- A failed audio-session setup in `start()` is logged and then ignored.

## Model

| member | source | states |
|---|---|---|
| TrackTitles.MakeEmpty | FGRadio/Foundation/TrackTitle.swift:17-19 | the empty title has an empty title and an empty subtitle |
| TrackTitles.Components | FGRadio/Foundation/TrackTitle.swift:22 | splitting always gives at least one piece, and no piece contains the separator |
| TrackTitles.Join | FGRadio/Foundation/TrackTitle.swift:24 | `joined(separator:)`; with `ComponentsJoinRoundTrip` and `JoinWithSpace` it inverts the split on `-` and, with a space, equals replacing every `-` by a space |
| TrackTitles.MakeFrom | FGRadio/Foundation/TrackTitle.swift:21-28 | `makeFrom(streamTitle:)`; its lemmas below state both branches: the untrimmed prefix before the first `-` and the rest with spaces, or the whole input and an empty subtitle |
| TrackTitles.ComponentsCount | FGRadio/Foundation/TrackTitle.swift:22-23 | there are at least two pieces exactly when the input contains `-` |
| TrackTitles.ComponentsJoinRoundTrip | FGRadio/Foundation/TrackTitle.swift:22 | joining the pieces with `-` gives back the input |
| TrackTitles.JoinWithSpace | FGRadio/Foundation/TrackTitle.swift:24 | joining the pieces with `" "` equals the input with every `-` replaced by a space |
| TrackTitles.MakeFromWithoutSeparator | FGRadio/Foundation/TrackTitle.swift:25-26 | with no `-`, the title is the input unchanged and the subtitle is empty |
| TrackTitles.MakeFromWithSeparator | FGRadio/Foundation/TrackTitle.swift:22-24 | with a `-`, the title is the untrimmed prefix before the first `-`; the subtitle is the rest with each `-` turned into a space; and `|title| + 1 + |subtitle|` equals the input length |
| TrackTitles.MakeFromHasNoSeparator | FGRadio/Foundation/TrackTitle.swift:22-26 | neither field of the result ever contains `-` |
| TrackTitles.MakeFromEmptyString | FGRadio/Foundation/TrackTitle.swift:17-27 | `makeFrom("")` equals `makeEmpty()` |
| TrackTitles.MakeFromIsEmptyExactly | FGRadio/Foundation/TrackTitle.swift:17-27 | the result equals the empty title exactly when the input is `""` or `"-"` |
| Playback.StatusForTransport | FGRadio/Foundation/Player.swift:33-39 | the readiness mapping, as an if-and-only-if for each case: unknown to starting, failed to error, readyToPlay to readyToPlay |
| Playback.StatusForTimeControl | FGRadio/Foundation/Player.swift:47-53 | the timing mapping, as an if-and-only-if for each case: waiting to preparingToPlay, paused to readyToPlay, playing to playing |
| Playback.StatusAfter | FGRadio/Foundation/Player.swift:31-57 | the status either observer writes for one event, independent of the previous status; `ChannelImages` states its range per channel |
| Playback.Replay | FGRadio/Foundation/Player.swift:31-57 | the class property of the two observer methods restated over a run of events; `ObserverRunScenario` delivers a run through the methods and checks the status against it |
| Playback.ReplayLastWriteWins | FGRadio/Foundation/Player.swift:31-57 | after any non-empty run of observer events from either channel, the status depends only on the last event |
| Playback.ChannelImages | FGRadio/Foundation/Player.swift:31-57 | readiness never yields preparingToPlay or playing; timing never yields starting or error; the two channels agree only on readyToPlay and paused |
| Playback.AcceptedTitle | FGRadio/Foundation/Player.swift:83-89 | an item is accepted exactly when it has an identifier and a string value, the identifier is the ICY stream title, and the value is non-empty; the accepted value is that string |
| Playback.ApplyItem | FGRadio/Foundation/Player.swift:82-90 | the per-item closure: an accepted item replaces the title with `makeFrom` of its value, any other item leaves it; `HandleItem` is proved against it |
| Playback.ApplyItems | FGRadio/Foundation/Player.swift:81-91 | the in-order run of the closure over items; `ApplyItemsTakesLast` ties it to the last accepted item, `ApplyItemsAppend` to concatenation |
| Playback.Flatten | FGRadio/Foundation/Player.swift:80-92 | the items of all groups, group by group, in the order of the nested `forEach`; `FlattenSnoc` states the step by one group |
| Playback.LastAcceptedTitle | FGRadio/Foundation/Player.swift:81-94 | reference definition: it picks the last accepted item of a batch, and it is None exactly when no item is accepted |
| Playback.ApplyItemsTakesLast | FGRadio/Foundation/Player.swift:81-94 | after a batch, the title is `makeFrom` of the last accepted item; with no accepted item it is unchanged and never cleared |
| Playback.ApplyItemsTwice | FGRadio/Foundation/Player.swift:81-94 | delivering the same batch twice leaves the same title as delivering it once |
| Playback.ApplyItemsAppend | FGRadio/Foundation/Player.swift:80-94 | handling one group's items after the earlier groups' items is handling the concatenated run, so the per-group order of the delegate is the flat order |
| Playback.Player.constructor | FGRadio/Foundation/Player.swift:14-19 | a new player has status starting, an empty track title, no transport and no commands sent |
| Playback.Player.Start | FGRadio/Foundation/Player.swift:21-60 | the observers are attached only when the audio-session setup succeeds; either way the status and the title are unchanged |
| Playback.Player.OnTransportStatusChanged | FGRadio/Foundation/Player.swift:31-43 | the status becomes the readiness mapping of the event, whatever it was before; with no observer attached nothing changes |
| Playback.Player.OnTimeControlStatusChanged | FGRadio/Foundation/Player.swift:45-57 | the status becomes the timing mapping of the event, whatever it was before; with no observer attached nothing changes |
| Playback.Player.Play | FGRadio/Foundation/Player.swift:63-66 | exactly one play command is sent; status and title are untouched |
| Playback.Player.Pause | FGRadio/Foundation/Player.swift:68-70 | exactly one pause command is sent; status and title are untouched |
| Playback.Player.HandleItem | FGRadio/Foundation/Player.swift:82-90 | the guard and the switch on one item: the title becomes `makeFrom` of the value exactly when the item is accepted, and is otherwise unchanged |
| Playback.Player.HandleGroup | FGRadio/Foundation/Player.swift:81-91 | the loop over one group's items leaves the title equal to the in-order fold over those items |
| Playback.Player.OnTimedMetadata | FGRadio/Foundation/Player.swift:80-95 | the nested loops over groups and items leave the title equal to the in-order fold over all items of all groups |
| Connectivity.ConnectionObserver.constructor | FGRadio/Foundation/ConnectionObserver.swift:13-21 | the latch starts clear |
| Connectivity.ConnectionObserver.OnRestoreConnection | FGRadio/Foundation/ConnectionObserver.swift:23-28 | with the latch set, exactly one play command is sent; with it clear, nothing is sent; either way the latch is clear afterwards, so a second restore sends nothing |
| Connectivity.ConnectionObserver.OnLostConnection | FGRadio/Foundation/ConnectionObserver.swift:30-34 | the latch becomes set if the player is playing; it is otherwise unchanged, never cleared, and the player is not commanded |
| PlayerScreen.Present | FGRadio/Modules/Main/PlayerViewModel.swift:115-146 | the button is disabled iff the status is starting or preparingToPlay; the error shows iff error; the animation runs iff playing; the button state is preparing, pause or play in those cases; enabled iff the button state is not preparing |
| PlayerScreen.ButtonImage | FGRadio/Modules/Main/PlayerViewModel.swift:103-112 | the image is `""`, `"play-dark"` or `"pause-dark"` exactly for preparing, play and pause |
| PlayerScreen.TapCommand | FGRadio/Modules/Main/PlayerViewModel.swift:54-61 | pause is chosen exactly when the player is playing |
| PlayerScreen.ImageMatchesTap | FGRadio/Modules/Main/PlayerViewModel.swift:54-61 | the pause image shows exactly when a tap would pause; the blank image shows exactly when the button is disabled |
| PlayerScreen.PlayerViewModel.constructor | FGRadio/Modules/Main/PlayerViewModel.swift:29-52 | the initial state: button preparing and disabled, no error, no animation, no banner; the title is already the player's current title, because the title subscription is not debounced and delivers it at once |
| PlayerScreen.PlayerViewModel.Update | FGRadio/Modules/Main/PlayerViewModel.swift:115-148 | the four flags become the presentation of the delivered status, independent of the old state, so applying it twice gives the same state; it keeps the invariant enabled == (button state is not preparing) |
| PlayerScreen.PlayerViewModel.OnTrackTitle | FGRadio/Modules/Main/PlayerViewModel.swift:41-43 | the player's title is copied unchanged |
| PlayerScreen.PlayerViewModel.OnReachability | FGRadio/Modules/Main/PlayerViewModel.swift:45-50 | the banner shows exactly when the delivered reachability is false |
| PlayerScreen.PlayerViewModel.PlayTapped | FGRadio/Modules/Main/PlayerViewModel.swift:54-61 | exactly one command is sent: pause when the player's status is playing, play otherwise |
| HexColor.ScanHex | FGRadio/UIKit/Color.swift:17-21 | the scan succeeds exactly when all six characters are hex digits, and the number fits in 24 bits |
| HexColor.Channels | FGRadio/UIKit/Color.swift:23-25 | the three bytes cut out by masks and shifts recombine to `n & 0xffffff` |
| HexColor.Decode | FGRadio/UIKit/Color.swift:12-25 | no `#` or a length other than 7 gives the first error; a suffix that is not hex gives the second; success happens exactly otherwise, and the bytes recombine to the scanned number |
| HexColor.DecodeChannels | FGRadio/UIKit/Color.swift:17-25 | digits 1-2 give red, 3-4 give green and 5-6 give blue, the first of each pair being the high nibble |
| HexColor.DecodePureRed | FGRadio/UIKit/Color.swift:17-25 | `"#ff0000"` decodes to red 255, green 0 and blue 0 |
| HexColor.Encode | FGRadio/UIKit/Color.swift:12-25 | reference encoder: `#` and six hex digits, so every encoding passes both guards of `init(hex:)`; `DecodeEncode` proves decoding inverts it |
| HexColor.DecodeEncode | FGRadio/UIKit/Color.swift:12-25 | every colour survives encoding to `#rrggbb` and decoding back |

`Connectivity.LostWhilePlayingScenario` is a client of these contracts. It checks one sequence: lose the connection while playing, regain it twice, then lose and regain it while paused. The whole sequence sends exactly one play command.

## Left out

- Playback.Player.Play and Playback.Player.Pause: they require `started`. The source force-unwraps `player: AVPlayer!` (Player.swift:75), so calling them before a successful `start()` traps. The trap is not modelled as a state.
- Connectivity.ConnectionObserver.OnRestoreConnection and PlayerScreen.PlayerViewModel.PlayTapped: for the same reason, they require that the player has its transport. For the observer this follows from `Valid()`, because the latch is set only while the player is playing.
- Playback.Player.Start: creating the `AVPlayer` from the URL and registering the metadata output are reduced to one `started` flag. Calling `start()` a second time, and the duplicate observers it leaves behind, is not modelled.
- Observer events are delivered only after a successful `start()`, because only then is an observer attached. The `@unknown default: fatalError` branches cannot occur with the modelled enums.
- Transport, KVO and Combine: AVFoundation, key-value observation and Combine are out. This covers the `.debounce(for: 0.2)` on status and reachability and the `sink` wiring. Only the effect of a delivered value is modelled.
- Reachability: the library setup, including its throwing `init` and `startNotifier()`, is out, as is the closure wiring. The view model subscribes to `reachability.$isReachable`, which `ConnectionObserver.swift` does not declare. The delivered boolean is a parameter of `OnReachability`.
- `openLink`, `callStudio` and `chatStudio` only open URLs through `UIApplication`. `Config`, `CancelBag` and `ObservationsBag` wrap foreign libraries. All SwiftUI and UIKit views are out too.
- HexColor.Decode: it is stricter than `Scanner.scanHexInt64`. The model demands that all six characters after `#` are hex digits. Scanner also skips leading whitespace, accepts a `0x` prefix, and stops at the first non-hex character, so it accepts strings such as `"#12345z"` that the model rejects.
- HexColor.ScanHex: it is defined only for the six characters that `init(hex:)` scans.
- TrackTitles.MakeFrom: strings are sequences of Unicode scalars here. Swift's `count` counts grapheme clusters, and `components(separatedBy:)` uses Foundation's string search, so a `-` followed by a combining mark (as in `"a-\u{301}b"`) is split here but may not be in Swift, and the length sum in `MakeFromWithSeparator` is in scalars, not in Swift's count.
- Playback.AcceptedTitle: `value.count > 0` is modelled as a non-empty scalar sequence; this agrees with Swift's count on emptiness, but lengths elsewhere are in scalars.
- HexColor.Decode: `hex.count` counts grapheme clusters in Swift. Here the length is counted in characters. The division by 255, `Color(red:green:blue:)` and the `UIColor` constant are floating-point and framework code.
- Logging (`print`) is dropped everywhere.
