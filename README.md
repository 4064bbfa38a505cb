# Picture-in-picture video changing: playlist cursor and player-item observer

This project models the two pieces of the iOS demo app that hold logic of their own. Everything else in the app is UIKit, AVKit and AVFoundation glue.

- **The playlist cursor** (`PlayerViewController.Model`). A fixed list of player items is built once from URL strings: one item for each string that parses as a URL, in input order. An index starts at 0. `nextItem()` moves the index to the next item and wraps back to 0 after the last one. It returns the item there, or nothing when the list is empty. The screen's periodic time-observer token is modelled beside it. At most one observer is installed on the player, and cleaning up removes it.
- **The player-item observer** (`PlayerItemObserver`). It registers for three key paths of a player item, all under one context. It turns each key-value notification into calls of two optional closures: `playbackReady(bufferFull || likelyToKeepUp)`, and `bufferedTimeUpdated(end of the last loaded range)` when at least one range is loaded. Its `deinit` removes exactly the three registrations that `init` made.

Modules, one per component:

- `wrappers.dfy`, module `Wrappers`: Swift's optionals.
- `playlist.dfy`, module `Playlist`. `ParsedItems` is the item list that `init` builds. `Step` is one move of the index. `Position` and `Cycle` give the index and the returned items after `k` calls. Lemmas prove rotation, permutation, periodicity and the in-order filter. The class `Model` holds `const items`, so the items can never change after `init`. Its `currentIndex` is the only mutable field. A ghost field `Played` records the items returned so far, and `Valid()` ties it to `Cycle`.
- `time_observer.dfy`, module `TimeObserver`. The class `PlayerController` holds `timeObserverToken` and the `Player` whose periodic time observers it installs and removes. `Valid()` says the player's time observers are exactly the held token, or none.
- `item_observation.dfy`, module `ItemObservation`. The pure function `Dispatch` decides what fires for each notification. The class `PlayerItem` carries a multiset of registrations. The class `PlayerItemObserver` has a constructor that registers, `ObserveValue`, and `Deinit`, which tears down through the `removeObserver` remover.

Opaque things are type parameters or function parameters:

- player items, time-observer tokens and media times are type parameters;
- whether a string parses as a URL is the predicate parameter `parses`;
- building a player item from a parsed string is the function parameter `toItem`;
- the token that `addPeriodicTimeObserver` returns is the parameter `issued`;
- a callback closure is modelled as a flag saying whether its slot is set, and a call of it is an `Event` carrying its argument.

Three conditions in `observeValue` are fatal: a nil change dictionary, a nil context, or an object under the shim's context that is not a player item. They are preconditions of `Dispatch` and `ObserveValue`. `toItem` is a function, so two equal URL strings give equal items in the model, whereas the app allocates a distinct player item for each string. `CycleIsRotation` states the cursor's promise by position, so it holds whatever the items' identities. `CycleReturnsEachItemOnce` assumes distinct items, which every playlist the app builds has.

The code checks only whether a change dictionary is present and never reads it, so the model does the same. A notification under any other context is handed to the superclass. The model represents that as the single event `ForwardedToSuperclass`.

## Model

| member | source | states |
|---|---|---|
| Playlist.ParsedItems | iOSPictureInPictureVideoChanging/iOSPictureInPictureVideoChanging/PlayerViewController.swift:275-282 | `init` keeps at most one item per URL string. It keeps one for every string when all of them parse, and none when none of them parse. |
| Playlist.ParsedItemsIsOrderedFilter | iOSPictureInPictureVideoChanging/iOSPictureInPictureVideoChanging/PlayerViewController.swift:277-281 | The items are exactly the in-order filter of the input. The lemma returns a strictly increasing list of positions. It holds every position whose string parses, and no other, and item `k` is built from the string at position `k` of that list. |
| Playlist.Step | iOSPictureInPictureVideoChanging/iOSPictureInPictureVideoChanging/PlayerViewController.swift:284-294 | One `nextItem()` move keeps a valid index inside `[0, count)`. It leaves the index unchanged when the list is empty. |
| Playlist.StepIsSuccessorModCount | iOSPictureInPictureVideoChanging/iOSPictureInPictureVideoChanging/PlayerViewController.swift:285-291 | On a non-empty list, the two branches of `nextItem()` together set the index to `(old + 1) mod count`. |
| Playlist.Position | iOSPictureInPictureVideoChanging/iOSPictureInPictureVideoChanging/PlayerViewController.swift:284-294 | After any number of calls from a valid index, the index is still inside `[0, count)`. |
| Playlist.Cycle | iOSPictureInPictureVideoChanging/iOSPictureInPictureVideoChanging/PlayerViewController.swift:284-294 | On a non-empty list, `k` consecutive calls return `k` items. None of the calls returns nil. |
| Playlist.CycleAppend | iOSPictureInPictureVideoChanging/iOSPictureInPictureVideoChanging/PlayerViewController.swift:284-294 | `a + b` calls return what `a` calls return, then what `b` calls return from the index the first `a` calls left. |
| Playlist.CycleRun | iOSPictureInPictureVideoChanging/iOSPictureInPictureVideoChanging/PlayerViewController.swift:285-287 | Until the last item is reached, the calls return the following items of the list in order, and the index moves up by one each time. |
| Playlist.CycleFromLast | iOSPictureInPictureVideoChanging/iOSPictureInPictureVideoChanging/PlayerViewController.swift:288-290 | From the last item, the next call wraps around to item 0, and further calls continue from there. |
| Playlist.CycleIsRotation | iOSPictureInPictureVideoChanging/iOSPictureInPictureVideoChanging/PlayerViewController.swift:284-294 | From any valid index, `count` calls return the list rotated to start just after that index. They leave the index where it started. |
| Playlist.CycleIsPermutation | iOSPictureInPictureVideoChanging/iOSPictureInPictureVideoChanging/PlayerViewController.swift:284-294 | `count` calls from any valid index return a permutation of the items. |
| Playlist.CycleReturnsEachItemOnce | iOSPictureInPictureVideoChanging/iOSPictureInPictureVideoChanging/PlayerViewController.swift:284-294 | When the items are distinct, `count` calls from any valid index return every item exactly once. |
| Playlist.CycleIsPeriodic | iOSPictureInPictureVideoChanging/iOSPictureInPictureVideoChanging/PlayerViewController.swift:284-294 | The calls repeat with period `count`: `count + k` calls return a full cycle followed by the first `k` calls. |
| Playlist.CycleWrapsAround | iOSPictureInPictureVideoChanging/iOSPictureInPictureVideoChanging/PlayerViewController.swift:284-294 | Call `count + 1` returns the same item as call 1. |
| Playlist.FirstCallFromFresh | iOSPictureInPictureVideoChanging/iOSPictureInPictureVideoChanging/PlayerViewController.swift:272-290 | From a fresh model (index 0), the first call returns `items[1]` when there are at least two items, and `items[0]` when there is one. |
| Playlist.Model.constructor | iOSPictureInPictureVideoChanging/iOSPictureInPictureVideoChanging/PlayerViewController.swift:271-282 | The items are `ParsedItems` of the URL strings. The index starts at 0, and nothing has been played yet. |
| Playlist.Model.NextItem | iOSPictureInPictureVideoChanging/iOSPictureInPictureVideoChanging/PlayerViewController.swift:284-294 | On an empty list it returns nil and changes nothing. Otherwise the index becomes `(old + 1) mod count` and stays in range. The call returns `items[index]` and appends that item to the history. The history always equals `Cycle(items, 0, calls)`, and the items never change. |
| TimeObserver.PlayerController.constructor | iOSPictureInPictureVideoChanging/iOSPictureInPictureVideoChanging/PlayerViewController.swift:44 | The token slot starts empty, and no periodic time observer is installed. |
| TimeObserver.PlayerController.SetupPeriodicTimeObserver | iOSPictureInPictureVideoChanging/iOSPictureInPictureVideoChanging/PlayerViewController.swift:194-203 | While a token is held, setup changes nothing, so it is idempotent. Otherwise it installs one observer and holds its token. |
| TimeObserver.PlayerController.CleanUpPeriodicTimeObserver | iOSPictureInPictureVideoChanging/iOSPictureInPictureVideoChanging/PlayerViewController.swift:205-210 | Cleanup removes the held token's observer from the player and empties the slot. With no token it changes nothing. Afterwards the player has no periodic time observer. |
| TimeObserver.PlayerController.SetPlayerItem | iOSPictureInPictureVideoChanging/iOSPictureInPictureVideoChanging/PlayerViewController.swift:31-42 | Assigning `playerItem` replaces the player's item. Assigning nil cleans the token up, and assigning an item sets one up. |
| ItemObservation.Dispatch | iOSPictureInPictureVideoChanging/iOSPictureInPictureVideoChanging/PlayerItemObserver.swift:58-89 | A foreign context fires no callback and is forwarded to the superclass. Under the shim's context, `playbackReady` fires once with exactly `bufferFull or likelyToKeepUp` when its slot is set, and never otherwise. `bufferedTimeUpdated` fires once with the end of the last loaded range when its slot is set and a range exists, and never otherwise. Readiness comes first. |
| ItemObservation.CallbackSlotsAreIndependent | iOSPictureInPictureVideoChanging/iOSPictureInPictureVideoChanging/PlayerItemObserver.swift:70-75 | The two slots fire independently: what fires is what each slot would fire on its own, concatenated. With both slots unset, nothing fires. |
| ItemObservation.BufferedTimeIsEndOfLastRange | iOSPictureInPictureVideoChanging/iOSPictureInPictureVideoChanging/PlayerItemObserver.swift:73-75 | With ranges (0, 2) and (3, 7) loaded, the buffered time sent is 7 and not 2. |
| ItemObservation.Registered | iOSPictureInPictureVideoChanging/iOSPictureInPictureVideoChanging/PlayerItemObserver.swift:23-37 | The shim holds three registrations, all for itself and all under the buffer context. |
| ItemObservation.EachKeyPathRegisteredOnce | iOSPictureInPictureVideoChanging/iOSPictureInPictureVideoChanging/PlayerItemObserver.swift:23-37 | Each of the three key paths is registered exactly once. |
| ItemObservation.RemovalTakesBackRegistered | iOSPictureInPictureVideoChanging/iOSPictureInPictureVideoChanging/PlayerItemObserver.swift:39-49 | Teardown removes in a different order: keep-up, then buffer-full, then ranges. Each removal finds its registration still present, so nothing is removed twice. Together the removals take back exactly the registered multiset. |
| ItemObservation.RegisterThenTeardown | iOSPictureInPictureVideoChanging/iOSPictureInPictureVideoChanging/PlayerItemObserver.swift:17-93 | Constructing a shim on an item and then running its `deinit` leaves the item's registrations exactly as they were. No registration is leaked, and none is removed twice. |
| ItemObservation.PlayerItemObserver.constructor | iOSPictureInPictureVideoChanging/iOSPictureInPictureVideoChanging/PlayerItemObserver.swift:17-50 | Construction adds exactly `Registered(this)` to the item's registrations. Every registration asks for `.initial`, `.new` and `.old`, so it delivers one notification of the item's current status at once. The callbacks fired during `init` are therefore three times what `Dispatch` fires for that status. Each registration step requires the remover to still be the no-op one, so the remover stays a no-op throughout registration. The remover is armed with the item only after the third registration. |
| ItemObservation.PlayerItemObserver.ObserveValue | iOSPictureInPictureVideoChanging/iOSPictureInPictureVideoChanging/PlayerItemObserver.swift:58-89 | `observeValue` fires exactly the events that `Dispatch` decides on. |
| ItemObservation.PlayerItemObserver.Deinit | iOSPictureInPictureVideoChanging/iOSPictureInPictureVideoChanging/PlayerItemObserver.swift:91-93 | `deinit` runs once and calls the remover. An armed remover takes exactly `Registered(this)` out of the item's registrations and touches nothing else of the item. A no-op remover changes nothing. |

## Left out

- AppDelegate.swift is not part of this model. It only sets the audio session category.
- The view controller's UI work is left out because it is orchestration of opaque frameworks: outlets, actions, `viewWillAppear`, `viewDidDisappear`, the toolbar and slider, picture-in-picture start and stop with its delegate, and alerts. `viewDidDisappear` calls `CleanUpPeriodicTimeObserver`, which is modelled.
- `playNextVideo` is left out: its ten-second re-scheduling on the main queue is timer-driven. Only the `nextItem()` it calls is modelled.
- `setupObservers` builds a `PlayerObserver` for the player. That class is not part of this model because its source is not available, so its rate, duration and end-of-video dispatch are not modelled. Only the token setup that `setupObservers` performs is modelled.
- CMTime and floating-point arithmetic are left out: `currentTime`, `duration`, the slider values and the range duration in the log line. Times are an opaque type.
- URL parsing, `AVURLAsset`/`AVPlayerItem` construction and the key-value observation runtime are foreign calls. They are parameters (`parses`, `toItem`, `issued`), or the stand-in classes `Player` and `PlayerItem`. Delivering notifications only to registered observers is the runtime's job, so "no notification after teardown" is modelled only as the removal of every registration of the shim.
- The `print` logging in `observeValue` is left out.
- The superclass's own handling of a forwarded notification is left out. It is recorded only as the `ForwardedToSuperclass` event.
- Swift's `Int` overflow on the index is not modelled, because the index never exceeds the item count.
- `Model` is a Swift struct, a value type. It is modelled as a class with one mutable field, so value-copy semantics are not captured; the app keeps a single instance.
