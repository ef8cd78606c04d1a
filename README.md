# Internet radio player: playback controller, player bar and directory client

This project models the logic of a small web application that lets a user
browse stations of the public radio-browser directory and play one of them.

- **App** (`App.dfy`). The application component holds the playback
  controller. Its fields are the current station, `isPlaying`,
  `isLoadingStream`, `playerError`, `volume` and one audio element. The
  element is written through `src`, `volume` and a play or pause request.
  The same component holds the browse state: the station list,
  `loadingData`, `searchQuery` and `activeTag`. The class `AppState`
  has one method for each handler. The handlers are the three user
  commands, the five audio-element events, the two `play()` rejections
  and the browse handlers. The value type `Player`, the function `Step`
  (one input) and `Run` (a sequence of inputs) describe the controller
  as data. Each controller method is proved to change its fields exactly
  as `Step` says. The lemmas about `Run` state what holds over whole
  runs of user commands and engine events, in any order.
- **PlayerBar** (`PlayerBar.dfy`). This covers what the bar renders for
  the controller's flags. It also covers the bar's own copy of the
  volume, which the slider sets and the mute button only reads.
- **RadioApi** (`RadioApi.dfy`). This covers the request URLs for the
  top, search and genre queries, and the rule that every failure gives
  the empty list. A parse of the query string is the partner of URL
  construction: the URL reads back as exactly its parameters.
- **Types** (`Types.dfy`). The station record and `Option`.

`fetch` and `encodeURIComponent` are function parameters. The only thing
any lemma requires of the encoder is that its output has no `&`.

The code is followed where a textbook player state machine would
differ:
- The controller has no phase enumeration, only the boolean flags.
- `handleVolume` does not clamp.
- Engine events carry no origin, so a late event from a station that is
  no longer current is applied like any other.
- A successful `play` event does not clear `playerError`. The lemma
  `App.RejectedThenPlaying` exhibits an error banner together with
  `isPlaying`.
- Selecting the same new station twice is not idempotent in the sense
  of "pause if playing". The second call only toggles, on the
  `isPlaying` left from before the first call. If the previous station
  was not playing, it requests play again. If it was playing, it
  requests pause (`App.SelectTwice`).

## Model

| member | source | states |
|---|---|---|
| `App.AppState.constructor` | App.tsx:13-29 | Initial state: no station, both flags false, no error, volume 0.8, element with no source and volume 1. Browse state: empty list, `loadingData` true, empty query, tag "Top". |
| `App.AppState.PlayStation` | App.tsx:93-114 | Same station identifier: the call acts as `TogglePlay` and station, error and loading flag are unchanged. Otherwise: error cleared, loading set, station replaced, element source is the resolved URL if non-empty (else the URL), element volume is the stored volume, play requested. `isPlaying` and `volume` are untouched. |
| `App.AppState.TogglePlay` | App.tsx:116-123 | Requests pause if and only if `isPlaying`, otherwise play. Assigns no controller field. |
| `App.AppState.HandleVolume` | App.tsx:125-128 | Stores the value and gives the element the identical value. No clamping, and no condition on a station being loaded. |
| `App.AppState.OnPlay` | App.tsx:38 | `play` event: `isPlaying` true, `isLoadingStream` false, nothing else changes. |
| `App.AppState.OnPause` | App.tsx:39 | `pause` event: only `isPlaying` becomes false. |
| `App.AppState.OnWaiting` | App.tsx:40 | `waiting` event: only `isLoadingStream` becomes true. |
| `App.AppState.OnPlaying` | App.tsx:41 | `playing` event: only `isLoadingStream` becomes false. |
| `App.AppState.OnError` | App.tsx:42-47 | `error` event: both flags false, error "Stream unavailable or blocked.". |
| `App.AppState.OnStationPlayRejected` | App.tsx:108-113 | Rejection of the play started by playStation: both flags false, error "Cannot play this stream.". |
| `App.AppState.OnTogglePlayRejected` | App.tsx:121 | Rejection of the play started by togglePlay: no state changes. |
| `App.AppState.SetSearchQuery` | App.tsx:153 | The search box text becomes the query. |
| `App.AppState.LoadTopStations` | App.tsx:66-69 | Sets `loadingData`, sets tag "Top", starts the top query with limit 30. |
| `App.AppState.HandleSearch` | App.tsx:74-79 | Blank query (the trimmed query is empty): no call and no state change. Otherwise: `loadingData` set, tag "Search", search started with the untrimmed query. |
| `App.AppState.HandleGenreClick` | App.tsx:84-88 | Sets `loadingData`, sets the tag to the genre, clears the query, starts the genre query. |
| `App.AppState.OnStationsLoaded` | App.tsx:88-90 | When the awaited query completes, the list is its result and `loadingData` is false. |
| `App.Toggled` | App.tsx:116-123 | The pure form of togglePlay: the element is asked to pause if and only if `isPlaying`, to play otherwise. Its source and volume are kept, and no controller field changes. |
| `App.Step` | App.tsx:38-128 | The controller's transition for one input: each user command, audio event and rejection, as the handlers assign the fields. Every controller method is proved equal to it. |
| `App.Run` | App.tsx:38-128 | Applies a sequence of inputs in order, starting from a given state. Every run lemma is stated over it. |
| `App.SameStation` | App.tsx:94 | Two stations are the same when the current one exists and has the same identifier. |
| `App.PlaybackUrl` | App.tsx:106 | The source given to the element: the resolved URL if it is non-empty, else the plain URL. |
| `App.IsBlank` | App.tsx:76 | The query is blank (its `trim()` is empty) when every character is JavaScript white space or a line terminator. |
| `App.RunPreservesInv` | App.tsx:93-128 | Every run preserves the invariant. Without a station the element has no source. With a station the element plays that station's URL at the stored volume. The error is absent or one of the two messages. |
| `App.ReachableInv` | App.tsx:22-29 | The invariant holds in every state reachable from the initial one. |
| `App.StationIsSticky` | App.tsx:102 | Once a station is set, no run makes it absent again. |
| `App.WithoutSelect` | App.tsx:93-106 | A run whose playStation calls (if any) all name the current station keeps the station and the element source. It never clears an error that is shown. |
| `App.ErrorClearedOnlyBySelect` | App.tsx:94-100 | A step that removes a shown error is a playStation of a station other than the current one. |
| `App.VolumeIsLastSet` | App.tsx:124-128 | After any run, the volume is the value of the last handleVolume call, or the starting value if there was none. |
| `App.VolumeStaysSliderValue` | App.tsx:125-128 | If the volume starts as a slider value and every handleVolume value is one, the volume stays a slider value in [0, 1]. |
| `App.ElementVolumeInRange` | App.tsx:106-128 | If the stored volume starts as a slider value, the element's volume starts in [0, 1], and every handleVolume value is a slider value, then the element's volume stays in [0, 1]. |
| `App.SliderDrivenVolumeInRange` | App.tsx:24-128 | From the initial state, when every handleVolume value is a slider value, both the stored volume and the element's volume stay in [0, 1]. |
| `App.RejectedThenPlaying` | App.tsx:100-113 | Selecting a station and then having its start rejected leaves the station set, shows "Cannot play this stream." and clears both flags. A later `play` event sets `isPlaying` and keeps the error. |
| `App.SelectTwice` | App.tsx:93-107 | After selecting a new station twice in a row, the state is the first call's result with only a toggle on top. The station, source, cleared error and loading flag come from the first call. `isPlaying` and the volumes are unchanged. The last request is pause if and only if `isPlaying` was true before the first call. |
| `PlayerBar.SliderValue` | components/PlayerBar.tsx:88-93 | Every slider position (hundredths from 0 to 100) is a value in [0, 1]. |
| `PlayerBar.MuteTarget` | components/PlayerBar.tsx:85 | The mute button sends 0.5 if and only if the bar's volume is 0, and 0 otherwise. Both are slider values. |
| `PlayerBar.Render` | components/PlayerBar.tsx:31-86 | Nothing is rendered with no station. "Connecting..." shows if and only if loading, "Live Stream" otherwise. The play button is disabled if and only if loading. The pause icon shows if and only if playing and not loading, so it never shows on a disabled button. The muted icon shows if and only if the bar's volume is 0. |
| `PlayerBar.BarStep` | components/PlayerBar.tsx:25-94 | One action on the volume controls gives the bar's new volume and the value sent. A slide gives its slider value for both. A mute press keeps the volume and sends the mute target. |
| `PlayerBar.Sent` | components/PlayerBar.tsx:25-94 | The values sent to the volume callback, exactly one per action, in order. |
| `PlayerBar.FinalVolume` | components/PlayerBar.tsx:25-94 | The bar's volume after a sequence of actions, applied one by one. |
| `PlayerBar.MutePressesRepeat` | components/PlayerBar.tsx:85 | n mute presses without slider movement send the same value n times. They leave the bar's volume unchanged. |
| `PlayerBar.SentAreSliderValues` | components/PlayerBar.tsx:85-108 | Whatever the initial volume, every value the bar sends to the volume callback is a slider value. |
| `PlayerBar.FinalVolumeIsLastSlide` | components/PlayerBar.tsx:23-94 | After any sequence of actions, the bar's volume is the value of the last slide, or the initial one if there was none. Mute presses never change it. |
| `PlayerBar.PlayerBarState.constructor` | components/PlayerBar.tsx:23 | `localVolume` starts as the volume property. |
| `PlayerBar.PlayerBarState.HandleVolChange` | components/PlayerBar.tsx:25-29 | Sets `localVolume` to the slider value and sends that same value. |
| `PlayerBar.PlayerBarState.MuteClick` | components/PlayerBar.tsx:85 | Sends 0.5 when `localVolume` is 0, else 0. Changes nothing. |
| `RadioApi.Decimal` | services/radioApi.ts:7 | The limit is rendered as non-empty decimal digits. A leading zero occurs only for 0, which is rendered as exactly "0". |
| `RadioApi.DecimalRoundTrip` | services/radioApi.ts:7 | Reading the rendered limit back gives the limit. |
| `RadioApi.TopStationsUrl` | services/radioApi.ts:3-7 | The top URL is the base URL + "/topvote/", then the limit's digits, then "?hidebroken=true". The digits read back as the limit and start with 0 only when the limit is 0, whose URL has exactly the digit "0". |
| `RadioApi.QueryRoundTrip` | services/radioApi.ts:19-27 | Parsing the join of well-formed key=value pairs gives the pairs back. |
| `RadioApi.FixedSearchQuery` | services/radioApi.ts:19 | The fixed search query text is the join of the five fixed pairs: limit=30, hidebroken=true, order=clickcount, reverse=true, is_https=true. |
| `RadioApi.SearchParams` | services/radioApi.ts:19-27 | The search pairs start with the five fixed pairs. A name pair is present if and only if the query is non-empty, and it carries the encoded query. A tag pair is present if and only if the tag is non-empty, and it comes last, after the name pair. |
| `RadioApi.SearchRequest` | services/radioApi.ts:19-27 | The search URL as a value: the search path, "?", and the join of `SearchParams`. |
| `RadioApi.SearchUrl` | services/radioApi.ts:19-27 | The URL built step by step equals the search path + "?" + the join of `SearchParams`. |
| `RadioApi.SearchRequestParses` | services/radioApi.ts:19-27 | With an encoder that emits no `&`, the search URL parses back to exactly its parameters. |
| `RadioApi.Recover` | services/radioApi.ts:8-13 | An ok response with a decodable body gives that body. A throw, a non-ok response or an undecodable body gives the empty list. |
| `RadioApi.GetTopStations` | services/radioApi.ts:5-14 | An ok response to the top URL with a decodable body is returned as it is. Otherwise the result is the empty list: a non-empty result is always the body of an ok response. |
| `RadioApi.SearchStations` | services/radioApi.ts:16-36 | Returns the recovered result of fetching the search URL. The result is empty unless that fetch answered ok with exactly this list. |
| `RadioApi.GetByGenre` | services/radioApi.ts:38-40 | Is the search for an empty query and the genre as tag. Its request never has a name pair, and it has a tag pair if and only if the genre is non-empty. |

## Left out

- Registering and removing the audio listeners, and the `pause()` on unmount (App.tsx:32-63), are left out. Each handler instead reads the current field values. The mount-time call of `loadTopStations` is a separate call of `LoadTopStations`, not part of the constructor.
- How the audio element reacts to requests is left out, because the engine is external. The model does not say which events follow a play or pause request. Every event and both rejections can be called at any time. Nothing tracks which `play()` promise is still pending.
- The element's own normalisation of an assigned `src` (URL resolution) is not modelled. `src` holds the string assigned.
- Asynchrony of the browse handlers: each one is split into a start method (which returns the `DirectoryCall` it issues) and `OnStationsLoaded`. Out-of-order completion of overlapping queries, and the flag they share, are not modelled.
- What `fetch`, `response.json()` and `encodeURIComponent` compute is left out. They are parameters or abstract outcomes. A body that decodes as something other than a station list is not modelled. `console` logging is dropped.
- `encodeURIComponent` throwing on a lone surrogate is not modelled, because Dafny strings cannot hold one.
- `String.prototype.trim` is reduced to the predicate "every character is JavaScript white space".
- Volumes are reals. They are only copied and compared with 0, and the model does no floating-point arithmetic. `parseFloat` of the slider is taken to give exactly `k / 100`.
- `RadioApi.TopStationsUrl`: takes a natural number. Non-integer or negative limits, which a template literal would also render, are not modelled. A JavaScript number holds integers exactly only up to 2^53 - 1, and the model does not bound the limit. The application passes only 30 and the default 20.
- `RadioApi.Decimal`: renders every natural number as plain digits. A template literal renders integers of 10^21 and above in exponent form (`1e+21`), which is not modelled. The limits in use are 20 and 30.
- `App.AppState.HandleVolume`: the model gives the element any real. Under the HTML standard the media element's `volume` setter throws an `IndexSizeError` for a value outside [0, 1]. Then the stored volume would change while the element kept its old volume, and the exception would propagate from `handleVolume`. That throw is not modelled. The player bar sends only slider values (`PlayerBar.SentAreSliderValues`). With such values, `App.SliderDrivenVolumeInRange` shows that the element is never given a value outside [0, 1].
- Markup, CSS classes and the loading overlay are left out, as is the station list grid with its "No stations found" state (App.tsx:130-273). The previous/next buttons have no handlers and are left out. The unused `onStop` property is left out.
- components/StationCard.tsx and components/Visualizer.tsx are purely presentational (Visualizer uses `Math.random()`), so they are left out. The `PlayerState` and `ViewMode` declarations of types.ts are unused and are left out.
