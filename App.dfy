/** The application component: the playback controller (the current
    station, the playing and loading flags, the error banner, the volume
    and the one audio element) and the browse bookkeeping (the station
    list, its loading flag, the search box and the active tag).

    The pure part describes the controller as a value `Player` and each
    handler as an `Input` applied by `Step`; `Run` applies a sequence of
    inputs. The class `AppState` holds the same fields and has one method
    per handler, each proved to change its state exactly as `Step` says. */
module App {
  import opened Types
  import PlayerBar

  const StreamUnavailable: string := "Stream unavailable or blocked."
  const CannotPlay: string := "Cannot play this stream."

  /** The volume state starts at 0.8. */
  const InitialVolume: real := 0.8

  /** A fresh audio element has volume 1 and no source. */
  const ElementDefaultVolume: real := 1.0

  // ---------------------------------------------------------------------
  // The controller as a value
  // ---------------------------------------------------------------------

  /** The last thing the controller asked of the audio element. */
  datatype EngineRequest = RequestPlay | RequestPause

  /** What the controller has written into the audio element. */
  datatype AudioElement = AudioElement(src: string, volume: real, lastRequest: Option<EngineRequest>)

  datatype Player = Player(
    currentStation: Option<Station>,
    isPlaying: bool,
    isLoadingStream: bool,
    playerError: Option<string>,
    volume: real,
    audio: AudioElement)

  /** Everything that can change the controller: the three user commands,
      the five audio-element events, and the rejection of the `play()`
      promise started by `playStation` or by `togglePlay`. */
  datatype Input =
    | PlayStation(station: Station)
    | TogglePlay
    | HandleVolume(value: real)
    | AudioPlay
    | AudioPause
    | AudioWaiting
    | AudioPlaying
    | AudioError
    | StationPlayRejected
    | TogglePlayRejected

  const Initial: Player :=
    Player(None, false, false, None, InitialVolume, AudioElement("", ElementDefaultVolume, None))

  /** The resolved URL when there is one, otherwise the plain URL. */
  function PlaybackUrl(station: Station): string {
    if station.urlResolved != "" then station.urlResolved else station.url
  }

  /** Stations are compared by their identifier only. */
  predicate SameStation(current: Option<Station>, station: Station) {
    current.Some? && current.value.stationUuid == station.stationUuid
  }

  /** `togglePlay`: ask the element to pause when playing, to play
      otherwise; no controller field is written. */
  function Toggled(p: Player): (r: Player)
    ensures r.audio.lastRequest == Some(RequestPause) <==> p.isPlaying
    ensures r.audio.lastRequest == Some(RequestPlay) <==> !p.isPlaying
    ensures r.audio.src == p.audio.src && r.audio.volume == p.audio.volume
    ensures r.(audio := p.audio) == p
  {
    p.(audio := p.audio.(lastRequest := Some(if p.isPlaying then RequestPause else RequestPlay)))
  }

  function Step(p: Player, input: Input): Player {
    match input
    case PlayStation(station) =>
      if SameStation(p.currentStation, station) then Toggled(p)
      else p.(playerError := None, isLoadingStream := true, currentStation := Some(station),
               audio := AudioElement(PlaybackUrl(station), p.volume, Some(RequestPlay)))
    case TogglePlay => Toggled(p)
    case HandleVolume(v) => p.(volume := v, audio := p.audio.(volume := v))
    case AudioPlay => p.(isPlaying := true, isLoadingStream := false)
    case AudioPause => p.(isPlaying := false)
    case AudioWaiting => p.(isLoadingStream := true)
    case AudioPlaying => p.(isLoadingStream := false)
    case AudioError => p.(isLoadingStream := false, isPlaying := false, playerError := Some(StreamUnavailable))
    case StationPlayRejected => p.(isPlaying := false, isLoadingStream := false, playerError := Some(CannotPlay))
    case TogglePlayRejected => p
  }

  function Run(p: Player, inputs: seq<Input>): Player
    decreases |inputs|
  {
    if inputs == [] then p else Run(Step(p, inputs[0]), inputs[1..])
  }

  // ---------------------------------------------------------------------
  // Properties of every run
  // ---------------------------------------------------------------------

  predicate KnownError(e: Option<string>) {
    e == None || e == Some(StreamUnavailable) || e == Some(CannotPlay)
  }

  /** What holds in every reachable state: the element plays the current
      station's URL at the stored volume (and has no source before any
      station), and the banner shows one of the two messages or nothing. */
  predicate Inv(p: Player) {
    && (p.currentStation.None? ==> p.audio.src == "")
    && (p.currentStation.Some? ==>
          p.audio.src == PlaybackUrl(p.currentStation.value) && p.audio.volume == p.volume)
    && KnownError(p.playerError)
  }

  lemma {:induction false} RunPreservesInv(p: Player, inputs: seq<Input>)
    requires Inv(p)
    ensures Inv(Run(p, inputs))
    decreases |inputs|
  {
    if inputs != [] {
      RunPreservesInv(Step(p, inputs[0]), inputs[1..]);
    }
  }

  lemma ReachableInv(inputs: seq<Input>)
    ensures Inv(Run(Initial, inputs))
  {
    RunPreservesInv(Initial, inputs);
  }

  /** Once a station is loaded there is always one. */
  lemma {:induction false} StationIsSticky(p: Player, inputs: seq<Input>)
    requires p.currentStation.Some?
    ensures Run(p, inputs).currentStation.Some?
    decreases |inputs|
  {
    if inputs != [] {
      StationIsSticky(Step(p, inputs[0]), inputs[1..]);
    }
  }

  /** Every `playStation` in the run, if any, names the station that is
      already current, so each one only toggles. */
  predicate OnlyReselects(current: Option<Station>, inputs: seq<Input>) {
    forall i :: 0 <= i < |inputs| && inputs[i].PlayStation? ==> SameStation(current, inputs[i].station)
  }

  /** Without `playStation` of a different station the station and the
      element's source stay as they are, and a shown error is never
      cleared: no event, however successful, removes the banner. */
  lemma {:induction false} WithoutSelect(p: Player, inputs: seq<Input>)
    requires OnlyReselects(p.currentStation, inputs)
    ensures Run(p, inputs).currentStation == p.currentStation
    ensures Run(p, inputs).audio.src == p.audio.src
    ensures p.playerError.Some? ==> Run(p, inputs).playerError.Some?
    decreases |inputs|
  {
    if inputs != [] {
      var q := Step(p, inputs[0]);
      assert q.currentStation == p.currentStation;
      assert OnlyReselects(q.currentStation, inputs[1..]) by {
        forall i | 0 <= i < |inputs| - 1 && inputs[1..][i].PlayStation?
          ensures SameStation(q.currentStation, inputs[1..][i].station)
        {
          assert inputs[1..][i] == inputs[i + 1];
        }
      }
      WithoutSelect(q, inputs[1..]);
    }
  }

  /** The one step that can remove a shown error is `playStation` of a
      station other than the current one. */
  lemma ErrorClearedOnlyBySelect(p: Player, input: Input)
    requires p.playerError.Some? && Step(p, input).playerError.None?
    ensures input.PlayStation? && !SameStation(p.currentStation, input.station)
  {
  }

  /** Reference definition of the volume: the value of the last
      `handleVolume` call, or the starting value. */
  function LastVolume(v: real, inputs: seq<Input>): real
    decreases |inputs|
  {
    if inputs == [] then v
    else LastVolume(if inputs[0].HandleVolume? then inputs[0].value else v, inputs[1..])
  }

  lemma {:induction false} VolumeIsLastSet(p: Player, inputs: seq<Input>)
    ensures Run(p, inputs).volume == LastVolume(p.volume, inputs)
    decreases |inputs|
  {
    if inputs != [] {
      VolumeIsLastSet(Step(p, inputs[0]), inputs[1..]);
    }
  }

  /** `handleVolume` does not clamp; the volume stays a slider value only
      because every caller sends one. */
  lemma {:induction false} VolumeStaysSliderValue(p: Player, inputs: seq<Input>)
    requires PlayerBar.IsSliderValue(p.volume)
    requires forall i :: 0 <= i < |inputs| && inputs[i].HandleVolume? ==> PlayerBar.IsSliderValue(inputs[i].value)
    ensures PlayerBar.IsSliderValue(Run(p, inputs).volume)
    ensures 0.0 <= Run(p, inputs).volume <= 1.0
    decreases |inputs|
  {
    if inputs != [] {
      assert forall i :: 0 <= i < |inputs| - 1 && inputs[1..][i].HandleVolume? ==>
        PlayerBar.IsSliderValue(inputs[1..][i].value) by {
        forall i | 0 <= i < |inputs| - 1 && inputs[1..][i].HandleVolume?
          ensures PlayerBar.IsSliderValue(inputs[1..][i].value)
        {
          assert inputs[1..][i] == inputs[i + 1];
        }
      }
      VolumeStaysSliderValue(Step(p, inputs[0]), inputs[1..]);
    } else {
      var k: PlayerBar.SliderStep :| p.volume == PlayerBar.SliderValue(k);
    }
  }

  /** Every value the controller hands to the element stays in [0, 1]
      when the stored volume starts as a slider value and every
      `handleVolume` value is one: the element keeps either its starting
      volume or a slider value. */
  lemma {:induction false} ElementVolumeInRange(p: Player, inputs: seq<Input>)
    requires PlayerBar.IsSliderValue(p.volume) && 0.0 <= p.audio.volume <= 1.0
    requires forall i :: 0 <= i < |inputs| && inputs[i].HandleVolume? ==> PlayerBar.IsSliderValue(inputs[i].value)
    ensures 0.0 <= Run(p, inputs).audio.volume <= 1.0
    decreases |inputs|
  {
    if inputs != [] {
      var k: PlayerBar.SliderStep :| p.volume == PlayerBar.SliderValue(k);
      var q := Step(p, inputs[0]);
      if inputs[0].HandleVolume? {
        var j: PlayerBar.SliderStep :| inputs[0].value == PlayerBar.SliderValue(j);
      }
      assert PlayerBar.IsSliderValue(q.volume);
      assert forall i :: 0 <= i < |inputs| - 1 && inputs[1..][i].HandleVolume? ==>
        PlayerBar.IsSliderValue(inputs[1..][i].value) by {
        forall i | 0 <= i < |inputs| - 1 && inputs[1..][i].HandleVolume?
          ensures PlayerBar.IsSliderValue(inputs[1..][i].value)
        {
          assert inputs[1..][i] == inputs[i + 1];
        }
      }
      ElementVolumeInRange(q, inputs[1..]);
    }
  }

  /** From the initial state, with volumes coming only from the player bar,
      the stored volume and the element's volume both stay in [0, 1]. */
  lemma SliderDrivenVolumeInRange(inputs: seq<Input>)
    requires forall i :: 0 <= i < |inputs| && inputs[i].HandleVolume? ==> PlayerBar.IsSliderValue(inputs[i].value)
    ensures 0.0 <= Run(Initial, inputs).volume <= 1.0
    ensures 0.0 <= Run(Initial, inputs).audio.volume <= 1.0
  {
    assert PlayerBar.SliderValue(80) == InitialVolume;
    VolumeStaysSliderValue(Initial, inputs);
    ElementVolumeInRange(Initial, inputs);
  }

  /** A rejected start shows "Cannot play this stream." and stops the
      loading indicator; a later `play` event sets `isPlaying` but leaves
      the banner, so an error and playback can be shown together. */
  lemma RejectedThenPlaying(station: Station)
    ensures var rejected := Run(Initial, [PlayStation(station), StationPlayRejected]);
      && rejected.currentStation == Some(station)
      && rejected.playerError == Some(CannotPlay)
      && !rejected.isPlaying && !rejected.isLoadingStream
    ensures var later := Run(Initial, [PlayStation(station), StationPlayRejected, AudioPlay]);
      later.isPlaying && later.playerError == Some(CannotPlay)
  {
    var s1 := Step(Initial, PlayStation(station));
    var s2 := Step(s1, StationPlayRejected);
    var s3 := Step(s2, AudioPlay);
    assert Run(s2, []) == s2;
    assert Run(s3, []) == s3;
    assert Run(s2, [AudioPlay]) == s3;
    assert [PlayStation(station), StationPlayRejected][1..] == [StationPlayRejected];
    assert [PlayStation(station), StationPlayRejected, AudioPlay][1..] == [StationPlayRejected, AudioPlay];
    assert [StationPlayRejected, AudioPlay][1..] == [AudioPlay];
  }

  /** Selecting a new station twice in a row: the second call only
      toggles, on the `isPlaying` left from before the first call, so it
      asks to play again if the previous station was not playing and to
      pause if it was. */
  lemma SelectTwice(p: Player, station: Station)
    requires !SameStation(p.currentStation, station)
    ensures Run(p, [PlayStation(station), PlayStation(station)]) == Toggled(Step(p, PlayStation(station)))
    ensures var q := Run(p, [PlayStation(station), PlayStation(station)]);
      && q.currentStation == Some(station)
      && q.audio.src == PlaybackUrl(station)
      && q.playerError == None && q.isLoadingStream
      && q.audio.lastRequest == Some(if p.isPlaying then RequestPause else RequestPlay)
      && q.isPlaying == p.isPlaying && q.volume == p.volume && q.audio.volume == p.volume
  {
    var s1 := Step(p, PlayStation(station));
    var s2 := Step(s1, PlayStation(station));
    assert Run(s2, []) == s2;
    assert [PlayStation(station), PlayStation(station)][1..] == [PlayStation(station)];
  }

  // ---------------------------------------------------------------------
  // Browse bookkeeping
  // ---------------------------------------------------------------------

  /** The directory query a browse handler starts; its result arrives
      later through `OnStationsLoaded`. */
  datatype DirectoryCall = TopCall(limit: nat) | SearchCall(query: string) | GenreCall(genre: string)

  /** The limit the application asks for top stations. */
  const TopLimit: nat := 30

  /** White space and line terminators as `String.prototype.trim`
      removes them. */
  predicate IsJsWhitespace(c: char) {
    || c == '\t' || c == '\n' || c == '\U{000B}' || c == '\U{000C}' || c == '\r'
    || c == ' ' || c == '\U{00A0}' || c == '\U{1680}'
    || ('\U{2000}' <= c <= '\U{200A}')
    || c == '\U{2028}' || c == '\U{2029}' || c == '\U{202F}' || c == '\U{205F}'
    || c == '\U{3000}' || c == '\U{FEFF}'
  }

  /** `s.trim()` is the empty string. */
  predicate IsBlank(s: string) {
    forall i :: 0 <= i < |s| ==> IsJsWhitespace(s[i])
  }

  // ---------------------------------------------------------------------
  // The component
  // ---------------------------------------------------------------------

  class AppState {
    // Player state
    var currentStation: Option<Station>
    var isPlaying: bool
    var isLoadingStream: bool
    var playerError: Option<string>
    var volume: real
    var audio: AudioElement

    // Data and search state
    var stations: seq<Station>
    var loadingData: bool
    var searchQuery: string
    var activeTag: string

    function Snap(): Player
      reads this
    {
      Player(currentStation, isPlaying, isLoadingStream, playerError, volume, audio)
    }

    constructor ()
      ensures Snap() == Initial
      ensures stations == [] && loadingData && searchQuery == "" && activeTag == "Top"
    {
      currentStation, isPlaying, isLoadingStream, playerError := None, false, false, None;
      volume := InitialVolume;
      audio := AudioElement("", ElementDefaultVolume, None);
      stations, loadingData, searchQuery, activeTag := [], true, "", "Top";
    }

    /** A click on a station card. The same station (by identifier) is a
        toggle; any other one replaces the current station, points the
        element at its URL with the stored volume and asks it to play. */
    method PlayStation(station: Station)
      modifies this`currentStation, this`isLoadingStream, this`playerError, this`audio
      ensures Snap() == Step(old(Snap()), Input.PlayStation(station))
      ensures old(SameStation(currentStation, station)) ==>
                && currentStation == old(currentStation) && playerError == old(playerError)
                && isLoadingStream == old(isLoadingStream)
                && audio == old(audio).(lastRequest := Some(if isPlaying then RequestPause else RequestPlay))
      ensures !old(SameStation(currentStation, station)) ==>
                && playerError == None && isLoadingStream && currentStation == Some(station)
                && audio == AudioElement(PlaybackUrl(station), volume, Some(RequestPlay))
      ensures isPlaying == old(isPlaying) && volume == old(volume)
    {
      if currentStation.Some? && currentStation.value.stationUuid == station.stationUuid {
        TogglePlay();
        return;
      }
      playerError := None;
      isLoadingStream := true;
      currentStation := Some(station);
      audio := audio.(src := if station.urlResolved != "" then station.urlResolved else station.url);
      audio := audio.(volume := volume);
      audio := audio.(lastRequest := Some(RequestPlay));
    }

    /** The play/pause button. */
    method TogglePlay()
      modifies this`audio
      ensures audio == old(audio).(lastRequest := Some(if isPlaying then RequestPause else RequestPlay))
      ensures Snap() == Step(old(Snap()), Input.TogglePlay)
    {
      if isPlaying {
        audio := audio.(lastRequest := Some(RequestPause));
      } else {
        audio := audio.(lastRequest := Some(RequestPlay));
      }
    }

    /** The volume callback: store the value and hand the same value to
        the element, unclamped and with or without a station. */
    method HandleVolume(value: real)
      modifies this`volume, this`audio
      ensures volume == value && audio == old(audio).(volume := value)
      ensures Snap() == Step(old(Snap()), Input.HandleVolume(value))
    {
      volume := value;
      audio := audio.(volume := value);
    }

    /** The element's `play` event. */
    method OnPlay()
      modifies this`isPlaying, this`isLoadingStream
      ensures isPlaying && !isLoadingStream
      ensures Snap() == Step(old(Snap()), AudioPlay)
    {
      isPlaying := true;
      isLoadingStream := false;
    }

    /** The element's `pause` event. */
    method OnPause()
      modifies this`isPlaying
      ensures !isPlaying
      ensures Snap() == Step(old(Snap()), AudioPause)
    {
      isPlaying := false;
    }

    /** The element's `waiting` event. */
    method OnWaiting()
      modifies this`isLoadingStream
      ensures isLoadingStream
      ensures Snap() == Step(old(Snap()), AudioWaiting)
    {
      isLoadingStream := true;
    }

    /** The element's `playing` event. */
    method OnPlaying()
      modifies this`isLoadingStream
      ensures !isLoadingStream
      ensures Snap() == Step(old(Snap()), AudioPlaying)
    {
      isLoadingStream := false;
    }

    /** The element's `error` event. */
    method OnError()
      modifies this`isPlaying, this`isLoadingStream, this`playerError
      ensures !isPlaying && !isLoadingStream && playerError == Some(StreamUnavailable)
      ensures Snap() == Step(old(Snap()), AudioError)
    {
      isLoadingStream := false;
      isPlaying := false;
      playerError := Some(StreamUnavailable);
    }

    /** Rejection of the `play()` started by `PlayStation`. */
    method OnStationPlayRejected()
      modifies this`isPlaying, this`isLoadingStream, this`playerError
      ensures !isPlaying && !isLoadingStream && playerError == Some(CannotPlay)
      ensures Snap() == Step(old(Snap()), StationPlayRejected)
    {
      isPlaying := false;
      isLoadingStream := false;
      playerError := Some(CannotPlay);
    }

    /** Rejection of the `play()` started by `TogglePlay`: only logged. */
    method OnTogglePlayRejected()
      ensures Snap() == Step(old(Snap()), TogglePlayRejected)
    {
    }

    /** Typing in the search box. */
    method SetSearchQuery(text: string)
      modifies this`searchQuery
      ensures searchQuery == text
    {
      searchQuery := text;
    }

    /** Start loading the top stations. */
    method LoadTopStations() returns (call: DirectoryCall)
      modifies this`loadingData, this`activeTag
      ensures loadingData && activeTag == "Top" && call == TopCall(TopLimit)
    {
      loadingData := true;
      activeTag := "Top";
      call := TopCall(TopLimit);
    }

    /** Submitting the search form: nothing happens for a blank query;
        otherwise the untrimmed query is searched. */
    method HandleSearch() returns (call: Option<DirectoryCall>)
      modifies this`loadingData, this`activeTag
      ensures IsBlank(searchQuery) ==>
                call == None && loadingData == old(loadingData) && activeTag == old(activeTag)
      ensures !IsBlank(searchQuery) ==>
                call == Some(SearchCall(searchQuery)) && loadingData && activeTag == "Search"
    {
      if IsBlank(searchQuery) {
        return None;
      }
      loadingData := true;
      activeTag := "Search";
      call := Some(SearchCall(searchQuery));
    }

    /** A genre pill: the tag becomes the genre and the search box is
        cleared. */
    method HandleGenreClick(genre: string) returns (call: DirectoryCall)
      modifies this`loadingData, this`activeTag, this`searchQuery
      ensures loadingData && activeTag == genre && searchQuery == "" && call == GenreCall(genre)
    {
      loadingData := true;
      activeTag := genre;
      searchQuery := "";
      call := GenreCall(genre);
    }

    /** The awaited query of any browse handler has produced its list. */
    method OnStationsLoaded(data: seq<Station>)
      modifies this`stations, this`loadingData
      ensures stations == data && !loadingData
    {
      stations := data;
      loadingData := false;
    }
  }
}
