/** The top-level coordinator (App.tsx): it owns the two collections and the
    admin-open and music-playing flags, loads the collections from the
    browser's key-value store once at start-up and writes each collection
    through to its own key on every update. The crash barrier that wraps the
    page is `ErrorBoundary`. JSON text is abstracted by a `Codec`: a pair of
    serialise and parse functions per collection, parse answering `None`
    where `JSON.parse` throws. */
module App {
  import opened Types
  import opened Text
  import AdminPanel
  import MusicPlayer

  /** The two storage keys of version `v21`. */
  const CAROUSEL_KEY: string := "chen_music_carousel_v21"
  const TRACKS_KEY: string := "chen_music_tracks_v21"

  /** `getItem(key)` on a store's contents: the stored text, or nothing
      (`null`). */
  function Lookup(store: map<string, string>, key: string): Option<string>
  {
    if key in store then Some(store[key]) else None
  }

  /** The browser's per-origin key-value store (`localStorage`). */
  class LocalStorage {
    var items: map<string, string>

    constructor (initial: map<string, string>)
      ensures items == initial
    {
      items := initial;
    }

    /** `getItem(key)`: the stored text, or nothing (`null`). */
    function GetItem(key: string): Option<string>
      reads this
    {
      Lookup(items, key)
    }

    /** `setItem(key, value)` changes that key and no other. */
    method SetItem(key: string, value: string)
      modifies this
      ensures items == old(items)[key := value]
    {
      items := items[key := value];
    }

    /** `clear()` removes every key. */
    method Clear()
      modifies this
      ensures items == map[]
    {
      items := map[];
    }
  }

  datatype Codec = Codec(
    serialiseImages: seq<CarouselImage> -> string,
    parseImages: string -> Option<seq<CarouselImage>>,
    serialiseTracks: seq<MusicTrack> -> string,
    parseTracks: string -> Option<seq<MusicTrack>>)

  /** What `JSON.stringify` and `JSON.parse` promise each other on arrays of
      records: the text is never empty and parses back to the same value. */
  ghost predicate RoundTrips(c: Codec)
  {
    && (forall xs :: c.serialiseImages(xs) != "" && c.parseImages(c.serialiseImages(xs)) == Some(xs))
    && (forall ys :: c.serialiseTracks(ys) != "" && c.parseTracks(c.serialiseTracks(ys)) == Some(ys))
  }

  datatype Snapshot = Snapshot(images: seq<CarouselImage>, tracks: seq<MusicTrack>)

  /** The state before the load effect has run (App.tsx:52-53). */
  const DEFAULTS: Snapshot := Snapshot(INITIAL_CAROUSEL, INITIAL_TRACKS)

  /** `if (saved)`: a missing key (`null`) and the empty string are both false. */
  function Present(saved: Option<string>): bool
  {
    saved.Some? && saved.value != ""
  }

  /** The gallery step of the load effect does not throw: the gallery key is
      missing or empty, or its text parses. */
  predicate GalleryStepSucceeds(store: map<string, string>, codec: Codec)
  {
    !Present(Lookup(store, CAROUSEL_KEY)) || codec.parseImages(store[CAROUSEL_KEY]).Some?
  }

  /** The load effect (App.tsx:57-78) applied to the collections `current`:
      each key present replaces its collection by the parsed text, each key
      absent restores the default. A gallery text that fails to parse throws
      before either collection is set; a track text that fails to parse
      throws after the gallery was set. */
  function Load(store: map<string, string>, codec: Codec, current: Snapshot): (r: Snapshot)
    ensures !Present(Lookup(store, CAROUSEL_KEY)) ==> r.images == INITIAL_CAROUSEL
    ensures !GalleryStepSucceeds(store, codec) ==> r == current
    ensures Present(Lookup(store, CAROUSEL_KEY)) && GalleryStepSucceeds(store, codec) ==>
      codec.parseImages(store[CAROUSEL_KEY]) == Some(r.images)
    ensures GalleryStepSucceeds(store, codec) && !Present(Lookup(store, TRACKS_KEY)) ==>
      r.tracks == INITIAL_TRACKS
    ensures GalleryStepSucceeds(store, codec) && Present(Lookup(store, TRACKS_KEY)) ==>
      match codec.parseTracks(store[TRACKS_KEY])
      case None => r.tracks == current.tracks
      case Some(ys) => r.tracks == ys
  {
    var savedImages := Lookup(store, CAROUSEL_KEY);
    var savedTracks := Lookup(store, TRACKS_KEY);
    var images := if Present(savedImages) then codec.parseImages(savedImages.value) else Some(INITIAL_CAROUSEL);
    match images
    case None => current
    case Some(imgs) =>
      var tracks := if Present(savedTracks) then codec.parseTracks(savedTracks.value) else Some(INITIAL_TRACKS);
      match tracks
      case None => Snapshot(imgs, current.tracks)
      case Some(trks) => Snapshot(imgs, trks)
  }

  /** An empty store yields the compiled-in defaults, whatever was shown. */
  lemma LoadEmptyStore(codec: Codec, current: Snapshot)
    ensures Load(map[], codec, current) == DEFAULTS
  {
  }

  /** A key holding the empty string is treated as a missing key. */
  lemma EmptyTextIsAbsent(store: map<string, string>, codec: Codec, current: Snapshot, key: string)
    requires key == CAROUSEL_KEY || key == TRACKS_KEY
    ensures Load(store[key := ""], codec, current) == Load(store - {key}, codec, current)
  {
  }

  /** A gallery text that fails to parse leaves both collections as they
      were: the exception skips the track load too. */
  lemma GalleryParseFailureKeepsBoth(store: map<string, string>, codec: Codec, current: Snapshot)
    requires CAROUSEL_KEY in store && store[CAROUSEL_KEY] != ""
    requires codec.parseImages(store[CAROUSEL_KEY]).None?
    ensures Load(store, codec, current) == current
  {
  }

  /** A track text that fails to parse still lets the gallery be replaced. */
  lemma TrackParseFailureKeepsGallery(store: map<string, string>, codec: Codec, current: Snapshot, xs: seq<CarouselImage>)
    requires CAROUSEL_KEY in store && store[CAROUSEL_KEY] != ""
    requires codec.parseImages(store[CAROUSEL_KEY]) == Some(xs)
    requires TRACKS_KEY in store && store[TRACKS_KEY] != ""
    requires codec.parseTracks(store[TRACKS_KEY]).None?
    ensures Load(store, codec, current) == Snapshot(xs, current.tracks)
  {
  }

  /** Only the two versioned keys matter to the load. */
  lemma LoadReadsOnlyItsKeys(s1: map<string, string>, s2: map<string, string>, codec: Codec, current: Snapshot)
    requires Lookup(s1, CAROUSEL_KEY) == Lookup(s2, CAROUSEL_KEY)
    requires Lookup(s1, TRACKS_KEY) == Lookup(s2, TRACKS_KEY)
    ensures Load(s1, codec, current) == Load(s2, codec, current)
  {
  }

  /** Write-through then load: what was written to the gallery key is what a
      later load shows, whatever the track key holds. */
  lemma LoadAfterImagesWrite(store: map<string, string>, codec: Codec, current: Snapshot, xs: seq<CarouselImage>)
    requires RoundTrips(codec)
    ensures Load(store[CAROUSEL_KEY := codec.serialiseImages(xs)], codec, current).images == xs
  {
  }

  /** Write-through then load, for tracks: if the gallery key loads, a later
      load shows the tracks that were written. */
  lemma LoadAfterTracksWrite(store: map<string, string>, codec: Codec, current: Snapshot, ys: seq<MusicTrack>)
    requires RoundTrips(codec)
    requires GalleryStepSucceeds(store, codec)
    ensures Load(store[TRACKS_KEY := codec.serialiseTracks(ys)], codec, current).tracks == ys
  {
  }

  /** Both collections written: a later load gives back both. */
  lemma LoadAfterBothWrites(store: map<string, string>, codec: Codec, current: Snapshot,
                            xs: seq<CarouselImage>, ys: seq<MusicTrack>)
    requires RoundTrips(codec)
    ensures Load(store[CAROUSEL_KEY := codec.serialiseImages(xs)][TRACKS_KEY := codec.serialiseTracks(ys)],
                 codec, current) == Snapshot(xs, ys)
  {
  }

  class App {
    var images: seq<CarouselImage>
    var tracks: seq<MusicTrack>
    var isAdminOpen: bool
    var isMusicPlaying: bool
    const storage: LocalStorage
    const codec: Codec

    /** App.tsx:52-55: defaults, panel closed, music off. */
    constructor (storage: LocalStorage, codec: Codec)
      ensures this.storage == storage && this.codec == codec
      ensures images == INITIAL_CAROUSEL && tracks == INITIAL_TRACKS
      ensures !isAdminOpen && !isMusicPlaying
    {
      this.storage := storage;
      this.codec := codec;
      images := INITIAL_CAROUSEL;
      tracks := INITIAL_TRACKS;
      isAdminOpen := false;
      isMusicPlaying := false;
    }

    /** The load effect (App.tsx:57-78); it reads the store and writes nothing. */
    method LoadFromStorage()
      modifies this
      ensures Snapshot(images, tracks) == Load(storage.items, codec, old(Snapshot(images, tracks)))
      ensures isAdminOpen == old(isAdminOpen) && isMusicPlaying == old(isMusicPlaying)
    {
      var savedImages := storage.GetItem(CAROUSEL_KEY);
      var savedTracks := storage.GetItem(TRACKS_KEY);
      if Present(savedImages) {
        var parsed := codec.parseImages(savedImages.value);
        if parsed.None? {
          return;
        }
        images := parsed.value;
      } else {
        images := INITIAL_CAROUSEL;
      }
      if Present(savedTracks) {
        var parsed := codec.parseTracks(savedTracks.value);
        if parsed.None? {
          return;
        }
        tracks := parsed.value;
      } else {
        tracks := INITIAL_TRACKS;
      }
    }

    /** `handleUpdateImages` (App.tsx:80-83): the gallery is replaced and
        written to its key; the track key and every other key keep their text. */
    method HandleUpdateImages(newImages: seq<CarouselImage>)
      modifies this, storage
      ensures images == newImages && tracks == old(tracks)
      ensures storage.items == old(storage.items)[CAROUSEL_KEY := codec.serialiseImages(newImages)]
      ensures isAdminOpen == old(isAdminOpen) && isMusicPlaying == old(isMusicPlaying)
    {
      images := newImages;
      storage.SetItem(CAROUSEL_KEY, codec.serialiseImages(newImages));
    }

    /** `handleUpdateTracks` (App.tsx:85-88), touching only the track key. */
    method HandleUpdateTracks(newTracks: seq<MusicTrack>)
      modifies this, storage
      ensures tracks == newTracks && images == old(images)
      ensures storage.items == old(storage.items)[TRACKS_KEY := codec.serialiseTracks(newTracks)]
      ensures isAdminOpen == old(isAdminOpen) && isMusicPlaying == old(isMusicPlaying)
    {
      tracks := newTracks;
      storage.SetItem(TRACKS_KEY, codec.serialiseTracks(newTracks));
    }

    /** The header's admin button opens the panel directly, with no check
        (App.tsx:94). */
    method AdminClicked()
      modifies this
      ensures isAdminOpen
      ensures images == old(images) && tracks == old(tracks) && isMusicPlaying == old(isMusicPlaying)
    {
      isAdminOpen := true;
    }

    /** The panel's close action (App.tsx:118). */
    method AdminClosed()
      modifies this
      ensures !isAdminOpen
      ensures images == old(images) && tracks == old(tracks) && isMusicPlaying == old(isMusicPlaying)
    {
      isAdminOpen := false;
    }

    /** The header's music toggle (App.tsx:97). */
    method ToggleMusic()
      modifies this
      ensures isMusicPlaying == !old(isMusicPlaying)
      ensures images == old(images) && tracks == old(tracks) && isAdminOpen == old(isAdminOpen)
    {
      isMusicPlaying := !isMusicPlaying;
    }

    /** The player's report (App.tsx:104) assigns the flag. */
    method PlaybackChanged(playing: bool)
      modifies this
      ensures isMusicPlaying == playing
      ensures images == old(images) && tracks == old(tracks) && isAdminOpen == old(isAdminOpen)
    {
      isMusicPlaying := playing;
    }
  }

  datatype Screen = Page | RecoveryScreen

  /** The crash barrier (App.tsx:20-49). */
  class ErrorBoundary {
    var hasError: bool
    const storage: LocalStorage

    constructor (storage: LocalStorage)
      ensures !hasError && this.storage == storage
    {
      hasError := false;
      this.storage := storage;
    }

    /** `getDerivedStateFromError` (App.tsx:29-31): any render failure below. */
    method RenderFailed()
      modifies this
      ensures hasError
    {
      hasError := true;
    }

    /** App.tsx:33-47: once an error is caught, only the recovery screen. */
    function Shows(): Screen
      reads this
    {
      if hasError then RecoveryScreen else Page
    }

    /** The recovery button (App.tsx:39), present only on the recovery
        screen, empties the whole store; the reload that follows is a fresh
        `App`. */
    method ResetAndReload()
      requires hasError
      modifies storage
      ensures storage.items == map[]
    {
      storage.Clear();
    }
  }

  /** An operator opens the panel, adds an image with a title and a URL, and
      the page is reloaded: the reloaded gallery is the one before the add
      with exactly the new entry after it. */
  method AddImagePersistsScenario(initial: map<string, string>, codec: Codec,
                                  title: string, url: string, clock: nat)
    returns (before: seq<CarouselImage>, reloaded: seq<CarouselImage>)
    requires RoundTrips(codec)
    requires !IsBlank(title) && !IsBlank(url)
    ensures reloaded == before + [CarouselImage(AdminPanel.ImageId(clock), url, title, "")]
    ensures |reloaded| == |before| + 1
  {
    var storage := new LocalStorage(initial);
    var app := new App(storage, codec);
    app.LoadFromStorage();
    app.AdminClicked();
    before := app.images;
    var emitted, _ := AdminPanel.AddImageScenario(before, title, url, clock);
    reloaded := WriteThroughAndReload(app, emitted.value);
  }

  /** The page's gallery update followed by a reload: a fresh page loading
      from the same store shows the gallery that was written. */
  method WriteThroughAndReload(app: App, xs: seq<CarouselImage>) returns (reloaded: seq<CarouselImage>)
    requires RoundTrips(app.codec)
    modifies app, app.storage
    ensures reloaded == xs
  {
    ghost var beforeWrite := app.storage.items;
    app.HandleUpdateImages(xs);
    LoadAfterImagesWrite(beforeWrite, app.codec, DEFAULTS, xs);
    var reloadedApp := new App(app.storage, app.codec);
    reloadedApp.LoadFromStorage();
    reloaded := reloadedApp.images;
  }

  /** A render failure, the recovery button and the reload: whatever the
      store held, the page comes back with the compiled-in defaults. */
  method RecoveryScenario(initial: map<string, string>, codec: Codec)
    returns (screen: Screen, afterReload: Snapshot)
    ensures screen == RecoveryScreen
    ensures afterReload == DEFAULTS
  {
    var storage := new LocalStorage(initial);
    var boundary := new ErrorBoundary(storage);
    boundary.RenderFailed();
    screen := boundary.Shows();
    boundary.ResetAndReload();
    var app := new App(storage, codec);
    app.LoadFromStorage();
    afterReload := Snapshot(app.images, app.tracks);
  }

  /** The header and the player share the playing flag: the page passes
      `isMusicPlaying` down as the player's external control (always defined)
      and takes the player's reports back (App.tsx:97, 103-104). After a track
      is started from the list, the header toggle pauses it. */
  method HeaderPausesScenario(codec: Codec, tracks: seq<MusicTrack>, idx: nat)
    returns (command: MusicPlayer.AudioCommand, headerShowsPlaying: bool)
    requires idx < |tracks| && idx < MusicPlayer.DISPLAY_LIMIT
    ensures command == MusicPlayer.Pause && !headerShowsPlaying
  {
    var storage := new LocalStorage(map[]);
    var app := new App(storage, codec);
    var player := new MusicPlayer.Player();
    var report := player.HandleTrackSelect(idx);
    app.PlaybackChanged(report);
    player.ExternalControlChanged(Some(app.isMusicPlaying));
    app.ToggleMusic();
    player.ExternalControlChanged(Some(app.isMusicPlaying));
    command := player.PlaybackCommand(tracks);
    headerShowsPlaying := app.isMusicPlaying;
  }

  /** The mini-player button does not report to the page (MusicPlayer.tsx:122),
      so after pausing there the header still shows "playing", and the next
      header click only confirms the pause instead of resuming. */
  method MiniPlayerPauseScenario(codec: Codec, tracks: seq<MusicTrack>, idx: nat)
    returns (headerAfterMiniPause: bool, commandAfterHeaderClick: MusicPlayer.AudioCommand)
    requires idx < |tracks| && idx < MusicPlayer.DISPLAY_LIMIT
    ensures headerAfterMiniPause
    ensures commandAfterHeaderClick == MusicPlayer.Pause
  {
    var storage := new LocalStorage(map[]);
    var app := new App(storage, codec);
    var player := new MusicPlayer.Player();
    var report := player.HandleTrackSelect(idx);
    app.PlaybackChanged(report);
    player.ExternalControlChanged(Some(app.isMusicPlaying));
    player.ToggleFromMiniPlayer();
    headerAfterMiniPause := app.isMusicPlaying;
    app.ToggleMusic();
    player.ExternalControlChanged(Some(app.isMusicPlaying));
    commandAfterHeaderClick := player.PlaybackCommand(tracks);
  }
}
