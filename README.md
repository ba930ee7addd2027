# chen-music: a verified model of the site's state logic

The site is a promotional single-page React application for a music label:
a gallery strip, a track list with an audio player, and an editing panel
that adds and removes gallery images and tracks and keeps both collections
in the browser's `localStorage`. Under the markup sit four small pieces of
state-holding logic, modelled here module by module:

- `AdminPanel` (components/AdminPanel.tsx): the editing panel. The class
  `Panel` holds the two entry forms, the active tab and the success flag;
  its add methods emit a full replacement collection built by the pure
  functions `ImageSubmission` and `TrackSubmission`. Removal is the pure
  filter `RemoveImage` / `RemoveTrack`, behind a confirmation. Uploads are
  gated at 1.5 MiB. `Collections` holds the generic filter-by-identifier
  (`Without`) with its order, multiplicity and append laws. `Text` holds
  JavaScript's `trim` presence test and the decimal rendering of the clock
  value used in identifiers (`img_<ms>`, `t_<ms>`).
- `MusicPlayer` (components/MusicPlayer.tsx): the class `Player` with the
  nullable current index and `isPlaying`. It covers selection (a toggle on
  the current track, a start on another), the external-control effect, the
  play/pause effect as a command to the single audio element, a rejected
  `play()`, the wrap-around `onEnded` step and the mini-player toggle. The
  displayed list is the first twelve tracks.
- `Carousel` (components/Carousel.tsx): the class `Carousel` with the
  pause flag, the interval timer and the scroll offset. Each tick either
  wraps to 0 or steps 420 pixels. It is proved that uninterrupted ticks from
  the start step card by card and then wrap, in a fixed period.
- `App` (App.tsx): the class `App` (collections, admin and music flags),
  the class `LocalStorage` (a `map<string, string>`), the load effect as the
  function `Load`, write-through on each update, and the crash barrier
  `ErrorBoundary`, whose recovery button clears the store. JSON is a
  `Codec`: a serialise function and a parse function per collection, where
  parse gives `None` when `JSON.parse` would throw. `RoundTrips` is the
  assumption that parse inverts serialise and that serialised text is never
  empty. The persistence lemmas take it as a hypothesis.

Browser collaborators are inputs or events. `Date.now()` is a `clock`
parameter. `confirm` is a `confirmed` flag, and `alert` is the `None` or
`TooLarge` outcome. The chosen file is its size, and the reader's result is
the event `FileRead`. Timers are the events `Tick` and `SuccessTimerFired`.
A rejected `play()` is `PlayRejected`, and the end of a track is `OnEnded`.
React effects are methods the caller invokes after the state they depend on
has changed.

A few facts about the code that a reader might expect otherwise:

- The admin button opens the panel with no password (App.tsx:94).
  `ADMIN_PASSWORD` is defined at constants.ts:70 but never read.
- Keys of other versions are never purged.
- The player has no category filter and no loading or error states.
- Parsed data is not checked for shape.
- `localStorage.setItem` in `handleUpdateImages` and `handleUpdateTracks`
  is not inside a `try`, so a failing write is not caught.
- The gallery renders every image. Only the indicators stop at six.
- `if (savedImages)` treats a stored empty string like a missing key, so
  the defaults are restored (`EmptyTextIsAbsent`).
- Identifiers are unique only across distinct clock values
  (`ImageIdInjective`). Two adds in the same millisecond collide.
- The panel is mounted only while `isAdminOpen` holds (App.tsx:112-120), so
  every opening starts a fresh `Panel`: empty forms, the images tab, no
  success flag. The model does not tie a `Panel` object's lifetime to
  `App.isAdminOpen`; a caller creates a new one on each `AdminClicked`.
- With a single displayed track, the end of the track sets the index it
  already has, so React does not re-render and the play/pause effect does
  not run again: the element stays ended while `isPlaying` stays true
  (`SingleTrackEndScenario`).

## Model

| member | source | states |
|---|---|---|
| Text.Trim | components/AdminPanel.tsx:39 | `trim()` gives the piece of the input that neither starts nor ends with JavaScript whitespace and has only whitespace before and after it in the input |
| Text.IsBlank | components/AdminPanel.tsx:39 | the `!s.trim()` test holds exactly when every character is whitespace |
| Text.Decimal | components/AdminPanel.tsx:43 | a clock value is written as decimal digits with no leading zero |
| Text.DecimalRoundTrip | components/AdminPanel.tsx:43 | reading back the written digits gives the clock value |
| Text.DecimalInjective | components/AdminPanel.tsx:43 | distinct clock values are written differently |
| AdminPanel.ImageId | components/AdminPanel.tsx:43 | an image identifier is `img_` followed by digits that read back as the clock value |
| AdminPanel.TrackId | components/AdminPanel.tsx:61 | a track identifier is `t_` followed by digits that read back as the clock value |
| AdminPanel.ImageIdInjective | components/AdminPanel.tsx:43 | `img_<clock>` identifiers differ for different clock values |
| AdminPanel.TrackIdInjective | components/AdminPanel.tsx:61 | `t_<clock>` identifiers differ for different clock values |
| AdminPanel.UploadGate | components/AdminPanel.tsx:24-34 | no file: nothing; size above 1.5 × 1024 × 1024 bytes: refused; a file of exactly that size or less: read |
| AdminPanel.Panel.HandleFileUpload | components/AdminPanel.tsx:23-36 | refuses exactly the files over 1 572 864 bytes and starts reading the others, changing no state |
| AdminPanel.Panel.FileRead | components/AdminPanel.tsx:31-33 | the data URL replaces the form's URL field only; every other field and flag is kept |
| AdminPanel.ImageSubmission | components/AdminPanel.tsx:39-44 | nothing is emitted iff the URL or the title is all whitespace; otherwise exactly one entry is appended, old entries keep their positions, and the new entry has id `img_<clock>` and the form's title, subtitle and URL |
| AdminPanel.TrackSubmission | components/AdminPanel.tsx:57-62 | only a blank title or URL blocks the add (artist and cover may be empty); otherwise one entry `t_<clock>` carrying the form's fields is appended |
| AdminPanel.RemoveImage | components/AdminPanel.tsx:50-54 | emits iff confirmed; the result has no entry with that id, keeps every other entry, is an order-preserving subsequence, and is shorter by the number of matches |
| AdminPanel.RemoveTrack | components/AdminPanel.tsx:68-72 | the same for tracks |
| AdminPanel.AddThenRemoveImage | components/AdminPanel.tsx:43-52 | removing a just-added image whose id was new gives back the list before the add |
| AdminPanel.AddThenRemoveTrack | components/AdminPanel.tsx:61-70 | removing a just-added track whose id was new gives back the list before the add |
| AdminPanel.Panel.constructor | components/AdminPanel.tsx:16-21 | images tab, no success flag, empty image form, empty track form with the first category |
| AdminPanel.Panel.SelectTab | components/AdminPanel.tsx:97-108 | the tab changes and nothing else |
| AdminPanel.Panel.EditImage | components/AdminPanel.tsx:131-139 | one field of the image form takes the typed value; nothing else changes |
| AdminPanel.Panel.EditTrack | components/AdminPanel.tsx:171-181 | one field of the track form (title, category from the list, URL) takes the value; nothing else changes |
| AdminPanel.Panel.AddImage | components/AdminPanel.tsx:38-48 | emits `ImageSubmission` of the form; refused leaves the form and flag unchanged; accepted clears the form and sets the success flag |
| AdminPanel.Panel.AddTrack | components/AdminPanel.tsx:56-66 | emits `TrackSubmission`; accepted resets the form with category `CATEGORIES[0]` and sets the success flag |
| AdminPanel.Panel.SuccessTimerFired | components/AdminPanel.tsx:47 | the 1500 ms timer clears the success flag and nothing else |
| AdminPanel.AddImageScenario | components/AdminPanel.tsx:38-48 | typing a title and a URL and adding emits the old list plus exactly the entry typed, with an empty subtitle, and clears the form |
| Collections.Without | components/AdminPanel.tsx:52 | the filter keeps exactly the entries whose key differs from the id |
| Collections.WithoutIsSubsequence | components/AdminPanel.tsx:52 | the filter keeps the relative order of what it keeps |
| Collections.WithoutMultiplicity | components/AdminPanel.tsx:70 | every copy of a kept entry survives and no copy of a dropped one |
| Collections.WithoutLength | components/AdminPanel.tsx:70 | the length drops by exactly the number of entries with that id |
| Collections.WithoutAppend | components/AdminPanel.tsx:44-52 | filtering distributes over concatenation |
| Collections.WithoutUnchanged | components/AdminPanel.tsx:52 | the filter changes nothing iff no entry has the id |
| Collections.WithoutIdempotent | components/AdminPanel.tsx:52 | filtering twice is filtering once |
| Collections.AppendThenRemove | components/AdminPanel.tsx:44-52 | append an entry with a new key, then remove that key: the original list |
| Collections.AppendThenRemoveOther | components/AdminPanel.tsx:44-52 | appending an entry with another key commutes with removal |
| MusicPlayer.DisplayTracks | components/MusicPlayer.tsx:17 | the displayed list is the first min(12, n) tracks, in order |
| MusicPlayer.CurrentTrack | components/MusicPlayer.tsx:18 | a track is current iff an index is set and below both the list length and 12, and it is that track of the prop list |
| MusicPlayer.NextIndex | components/MusicPlayer.tsx:113 | the next index is in range, one more than a valid index, or 0 after the last |
| MusicPlayer.AdvanceWithinRun | components/MusicPlayer.tsx:113 | before the end, each ending moves exactly one track on |
| MusicPlayer.AdvanceCompose | components/MusicPlayer.tsx:113 | consecutive endings compose additively |
| MusicPlayer.WrapsToFirst | components/MusicPlayer.tsx:113 | ending the last track makes the first one current |
| MusicPlayer.FullCycle | components/MusicPlayer.tsx:113 | after n endings over n displayed tracks the player is back at the start track |
| MusicPlayer.VisitsEveryTrack | components/MusicPlayer.tsx:113 | automatic advance reaches every displayed track within n endings |
| MusicPlayer.Player.constructor | components/MusicPlayer.tsx:13-14 | no current track, not playing |
| MusicPlayer.Player.PlaybackCommand | components/MusicPlayer.tsx:24-35 | play (the current track's URL) iff playing and a track is current; pause iff not playing and a track is current; no element otherwise |
| MusicPlayer.Player.HandleTrackSelect | components/MusicPlayer.tsx:37-47 | the current index flips `isPlaying` and keeps the index; another index becomes current and plays; the report equals the new `isPlaying` |
| MusicPlayer.Player.ExternalControlChanged | components/MusicPlayer.tsx:20-22 | a defined control value overwrites `isPlaying`; an undefined one leaves it; the index is kept |
| MusicPlayer.Player.PlayRejected | components/MusicPlayer.tsx:27-30 | a failed play turns playback off and reports false |
| MusicPlayer.Player.OnEnded | components/MusicPlayer.tsx:113 | the index becomes `(i + 1) mod` the displayed length, a track stays current, `isPlaying` is untouched |
| MusicPlayer.Player.ToggleFromMiniPlayer | components/MusicPlayer.tsx:122 | the mini-player button flips `isPlaying` and reports nothing |
| MusicPlayer.SwitchTrackScenario | components/MusicPlayer.tsx:37-47 | selecting one track then another makes the one audio element play the second track's URL |
| MusicPlayer.SingleTrackEndScenario | components/MusicPlayer.tsx:113 | with one displayed track, the end of the playing track leaves the player's index and flag exactly as they were |
| Carousel.ScrollTarget | components/Carousel.tsx:20-25 | the target is 0 iff at most 50 pixels of scrolling remain, else exactly 420 further; it never lies more than a card past the wrap point |
| Carousel.StepsBeforeWrap | components/Carousel.tsx:20-24 | the number of card steps before wrapping is the fewest whole cards reaching the wrap point |
| Carousel.TicksFromStart | components/Carousel.tsx:18-28 | from offset 0, the k-th active tick lands on 420 × k until the wrap point is reached |
| Carousel.TicksWrap | components/Carousel.tsx:18-28 | one tick after the last step the strip is back at 0, so it cycles |
| Carousel.Render | components/Carousel.tsx:32-103 | an empty or absent list shows the loading placeholder; otherwise every image is a card and there are min(6, n) indicators |
| Carousel.Carousel.constructor | components/Carousel.tsx:11-28 | auto-scroll starts active; the timer is installed iff the list is usable |
| Carousel.Carousel.ImagesChanged | components/Carousel.tsx:13-38 | a new list re-installs the timer iff it is usable; an unusable list unmounts the strip, so its offset is back at 0; the pause flag survives |
| Carousel.Carousel.MouseEnter | components/Carousel.tsx:46 | pointer enter pauses auto-scroll |
| Carousel.Carousel.MouseLeave | components/Carousel.tsx:47 | pointer leave resumes auto-scroll |
| Carousel.Carousel.Tick | components/Carousel.tsx:18-26 | a paused tick leaves the offset; an active one moves it to `ScrollTarget` |
| Carousel.HoverScenario | components/Carousel.tsx:18-47 | a tick while hovered does not move the strip; after leaving, the next tick applies the wrap-or-step rule from the held offset |
| Carousel.Carousel.UserScrolled | components/Carousel.tsx:44-48 | the user's own scrolling of the mounted strip (the timer is installed) sets the offset and leaves the pause flag and the timer as they were |
| App.LocalStorage.SetItem | App.tsx:82 | only that key changes |
| App.LocalStorage.Clear | App.tsx:39 | the store becomes empty |
| App.Load | App.tsx:57-78 | a missing or empty gallery key restores the default gallery, a parsed one replaces it, and a failed parse leaves both collections as they were; only when the gallery step succeeds are the tracks restored, replaced, or (on a failed parse) kept |
| App.LoadEmptyStore | App.tsx:60-74 | an empty store loads the compiled-in defaults |
| App.EmptyTextIsAbsent | App.tsx:63-74 | a key holding "" loads as if it were missing |
| App.GalleryParseFailureKeepsBoth | App.tsx:63-77 | a gallery text that fails to parse leaves both collections as they were |
| App.TrackParseFailureKeepsGallery | App.tsx:63-77 | a track text that fails to parse still lets the gallery load |
| App.LoadReadsOnlyItsKeys | App.tsx:60-61 | keys other than the two `_v21` keys do not affect loading |
| App.LoadAfterImagesWrite | App.tsx:60-83 | given the round-trip, a load after writing the gallery shows the written gallery |
| App.LoadAfterTracksWrite | App.tsx:60-88 | given the round-trip and a loadable gallery key, a load after writing the tracks shows them |
| App.LoadAfterBothWrites | App.tsx:60-88 | given the round-trip, writing both collections and loading gives both back |
| App.App.constructor | App.tsx:52-55 | defaults, admin panel closed, music off |
| App.App.LoadFromStorage | App.tsx:57-78 | the collections become `Load` of the store; flags and store are unchanged |
| App.App.HandleUpdateImages | App.tsx:80-83 | the gallery is replaced, its serialisation written to the gallery key only, tracks and other keys kept |
| App.App.HandleUpdateTracks | App.tsx:85-88 | the tracks are replaced and written to the tracks key only |
| App.App.AdminClicked | App.tsx:94 | the panel opens, with no check |
| App.App.AdminClosed | App.tsx:118 | the panel closes |
| App.App.ToggleMusic | App.tsx:97 | the header toggle negates the music flag |
| App.App.PlaybackChanged | App.tsx:104 | a player report assigns the music flag |
| App.ErrorBoundary.constructor | App.tsx:21 | no error at first |
| App.ErrorBoundary.RenderFailed | App.tsx:29-31 | a render failure sets the error flag |
| App.ErrorBoundary.ResetAndReload | App.tsx:34-39 | the recovery button empties the whole store |
| App.AddImagePersistsScenario | App.tsx:57-88 | load, add an image in the panel, write through, reload: the reloaded gallery is the old one plus exactly the new entry |
| App.WriteThroughAndReload | App.tsx:57-83 | writing a gallery through the page's update handler and loading a fresh page from the same store shows that gallery |
| App.RecoveryScenario | App.tsx:29-39 | after a caught failure, reset and reload, the page comes back with the defaults |
| App.HeaderPausesScenario | App.tsx:97-104 | a track started from the list is paused by the header toggle |
| App.MiniPlayerPauseScenario | components/MusicPlayer.tsx:122 | after a mini-player pause the header still shows playing, and its next click leaves the track paused |

## Left out

- JSX markup, styling, animation and icons, in every file: presentation only.
- components/PlatformLinks.tsx, components/Footer.tsx, components/Header.tsx: static chrome. The header's two callbacks are `App.AdminClicked` and `App.ToggleMusic`.
- Carousel.tsx at the repository root: a stale copy of the gallery whose index arithmetic depends on window widths and floating-point rounding.
- `exportConfig` (AdminPanel.tsx:74-86): it builds a `Blob` download of `JSON.stringify` output. It is file I/O with no state.
- The JSON text format: `Codec` is abstract, and the round-trip is a hypothesis (`RoundTrips`), not a proved fact. A parse that succeeds but yields something other than an array of records is outside the typed model, because the code does no shape check.
- `localStorage.setItem` failures such as an exceeded quota, which App.tsx does not catch.
- The page reload after recovery: it is a fresh `App` followed by `LoadFromStorage`.
- AdminPanel.Panel.FileRead: the reader's asynchronous completion is a separate event. The model does not check that a read was actually started. A failed or aborted read also fires `onloadend`, with a `null` result. The URL field then becomes `null`, and the next add throws at `newImage.url.trim()`: no alert, nothing emitted, the form unchanged. The model's form fields are always strings, so it does not capture this path.
- Carousel.Carousel.Tick: the browser's scroll clamping and smooth interpolation are not modelled, and neither are CSS scroll snapping (`snap-x snap-mandatory` and `snap-center`, Carousel.tsx:48, 53) or fractional `scrollLeft` values. The offset is a whole number and jumps straight to the target, so the real offset can differ from the 420 × k of `TicksFromStart`.
- Carousel.HasImages: the `Array.isArray` check is implied by the types. An absent list is `None`.
- The timers (`setInterval` every 5000 ms, `setTimeout` of 1500 ms) are events with no timing. Overlapping success timers are just successive `SuccessTimerFired` events.
- React effect scheduling and batching: effects are explicit method calls. The load effect's early return models how a `set` issued before a throw still takes effect.
- A password check against `ADMIN_PASSWORD`, the version purge, the category filter, the track loading and error states, and shape validation are not in the code, so they are not modelled.
- App.Load: a `localStorage.getItem` that throws (storage disabled by the browser) is caught at App.tsx:75-77 and leaves both collections unchanged. The model's store always answers, so this path is not captured.
