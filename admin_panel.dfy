/** The editing panel (components/AdminPanel.tsx). It receives the two
    collections from the coordinator and, on every add or remove, emits a full
    replacement collection; its own state is the two entry forms, the active
    tab and a transient success flag. An emitted collection is modelled as
    `Some(list)`, no emission as `None`. The browser's `alert` and `confirm`
    dialogs, the clock (`Date.now()`) and the chosen file are inputs. */
module AdminPanel {
  import opened Types
  import opened Text
  import opened Collections

  /** The upload ceiling `1.5 * 1024 * 1024`, in bytes. */
  const MAX_UPLOAD_BYTES: nat := 1572864

  /** How long the success indication stays on, in milliseconds. */
  const SUCCESS_FLASH_MS: nat := 1500

  /** The gallery form: `{ title, subtitle, url }`. */
  datatype ImageDraft = ImageDraft(title: string, subtitle: string, url: string)

  /** The track form: `{ title, artist, category, url, coverUrl }`. */
  datatype TrackDraft = TrackDraft(
    title: string, artist: string, category: string, url: string, coverUrl: string)

  const EMPTY_IMAGE_DRAFT: ImageDraft := ImageDraft("", "", "")

  const EMPTY_TRACK_DRAFT: TrackDraft := TrackDraft("", "", CATEGORIES[0], "", "")

  datatype Tab = ImagesTab | MusicTab

  /** The inputs the gallery form offers. */
  datatype ImageField = ImageTitle | ImageSubtitle | ImageUrl

  /** The inputs the track form offers: title, a category selector and the
      audio URL (the form has no input for `artist` or `coverUrl`). */
  datatype TrackField = TrackTitle | TrackCategory | TrackUrl

  /** What the upload handler learns of the chosen file: its size. */
  datatype UploadFile = UploadFile(size: nat)

  /** The upload handler's three outcomes: no file was chosen; the file is too
      large (an alert, nothing read); or the file is read as a data URL. */
  datatype UploadOutcome = NoFile | TooLarge | Reading

  /** `img_${Date.now()}` */
  function ImageId(clock: nat): (id: string)
    ensures |id| > 4 && id[..4] == "img_"
    ensures IsDigits(id[4..]) && DecimalValue(id[4..]) == clock
  {
    DecimalRoundTrip(clock);
    assert ("img_" + Decimal(clock))[4..] == Decimal(clock);
    "img_" + Decimal(clock)
  }

  /** `t_${Date.now()}` */
  function TrackId(clock: nat): (id: string)
    ensures |id| > 2 && id[..2] == "t_"
    ensures IsDigits(id[2..]) && DecimalValue(id[2..]) == clock
  {
    DecimalRoundTrip(clock);
    assert ("t_" + Decimal(clock))[2..] == Decimal(clock);
    "t_" + Decimal(clock)
  }

  /** Identifiers made at different clock values differ, since the clock
      reads back from either. The code guarantees nothing more: two adds in the same millisecond share an identifier. */
  lemma ImageIdInjective(a: nat, b: nat)
    ensures ImageId(a) == ImageId(b) ==> a == b
  {
  }

  lemma TrackIdInjective(a: nat, b: nat)
    ensures TrackId(a) == TrackId(b) ==> a == b
  {
  }

  /** `handleFileUpload` up to starting the read (AdminPanel.tsx:24-29, 34):
      a file larger than 1.5 MiB is refused; one of exactly that size is read. */
  function UploadGate(file: Option<UploadFile>): (o: UploadOutcome)
    ensures o == NoFile <==> file.None?
    ensures o == TooLarge <==> file.Some? && 2 * file.value.size > 3 * 1024 * 1024
    ensures o == Reading <==> file.Some? && 2 * file.value.size <= 3 * 1024 * 1024
  {
    match file
    case None => NoFile
    case Some(f) => if f.size > MAX_UPLOAD_BYTES then TooLarge else Reading
  }

  /** `{ ...newImage, id }`: the form's fields as typed, untrimmed. */
  function NewImageEntry(d: ImageDraft, clock: nat): CarouselImage
  {
    CarouselImage(ImageId(clock), d.url, d.title, d.subtitle)
  }

  /** `{ ...newTrack, id }` */
  function NewTrackEntry(d: TrackDraft, clock: nat): MusicTrack
  {
    MusicTrack(TrackId(clock), d.title, d.artist, d.category, d.url, d.coverUrl)
  }

  /** What `addImage` emits (AdminPanel.tsx:39-44): nothing when the URL or
      the title is all whitespace; otherwise the old list with the new entry
      after it, every old entry in its place. */
  function ImageSubmission(images: seq<CarouselImage>, d: ImageDraft, clock: nat)
    : (r: Option<seq<CarouselImage>>)
    ensures r.None? <==>
      (forall i :: 0 <= i < |d.url| ==> IsWhitespace(d.url[i])) ||
      (forall i :: 0 <= i < |d.title| ==> IsWhitespace(d.title[i]))
    ensures r.Some? ==>
      |r.value| == |images| + 1 && r.value[..|images|] == images &&
      r.value[|images|].id == ImageId(clock) &&
      r.value[|images|].title == d.title && r.value[|images|].subtitle == d.subtitle &&
      r.value[|images|].url == d.url
  {
    if IsBlank(d.url) || IsBlank(d.title) then None
    else Some(images + [NewImageEntry(d, clock)])
  }

  /** What `addTrack` emits (AdminPanel.tsx:57-62): only the title and the URL
      must be present; artist and cover may be empty. */
  function TrackSubmission(tracks: seq<MusicTrack>, d: TrackDraft, clock: nat)
    : (r: Option<seq<MusicTrack>>)
    ensures r.None? <==>
      (forall i :: 0 <= i < |d.title| ==> IsWhitespace(d.title[i])) ||
      (forall i :: 0 <= i < |d.url| ==> IsWhitespace(d.url[i]))
    ensures r.Some? ==>
      |r.value| == |tracks| + 1 && r.value[..|tracks|] == tracks &&
      r.value[|tracks|].id == TrackId(clock) &&
      r.value[|tracks|].title == d.title && r.value[|tracks|].artist == d.artist &&
      r.value[|tracks|].category == d.category && r.value[|tracks|].url == d.url &&
      r.value[|tracks|].coverUrl == d.coverUrl
  {
    if IsBlank(d.title) || IsBlank(d.url) then None
    else Some(tracks + [NewTrackEntry(d, clock)])
  }

  /** `removeImage(id)` (AdminPanel.tsx:50-54): without confirmation nothing is
      emitted; with it, the emitted list has no entry with that identifier,
      keeps the others in order, and is shorter by the number of matches. */
  function RemoveImage(images: seq<CarouselImage>, id: string, confirmed: bool)
    : (r: Option<seq<CarouselImage>>)
    ensures r.Some? <==> confirmed
    ensures r.Some? ==>
      (forall i :: 0 <= i < |r.value| ==> r.value[i].id != id) &&
      (forall i :: 0 <= i < |images| && images[i].id != id ==> images[i] in r.value) &&
      IsSubsequence(r.value, images) &&
      |r.value| + CountKey(images, ImageKey, id) == |images|
  {
    if confirmed then
      WithoutIsSubsequence(images, ImageKey, id);
      WithoutLength(images, ImageKey, id);
      Some(Without(images, ImageKey, id))
    else None
  }

  /** `removeTrack(id)` (AdminPanel.tsx:68-72), the same rule for tracks. */
  function RemoveTrack(tracks: seq<MusicTrack>, id: string, confirmed: bool)
    : (r: Option<seq<MusicTrack>>)
    ensures r.Some? <==> confirmed
    ensures r.Some? ==>
      (forall i :: 0 <= i < |r.value| ==> r.value[i].id != id) &&
      (forall i :: 0 <= i < |tracks| && tracks[i].id != id ==> tracks[i] in r.value) &&
      IsSubsequence(r.value, tracks) &&
      |r.value| + CountKey(tracks, TrackKey, id) == |tracks|
  {
    if confirmed then
      WithoutIsSubsequence(tracks, TrackKey, id);
      WithoutLength(tracks, TrackKey, id);
      Some(Without(tracks, TrackKey, id))
    else None
  }

  /** Removing, with confirmation, the image just added gives back the list it
      was added to, provided no older entry already carried that identifier. */
  lemma AddThenRemoveImage(images: seq<CarouselImage>, d: ImageDraft, clock: nat)
    requires ImageSubmission(images, d, clock).Some?
    requires forall i :: 0 <= i < |images| ==> images[i].id != ImageId(clock)
    ensures RemoveImage(ImageSubmission(images, d, clock).value, ImageId(clock), true) == Some(images)
  {
    AppendThenRemove(images, NewImageEntry(d, clock), ImageKey);
  }

  lemma AddThenRemoveTrack(tracks: seq<MusicTrack>, d: TrackDraft, clock: nat)
    requires TrackSubmission(tracks, d, clock).Some?
    requires forall i :: 0 <= i < |tracks| ==> tracks[i].id != TrackId(clock)
    ensures RemoveTrack(TrackSubmission(tracks, d, clock).value, TrackId(clock), true) == Some(tracks)
  {
    AppendThenRemove(tracks, NewTrackEntry(d, clock), TrackKey);
  }

  /** The panel's own state. */
  class Panel {
    var activeTab: Tab
    var isSuccess: bool
    var newImage: ImageDraft
    var newTrack: TrackDraft

    /** AdminPanel.tsx:16-21 */
    constructor ()
      ensures activeTab == ImagesTab && !isSuccess
      ensures newImage == EMPTY_IMAGE_DRAFT && newTrack == EMPTY_TRACK_DRAFT
    {
      activeTab := ImagesTab;
      isSuccess := false;
      newImage := EMPTY_IMAGE_DRAFT;
      newTrack := EMPTY_TRACK_DRAFT;
    }

    method SelectTab(tab: Tab)
      modifies this
      ensures activeTab == tab
      ensures isSuccess == old(isSuccess) && newImage == old(newImage) && newTrack == old(newTrack)
    {
      activeTab := tab;
    }

    /** An input of the gallery form changes one field and no other. */
    method EditImage(field: ImageField, value: string)
      modifies this
      ensures newImage == match field
        case ImageTitle => old(newImage).(title := value)
        case ImageSubtitle => old(newImage).(subtitle := value)
        case ImageUrl => old(newImage).(url := value)
      ensures activeTab == old(activeTab) && isSuccess == old(isSuccess) && newTrack == old(newTrack)
    {
      match field
      case ImageTitle => newImage := newImage.(title := value);
      case ImageSubtitle => newImage := newImage.(subtitle := value);
      case ImageUrl => newImage := newImage.(url := value);
    }

    /** An input of the track form changes one field and no other; the
        category selector offers only the listed categories. */
    method EditTrack(field: TrackField, value: string)
      requires field == TrackCategory ==> value in CATEGORIES
      modifies this
      ensures newTrack == match field
        case TrackTitle => old(newTrack).(title := value)
        case TrackCategory => old(newTrack).(category := value)
        case TrackUrl => old(newTrack).(url := value)
      ensures activeTab == old(activeTab) && isSuccess == old(isSuccess) && newImage == old(newImage)
    {
      match field
      case TrackTitle => newTrack := newTrack.(title := value);
      case TrackCategory => newTrack := newTrack.(category := value);
      case TrackUrl => newTrack := newTrack.(url := value);
    }

    /** The upload handler decides only whether to read the file; it changes
        no state (AdminPanel.tsx:23-36). */
    method HandleFileUpload(file: Option<UploadFile>) returns (outcome: UploadOutcome)
      ensures outcome == TooLarge <==> file.Some? && file.value.size > MAX_UPLOAD_BYTES
      ensures outcome == Reading <==> file.Some? && file.value.size <= MAX_UPLOAD_BYTES
    {
      outcome := UploadGate(file);
    }

    /** The reader's completion (AdminPanel.tsx:31-33): the data URL replaces
        the URL field, whatever else was typed meanwhile is kept. */
    method FileRead(dataUrl: string)
      modifies this
      ensures newImage == old(newImage).(url := dataUrl)
      ensures activeTab == old(activeTab) && isSuccess == old(isSuccess) && newTrack == old(newTrack)
    {
      newImage := newImage.(url := dataUrl);
    }

    /** `addImage` (AdminPanel.tsx:38-48). Refused: an alert, nothing emitted,
        nothing changed. Accepted: the new list is emitted, the form is
        cleared and the success flag raised (its timer is `SuccessTimerFired`). */
    method AddImage(images: seq<CarouselImage>, clock: nat) returns (emitted: Option<seq<CarouselImage>>)
      modifies this
      ensures emitted == ImageSubmission(images, old(newImage), clock)
      ensures emitted.None? ==> newImage == old(newImage) && isSuccess == old(isSuccess)
      ensures emitted.Some? ==> newImage == EMPTY_IMAGE_DRAFT && isSuccess
      ensures activeTab == old(activeTab) && newTrack == old(newTrack)
    {
      var draft := newImage;
      emitted := ImageSubmission(images, draft, clock);
      if emitted.Some? {
        newImage := EMPTY_IMAGE_DRAFT;
        isSuccess := true;
      }
      assert emitted == ImageSubmission(images, old(newImage), clock);
    }

    /** `addTrack` (AdminPanel.tsx:56-66); the form is reset with the first
        category selected. */
    method AddTrack(tracks: seq<MusicTrack>, clock: nat) returns (emitted: Option<seq<MusicTrack>>)
      modifies this
      ensures emitted == TrackSubmission(tracks, old(newTrack), clock)
      ensures emitted.None? ==> newTrack == old(newTrack) && isSuccess == old(isSuccess)
      ensures emitted.Some? ==> newTrack == EMPTY_TRACK_DRAFT && isSuccess
      ensures activeTab == old(activeTab) && newImage == old(newImage)
    {
      var draft := newTrack;
      emitted := TrackSubmission(tracks, draft, clock);
      if emitted.Some? {
        newTrack := EMPTY_TRACK_DRAFT;
        isSuccess := true;
      }
      assert emitted == TrackSubmission(tracks, old(newTrack), clock);
    }

    /** The 1500 ms timer an add starts (AdminPanel.tsx:47, 65). */
    method SuccessTimerFired()
      modifies this
      ensures !isSuccess
      ensures activeTab == old(activeTab) && newImage == old(newImage) && newTrack == old(newTrack)
    {
      isSuccess := false;
    }
  }

  /** An operator types a title and a URL and adds the image: exactly one entry
      is emitted after the old ones, carrying what was typed and an empty
      subtitle, and the form is cleared. */
  method AddImageScenario(images: seq<CarouselImage>, title: string, url: string, clock: nat)
    returns (emitted: Option<seq<CarouselImage>>, formAfter: ImageDraft)
    requires !IsBlank(title) && !IsBlank(url)
    ensures emitted == Some(images + [CarouselImage(ImageId(clock), url, title, "")])
    ensures formAfter == EMPTY_IMAGE_DRAFT
  {
    var panel := new Panel();
    panel.EditImage(ImageTitle, title);
    panel.EditImage(ImageUrl, url);
    emitted := panel.AddImage(images, clock);
    formAfter := panel.newImage;
  }
}
