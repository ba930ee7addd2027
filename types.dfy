/** The two record types of the site, and the compiled-in default data of
    constants.ts (the gallery, the track list and the category labels). */
module Types {

  datatype Option<T> = None | Some(value: T)

  /** A gallery entry: `{ id, url, title, subtitle }`. */
  datatype CarouselImage = CarouselImage(id: string, url: string, title: string, subtitle: string)

  /** A track entry: `{ id, title, artist, category, url, coverUrl }`. */
  datatype MusicTrack = MusicTrack(
    id: string, title: string, artist: string, category: string, url: string, coverUrl: string)

  const GITHUB_RAW_BASE: string := "https://raw.githubusercontent.com/smile584421-chen/chen-music/main/"

  /** The six default gallery entries, in their compiled order. */
  const INITIAL_CAROUSEL: seq<CarouselImage> := [
    CarouselImage("img_harp", GITHUB_RAW_BASE + "chen-p6.jpg", "豎琴魅影", "Phantom of the Harp"),
    CarouselImage("img_piano", GITHUB_RAW_BASE + "chen-p5.jpg", "指尖的舞蹈", "Dance on Fingertips"),
    CarouselImage("img_flute", GITHUB_RAW_BASE + "chen-p4.jpg", "晨曦的長笛", "Flute in the Morning Mist"),
    CarouselImage("img_erhu", GITHUB_RAW_BASE + "chen-p3.jpg", "國樂風華", "Heritage of National Music"),
    CarouselImage("img_violin", GITHUB_RAW_BASE + "chen-p2.jpg", "小提琴之歌", "Song of the Violin"),
    CarouselImage("img_cello", GITHUB_RAW_BASE + "chen-p1.jpg", "大提琴的沉思", "Cello's Meditation")
  ]

  /** The fixed, ordered category labels; the first is the track form's default. */
  const CATEGORIES: seq<string> := ["禎心推薦", "冥想", "放鬆", "溫暖", "明亮"]

  /** The two default tracks. */
  const INITIAL_TRACKS: seq<MusicTrack> := [
    MusicTrack("t1", "月光下的獨白", "禎真音樂", "冥想",
               "https://www.soundhelix.com/examples/mp3/SoundHelix-Song-1.mp3",
               GITHUB_RAW_BASE + "chen-p6.jpg"),
    MusicTrack("t2", "晨曦微光", "禎真音樂", "放鬆",
               "https://www.soundhelix.com/examples/mp3/SoundHelix-Song-2.mp3",
               GITHUB_RAW_BASE + "chen-p4.jpg")
  ]

  function ImageKey(img: CarouselImage): string { img.id }

  function TrackKey(t: MusicTrack): string { t.id }
}
