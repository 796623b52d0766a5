/**
 The song list (`frontend/src/components/SongList.tsx`): one card per listed song, with
 a title link and a "Read More" link to the song's page, a player for a song with a
 video link, and a short lyrics preview.
 */
module SongList {
  import opened Wrappers
  import opened Strings
  import opened Catalog
  import opened YouTube

  /** How many characters of the lyrics the preview shows. */
  const PreviewLength := 200

  const Ellipsis := "..."
  const NoLyrics := "No lyrics available."

  /** The page of one song in the frontend router. */
  const SongsPage := "/songs/"

  function DetailPath(id: string): (p: string)
    ensures StartsWith(p, SongsPage) && p[|SongsPage|..] == id
  {
    SongsPage + id
  }

  /** Distinct songs link to distinct pages. */
  lemma DetailPathInjective(a: string, b: string)
    requires DetailPath(a) == DetailPath(b)
    ensures a == b
  {
    assert a == DetailPath(a)[|SongsPage|..];
  }

  /** Missing or empty lyrics show a fixed notice; otherwise the first two hundred
      characters followed by an ellipsis, even when nothing was cut. */
  function LyricsPreview(lyrics: Option<string>): (p: string)
    ensures p == NoLyrics <==> lyrics.None? || lyrics.value == ""
    ensures lyrics.Some? && lyrics.value != "" ==>
      && |p| == (if |lyrics.value| < PreviewLength then |lyrics.value| else PreviewLength) + |Ellipsis|
      && StartsWith(lyrics.value, p[..|p| - |Ellipsis|])
      && p[|p| - |Ellipsis|..] == Ellipsis
  {
    if lyrics.None? || lyrics.value == "" then NoLyrics
    else
      var p := Take(lyrics.value, PreviewLength) + Ellipsis;
      assert p[|p| - 2] == '.' != NoLyrics[|NoLyrics| - 2];
      assert p[..|p| - |Ellipsis|] == Take(lyrics.value, PreviewLength);
      p
  }

  /** Lyrics that fit are shown whole, followed by the ellipsis. */
  lemma ShortLyricsWhole(lyrics: string)
    requires lyrics != "" && |lyrics| <= PreviewLength
    ensures LyricsPreview(Some(lyrics)) == lyrics + Ellipsis
  {
    var p := LyricsPreview(Some(lyrics));
    assert p[..|p| - |Ellipsis|] == lyrics;
    assert p == p[..|p| - |Ellipsis|] + p[|p| - |Ellipsis|..];
  }

  /** The rendered parts of one card: the linked title, the artist line, the player,
      the preview and the "Read More" link. */
  datatype Card = Card(
    titleLink: string, title: string, byline: string,
    player: Option<string>, preview: string, readMoreLink: string)

  /** The text in front of the artist; a missing artist renders as nothing after it. */
  const By := "by "

  /** The player shows only for a non-empty link, with the embed URL of its id. */
  function Player(link: Option<string>): (src: Option<string>)
    ensures src.Some? <==> link.Some? && link.value != ""
    ensures src.Some? ==> src.value == EmbedSrc(link.value)
  {
    if link.Some? && link.value != "" then Some(EmbedSrc(link.value)) else None
  }

  /** One card: both links lead to the song's page, the title is shown as stored, and
      the artist follows `by `. */
  function RenderCard(song: Summary): (c: Card)
    ensures c.titleLink == c.readMoreLink == DetailPath(song.id)
    ensures c.title == song.title
    ensures StartsWith(c.byline, By)
    ensures song.artist.Some? ==> c.byline[|By|..] == song.artist.value
    ensures song.artist.None? ==> c.byline == By
    ensures c.player == Player(song.youtube_link)
    ensures c.preview == LyricsPreview(song.lyrics)
  {
    var byline := By + song.artist.GetOr("");
    Card(DetailPath(song.id), song.title, byline, Player(song.youtube_link), LyricsPreview(song.lyrics),
         DetailPath(song.id))
  }

  /** The list: one card per song, in order. */
  function Render(songs: seq<Summary>): (cards: seq<Card>)
    ensures |cards| == |songs|
    ensures forall i :: 0 <= i < |songs| ==> cards[i] == RenderCard(songs[i])
  {
    seq(|songs|, i requires 0 <= i < |songs| => RenderCard(songs[i]))
  }

  /** The first song of the component tests: its page is `/songs/1` and its player
      shows the video `dQw4w9WgXcQ`. */
  lemma ExampleCard(song: Summary)
    requires song.id == "1" && song.youtube_link == Some(ExampleLink)
    ensures RenderCard(song).titleLink == "/songs/1"
    ensures RenderCard(song).player == Some(EmbedPrefix + "dQw4w9WgXcQ")
  {
    var link := song.youtube_link.value;
    ExampleWatchLink(link);
  }
}
