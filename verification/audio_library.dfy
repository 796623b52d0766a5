/**
 The audio library page (`frontend/src/pages/AudioLibrary.tsx`): a player for every
 fetched song that has a video link, with a fixed set of player options in the URL,
 and a notice when no songs were fetched at all.
 */
module AudioLibrary {
  import opened Wrappers
  import opened Seqs
  import opened Strings
  import opened Catalog
  import opened YouTube

  /** The options appended to every embed URL. */
  const PlayerOptions := "?enablejsapi=1&modestbranding=1&rel=0&showinfo=0&controls=1&autoplay=0"

  /** The embed URL of a link: the player prefix, the extracted id, the options. */
  function AudioSrc(link: string): (src: string)
    ensures |src| == |EmbedPrefix| + |ExtractId(link)| + |PlayerOptions|
    ensures StartsWith(src, EmbedPrefix)
    ensures src[|EmbedPrefix|..|EmbedPrefix| + |ExtractId(link)|] == ExtractId(link)
    ensures src[|src| - |PlayerOptions|..] == PlayerOptions
  {
    EmbedPrefix + ExtractId(link) + PlayerOptions
  }

  /** A link the extractor finds nothing in still gets a player, with an empty id. */
  lemma NoMarkerEmptyId(link: string)
    requires forall k :: 0 <= k <= |link| ==> !MatchesAt(link, k)
    ensures AudioSrc(link) == EmbedPrefix + PlayerOptions
  {
  }

  /** `song.youtube_link && …`: a song gets a card only for a non-empty link. */
  predicate HasLink(song: Summary) {
    song.youtube_link.Some? && song.youtube_link.value != ""
  }

  /** The songs that get a card, in their fetched order. */
  function Linked(songs: seq<Summary>): (r: seq<Summary>)
    ensures |r| <= |songs|
    ensures forall i :: 0 <= i < |r| ==> HasLink(r[i])
    ensures forall s :: s in r <==> s in songs && HasLink(s)
  {
    if |songs| == 0 then []
    else if HasLink(songs[0]) then [songs[0]] + Linked(songs[1..])
    else Linked(songs[1..])
  }

  /** The cards keep the fetched order: they are a subsequence of the songs. */
  lemma {:induction false} LinkedInOrder(songs: seq<Summary>)
    ensures IsSubsequence(Linked(songs), songs)
    decreases |songs|
  {
    if |songs| > 0 {
      var rest := Linked(songs[1..]);
      LinkedInOrder(songs[1..]);
      if HasLink(songs[0]) {
        assert ([songs[0]] + rest)[1..] == rest;
      } else if |rest| > 0 {
        assert rest[0] != songs[0];
      }
    }
  }

  /** A single song is kept exactly when it has a link. */
  lemma LinkedOne(song: Summary)
    ensures Linked([song]) == if HasLink(song) then [song] else []
  {
    assert [song][1..] == [];
  }

  /** Filtering a concatenation filters each part: every linked song is kept once per
      occurrence, so duplicates among the fetched songs stay duplicated. */
  lemma {:induction false} LinkedAppend(a: seq<Summary>, b: seq<Summary>)
    ensures Linked(a + b) == Linked(a) + Linked(b)
    decreases |a|
  {
    if |a| == 0 {
      assert a + b == b;
    } else {
      assert (a + b)[0] == a[0];
      assert (a + b)[1..] == a[1..] + b;
      LinkedAppend(a[1..], b);
      if HasLink(a[0]) {
        assert Linked(a + b) == [a[0]] + Linked(a[1..] + b);
        assert [a[0]] + (Linked(a[1..]) + Linked(b)) == ([a[0]] + Linked(a[1..])) + Linked(b);
      }
    }
  }

  /** Filtering twice is filtering once. */
  lemma {:induction false} LinkedIdempotent(songs: seq<Summary>)
    ensures Linked(Linked(songs)) == Linked(songs)
    decreases |songs|
  {
    if |songs| > 0 {
      LinkedIdempotent(songs[1..]);
      if HasLink(songs[0]) {
        assert ([songs[0]] + Linked(songs[1..]))[1..] == Linked(songs[1..]);
      }
    }
  }

  /** One player card. */
  datatype Player = Player(title: string, artist: Option<string>, src: string)

  /** What the page shows once the songs are fetched. */
  datatype View = NoAudio | Players(cards: seq<Player>)

  function PlayerFor(song: Summary): Player
    requires HasLink(song)
  {
    Player(song.title, song.artist, AudioSrc(song.youtube_link.value))
  }

  /** The notice shows exactly when no songs were fetched; otherwise one player per
      linked song, in order. */
  function Library(songs: seq<Summary>): (v: View)
    ensures v.NoAudio? <==> |songs| == 0
    ensures v.Players? ==> |v.cards| == |Linked(songs)|
    ensures v.Players? ==> forall i :: 0 <= i < |v.cards| ==> v.cards[i] == PlayerFor(Linked(songs)[i])
  {
    if |songs| == 0 then NoAudio
    else
      var linked := Linked(songs);
      Players(seq(|linked|, i requires 0 <= i < |linked| => PlayerFor(linked[i])))
  }

  /** Songs fetched without any link leave an empty grid, and no notice. */
  lemma UnlinkedSongsEmptyGrid(songs: seq<Summary>)
    requires |songs| > 0 && forall i :: 0 <= i < |songs| ==> !HasLink(songs[i])
    ensures Library(songs) == Players([])
  {
    NoneLinked(songs);
  }

  /** Without a linked song the filter keeps nothing. */
  lemma {:induction false} NoneLinked(songs: seq<Summary>)
    requires forall i :: 0 <= i < |songs| ==> !HasLink(songs[i])
    ensures Linked(songs) == []
    decreases |songs|
  {
    if |songs| > 0 {
      assert !HasLink(songs[0]);
      NoneLinked(songs[1..]);
    }
  }
}
