/**
 The song card (`frontend/src/components/SongCard.tsx`). Its video id is not the shared
 regular expression but `split("v=")[1]` cut to eleven characters, and the player is
 shown only when that id is non-empty.
 */
module SongCard {
  import opened Wrappers
  import opened Strings
  import opened YouTube

  /** The length of a YouTube video id, where the card cuts. */
  const MaxIdLength := 11

  /** The text of `rest` before its first `v=`, all of it when there is none. */
  function Segment(rest: string): (seg: string)
    ensures StartsWith(rest, seg) && Free(seg, ParamMarker)
    ensures |seg| < |rest| ==> OccursAt(rest, ParamMarker, |seg|)
    ensures |seg| == |rest| <==> IndexOf(rest, ParamMarker).None?
  {
    var parts := Split(rest, ParamMarker);
    match IndexOf(rest, ParamMarker)
    case None => rest
    case Some(j) =>
      assert parts[0] == rest[..j];
      parts[0]
  }

  /** `song.youtube_link?.split("v=")[1]?.substring(0, 11)`: nothing without a link or
      without a `v=` in it; otherwise at most eleven characters. */
  function CardId(link: Option<string>): (id: Option<string>)
    ensures id.None? <==> link.None? || IndexOf(link.value, ParamMarker).None?
    ensures id.Some? ==> |id.value| <= MaxIdLength
  {
    if link.None? then None
    else
      var parts := Split(link.value, ParamMarker);
      if |parts| < 2 then None else Some(Take(parts[1], MaxIdLength))
  }

  /** The id is the text between the first `v=` and the next one (or the end), cut to
      eleven characters; an `&` in it is kept. */
  lemma CardIdIsSegment(link: string)
    requires IndexOf(link, ParamMarker).Some?
    ensures var k := IndexOf(link, ParamMarker).value;
      CardId(Some(link)) == Some(Take(Segment(link[k + |ParamMarker|..]), MaxIdLength))
  {
    var k := IndexOf(link, ParamMarker).value;
    var rest := link[k + |ParamMarker|..];
    assert Split(link, ParamMarker)[1] == Split(rest, ParamMarker)[0];
  }

  /** The player's address, shown only for a non-empty id. */
  function PlayerSrc(link: Option<string>): (src: Option<string>)
    ensures src.Some? <==> CardId(link).Some? && CardId(link).value != ""
    ensures src.Some? ==> StartsWith(src.value, EmbedPrefix) && src.value[|EmbedPrefix|..] == CardId(link).value
  {
    var id := CardId(link);
    if id.Some? && id.value != "" then Some(EmbedPrefix + id.value) else None
  }

  /** A string without the first character of a pattern has no occurrence of it. */
  lemma NoHeadNoOccurrence(s: string, p: string)
    requires |p| > 0 && p[0] !in s
    ensures IndexOf(s, p).None?
  {
    forall k | 0 <= k <= |s| ensures !OccursAt(s, p, k) {
      OccursHead(s, p, k);
    }
  }

  /** A link whose first `v=` is its last two characters gives an empty id, so the card
      shows no player. */
  lemma TrailingMarkerNoPlayer(link: string)
    requires |link| >= 2 && IndexOf(link, ParamMarker) == Some(|link| - 2)
    ensures CardId(Some(link)) == Some("")
    ensures PlayerSrc(Some(link)).None?
  {
    CardIdIsSegment(link);
    assert link[|link|..] == "";
  }

  /** A `watch?v=` link whose value is at most eleven characters and holds no `v` gives
      that value, `&` and all. */
  lemma WatchLinkCardId(page: string, value: string)
    requires 'v' !in page && 'v' !in value && |value| <= MaxIdLength
    ensures CardId(Some(page + ParamMarker + value)) == Some(value)
  {
    var link := page + ParamMarker + value;
    assert link[..|page|] == page;
    forall k | 0 <= k < |page| ensures !OccursAt(link, ParamMarker, k) {
      assert link[k] == page[k];
      OccursHead(link, ParamMarker, k);
    }
    assert OccursAt(link, ParamMarker, |page|);
    assert IndexOf(link, ParamMarker) == Some(|page|);
    CardIdIsSegment(link);
    assert link[|page| + 2..] == value;
    NoHeadNoOccurrence(value, ParamMarker);
  }

  /** Short links have no `v=`: the card finds no id, while the shared extractor finds
      the path's value. */
  lemma ShortLinkDisagrees(value: string)
    requires 'v' !in value && |value| > 0 && value[0] != '&'
    ensures CardId(Some("https://" + ShortMarker + value)).None?
    ensures ExtractId("https://" + ShortMarker + value) == UntilAmp(value) != ""
  {
    var link := "https://" + ShortMarker + value;
    assert link == "https://youtu.be/" + value;
    assert 'v' !in "https://youtu.be/";
    NoHeadNoOccurrence(link, ParamMarker);
    ShortLink(value);
  }

  /** For a watch link whose value is short and has neither `v` nor `&`, the card's id
      and the shared extractor's id are the same. */
  lemma WatchLinkAgrees(page: string, value: string)
    requires 'v' !in page && 'y' !in page
    requires 'v' !in value && '&' !in value && 0 < |value| <= MaxIdLength
    ensures CardId(Some(page + ParamMarker + value)) == Some(ExtractId(page + ParamMarker + value))
  {
    WatchLinkCardId(page, value);
    WatchLink(page, value);
    AmpFree(value);
  }

  /** When the value carries a further `&name=…`, the card keeps it in the id while the
      shared extractor stops at the `&`. */
  lemma AmpDisagrees(page: string, value: string)
    requires 'v' !in page && 'y' !in page
    requires 'v' !in value && |value| <= MaxIdLength && '&' in value && value[0] != '&'
    ensures CardId(Some(page + ParamMarker + value)) == Some(value)
    ensures ExtractId(page + ParamMarker + value) != value
  {
    WatchLinkCardId(page, value);
    WatchLink(page, value);
  }
}
