/** Playlists of HTTP Live Streaming (RFC 8216) as the client sees them after
    parsing: a master playlist lists variant streams, some tagged with a
    RESOLUTION attribute (section 4.3.4.2 of RFC 8216); a media playlist lists
    the segments of one rendition in playback order. Parsing itself is outside
    the model. */
module Hls {
  import opened Common

  datatype Resolution = Resolution(width: nat, height: nat)

  datatype Variant = Variant(uri: string, resolution: Option<Resolution>)

  datatype Segment = Segment(uri: string)

  /** The three outcomes of parsing a fetched playlist. */
  datatype Playlist =
    | MasterPlaylist(variants: seq<Variant>)
    | MediaPlaylist(segments: seq<Segment>)
    | Unparsable

  /** The only rendition the client accepts: exactly 1920 by 1080. */
  predicate IsFullHd(v: Variant)
  {
    v.resolution.Some? && v.resolution.value.height == 1080 && v.resolution.value.width == 1920
  }

  /** Variant `i` is the first 1920x1080 one. */
  predicate FirstFullHdAt(variants: seq<Variant>, i: int)
  {
    0 <= i < |variants| && IsFullHd(variants[i]) &&
    forall j :: 0 <= j < i ==> !IsFullHd(variants[j])
  }

  /** The URI of the first 1920x1080 variant in playlist order, if any;
      variants without a resolution are passed over. */
  function FirstFullHd(variants: seq<Variant>): (r: Option<string>)
    ensures r.None? <==> forall i :: 0 <= i < |variants| ==> !IsFullHd(variants[i])
    ensures forall i :: FirstFullHdAt(variants, i) ==> r == Some(variants[i].uri)
    ensures r.Some? ==> exists i :: FirstFullHdAt(variants, i) && r.value == variants[i].uri
    decreases |variants|
  {
    if variants == [] then None
    else if IsFullHd(variants[0]) then
      assert FirstFullHdAt(variants, 0);
      Some(variants[0].uri)
    else
      var tail := variants[1..];
      assert forall i :: FirstFullHdAt(variants, i) ==> FirstFullHdAt(tail, i - 1);
      assert forall i :: FirstFullHdAt(tail, i) ==> FirstFullHdAt(variants, i + 1);
      assert forall i :: 1 <= i < |variants| ==> tail[i - 1] == variants[i];
      FirstFullHd(tail)
  }

  /** The selection loop: return the first variant whose resolution is
      present and equals 1920x1080. */
  method SelectRendition(variants: seq<Variant>) returns (uri: Option<string>)
    ensures uri == FirstFullHd(variants)
  {
    for i := 0 to |variants|
      invariant forall j :: 0 <= j < i ==> !IsFullHd(variants[j])
    {
      var variant := variants[i];
      if variant.resolution.Some? {
        var res := variant.resolution.value;
        if res.height == 1080 && res.width == 1920 {
          assert FirstFullHdAt(variants, i);
          return Some(variant.uri);
        }
      }
    }
    return None;
  }

  /** What a fetched master playlist yields: a master playlist gives the URI
      of its first 1920x1080 variant; a master playlist without one, a media
      playlist or a parse error gives nothing. */
  function StreamChoice(playlist: Playlist): (r: Option<string>)
    ensures r.Some? ==> playlist.MasterPlaylist? &&
                        exists i :: FirstFullHdAt(playlist.variants, i) && r.value == playlist.variants[i].uri
    ensures r.None? <==> !playlist.MasterPlaylist? ||
                         forall i :: 0 <= i < |playlist.variants| ==> !IsFullHd(playlist.variants[i])
  {
    match playlist
    case MasterPlaylist(variants) => FirstFullHd(variants)
    case MediaPlaylist(_) => None
    case Unparsable => None
  }

  /** Only a media playlist yields segments; anything else means the media
      playlist was not found. */
  function MediaSegments(playlist: Playlist): (r: Result<seq<Segment>>)
    ensures r.Ok? <==> playlist.MediaPlaylist?
    ensures r.Ok? ==> r.value == playlist.segments
    ensures r.Fail? ==> r.fault == Error(MediaPlaylistNotFound)
  {
    match playlist
    case MediaPlaylist(segments) => Ok(segments)
    case _ => Fail(Error(MediaPlaylistNotFound))
  }
}
