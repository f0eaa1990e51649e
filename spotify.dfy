/** The Spotify identifiers the bot writes and reads: track URIs handed to the
    Web API and the public playlist URL quoted in replies and on the
    leaderboard. */
module Spotify {
  import opened Wrappers

  const TrackUriPrefix := "spotify:track:"
  const PlaylistUrlPrefix := "https://open.spotify.com/playlist/"

  /** `spotify:track:${id}`. */
  function TrackUri(id: string): string {
    TrackUriPrefix + id
  }

  /** The track id a `spotify:track:` URI names, if it is one. */
  function TrackIdOfUri(uri: string): Option<string> {
    if TrackUriPrefix <= uri then Some(uri[|TrackUriPrefix|..]) else None
  }

  /** `ids.map(i => `spotify:track:${i}`)`: one URI per id, same order. */
  function TrackUris(ids: seq<string>): (uris: seq<string>)
    ensures |uris| == |ids|
    ensures forall k :: 0 <= k < |ids| ==> TrackIdOfUri(uris[k]) == Some(ids[k])
  {
    if ids == [] then []
    else
      assert TrackIdOfUri(TrackUri(ids[0])) == Some(ids[0]) by {
        assert TrackUri(ids[0])[|TrackUriPrefix|..] == ids[0];
      }
      [TrackUri(ids[0])] + TrackUris(ids[1..])
  }

  /** `https://open.spotify.com/playlist/${playlistId}`. */
  function PlaylistUrl(playlistId: string): string {
    PlaylistUrlPrefix + playlistId
  }

  /** The playlist id a public playlist URL names, if it is one. */
  function PlaylistIdOfUrl(url: string): Option<string> {
    if PlaylistUrlPrefix <= url then Some(url[|PlaylistUrlPrefix|..]) else None
  }

  /** The playlist URL names exactly the playlist it was made from. */
  lemma PlaylistUrlRoundTrip(playlistId: string)
    ensures PlaylistIdOfUrl(PlaylistUrl(playlistId)) == Some(playlistId)
  {
    assert PlaylistUrl(playlistId)[|PlaylistUrlPrefix|..] == playlistId;
  }

  /** Different playlists never share a URL. */
  lemma PlaylistUrlInjective(a: string, b: string)
    requires PlaylistUrl(a) == PlaylistUrl(b)
    ensures a == b
  {
    PlaylistUrlRoundTrip(a);
    PlaylistUrlRoundTrip(b);
  }
}
