/** The read-only API routes `pages/api/leaderboard.js` and
    `pages/api/stats.js`: projections of the stored `playlistMap`. */
module Views {
  import opened Wrappers
  import opened Store
  import opened Spotify

  /** `{ pubkey, playlistUrl }`. */
  datatype LeaderboardEntry = LeaderboardEntry(pubkey: string, playlistUrl: string)

  /** `Object.entries(playlistMap).map(([pubkey, pid]) => ...)`: one row per
      map entry, in the map's order; the row's pubkey is the entry's key and
      its URL is the public URL of the stored playlist. */
  function Leaderboard(m: seq<Entry>): (rows: seq<LeaderboardEntry>)
    ensures |rows| == |m|
    ensures forall i :: 0 <= i < |m| ==>
      rows[i].pubkey == m[i].pubkey && PlaylistIdOfUrl(rows[i].playlistUrl) == Some(m[i].playlistId)
  {
    if m == [] then []
    else
      PlaylistUrlRoundTrip(m[0].playlistId);
      var rest := Leaderboard(m[1..]);
      var rows := [LeaderboardEntry(m[0].pubkey, PlaylistUrl(m[0].playlistId))] + rest;
      assert forall i :: 1 <= i < |m| ==> rows[i] == rest[i - 1] && m[i] == m[1..][i - 1];
      rows
  }

  /** `{ total: Object.keys(playlistMap).length }`: the number of owners with
      an entry. */
  function Total(db: BotRecord): (n: nat)
    ensures n == |db.playlistMap|
  {
    |Keys(db.playlistMap)|
  }

  /** No pubkey appears on the leaderboard twice. */
  lemma LeaderboardPubkeysDistinct(db: BotRecord)
    ensures forall i, j :: 0 <= i < j < |Leaderboard(db.playlistMap)| ==>
      Leaderboard(db.playlistMap)[i].pubkey != Leaderboard(db.playlistMap)[j].pubkey
  {
  }

  /** A row with a given pubkey is on the leaderboard exactly when that pubkey
      has a playlist, and its URL is the URL of that playlist. */
  lemma LeaderboardListsEveryOwner(db: BotRecord, pubkey: string)
    ensures (exists i :: 0 <= i < |Leaderboard(db.playlistMap)| && Leaderboard(db.playlistMap)[i].pubkey == pubkey)
            <==> Lookup(db.playlistMap, pubkey).Some?
    ensures forall i :: 0 <= i < |Leaderboard(db.playlistMap)| && Leaderboard(db.playlistMap)[i].pubkey == pubkey ==>
      Leaderboard(db.playlistMap)[i].playlistUrl == PlaylistUrl(Lookup(db.playlistMap, pubkey).value)
  {
    var m := db.playlistMap;
    var l := Leaderboard(m);
    LookupFound(m, pubkey);
    forall i | 0 <= i < |l| && l[i].pubkey == pubkey
      ensures l[i].playlistUrl == PlaylistUrl(Lookup(m, pubkey).value)
    {
      LookupAt(m, i);
      PlaylistUrlRoundTrip(Lookup(m, pubkey).value);
      assert l[i] == LeaderboardEntry(m[i].pubkey, PlaylistUrl(m[i].playlistId)) by {
        LeaderboardRowAt(m, i);
      }
    }
    if Lookup(m, pubkey).Some? {
      var ks := Keys(m);
      var i :| 0 <= i < |ks| && ks[i] == pubkey;
      assert l[i].pubkey == pubkey;
    }
  }

  /** The row at position i is built from the entry at position i. */
  lemma {:induction false} LeaderboardRowAt(m: seq<Entry>, i: nat)
    requires i < |m|
    ensures |Leaderboard(m)| == |m|
    ensures Leaderboard(m)[i] == LeaderboardEntry(m[i].pubkey, PlaylistUrl(m[i].playlistId))
  {
    if i > 0 {
      LeaderboardRowAt(m[1..], i - 1);
    }
  }

  /** The total on the stats page is the length of the leaderboard. */
  lemma TotalIsLeaderboardLength(db: BotRecord)
    ensures Total(db) == |Leaderboard(db.playlistMap)|
  {
  }

  /** The total counts owners only: it is 0 for an empty map and does not
      depend on the tokens. */
  lemma TotalCountsOwners(db: BotRecord, accessToken: string, refreshToken: string)
    ensures db.playlistMap == [] ==> Total(db) == 0
    ensures Total(WithTokens(db, accessToken, refreshToken)) == Total(db)
  {
  }

  /** Giving a new owner a playlist adds one to the total; re-assigning an
      existing owner leaves it as it was. */
  lemma TotalAfterAddPlaylist(db: BotRecord, pubkey: string, playlistId: string)
    ensures Lookup(db.playlistMap, pubkey).None? ==> Total(WithPlaylist(db, pubkey, playlistId)) == Total(db) + 1
    ensures Lookup(db.playlistMap, pubkey).Some? ==> Total(WithPlaylist(db, pubkey, playlistId)) == Total(db)
  {
    LookupFound(db.playlistMap, pubkey);
  }
}
