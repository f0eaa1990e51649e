/** `lib/db.js`: the bot's own store. Reading and writing `db.json` is
    abstracted away: the loaded `botSpotify` object is the database, and each
    `save(db)` is recorded, with the state it persists, in the list of calls an
    operation makes. Spotify's token refresh and playlist creation are
    parameters that may fail. */
module LocalDb {
  import opened Wrappers
  import opened Store

  /** The arguments of `createPlaylist(name, { description, public })`. */
  datatype PlaylistSpec = PlaylistSpec(name: string, description: string, isPublic: bool)

  /** The external calls of `getOrCreatePlaylistForPubKey`, in the order made. */
  datatype Call =
    | RefreshAccessToken(refreshToken: string)
    | CreatePlaylist(spec: PlaylistSpec)
    | Save(record: BotRecord)

  /** Which awaited Spotify call threw. */
  datatype Failure = RefreshFailed | CreateFailed

  /** `{ playlistId, accessToken }`. */
  datatype Playlist = Playlist(playlistId: string, accessToken: string)

  /** What one call of `getOrCreatePlaylistForPubKey` returns, the state it
      leaves, and the calls it made. */
  datatype Outcome = Outcome(result: Result<Playlist, Failure>, after: BotRecord, calls: seq<Call>)

  const PlaylistNamePrefix := "Nostr Playlist \U{2014} "
  const DescriptionPrefix := "Created by the Nostr bot for "

  /** A new owner's playlist: private, with the pubkey closing both its name
      and its description. */
  function NewPlaylistSpec(pubkey: string): (spec: PlaylistSpec)
    ensures !spec.isPublic
    ensures PlaylistNamePrefix <= spec.name && spec.name[|PlaylistNamePrefix|..] == pubkey
    ensures DescriptionPrefix <= spec.description && spec.description[|DescriptionPrefix|..] == pubkey
  {
    PlaylistSpec(PlaylistNamePrefix + pubkey, DescriptionPrefix + pubkey, false)
  }

  /** Different owners get playlists with different names. */
  lemma NewPlaylistNamesDistinct(p: string, q: string)
    requires p != q
    ensures NewPlaylistSpec(p).name != NewPlaylistSpec(q).name
  {
    var a, b := NewPlaylistSpec(p).name, NewPlaylistSpec(q).name;
    assert a[|PlaylistNamePrefix|..] == p && b[|PlaylistNamePrefix|..] == q;
  }

  /** `if (bot.playlistMap[pubkey])`: a stored id counts only when it is truthy,
      so an empty id is treated like a missing one. */
  function StoredPlaylist(m: PlaylistMap, pubkey: string): (r: Option<string>)
    ensures r.Some? <==> Lookup(m, pubkey).Some? && Lookup(m, pubkey).value != ""
    ensures r.Some? ==> r.value == Lookup(m, pubkey).value
  {
    match Lookup(m, pubkey)
    case Some(id) => if id != "" then Some(id) else None
    case None => None
  }

  /** `getOrCreatePlaylistForPubKey(pubkey)` on the state `before`, given what
      Spotify answers to a token refresh and to a playlist creation. Whatever
      happens, the refresh comes first; once it succeeds the new access token
      is saved before the map is consulted, the token returned is the one
      stored, the refresh token is kept and no other owner's entry changes. A
      failed refresh changes nothing. */
  function GetOrCreate(before: BotRecord, pubkey: string,
                       refresh: string -> Option<string>,
                       create: PlaylistSpec -> Option<string>): (o: Outcome)
    ensures |o.calls| >= 1 && o.calls[0] == RefreshAccessToken(before.refreshToken)
    ensures o.after.refreshToken == before.refreshToken
    ensures forall k :: k != pubkey ==> Lookup(o.after.playlistMap, k) == Lookup(before.playlistMap, k)
    ensures refresh(before.refreshToken).None? ==> o.result == Err(RefreshFailed) && o.after == before && |o.calls| == 1
    ensures refresh(before.refreshToken).Some? ==>
      && |o.calls| >= 2
      && o.after.accessToken == refresh(before.refreshToken).value
      && o.calls[1] == Save(before.(accessToken := refresh(before.refreshToken).value))
    ensures o.result.Ok? ==>
      && o.result.value.accessToken == o.after.accessToken
      && Lookup(o.after.playlistMap, pubkey) == Some(o.result.value.playlistId)
  {
    var asked := RefreshAccessToken(before.refreshToken);
    match refresh(before.refreshToken)
    case None => Outcome(Err(RefreshFailed), before, [asked])
    case Some(token) =>
      var refreshed := before.(accessToken := token);
      var calls := [asked, Save(refreshed)];
      match StoredPlaylist(refreshed.playlistMap, pubkey)
      case Some(id) => Outcome(Ok(Playlist(id, token)), refreshed, calls)
      case None =>
        var spec := NewPlaylistSpec(pubkey);
        match create(spec)
        case None => Outcome(Err(CreateFailed), refreshed, calls + [CreatePlaylist(spec)])
        case Some(id) =>
          var after := WithPlaylist(refreshed, pubkey, id);
          Outcome(Ok(Playlist(id, token)), after, calls + [CreatePlaylist(spec), Save(after)])
  }

  /** True when the calls include a playlist creation. */
  predicate CreatesPlaylist(calls: seq<Call>) {
    exists k :: 0 <= k < |calls| && calls[k].CreatePlaylist?
  }

  /** A hit returns the stored id with the fresh token and creates nothing; the
      map is left as it was. */
  lemma GetOrCreateHit(before: BotRecord, pubkey: string,
                       refresh: string -> Option<string>, create: PlaylistSpec -> Option<string>)
    requires refresh(before.refreshToken).Some?
    requires StoredPlaylist(before.playlistMap, pubkey).Some?
    ensures var o := GetOrCreate(before, pubkey, refresh, create);
      && o.result == Ok(Playlist(Lookup(before.playlistMap, pubkey).value, refresh(before.refreshToken).value))
      && o.after.playlistMap == before.playlistMap
      && !CreatesPlaylist(o.calls)
  {
  }

  /** A miss creates one private playlist named after the owner, stores its id
      under the owner's key and returns that same id. */
  lemma GetOrCreateMiss(before: BotRecord, pubkey: string,
                        refresh: string -> Option<string>, create: PlaylistSpec -> Option<string>)
    requires refresh(before.refreshToken).Some?
    requires StoredPlaylist(before.playlistMap, pubkey).None?
    ensures var o := GetOrCreate(before, pubkey, refresh, create);
      && o.calls[2] == CreatePlaylist(NewPlaylistSpec(pubkey))
      && !o.calls[2].spec.isPublic
      && (create(NewPlaylistSpec(pubkey)).Some? ==>
            && o.result.Ok?
            && o.result.value.playlistId == create(NewPlaylistSpec(pubkey)).value
            && Lookup(o.after.playlistMap, pubkey) == Some(o.result.value.playlistId))
      && (create(NewPlaylistSpec(pubkey)).None? ==>
            o.result == Err(CreateFailed) && o.after.playlistMap == before.playlistMap)
  {
  }

  /** An existing (non-empty) entry is never overwritten. */
  lemma GetOrCreateNeverOverwrites(before: BotRecord, pubkey: string,
                                   refresh: string -> Option<string>, create: PlaylistSpec -> Option<string>)
    requires StoredPlaylist(before.playlistMap, pubkey).Some?
    ensures GetOrCreate(before, pubkey, refresh, create).after.playlistMap == before.playlistMap
  {
  }

  /** Asking twice for the same owner: the second call finds the first call's
      playlist, returns the same id and creates nothing (the id Spotify gave is
      non-empty, as Spotify ids are). */
  lemma GetOrCreateTwice(before: BotRecord, pubkey: string,
                         refresh: string -> Option<string>, create: PlaylistSpec -> Option<string>)
    requires GetOrCreate(before, pubkey, refresh, create).result.Ok?
    requires GetOrCreate(before, pubkey, refresh, create).result.value.playlistId != ""
    requires refresh(GetOrCreate(before, pubkey, refresh, create).after.refreshToken).Some?
    ensures var first := GetOrCreate(before, pubkey, refresh, create);
      var second := GetOrCreate(first.after, pubkey, refresh, create);
      && second.result.Ok?
      && second.result.value.playlistId == first.result.value.playlistId
      && !CreatesPlaylist(second.calls)
      && second.after.playlistMap == first.after.playlistMap
  {
    var first := GetOrCreate(before, pubkey, refresh, create);
    assert StoredPlaylist(first.after.playlistMap, pubkey).Some?;
    GetOrCreateHit(first.after, pubkey, refresh, create);
  }

  /** `saveSpotifyTokens(accessToken, refreshToken)`: sets both token fields
      and leaves `playlistMap` untouched. */
  method SaveSpotifyTokens(bot: BotSpotify, accessToken: string, refreshToken: string)
    modifies bot
    ensures bot.Record() == WithTokens(old(bot.Record()), accessToken, refreshToken)
  {
    bot.accessToken := accessToken;
    bot.refreshToken := refreshToken;
  }

  /** `getOrCreatePlaylistForPubKey(pubkey)`, updating the `botSpotify` object
      in place as the source does. */
  method GetOrCreatePlaylistForPubKey(bot: BotSpotify, pubkey: string,
                                      refresh: string -> Option<string>,
                                      create: PlaylistSpec -> Option<string>)
    returns (result: Result<Playlist, Failure>, calls: seq<Call>)
    modifies bot
    ensures var o := GetOrCreate(old(bot.Record()), pubkey, refresh, create);
      result == o.result && calls == o.calls && bot.Record() == o.after
  {
    calls := [RefreshAccessToken(bot.refreshToken)];
    var rt := refresh(bot.refreshToken);
    if rt.None? {
      return Err(RefreshFailed), calls;
    }
    bot.accessToken := rt.value;
    calls := calls + [Save(bot.Record())];

    var stored := StoredPlaylist(bot.playlistMap, pubkey);
    if stored.Some? {
      return Ok(Playlist(stored.value, bot.accessToken)), calls;
    }

    var spec := NewPlaylistSpec(pubkey);
    calls := calls + [CreatePlaylist(spec)];
    var pl := create(spec);
    if pl.None? {
      return Err(CreateFailed), calls;
    }
    PutKeepsKeysDistinct(bot.playlistMap, pubkey, pl.value);
    bot.playlistMap := Put(bot.playlistMap, pubkey, pl.value);
    calls := calls + [Save(bot.Record())];
    result := Ok(Playlist(pl.value, bot.accessToken));
  }
}
