# Nostr → Spotify playlist bot, modelled in Dafny

The system is a Nostr bot and a small web front end. The bot subscribes to
text notes (kind 1) that tag its public key. For each mention it pulls every
`open.spotify.com/track/<id>` link out of the note. It finds or creates a
private Spotify playlist for the note's author and adds the tracks. Then it
replies with a note that quotes the count and the playlist URL. The store maps
each author's pubkey to their playlist id and keeps the bot's Spotify tokens.
It comes in two versions: `db.json` for the bot, and a `/tmp` file for the
serverless front end, which falls back to an in-memory default. The front end
also shows a leaderboard and a total, and looks up authors' profiles on
relays, with a cache.

Modules, one per source file, plus four shared ones:

- `Wrappers`: `Option` and `Result`.
- `Text`: the JavaScript string operations used: `slice(0, n)`,
  `split(',')`, decimal rendering of a count, runs of letters and digits.
- `Spotify`: track URIs and public playlist URLs, with their inverses.
- `Store`: `db.botSpotify`. `playlistMap` is an insertion-ordered list of
  entries with distinct keys, as a JavaScript object keeps its properties.
  The `BotSpotify` class is the object the store code assigns in place.
- `LocalDb` (`lib/db.js`): `saveSpotifyTokens` and
  `getOrCreatePlaylistForPubKey`. The specification function `GetOrCreate`
  gives the result, the new state and the external calls in order. The
  method updating `botSpotify` in place is proved equal to it.
- `VercelDb` (`lib/vercel-db.js`): `loadDb`, `saveDb`, `addPlaylist`,
  `getPlaylists`, `updateTokens`. The class `VercelStore` models the file, the
  environment and `DEFAULT_DB`. After a read error, `loadDb` returns
  `{ ...DEFAULT_DB }`, a shallow copy that shares `DEFAULT_DB.botSpotify`.
  So a later `addPlaylist` or `updateTokens` writes into `DEFAULT_DB` itself,
  and the contracts state that.
- `Views` (`pages/api/leaderboard.js`, `pages/api/stats.js`): the leaderboard
  rows and the total.
- `Bot` (`bot.js`): startup, the subscription filter, the track-link scanner
  (`matchAll` with `/open\.spotify\.com\/track\/([A-Za-z0-9]+)/g`), the reply
  note, and the `onevent` handler as a method whose effects are listed in
  order.
- `Nostr` (`lib/nostr.js`): the profile cache, npub resolution, the default
  profile, how a relay message is classified (`EVENT`, `EOSE`, anything
  else), `Promise.any` over relays, and the hex/npub conversions.

The scanner is proved against an independent description of `matchAll`: the
leftmost match first, then resuming where that match ended. The description
admits only one list. Repeated links are not merged: the same link twice adds
the track twice (`Bot.DuplicatesKept`).

Calls into code outside the model are parameters. These are Spotify's token
refresh, playlist creation and track addition, `getPublicKey`, the NIP-19
codec and `JSON.parse`. Each, except `getPublicKey`, is given as a function
whose `None` or `false` means that the call threw; `getPublicKey` is a plain
function and never fails. The clock is a parameter (`nowMs`). What the relays
sent is given as data: each relay's messages, with the relays listed in the
order their attempts settle.

## Model

| member | source | states |
|---|---|---|
| `Text.Take` | lib/nostr.js:33 | `slice(0, n)`: a prefix of at most n characters, exactly n when the string is long enough, and the whole string when it is shorter |
| `Text.NatToString` | bot.js:75 | the count is written as a non-empty run of decimal digits without a leading zero |
| `Text.DigitsValueOfNatToString` | bot.js:75 | reading the written count back as a decimal number gives the count |
| `Text.Split` | bot.js:21 | `split(',')` gives at least one piece, and no piece contains a comma |
| `Text.JoinSplit` | bot.js:21 | the pieces of `NOSTR_RELAYS` joined with commas give back the variable |
| `Text.SplitJoin` | bot.js:21 | splitting comma-free pieces joined by commas gives back those pieces |
| `Spotify.TrackUris` | bot.js:66 | one `spotify:track:` URI per id, in the same order, each naming its id |
| `Spotify.PlaylistUrlRoundTrip` | bot.js:75 | the playlist URL names exactly the playlist it was built from |
| `Spotify.PlaylistUrlInjective` | pages/api/leaderboard.js:7 | different playlists never share a URL |
| `Store.Keys` | pages/api/stats.js:5 | `Object.keys` lists one key per entry, in entry order |
| `Store.LookupFound` | lib/db.js:44 | `playlistMap[pubkey]` is defined exactly for the map's keys, and the value is the one stored under that key |
| `Store.LookupAt` | pages/api/leaderboard.js:6 | each entry's id is what a lookup of its key gives |
| `Store.Put` | lib/db.js:54 | after `playlistMap[pubkey] = id` the key gives the new id, other keys are unchanged, an existing key keeps its place and a new key goes last |
| `Store.PutKeepsKeysDistinct` | lib/db.js:54 | assigning a property never makes a key appear twice |
| `Store.WithPlaylist` | lib/vercel-db.js:80 | the record after assigning one map key: that key gives the new id, other keys and both tokens are unchanged |
| `Store.WithTokens` | lib/db.js:18-19 | the record after assigning both tokens: the tokens are the new ones and the map is unchanged |
| `LocalDb.NewPlaylistSpec` | lib/db.js:49-52 | a new playlist is private, and its name and description are fixed prefixes followed by the owner's pubkey |
| `LocalDb.NewPlaylistNamesDistinct` | lib/db.js:49 | different owners get playlists with different names |
| `LocalDb.StoredPlaylist` | lib/db.js:44-45 | a stored id counts only when it is non-empty (truthy), in both directions |
| `LocalDb.GetOrCreateHit` | lib/db.js:43-46 | an existing playlist is returned with the refreshed token, nothing is created, and the map is unchanged |
| `LocalDb.GetOrCreateMiss` | lib/db.js:48-57 | a miss creates one private playlist named after the owner; on success that id is stored under the owner and returned; on failure the map is unchanged |
| `LocalDb.GetOrCreate` | lib/db.js:27-58 | the refresh comes first; a failed refresh changes nothing; otherwise the new token is saved before the map is read; the refresh token and other owners' entries are kept; a returned playlist is stored under the owner with the stored token |
| `LocalDb.GetOrCreateNeverOverwrites` | lib/db.js:43-46 | an existing non-empty entry is never overwritten |
| `LocalDb.GetOrCreateTwice` | lib/db.js:27-58 | a second request for the same owner returns the first call's playlist and creates nothing |
| `LocalDb.SaveSpotifyTokens` | lib/db.js:16-21 | both tokens are replaced and `playlistMap` is untouched |
| `LocalDb.GetOrCreatePlaylistForPubKey` | lib/db.js:27-58 | the in-place update returns, leaves and calls exactly what `GetOrCreate` describes |
| `VercelDb.OrEmpty` | lib/vercel-db.js:30-31 | an unset token variable reads as the empty string |
| `VercelDb.EnvPlaylistMap` | lib/vercel-db.js:36-45 | `PLAYLIST_MAP` is used only when set, non-empty and parseable; otherwise the map is empty |
| `VercelDb.InitialRecord` | lib/vercel-db.js:28-45 | a new database takes each token variable, or the empty string when it is unset, and the map from `PLAYLIST_MAP` |
| `VercelDb.VercelStore.constructor` | lib/vercel-db.js:7-13 | `DEFAULT_DB` is built once, from the token variables, with an empty map |
| `VercelDb.VercelStore.SaveDb` | lib/vercel-db.js:55-75 | returns true and writes the record when the write succeeds; returns false and leaves the file when it throws |
| `VercelDb.VercelStore.LoadDb` | lib/vercel-db.js:18-53 | a stored file is read into new objects; a missing file is built from the environment and saved; a read error gives a new outer object sharing `DEFAULT_DB.botSpotify` |
| `VercelDb.VercelStore.AddPlaylist` | lib/vercel-db.js:78-82 | the loaded record with the key assigned is saved, and the result is the save's; after a read error the assignment also lands in `DEFAULT_DB` |
| `VercelDb.VercelStore.GetPlaylists` | lib/vercel-db.js:85-88 | the loaded record's map, with the file left as `loadDb` leaves it |
| `VercelDb.VercelStore.UpdateTokens` | lib/vercel-db.js:91-96 | the loaded record with both tokens replaced is saved, and the result is the save's; after a read error the change also lands in `DEFAULT_DB` |
| `Views.Leaderboard` | pages/api/leaderboard.js:6-8 | one row per map entry, in map order, with the entry's pubkey and a URL naming the entry's playlist |
| `Views.LeaderboardRowAt` | pages/api/leaderboard.js:6-8 | row i is built from entry i |
| `Views.LeaderboardPubkeysDistinct` | pages/api/leaderboard.js:6-8 | no pubkey is listed twice |
| `Views.LeaderboardListsEveryOwner` | pages/api/leaderboard.js:6-8 | a pubkey is listed exactly when it has a playlist, with that playlist's URL |
| `Views.Total` | pages/api/stats.js:5 | the total is the number of entries in the map |
| `Views.TotalIsLeaderboardLength` | pages/api/stats.js:5 | the total equals the number of leaderboard rows |
| `Views.TotalCountsOwners` | pages/api/stats.js:5 | the total is 0 for an empty map and does not depend on the tokens |
| `Views.TotalAfterAddPlaylist` | pages/api/stats.js:5 | assigning a new owner adds one to the total; re-assigning an existing owner does not change it |
| `Bot.Startup` | bot.js:18-21 | startup succeeds exactly when the private key is set and non-empty and `NOSTR_RELAYS` is set; a missing or empty key is the error reported; the public key is derived from the secret key |
| `Bot.StartupSpec` | bot.js:21 | after a successful startup the relays are comma-free pieces that, joined with commas, give back `NOSTR_RELAYS` |
| `Bot.MentionFilter` | bot.js:45-47 | the subscription selects exactly the kind-1 notes with a `p` tag naming the bot |
| `Bot.MatchesFromAreMatches` | bot.js:52-54 | every span found is a match: the literal link, then the longest run of ASCII letters and digits |
| `Bot.MatchesFromIsScan` | bot.js:52-54 | the search meets the reference description of `matchAll`: leftmost match first, resuming at its end |
| `Bot.ScanUnique` | bot.js:52-54 | the reference description admits exactly one list of matches |
| `Bot.ExtractIds` | bot.js:52-54 | every extracted id is a non-empty run of ASCII letters and digits |
| `Bot.ExtractedIdsAreTrackIds` | bot.js:52-54 | every extracted id stands right after `open.spotify.com/track/` and runs as far as letters and digits go |
| `Bot.ExtractIdsEmpty` | bot.js:52-55 | no id is extracted exactly when no track link followed by a letter or digit occurs |
| `Bot.ExtractIdsAppend` | bot.js:52-54 | for two texts where the first ends in a separator, the ids of the whole are the first part's ids followed by the second part's |
| `Bot.SingleLink` | bot.js:52-54 | one link followed by a space gives exactly its id |
| `Bot.DuplicatesKept` | bot.js:52-54 | the same link twice gives the id twice: nothing is deduplicated |
| `Bot.ConfirmationText` | bot.js:75 | the confirmation text reads back as the count and the playlist id it was built from |
| `Bot.Reply` | bot.js:70-76 | the reply is a kind-1 note by the bot, tagging only the mention, whose text states the count and the playlist |
| `Bot.OnEvent` | bot.js:49-79 | with no ids, nothing happens. Otherwise the store state and calls are those of `GetOrCreate`. A store failure ends the handler. Then one URI per id is added, duplicates included. The reply is published to the relays only when the addition succeeds, dated `floor(now / 1000)` |
| `Nostr.OrElse` | lib/nostr.js:117-119 | JavaScript's logical or keeps a truthy value and otherwise gives the fallback |
| `Nostr.DefaultProfile` | lib/nostr.js:32-36 | the default profile has null about and picture and a name of at most 17 characters that starts with `nostr:` and ends with `...` |
| `Nostr.DefaultProfileSpec` | lib/nostr.js:33 | the default name shows the first eight characters of the key, and the default depends on those eight characters only |
| `Nostr.ResolveHex` | lib/nostr.js:20-29 | an `npub1` key is decoded when decoding succeeds; any other key, or one that fails to decode, is used as given |
| `Nostr.ParsedContent` | lib/nostr.js:107-113 | the parsed content is null only when the content is null or parses to null; content that fails to parse, is missing, or is an array or object gives `{}`; parseable text gives its value |
| `Nostr.React` | lib/nostr.js:98-142 | only an `EVENT` or `EOSE` message for the subscription resolves; each resolved field is truthy or its fallback (the default name, or null) |
| `Nostr.EoseGivesDefault` | lib/nostr.js:129-138 | end of stored events for the subscription gives the default profile |
| `Nostr.OtherMessagesIgnored` | lib/nostr.js:98-142 | messages for another subscription, or of another type, are ignored |
| `Nostr.EventUnparsedGivesDefault` | lib/nostr.js:103-125 | any `EVENT` message for the subscription whose `content` is text that does not parse resolves with exactly the default profile, whatever other fields the event has |
| `Nostr.EventContentFields` | lib/nostr.js:103-125 | any `EVENT` message for the subscription whose `content` parses to an object resolves with that object's truthy `name`, `about` and `picture`; a missing or falsy one becomes the default name or null |
| `Nostr.RelayResultIsFirstResolve` | lib/nostr.js:98-143 | a relay yields a profile exactly when one of its messages resolves, and the profile is that of the first such message |
| `Nostr.FromRelaysSpec` | lib/nostr.js:146-154 | the result is the first resolving relay's profile, or the default when every relay fails |
| `Nostr.ProfileCache.constructor` | lib/nostr.js:6 | the cache starts empty |
| `Nostr.ProfileCache.FetchUserProfile` | lib/nostr.js:14-53 | a cached key is answered from the cache without asking relays. Otherwise a timeout gives the default and caches nothing. A settled lookup's result, the default included, is cached under the key as given |
| `Nostr.HexToNpub` | lib/nostr.js:174-181 | the encoding when it succeeds; otherwise `npub_error_` followed by the first eight characters of the key, which is never an `npub1` key |
| `Nostr.NpubToHex` | lib/nostr.js:186-194 | the decoded key when decoding succeeds; otherwise the input unchanged |
| `Nostr.KeyConversionSpec` | lib/nostr.js:174-194 | with a decoder that inverts the encoder, hex→npub→hex is the identity |

## Left out

- Network I/O is not modelled: WebSockets, `SimplePool`, connecting, sending
  `REQ`, closing sockets and timers. The model sees only what each relay sent
  and whether the 3-second race timed out. The order in which relays settle is
  an input.
- The Spotify Web API client is not modelled. Refresh, creation and track
  addition are parameters that succeed or fail. Their HTTP requests and
  response bodies are not modelled.
- File I/O and JSON text are not modelled: `db.json` and the `/tmp` file are
  represented by the record they hold, or by a read error. `JSON.stringify`
  formatting and `fs.existsSync` races are not modelled. The `VERCEL` log line
  in `saveDb` is console output only.
- Signing is not modelled: `finalizeEvent` has no counterpart, and a
  published note is the unsigned template (`Bot.Template`). Key derivation
  (`getPublicKey`) and NIP-19 bech32 coding are parameters. A `getPublicKey`
  that throws on a malformed key is not modelled. `nip19.decode` results other
  than a hex string are not modelled.
- The metadata note the bot publishes at startup (bot.js:24-41) is not
  modelled. The `try`/`catch` around it catches only an error thrown while
  signing or starting the publish. A relay that rejects the note leaves a
  rejected promise that nothing handles or logs, and that is not modelled
  either.
- Console logging, `Math.random` (the subscription id is an input) and
  `Date.now` (an input) are not modelled.
- The web pages, OAuth routes and components are not part of this model.
- `getDefaultRelays` (lib/nostr.js:160-169) is a constant list of URLs. The
  model takes the relays' messages directly, so the list itself does not
  appear.
- Object property order for integer-like keys and the `__proto__` key is not
  modelled. Pubkeys are 64 hex characters, so the model keeps plain insertion
  order.
- Strings are sequences of characters, not UTF-16 code units. `slice(0, 8)`
  on text with astral characters is not modelled.
- JSON numbers are integers; floating point is not modelled.
- `JSON.parse` of a profile `content` that is an array or an object is taken
  to throw. The source first turns it into a string, and that text is not
  modelled.
- `Nostr.ProfileCache.FetchUserProfile`: concurrent calls for the same key
  are not modelled. Neither is the race in which a relay resolves after the
  3-second timer.
- `Bot.OnEvent`: concurrent handlers on the same `db.json` are not modelled.
  Each handler loads and saves its own copy, so their writes can interleave.
- `Bot.OnEvent`: a failed refresh, playlist creation or track addition ends
  the model's handler with the effects so far. In the source the `async`
  handler has no `try`/`catch` and nobody awaits it, so the failure is an
  unhandled promise rejection, and so is a rejected `pool.publish` of the
  reply. Under Node's default, an unhandled rejection ends the process. That
  rejection and its effect on the process are not modelled.
- `LocalDb.GetOrCreateTwice`: requires the playlist id Spotify returned to be
  non-empty. An empty id would be stored and then treated as a miss on the
  next call, which `LocalDb.StoredPlaylist` states.
