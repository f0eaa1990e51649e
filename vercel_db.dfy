/** `lib/vercel-db.js`: the web front end's store, kept in
    `/tmp/spotify-bot-db.json`. The file is modelled by what reading it back
    would give (nothing, an error, or a record), the environment by its
    variables, `JSON.parse` of `PLAYLIST_MAP` by a parameter that may fail, and
    the outcome of `writeFileSync` by whether the file system is writable. */
module VercelDb {
  import opened Wrappers
  import opened Store

  /** The state of the database file. */
  datatype DbFile =
    | Missing                   // `fs.existsSync` is false
    | Unreadable                // it exists, but reading or parsing it throws
    | Stored(record: BotRecord) // the JSON text of a record

  /** `SPOTIFY_ACCESS_TOKEN`, `SPOTIFY_REFRESH_TOKEN` and `PLAYLIST_MAP`. */
  datatype Env = Env(accessToken: Option<string>, refreshToken: Option<string>, playlistMap: Option<string>)

  /** `process.env.X || ""`. */
  function OrEmpty(v: Option<string>): (s: string)
    ensures v.None? ==> s == ""
    ensures v.Some? ==> s == v.value
  {
    v.GetOr("")
  }

  /** The map taken from `PLAYLIST_MAP`: used only when the variable is set,
      non-empty and parses; otherwise the empty map. */
  function EnvPlaylistMap(text: Option<string>, parse: string -> Option<PlaylistMap>): (m: PlaylistMap)
    ensures text.None? || text == Some("") ==> m == []
    ensures text.Some? && text.value != "" && parse(text.value).Some? ==> m == parse(text.value).value
    ensures text.Some? && text.value != "" && parse(text.value).None? ==> m == []
  {
    match text
    case Some(t) => if t != "" then parse(t).GetOr([]) else []
    case None => []
  }

  /** The database `loadDb` builds when there is no file yet: the token
      variables, empty where unset, and the map from `PLAYLIST_MAP`. */
  function InitialRecord(env: Env, parse: string -> Option<PlaylistMap>): (r: BotRecord)
    ensures env.accessToken.Some? ==> r.accessToken == env.accessToken.value
    ensures env.accessToken.None? ==> r.accessToken == ""
    ensures env.refreshToken.Some? ==> r.refreshToken == env.refreshToken.value
    ensures env.refreshToken.None? ==> r.refreshToken == ""
    ensures r.playlistMap == EnvPlaylistMap(env.playlistMap, parse)
  {
    BotRecord(OrEmpty(env.accessToken), OrEmpty(env.refreshToken), EnvPlaylistMap(env.playlistMap, parse))
  }

  /** The outer `db` object. `{ ...DEFAULT_DB }` makes a new one of these
      around the very same `botSpotify` object. */
  class Db {
    const botSpotify: BotSpotify

    constructor (botSpotify: BotSpotify)
      ensures this.botSpotify == botSpotify
    {
      this.botSpotify := botSpotify;
    }
  }

  /** The module and what it touches: `DEFAULT_DB`, built once when the module
      is loaded, the environment, and the file. */
  class VercelStore {
    const env: Env
    const parse: string -> Option<PlaylistMap>
    const defaultDb: Db
    var file: DbFile
    var writable: bool

    constructor (env: Env, parse: string -> Option<PlaylistMap>, file: DbFile, writable: bool)
      ensures this.env == env && this.parse == parse && this.file == file && this.writable == writable
      ensures fresh(defaultDb) && fresh(defaultDb.botSpotify)
      ensures defaultDb.botSpotify.Record() == BotRecord(OrEmpty(env.accessToken), OrEmpty(env.refreshToken), [])
    {
      this.env := env;
      this.parse := parse;
      var bot := new BotSpotify(OrEmpty(env.accessToken), OrEmpty(env.refreshToken), []);
      this.defaultDb := new Db(bot);
      this.file := file;
      this.writable := writable;
    }

    /** The database `loadDb` returns, as a value. */
    ghost function Loaded(): BotRecord
      reads this, defaultDb.botSpotify
    {
      match file
      case Stored(record) => record
      case Unreadable => defaultDb.botSpotify.Record()
      case Missing => InitialRecord(env, parse)
    }

    /** The file after `loadDb`: a missing file is written with the database
        just built, if the write succeeds. */
    ghost function FileAfterLoad(): DbFile
      reads this
    {
      if file.Missing? && writable then Stored(InitialRecord(env, parse)) else file
    }

    /** `saveDb(data)`: true when the write succeeds, false when it throws. */
    method SaveDb(db: Db) returns (ok: bool)
      modifies this`file
      ensures ok == writable
      ensures file == if writable then Stored(db.botSpotify.Record()) else old(file)
    {
      if writable {
        file := Stored(db.botSpotify.Record());
        ok := true;
      } else {
        ok := false;
      }
    }

    /** `loadDb()`. A stored file is read into new objects; with no file, a
        new database is built from the environment and saved; on a read error
        the result is `{ ...DEFAULT_DB }`, a new outer object that shares
        `DEFAULT_DB.botSpotify`. */
    method LoadDb() returns (db: Db)
      modifies this`file
      ensures fresh(db)
      ensures db.botSpotify.Record() == old(Loaded())
      ensures old(file).Unreadable? ==> db.botSpotify == defaultDb.botSpotify
      ensures !old(file).Unreadable? ==> fresh(db.botSpotify)
      ensures file == old(FileAfterLoad())
    {
      match file
      case Stored(record) =>
        var bot := new BotSpotify(record.accessToken, record.refreshToken, record.playlistMap);
        db := new Db(bot);
      case Unreadable =>
        db := new Db(defaultDb.botSpotify);
      case Missing =>
        var bot := new BotSpotify(OrEmpty(env.accessToken), OrEmpty(env.refreshToken), []);
        db := new Db(bot);
        if env.playlistMap.Some? && env.playlistMap.value != "" {
          var parsed := parse(env.playlistMap.value);
          if parsed.Some? {
            bot.playlistMap := parsed.value;
          }
        }
        var _ := SaveDb(db);
    }

    /** `addPlaylist(pubkey, playlistId)`: loads, assigns the key (replacing
        any earlier id), saves, and returns what `saveDb` returned. After a
        read error the assignment lands in `DEFAULT_DB` itself. */
    method AddPlaylist(pubkey: string, playlistId: string) returns (ok: bool)
      modifies this`file, defaultDb.botSpotify
      ensures ok == writable
      ensures file == if writable then Stored(WithPlaylist(old(Loaded()), pubkey, playlistId)) else old(file)
      ensures old(file).Unreadable? ==>
        defaultDb.botSpotify.Record() == WithPlaylist(old(defaultDb.botSpotify.Record()), pubkey, playlistId)
      ensures !old(file).Unreadable? ==> defaultDb.botSpotify.Record() == old(defaultDb.botSpotify.Record())
    {
      var db := LoadDb();
      PutKeepsKeysDistinct(db.botSpotify.playlistMap, pubkey, playlistId);
      db.botSpotify.playlistMap := Put(db.botSpotify.playlistMap, pubkey, playlistId);
      ok := SaveDb(db);
    }

    /** `getPlaylists()`: the `playlistMap` of the loaded database. */
    method GetPlaylists() returns (m: PlaylistMap)
      modifies this`file
      ensures m == old(Loaded()).playlistMap
      ensures file == old(FileAfterLoad())
    {
      var db := LoadDb();
      m := db.botSpotify.playlistMap;
    }

    /** `updateTokens(accessToken, refreshToken)`: loads, sets both token
        fields, saves, and returns what `saveDb` returned. */
    method UpdateTokens(accessToken: string, refreshToken: string) returns (ok: bool)
      modifies this`file, defaultDb.botSpotify
      ensures ok == writable
      ensures file == if writable then Stored(WithTokens(old(Loaded()), accessToken, refreshToken)) else old(file)
      ensures old(file).Unreadable? ==>
        defaultDb.botSpotify.Record() == WithTokens(old(defaultDb.botSpotify.Record()), accessToken, refreshToken)
      ensures !old(file).Unreadable? ==> defaultDb.botSpotify.Record() == old(defaultDb.botSpotify.Record())
    {
      var db := LoadDb();
      db.botSpotify.accessToken := accessToken;
      db.botSpotify.refreshToken := refreshToken;
      ok := SaveDb(db);
    }
  }
}
