/** The bot's persisted state, `db.botSpotify`: the Spotify tokens and the
    `playlistMap` object from owner pubkey to playlist id. A JavaScript object
    keeps its (non-numeric) property names in insertion order and never twice,
    so the map is an ordered list of entries with distinct keys; assigning an
    existing key replaces its value in place, a new key goes at the end. */
module Store {
  import opened Wrappers

  /** One `playlistMap` property: an owner's pubkey and their playlist id. */
  datatype Entry = Entry(pubkey: string, playlistId: string)

  predicate DistinctKeys(m: seq<Entry>) {
    forall i, j :: 0 <= i < j < |m| ==> m[i].pubkey != m[j].pubkey
  }

  type PlaylistMap = m: seq<Entry> | DistinctKeys(m)

  /** `playlistMap[pubkey]`: the stored id, or None where JavaScript gives
      `undefined`. */
  function Lookup(m: seq<Entry>, pubkey: string): Option<string> {
    if m == [] then None
    else if m[0].pubkey == pubkey then Some(m[0].playlistId)
    else Lookup(m[1..], pubkey)
  }

  /** `Object.keys(playlistMap)`, in order. */
  function Keys(m: seq<Entry>): (ks: seq<string>)
    ensures |ks| == |m|
    ensures forall i :: 0 <= i < |m| ==> ks[i] == m[i].pubkey
  {
    if m == [] then [] else [m[0].pubkey] + Keys(m[1..])
  }

  /** A lookup finds a value exactly for the keys of the map, and the value it
      finds is stored under that key. */
  lemma {:induction false} LookupFound(m: seq<Entry>, pubkey: string)
    ensures Lookup(m, pubkey).Some? <==> pubkey in Keys(m)
    ensures Lookup(m, pubkey).Some? ==> Entry(pubkey, Lookup(m, pubkey).value) in m
  {
    if m != [] && m[0].pubkey != pubkey {
      LookupFound(m[1..], pubkey);
      assert Keys(m) == [m[0].pubkey] + Keys(m[1..]);
      assert Lookup(m[1..], pubkey).Some? ==> Lookup(m[1..], pubkey).value == Lookup(m, pubkey).value;
    }
  }

  /** In a map with distinct keys, an entry's value is what a lookup of its key
      gives. */
  lemma {:induction false} LookupAt(m: seq<Entry>, i: nat)
    requires DistinctKeys(m) && i < |m|
    ensures Lookup(m, m[i].pubkey) == Some(m[i].playlistId)
  {
    if i > 0 {
      assert m[0].pubkey != m[i].pubkey;
      LookupAt(m[1..], i - 1);
    }
  }

  /** `playlistMap[pubkey] = playlistId`: the key now gives the new id, every
      other key gives what it gave before, an existing key keeps its place and
      a new key is added last. */
  function Put(m: seq<Entry>, pubkey: string, playlistId: string): (r: seq<Entry>)
    ensures Lookup(r, pubkey) == Some(playlistId)
    ensures forall k :: k != pubkey ==> Lookup(r, k) == Lookup(m, k)
    ensures Keys(r) == if pubkey in Keys(m) then Keys(m) else Keys(m) + [pubkey]
  {
    if m == [] then [Entry(pubkey, playlistId)]
    else if m[0].pubkey == pubkey then [Entry(pubkey, playlistId)] + m[1..]
    else
      var rest := Put(m[1..], pubkey, playlistId);
      assert Keys(m) == [m[0].pubkey] + Keys(m[1..]);
      [m[0]] + rest
  }

  /** Assigning a property never makes a key appear twice. */
  lemma PutKeepsKeysDistinct(m: seq<Entry>, pubkey: string, playlistId: string)
    requires DistinctKeys(m)
    ensures DistinctKeys(Put(m, pubkey, playlistId))
  {
    var r := Put(m, pubkey, playlistId);
    var ks, rs := Keys(m), Keys(r);
    forall i, j | 0 <= i < j < |r| ensures r[i].pubkey != r[j].pubkey {
      assert rs[i] == r[i].pubkey && rs[j] == r[j].pubkey;
      if pubkey !in ks && j == |ks| {
        assert ks[i] == rs[i];
      } else {
        assert ks[i] == rs[i] && ks[j] == rs[j];
      }
    }
  }

  /** `db.botSpotify` as a value. */
  datatype BotRecord = BotRecord(accessToken: string, refreshToken: string, playlistMap: PlaylistMap)

  /** The record after `playlistMap[pubkey] = playlistId`. */
  function WithPlaylist(rec: BotRecord, pubkey: string, playlistId: string): (r: BotRecord)
    ensures Lookup(r.playlistMap, pubkey) == Some(playlistId)
    ensures forall k :: k != pubkey ==> Lookup(r.playlistMap, k) == Lookup(rec.playlistMap, k)
    ensures r.accessToken == rec.accessToken && r.refreshToken == rec.refreshToken
  {
    PutKeepsKeysDistinct(rec.playlistMap, pubkey, playlistId);
    rec.(playlistMap := Put(rec.playlistMap, pubkey, playlistId))
  }

  /** The record after both token fields are assigned. */
  function WithTokens(rec: BotRecord, accessToken: string, refreshToken: string): (r: BotRecord)
    ensures r.accessToken == accessToken && r.refreshToken == refreshToken
    ensures r.playlistMap == rec.playlistMap
  {
    rec.(accessToken := accessToken, refreshToken := refreshToken)
  }

  /** The `botSpotify` object, whose fields the store code assigns in place. */
  class BotSpotify {
    var accessToken: string
    var refreshToken: string
    var playlistMap: PlaylistMap

    constructor (accessToken: string, refreshToken: string, playlistMap: PlaylistMap)
      ensures Record() == BotRecord(accessToken, refreshToken, playlistMap)
    {
      this.accessToken := accessToken;
      this.refreshToken := refreshToken;
      this.playlistMap := playlistMap;
    }

    function Record(): BotRecord
      reads this
    {
      BotRecord(accessToken, refreshToken, playlistMap)
    }
  }
}
