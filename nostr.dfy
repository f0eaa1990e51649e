/** `lib/nostr.js`: looking up a user's profile (kind-0 metadata) on relays,
    with a module-level cache, and converting keys between hex and `npub`
    form. The WebSocket traffic is given as the parsed messages each relay
    sent, relays in the order their attempts settle; the 3-second race is an
    outcome that may be a timeout; the NIP-19 codec and `JSON.parse` are
    partial functions passed in. */
module Nostr {
  import opened Wrappers
  import opened Text

  // -------------------------------------------------------------- JSON data

  /** A value as `JSON.parse` returns it; numbers are limited to integers. */
  datatype Json =
    | JNull
    | JBool(b: bool)
    | JNum(n: int)
    | JStr(s: string)
    | JArr(items: seq<Json>)
    | JObj(props: seq<(string, Json)>)

  /** JavaScript truthiness. */
  predicate Truthy(v: Json) {
    match v
    case JNull => false
    case JBool(b) => b
    case JNum(n) => n != 0
    case JStr(s) => s != ""
    case _ => true
  }

  /** A property of a parsed object; `JSON.parse` keeps the last of duplicate
      names. */
  function Prop(props: seq<(string, Json)>, key: string): Option<Json> {
    if props == [] then None
    else if props[|props| - 1].0 == key then Some(props[|props| - 1].1)
    else Prop(props[..|props| - 1], key)
  }

  /** `v[k]` on a value other than null: an array element, an object property
      named by the digits of k, or a one-character string; otherwise
      `undefined`. */
  function Index(v: Json, k: nat): Option<Json> {
    match v
    case JArr(items) => if k < |items| then Some(items[k]) else None
    case JObj(props) => Prop(props, NatToString(k))
    case JStr(s) => if k < |s| then Some(JStr([s[k]])) else None
    case _ => None
  }

  /** `v.key` on a value other than null, for the non-numeric keys used here
      (`content`, `name`, `about`, `picture`): only objects have them. */
  function Field(v: Json, key: string): Option<Json> {
    match v
    case JObj(props) => Prop(props, key)
    case _ => None
  }

  /** `v || fallback`, where None stands for `undefined`. */
  function OrElse(v: Option<Json>, fallback: Json): (r: Json)
    ensures r == fallback || (v.Some? && r == v.value && Truthy(r))
    ensures v.Some? && Truthy(v.value) ==> r == v.value
  {
    if v.Some? && Truthy(v.value) then v.value else fallback
  }

  // --------------------------------------------------------------- profiles

  /** `{ name, about, picture }`; `null` is JNull. */
  datatype Profile = Profile(name: Json, about: Json, picture: Json)

  /** `nostr:${hex.slice(0, 8)}...`. */
  function DefaultName(hex: string): string {
    "nostr:" + Take(hex, 8) + "..."
  }

  /** The profile shown when nothing better is known: null about and picture,
      and a name of at most 17 characters with the `nostr:` prefix and the
      `...` ending. */
  function DefaultProfile(hex: string): (p: Profile)
    ensures p.about == JNull && p.picture == JNull
    ensures p.name.JStr? && "nostr:" <= p.name.s && |p.name.s| <= 17
    ensures p.name.s[|p.name.s| - 3..] == "..."
  {
    var s := DefaultName(hex);
    assert s[|s| - 3..] == "...";
    Profile(JStr(s), JNull, JNull)
  }

  /** The default name shows the first eight characters of the key, so the
      default depends on those alone. */
  lemma DefaultProfileSpec(hex: string, other: string)
    ensures DefaultProfile(hex).name.s[6..|DefaultProfile(hex).name.s| - 3] == Take(hex, 8)
    ensures Take(hex, 8) == Take(other, 8) ==> DefaultProfile(hex) == DefaultProfile(other)
  {
    var s := DefaultName(hex);
    assert s[6..|s| - 3] == Take(hex, 8);
  }

  /** Lines 21-29: input beginning with `npub1` is decoded to hex; when that
      fails, or for any other input, the input itself is used. */
  function ResolveHex(pubkey: string, decode: string -> Option<string>): (hex: string)
    ensures !("npub1" <= pubkey) ==> hex == pubkey
    ensures "npub1" <= pubkey && decode(pubkey).None? ==> hex == pubkey
    ensures "npub1" <= pubkey && decode(pubkey).Some? ==> hex == decode(pubkey).value
  {
    if "npub1" <= pubkey then decode(pubkey).GetOr(pubkey) else pubkey
  }

  // ----------------------------------------------------- relay messages

  /** What a relay's WebSocket handler does with one incoming message. */
  datatype Reaction = Ignore | Resolve(profile: Profile)

  /** `["EVENT", subId, <truthy payload>, ...]`. */
  predicate IsEventFor(m: Json, subId: string) {
    && Index(m, 0) == Some(JStr("EVENT"))
    && Index(m, 1) == Some(JStr(subId))
    && Index(m, 2).Some? && Truthy(Index(m, 2).value)
  }

  /** `["EOSE", subId, ...]`. */
  predicate IsEoseFor(m: Json, subId: string) {
    Index(m, 0) == Some(JStr("EOSE")) && Index(m, 1) == Some(JStr(subId))
  }

  /** `JSON.parse(profileEvent.content)`, falling back to `{}` when it throws.
      Parsing `undefined` throws; `null`, numbers and booleans parse to
      themselves; the text of an array or object is not followed (it is taken
      to throw). */
  function ParsedContent(content: Option<Json>, parse: string -> Option<Json>): (r: Json)
    ensures r.JNull? <==> content == Some(JNull) || (content.Some? && content.value.JStr? && parse(content.value.s) == Some(JNull))
    ensures content.Some? && content.value.JStr? && parse(content.value.s).Some? ==> r == parse(content.value.s).value
    ensures content.Some? && content.value.JStr? && parse(content.value.s).None? ==> r == JObj([])
    ensures content.None? || (content.Some? && (content.value.JArr? || content.value.JObj?)) ==> r == JObj([])
  {
    match content
    case Some(JStr(text)) => parse(text).GetOr(JObj([]))
    case Some(JNull) => JNull
    case Some(JNum(n)) => JNum(n)
    case Some(JBool(b)) => JBool(b)
    case _ => JObj([])
  }

  /** Lines 98-141 for one message. `msg` is the result of parsing the frame
      (None when `JSON.parse` throws). Any exception inside the handler, such
      as indexing `null` or reading `.name` of a `null` content, is caught and
      the message is ignored. */
  function React(msg: Option<Json>, subId: string, hex: string, parse: string -> Option<Json>): (r: Reaction)
    ensures r.Resolve? ==> msg.Some? && (IsEventFor(msg.value, subId) || IsEoseFor(msg.value, subId))
    ensures r.Resolve? ==>
      && (r.profile.name == JStr(DefaultName(hex)) || Truthy(r.profile.name))
      && (r.profile.about == JNull || Truthy(r.profile.about))
      && (r.profile.picture == JNull || Truthy(r.profile.picture))
  {
    match msg
    case None => Ignore
    case Some(m) =>
      if m.JNull? then Ignore
      else if IsEventFor(m, subId) then
        var content := ParsedContent(Field(Index(m, 2).value, "content"), parse);
        if content.JNull? then Ignore
        else Resolve(Profile(OrElse(Field(content, "name"), JStr(DefaultName(hex))),
                             OrElse(Field(content, "about"), JNull),
                             OrElse(Field(content, "picture"), JNull)))
      else if IsEoseFor(m, subId) then Resolve(DefaultProfile(hex))
      else Ignore
  }

  /** An end-of-stored-events notice for this subscription gives the default
      profile. */
  lemma EoseGivesDefault(subId: string, hex: string, parse: string -> Option<Json>)
    ensures React(Some(JArr([JStr("EOSE"), JStr(subId)])), subId, hex, parse) == Resolve(DefaultProfile(hex))
  {
  }

  /** Messages for another subscription, and messages of any type other than
      `EVENT` and `EOSE` (such as `NOTICE`), are ignored. */
  lemma OtherMessagesIgnored(m: Json, subId: string, hex: string, parse: string -> Option<Json>)
    requires Index(m, 1) != Some(JStr(subId)) || (Index(m, 0) != Some(JStr("EVENT")) && Index(m, 0) != Some(JStr("EOSE")))
    ensures React(Some(m), subId, hex, parse) == Ignore
  {
  }

  /** An event for the subscription whose content is text that does not
      parse resolves with the default profile, whatever else the event
      carries. */
  lemma EventUnparsedGivesDefault(m: Json, subId: string, hex: string, text: string, parse: string -> Option<Json>)
    requires IsEventFor(m, subId) && Field(Index(m, 2).value, "content") == Some(JStr(text))
    requires parse(text).None?
    ensures React(Some(m), subId, hex, parse) == Resolve(DefaultProfile(hex))
  {
  }

  /** An event for the subscription whose content parses to an object
      resolves with that object's truthy `name`, `about` and `picture`, each
      missing or falsy one replaced by the default name or by null; the
      event's other fields play no part. */
  lemma EventContentFields(m: Json, subId: string, hex: string, text: string, props: seq<(string, Json)>,
                           parse: string -> Option<Json>)
    requires IsEventFor(m, subId) && Field(Index(m, 2).value, "content") == Some(JStr(text))
    requires parse(text) == Some(JObj(props))
    ensures React(Some(m), subId, hex, parse) ==
      Resolve(Profile(OrElse(Prop(props, "name"), JStr(DefaultName(hex))),
                      OrElse(Prop(props, "about"), JNull),
                      OrElse(Prop(props, "picture"), JNull)))
  {
  }

  /** The profile one relay resolves with: that of the first message that
      resolves; None when the relay's attempt rejects (connection error,
      invalid URL, or the 5-second timeout after messages that resolve
      nothing). */
  function RelayResult(msgs: seq<Option<Json>>, subId: string, hex: string,
                       parse: string -> Option<Json>): Option<Profile>
  {
    if msgs == [] then None
    else
      match React(msgs[0], subId, hex, parse)
      case Resolve(p) => Some(p)
      case Ignore => RelayResult(msgs[1..], subId, hex, parse)
  }

  /** A relay resolves with the profile of its first resolving message, after
      ignoring every message before it. */
  lemma {:induction false} RelayResultIsFirstResolve(msgs: seq<Option<Json>>, subId: string, hex: string,
                                                     parse: string -> Option<Json>)
    ensures RelayResult(msgs, subId, hex, parse).None? <==>
      forall k :: 0 <= k < |msgs| ==> React(msgs[k], subId, hex, parse) == Ignore
    ensures RelayResult(msgs, subId, hex, parse).Some? ==>
      exists k :: 0 <= k < |msgs|
        && React(msgs[k], subId, hex, parse) == Resolve(RelayResult(msgs, subId, hex, parse).value)
        && forall j :: 0 <= j < k ==> React(msgs[j], subId, hex, parse) == Ignore
  {
    if msgs != [] {
      RelayResultIsFirstResolve(msgs[1..], subId, hex, parse);
      if React(msgs[0], subId, hex, parse).Ignore? {
        assert forall k :: 1 <= k < |msgs| ==> msgs[k] == msgs[1..][k - 1];
        if RelayResult(msgs, subId, hex, parse).Some? {
          var k :| 0 <= k < |msgs[1..]|
            && React(msgs[1..][k], subId, hex, parse) == Resolve(RelayResult(msgs, subId, hex, parse).value)
            && forall j :: 0 <= j < k ==> React(msgs[1..][j], subId, hex, parse) == Ignore;
          assert React(msgs[k + 1], subId, hex, parse) == Resolve(RelayResult(msgs, subId, hex, parse).value);
        }
      }
    }
  }

  /** `fetchProfileFromRelays(hex, relays)`: `Promise.any` over the relays,
      each list holding what one relay sent, listed in the order the relays'
      attempts settle; the default profile when every attempt rejects. */
  function FromRelays(runs: seq<seq<Option<Json>>>, subId: string, hex: string,
                      parse: string -> Option<Json>): Profile
  {
    if runs == [] then DefaultProfile(hex)
    else
      match RelayResult(runs[0], subId, hex, parse)
      case Some(p) => p
      case None => FromRelays(runs[1..], subId, hex, parse)
  }

  /** The fetched profile is the default when no relay resolves, and
      otherwise what the first resolving relay gave. */
  lemma {:induction false} FromRelaysSpec(runs: seq<seq<Option<Json>>>, subId: string, hex: string,
                                          parse: string -> Option<Json>)
    ensures (forall r :: 0 <= r < |runs| ==> RelayResult(runs[r], subId, hex, parse).None?) ==>
      FromRelays(runs, subId, hex, parse) == DefaultProfile(hex)
    ensures forall r :: 0 <= r < |runs| ==>
      ((RelayResult(runs[r], subId, hex, parse).Some? &&
        forall q :: 0 <= q < r ==> RelayResult(runs[q], subId, hex, parse).None?) ==>
       FromRelays(runs, subId, hex, parse) == RelayResult(runs[r], subId, hex, parse).value)
  {
    if runs != [] {
      FromRelaysSpec(runs[1..], subId, hex, parse);
      assert forall r :: 1 <= r < |runs| ==> runs[r] == runs[1..][r - 1];
    }
  }

  /** The outcome of racing the relay lookup against the 3-second timer:
      either the timer wins, or the lookup settles with the random
      subscription id it used and each relay's messages. */
  datatype FetchOutcome =
    | TimedOut
    | Settled(subId: string, runs: seq<seq<Option<Json>>>)

  /** The module-level `profileCache`, keyed by the argument exactly as
      given. */
  class ProfileCache {
    var entries: map<string, Profile>

    constructor ()
      ensures entries == map[]
    {
      entries := map[];
    }

    /** `fetchUserProfile(pubkey)`. A cached profile is returned without
        asking relays (`queried` is false). Otherwise the key is resolved to
        hex and the relays are asked: when the timer wins, the default
        profile is returned and nothing is cached; when the lookup settles,
        its result, the default included, is cached under the argument as
        given. */
    method FetchUserProfile(pubkey: string, decode: string -> Option<string>,
                            parse: string -> Option<Json>, net: FetchOutcome)
      returns (profile: Profile, queried: bool)
      modifies this
      ensures pubkey in old(entries) ==> profile == old(entries)[pubkey] && !queried && entries == old(entries)
      ensures pubkey !in old(entries) ==> queried
      ensures pubkey !in old(entries) && net.TimedOut? ==>
        profile == DefaultProfile(ResolveHex(pubkey, decode)) && entries == old(entries)
      ensures pubkey !in old(entries) && net.Settled? ==>
        && profile == FromRelays(net.runs, net.subId, ResolveHex(pubkey, decode), parse)
        && entries == old(entries)[pubkey := profile]
    {
      if pubkey in entries {
        return entries[pubkey], false;
      }
      queried := true;
      var hex := ResolveHex(pubkey, decode);
      var fallback := DefaultProfile(hex);
      match net
      case TimedOut =>
        profile := fallback;
      case Settled(subId, runs) =>
        profile := FromRelays(runs, subId, hex, parse);
        entries := entries[pubkey := profile];
    }
  }

  // ------------------------------------------------------- key conversion

  /** `hexToNpub(hex)`: the encoding, or `npub_error_` and the first eight
      characters when encoding throws. */
  function HexToNpub(hex: string, encode: string -> Option<string>): (npub: string)
    ensures encode(hex).Some? ==> npub == encode(hex).value
    ensures encode(hex).None? ==> npub == "npub_error_" + Take(hex, 8)
    ensures encode(hex).None? ==> !("npub1" <= npub)
  {
    match encode(hex)
    case Some(n) => n
    case None =>
      var marker := "npub_error_" + Take(hex, 8);
      assert marker[4] == '_';
      marker
  }

  /** `npubToHex(npub)`: the decoded key, or the input unchanged when decoding
      throws. */
  function NpubToHex(npub: string, decode: string -> Option<string>): (hex: string)
    ensures decode(npub).Some? ==> hex == decode(npub).value
    ensures decode(npub).None? ==> hex == npub
  {
    decode(npub).GetOr(npub)
  }

  /** With a codec whose decoder inverts its encoder, a key that encodes comes
      back unchanged. */
  lemma KeyConversionSpec(hex: string, encode: string -> Option<string>, decode: string -> Option<string>)
    requires forall h :: encode(h).Some? ==> decode(encode(h).value) == Some(h)
    ensures encode(hex).Some? ==> NpubToHex(HexToNpub(hex, encode), decode) == hex
  {
  }
}
