/** `bot.js`: startup, the subscription filter, and the `onevent` handler that
    turns a mention carrying Spotify track links into playlist additions and a
    reply note. Signing is left out (a published note is its unsigned
    template); the relay pool and the Spotify client are parameters or recorded
    effects. */
module Bot {
  import opened Wrappers
  import opened Text
  import opened Spotify
  import opened Store
  import opened LocalDb

  // ---------------------------------------------------------------- startup

  datatype StartupError = MissingPrivateKey | RelaysUnset

  /** The bot's secret key, its public key and the relay URLs. */
  datatype Config = Config(secretKey: string, botPk: string, relays: seq<string>)

  /** Lines 18-21: a missing or empty `BOT_NOSTR_PRIVATE_KEY` throws; the
      public key is derived from the secret key; `NOSTR_RELAYS.split(',')`
      throws when the variable is unset. */
  function Startup(secretKey: Option<string>, relaysEnv: Option<string>,
                   getPublicKey: string -> string): (r: Result<Config, StartupError>)
    ensures r.Ok? <==> secretKey.Some? && secretKey.value != "" && relaysEnv.Some?
    ensures secretKey.None? || secretKey == Some("") ==> r == Err(MissingPrivateKey)
    ensures r.Ok? ==> r.value.secretKey == secretKey.value && r.value.botPk == getPublicKey(secretKey.value)
  {
    match secretKey
    case None => Err(MissingPrivateKey)
    case Some(sk) =>
      if sk == "" then Err(MissingPrivateKey)
      else
        match relaysEnv
        case None => Err(RelaysUnset)
        case Some(list) => Ok(Config(sk, getPublicKey(sk), Split(list, ',')))
  }

  /** After a successful startup the relays are the comma-free pieces of the
      relay variable, which joined with commas give it back. */
  lemma StartupSpec(secretKey: Option<string>, relaysEnv: Option<string>, getPublicKey: string -> string)
    ensures var r := Startup(secretKey, relaysEnv, getPublicKey);
      r.Ok? ==>
        && Join(r.value.relays, ',') == relaysEnv.value
        && forall k :: 0 <= k < |r.value.relays| ==> ',' !in r.value.relays[k]
  {
    if secretKey.Some? && secretKey.value != "" && relaysEnv.Some? {
      JoinSplit(relaysEnv.value, ',');
    }
  }

  // ------------------------------------------------------ notes and filters

  /** A signed note as relays deliver it (the signature is left out). */
  datatype Event = Event(id: string, pubkey: string, createdAt: int, kind: int,
                         tags: seq<seq<string>>, content: string)

  /** An unsigned note, the argument of `finalizeEvent`. */
  datatype Template = Template(kind: int, pubkey: string, createdAt: int,
                               tags: seq<seq<string>>, content: string)

  /** A NIP-01 filter restricted to the two fields the bot uses. */
  datatype Filter = Filter(kinds: seq<int>, pTags: seq<string>)

  /** NIP-01 filter matching: the kind is listed and some `p` tag names a
      listed key. */
  predicate FilterMatches(f: Filter, e: Event) {
    && e.kind in f.kinds
    && exists t :: t in e.tags && |t| >= 2 && t[0] == "p" && t[1] in f.pTags
  }

  /** `{ kinds: [1], '#p': [BOT_PK] }`: the subscription delivers exactly the
      text notes that tag the bot's public key. */
  function MentionFilter(botPk: string): (f: Filter)
    ensures forall e :: FilterMatches(f, e) <==>
      e.kind == 1 && exists t :: t in e.tags && |t| >= 2 && t[0] == "p" && t[1] == botPk
  {
    Filter([1], [botPk])
  }

  // ------------------------------------------------------ track-id scanning

  /** The literal part of `/open\.spotify\.com\/track\/([A-Za-z0-9]+)/g`. */
  const TrackLink := "open.spotify.com/track/"

  /** The regular expression matches with its literal starting at j. */
  predicate MatchesAt(s: string, j: nat) {
    && j + |TrackLink| < |s|
    && s[j..j + |TrackLink|] == TrackLink
    && IsAlnum(s[j + |TrackLink|])
  }

  /** The captured group of one match: `s[start..end]`. */
  datatype Span = Span(start: nat, end: nat)

  /** A span is the capture of a match: the literal directly before it, and
      the greedy `[A-Za-z0-9]+` run after the literal. */
  predicate IsMatch(s: string, m: Span) {
    && |TrackLink| <= m.start < m.end <= |s|
    && MatchesAt(s, m.start - |TrackLink|)
    && m.end == RunEnd(s, m.start, IsAlnum)
  }

  /** No match of the expression starts in [from, to). */
  predicate NoMatchIn(s: string, from: nat, to: nat) {
    forall j :: from <= j < to ==> !MatchesAt(s, j)
  }

  /** What `matchAll` from position i must return, stated without saying how
      to search: the first span is the capture of the leftmost match at or
      after i, and the rest is the same from where that match ends; when no
      match starts at or after i, nothing. */
  predicate IsScan(s: string, i: nat, r: seq<Span>)
    decreases |r|
  {
    if r == [] then NoMatchIn(s, i, |s|)
    else
      && i + |TrackLink| <= r[0].start
      && IsMatch(s, r[0])
      && NoMatchIn(s, i, r[0].start - |TrackLink|)
      && IsScan(s, r[0].end, r[1..])
  }

  /** The matches `matchAll` finds from position i on: try each position from
      the left, and after a match resume where it ended. */
  function MatchesFrom(s: string, i: nat): (r: seq<Span>)
    requires i <= |s|
    decreases |s| - i
  {
    if i == |s| then []
    else if MatchesAt(s, i) then
      var e := RunEnd(s, i + |TrackLink|, IsAlnum);
      [Span(i + |TrackLink|, e)] + MatchesFrom(s, e)
    else MatchesFrom(s, i + 1)
  }

  /** Every span the search finds is the capture of a match. */
  lemma {:induction false} MatchesFromAreMatches(s: string, i: nat)
    requires i <= |s|
    ensures forall k :: 0 <= k < |MatchesFrom(s, i)| ==> IsMatch(s, MatchesFrom(s, i)[k])
    decreases |s| - i
  {
    if i < |s| {
      MatchesFromStep(s, i);
      if MatchesAt(s, i) {
        var e := RunEnd(s, i + |TrackLink|, IsAlnum);
        MatchesFromAreMatches(s, e);
        ConsAllMatches(s, MatchesFrom(s, i), Span(i + |TrackLink|, e), MatchesFrom(s, e));
      } else {
        MatchesFromAreMatches(s, i + 1);
      }
    }
  }

  /** A match followed by matches, stated on plain lists. */
  lemma ConsAllMatches(s: string, r: seq<Span>, m: Span, rest: seq<Span>)
    requires r == [m] + rest
    requires IsMatch(s, m) && forall k :: 0 <= k < |rest| ==> IsMatch(s, rest[k])
    ensures forall k :: 0 <= k < |r| ==> IsMatch(s, r[k])
  {
    forall k | 0 <= k < |r| ensures IsMatch(s, r[k]) {
      if k > 0 { assert r[k] == rest[k - 1]; }
    }
  }

  /** The step of the search at a match. */
  lemma MatchesFromHit(s: string, i: nat)
    requires i < |s| && MatchesAt(s, i)
    ensures MatchesFrom(s, i) == [Span(i + |TrackLink|, RunEnd(s, i + |TrackLink|, IsAlnum))]
                                 + MatchesFrom(s, RunEnd(s, i + |TrackLink|, IsAlnum))
  {
  }

  /** One step of the search at a position inside the text. */
  lemma MatchesFromStep(s: string, i: nat)
    requires i < |s|
    ensures MatchesAt(s, i) ==>
      MatchesFrom(s, i) == [Span(i + |TrackLink|, RunEnd(s, i + |TrackLink|, IsAlnum))]
                           + MatchesFrom(s, RunEnd(s, i + |TrackLink|, IsAlnum))
    ensures !MatchesAt(s, i) ==> MatchesFrom(s, i) == MatchesFrom(s, i + 1)
  {
  }

  /** The search meets the reference: it finds every match, leftmost first,
      never one overlapping the last. */
  lemma {:induction false} MatchesFromIsScan(s: string, i: nat)
    requires i <= |s|
    ensures IsScan(s, i, MatchesFrom(s, i))
    decreases |s| - i
  {
    if i < |s| {
      MatchesFromStep(s, i);
      if MatchesAt(s, i) {
        var e := RunEnd(s, i + |TrackLink|, IsAlnum);
        MatchesFromIsScan(s, e);
        ScanCons(s, i, MatchesFrom(s, e));
      } else {
        MatchesFromIsScan(s, i + 1);
        ScanSkip(s, i, MatchesFrom(s, i + 1));
      }
    }
  }

  /** A match at i followed by a scan from its end is a scan from i. */
  lemma ScanCons(s: string, i: nat, rest: seq<Span>)
    requires i < |s| && MatchesAt(s, i)
    requires IsScan(s, RunEnd(s, i + |TrackLink|, IsAlnum), rest)
    ensures IsScan(s, i, [Span(i + |TrackLink|, RunEnd(s, i + |TrackLink|, IsAlnum))] + rest)
  {
    var r := [Span(i + |TrackLink|, RunEnd(s, i + |TrackLink|, IsAlnum))] + rest;
    assert r[1..] == rest;
  }

  /** Where no match starts at i, a scan from i + 1 is a scan from i. */
  lemma ScanSkip(s: string, i: nat, r: seq<Span>)
    requires i < |s| && !MatchesAt(s, i)
    requires IsScan(s, i + 1, r)
    ensures IsScan(s, i, r)
  {
  }

  /** A non-empty scan begins with a match at or after its start. */
  lemma ScanStartsWithMatch(s: string, i: nat, r: seq<Span>)
    requires IsScan(s, i, r)
    ensures r != [] ==> exists j :: i <= j < |s| && MatchesAt(s, j)
  {
    if r != [] {
      assert MatchesAt(s, r[0].start - |TrackLink|);
    }
  }

  /** The reference admits one list only. */
  lemma {:induction false} ScanUnique(s: string, i: nat, r1: seq<Span>, r2: seq<Span>)
    requires IsScan(s, i, r1) && IsScan(s, i, r2)
    ensures r1 == r2
    decreases |r1|
  {
    var P := |TrackLink|;
    if r1 == [] {
      ScanStartsWithMatch(s, i, r2);
      assert r2 == [];
    } else {
      assert r2 != [];
      assert MatchesAt(s, r1[0].start - P) && MatchesAt(s, r2[0].start - P);
      assert r1[0].start == r2[0].start;
      assert r1[0] == r2[0];
      ScanUnique(s, r1[0].end, r1[1..], r2[1..]);
      assert r1 == [r1[0]] + r1[1..] && r2 == [r2[0]] + r2[1..];
    }
  }

  /** The substrings the spans capture. */
  function Captures(s: string, ms: seq<Span>): (ids: seq<string>)
    requires forall k :: 0 <= k < |ms| ==> ms[k].start <= ms[k].end <= |s|
    ensures |ids| == |ms|
  {
    seq(|ms|, k requires 0 <= k < |ms| => s[ms[k].start..ms[k].end])
  }

  /** `[...content.matchAll(re)].map(m => m[1])`: every id is a non-empty run
      of ASCII letters and digits. */
  function ExtractIds(content: string): (ids: seq<string>)
    ensures |ids| == |MatchesFrom(content, 0)|
    ensures forall k :: 0 <= k < |ids| ==> ids[k] != [] && forall c :: c in ids[k] ==> IsAlnum(c)
  {
    MatchesFromAreMatches(content, 0);
    CapturesAreRuns(content, MatchesFrom(content, 0));
    Captures(content, MatchesFrom(content, 0))
  }

  /** The capture of a match is a non-empty run of letters and digits. */
  lemma CapturesAreRuns(s: string, ms: seq<Span>)
    requires forall k :: 0 <= k < |ms| ==> IsMatch(s, ms[k])
    ensures forall k :: 0 <= k < |ms| ==> ms[k].start <= ms[k].end <= |s|
    ensures forall k :: 0 <= k < |ms| ==>
      var id := s[ms[k].start..ms[k].end];
      id != [] && forall c :: c in id ==> IsAlnum(c)
  {
    forall k | 0 <= k < |ms|
      ensures var id := s[ms[k].start..ms[k].end];
        id != [] && forall c :: c in id ==> IsAlnum(c)
    {
      var m := ms[k];
      var id := s[m.start..m.end];
      RunEndAll(s, m.start, IsAlnum);
      forall c | c in id ensures IsAlnum(c) {
        var x :| 0 <= x < |id| && id[x] == c;
        assert id[x] == s[m.start + x];
      }
    }
  }

  /** Where the track link in front of the `k`-th match begins. */
  function IdLinkStart(content: string, k: nat): int
    requires k < |MatchesFrom(content, 0)|
  {
    MatchesFrom(content, 0)[k].start - |TrackLink|
  }

  /** Every extracted id stands right after the literal
      `open.spotify.com/track/` and runs as far as letters and digits go. */
  lemma ExtractedIdsAreTrackIds(content: string)
    ensures forall k: nat :: k < |ExtractIds(content)| ==>
      && IdLinkStart(content, k) >= 0
      && MatchesAt(content, IdLinkStart(content, k))
      && ExtractIds(content)[k] ==
         content[IdLinkStart(content, k) + |TrackLink|..RunEnd(content, IdLinkStart(content, k) + |TrackLink|, IsAlnum)]
  {
    var ms := MatchesFrom(content, 0);
    var ids := ExtractIds(content);
    MatchesFromAreMatches(content, 0);
    forall k: nat | k < |ids|
      ensures IdLinkStart(content, k) >= 0
      ensures MatchesAt(content, IdLinkStart(content, k))
      ensures ids[k] ==
        content[IdLinkStart(content, k) + |TrackLink|..RunEnd(content, IdLinkStart(content, k) + |TrackLink|, IsAlnum)]
    {
      var m := ms[k];
      assert IsMatch(content, m);
      var j: nat := IdLinkStart(content, k);
      assert j + |TrackLink| == m.start && m.end == RunEnd(content, j + |TrackLink|, IsAlnum);
      assert MatchesAt(content, j);
      assert ids[k] == content[m.start..m.end];
    }
  }

  /** No id is extracted exactly when the content has no track link followed
      by a letter or digit. */
  lemma ExtractIdsEmpty(content: string)
    ensures ExtractIds(content) == [] <==> forall j :: !MatchesAt(content, j)
  {
    MatchesFromIsScan(content, 0);
    var ms := MatchesFrom(content, 0);
    if ms != [] {
      assert IsMatch(content, ms[0]);
      assert |ExtractIds(content)| > 0;
    }
  }

  /** A character that can be part of neither the literal nor an id, such as
      a space or a line break. */
  predicate IsSeparator(c: char) {
    !IsAlnum(c) && c !in TrackLink
  }

  /** Every span moved right by n. */
  function Shift(ms: seq<Span>, n: nat): (r: seq<Span>)
    ensures |r| == |ms|
  {
    seq(|ms|, k requires 0 <= k < |ms| => Span(ms[k].start + n, ms[k].end + n))
  }

  lemma ShiftAt(ms: seq<Span>, n: nat)
    ensures forall k :: 0 <= k < |ms| ==> Shift(ms, n)[k] == Span(ms[k].start + n, ms[k].end + n)
  {
  }

  lemma {:induction false} RunEndShift(a: string, b: string, j: nat, p: char -> bool)
    requires j <= |b|
    ensures RunEnd(a + b, |a| + j, p) == |a| + RunEnd(b, j, p)
    decreases |b| - j
  {
    if j < |b| {
      assert (a + b)[|a| + j] == b[j];
      if p(b[j]) { RunEndShift(a, b, j + 1, p); }
    }
  }

  lemma {:induction false} RunEndStopsInside(a: string, b: string, x: nat, p: char -> bool)
    requires x < |a| && !p(a[|a| - 1])
    ensures RunEnd(a + b, x, p) == RunEnd(a, x, p)
    decreases |a| - x
  {
    assert (a + b)[x] == a[x];
    if p(a[x]) { RunEndStopsInside(a, b, x + 1, p); }
  }

  lemma MatchesAtShift(a: string, b: string, i: nat)
    ensures MatchesAt(a + b, |a| + i) == MatchesAt(b, i)
  {
    var s, P := a + b, |TrackLink|;
    if |a| + i + P < |s| {
      assert s[|a| + i..|a| + i + P] == b[i..i + P];
      assert s[|a| + i + P] == b[i + P];
    }
  }

  lemma ShiftCons(m: Span, ms: seq<Span>, n: nat)
    ensures Shift([m] + ms, n) == [Span(m.start + n, m.end + n)] + Shift(ms, n)
  {
  }

  /** Scanning the tail of a + b finds the matches of b, moved by |a|. */
  lemma {:induction false} MatchesFromShift(a: string, b: string, i: nat)
    requires i <= |b|
    ensures MatchesFrom(a + b, |a| + i) == Shift(MatchesFrom(b, i), |a|)
    decreases |b| - i
  {
    if i == |b| {
      assert |a| + i == |a + b|;
    } else if MatchesAt(b, i) {
      var e := RunEnd(b, i + |TrackLink|, IsAlnum);
      MatchesFromShift(a, b, e);
      ShiftMatchStep(a, b, i, MatchesFrom(a + b, |a| + i), MatchesFrom(a + b, |a| + e), MatchesFrom(b, i), MatchesFrom(b, e));
    } else {
      MatchesFromShift(a, b, i + 1);
      ShiftSkipStep(a, b, i);
    }
  }

  /** The step of `MatchesFromShift` at a match of b, with the four searches
      it relates given names: x and y scan a + b from the match and from its
      end, z and t scan b from the same places. */
  lemma ShiftMatchStep(a: string, b: string, i: nat, x: seq<Span>, y: seq<Span>, z: seq<Span>, t: seq<Span>)
    requires i < |b| && MatchesAt(b, i)
    requires x == MatchesFrom(a + b, |a| + i)
    requires y == MatchesFrom(a + b, |a| + RunEnd(b, i + |TrackLink|, IsAlnum))
    requires z == MatchesFrom(b, i)
    requires t == MatchesFrom(b, RunEnd(b, i + |TrackLink|, IsAlnum))
    requires y == Shift(t, |a|)
    ensures x == Shift(z, |a|)
  {
    var P := |TrackLink|;
    var e := RunEnd(b, i + P, IsAlnum);
    ShiftedHead(a, b, i);
    MatchesFromHit(b, i);
    ConsShift(x, Span(|a| + (i + P), |a| + e), y, t, z, Span(i + P, e), |a|);
  }

  /** A match of b, seen inside a + b. */
  lemma ShiftedHead(a: string, b: string, i: nat)
    requires i < |b| && MatchesAt(b, i)
    ensures MatchesFrom(a + b, |a| + i)
            == [Span(|a| + (i + |TrackLink|), |a| + RunEnd(b, i + |TrackLink|, IsAlnum))]
               + MatchesFrom(a + b, |a| + RunEnd(b, i + |TrackLink|, IsAlnum))
  {
    MatchesAtShift(a, b, i);
    RunEndShift(a, b, i + |TrackLink|, IsAlnum);
    MatchesFromHit(a + b, |a| + i);
  }

  /** Shifting distributes over a leading span, stated on plain lists. */
  lemma ConsShift(x: seq<Span>, first: Span, y: seq<Span>, t: seq<Span>, z: seq<Span>, m: Span, n: nat)
    requires x == [first] + y && first == Span(m.start + n, m.end + n)
    requires y == Shift(t, n)
    requires z == [m] + t
    ensures x == Shift(z, n)
  {
    ShiftCons(m, t, n);
  }

  /** The step of `MatchesFromShift` where no match of b starts. */
  lemma ShiftSkipStep(a: string, b: string, i: nat)
    requires i < |b| && !MatchesAt(b, i)
    requires MatchesFrom(a + b, |a| + i + 1) == Shift(MatchesFrom(b, i + 1), |a|)
    ensures MatchesFrom(a + b, |a| + i) == Shift(MatchesFrom(b, i), |a|)
  {
    MatchesAtShift(a, b, i);
    MatchesFromStep(a + b, |a| + i);
    MatchesFromStep(b, i);
  }

  /** Every character of a match's literal and of the first id character is
      something other than a separator. */
  lemma MatchHasNoSeparator(s: string, i: nat)
    requires MatchesAt(s, i)
    ensures forall y :: i <= y <= i + |TrackLink| ==> !IsSeparator(s[y])
  {
    forall y | i <= y < i + |TrackLink| ensures s[y] in TrackLink {
      assert s[y] == s[i..i + |TrackLink|][y - i];
    }
  }

  /** Inside a, a + b and a have the same matches when a ends with a
      separator. */
  lemma MatchesAtInside(a: string, b: string, i: nat)
    requires i < |a| && IsSeparator(a[|a| - 1])
    ensures MatchesAt(a + b, i) == MatchesAt(a, i)
    ensures MatchesAt(a, i) ==> i + |TrackLink| < |a| - 1
  {
    var s, P := a + b, |TrackLink|;
    assert s[|a| - 1] == a[|a| - 1];
    if MatchesAt(s, i) {
      MatchHasNoSeparator(s, i);
      assert i + P < |a| - 1;
      assert s[i..i + P] == a[i..i + P];
      assert s[i + P] == a[i + P];
    }
    if MatchesAt(a, i) {
      MatchHasNoSeparator(a, i);
      assert s[i..i + P] == a[i..i + P];
      assert s[i + P] == a[i + P];
    }
  }

  /** When a ends with a separator, no match of a + b that starts inside a
      reaches past a, so scanning a + b from inside a finds a's matches and
      then those of the rest. */
  lemma {:induction false} MatchesFromSplit(a: string, b: string, i: nat)
    requires i <= |a| && |a| > 0 && IsSeparator(a[|a| - 1])
    ensures MatchesFrom(a + b, i) == MatchesFrom(a, i) + MatchesFrom(a + b, |a|)
    decreases |a| - i
  {
    if i < |a| {
      MatchesAtInside(a, b, i);
      if MatchesAt(a, i) {
        RunEndStopsInside(a, b, i + |TrackLink|, IsAlnum);
        var e := RunEnd(a, i + |TrackLink|, IsAlnum);
        MatchesFromSplit(a, b, e);
        var m := Span(i + |TrackLink|, e);
        assert MatchesFrom(a + b, i) == [m] + MatchesFrom(a + b, e);
        assert MatchesFrom(a, i) == [m] + MatchesFrom(a, e);
      } else {
        MatchesFromSplit(a, b, i + 1);
      }
    }
  }

  lemma CapturesAppend(s: string, x: seq<Span>, y: seq<Span>)
    requires forall k :: 0 <= k < |x| ==> x[k].start <= x[k].end <= |s|
    requires forall k :: 0 <= k < |y| ==> y[k].start <= y[k].end <= |s|
    ensures Captures(s, x + y) == Captures(s, x) + Captures(s, y)
  {
    var l, r := Captures(s, x + y), Captures(s, x) + Captures(s, y);
    forall k | 0 <= k < |l| ensures l[k] == r[k] {
      if k >= |x| { assert (x + y)[k] == y[k - |x|]; }
    }
  }

  lemma CapturesInPrefix(a: string, b: string, ms: seq<Span>)
    requires forall k :: 0 <= k < |ms| ==> ms[k].start <= ms[k].end <= |a|
    ensures Captures(a + b, ms) == Captures(a, ms)
  {
    var l, r := Captures(a + b, ms), Captures(a, ms);
    forall k | 0 <= k < |l| ensures l[k] == r[k] {
      assert (a + b)[ms[k].start..ms[k].end] == a[ms[k].start..ms[k].end];
    }
  }

  lemma CapturesShifted(a: string, b: string, ms: seq<Span>, moved: seq<Span>)
    requires forall k :: 0 <= k < |ms| ==> ms[k].start <= ms[k].end <= |b|
    requires |moved| == |ms|
    requires forall k :: 0 <= k < |ms| ==> moved[k] == Span(ms[k].start + |a|, ms[k].end + |a|)
    ensures Captures(a + b, moved) == Captures(b, ms)
  {
    var l, r := Captures(a + b, moved), Captures(b, ms);
    forall k | 0 <= k < |l| ensures l[k] == r[k] {
      assert (a + b)[ms[k].start + |a|..ms[k].end + |a|] == b[ms[k].start..ms[k].end];
    }
  }

  /** Track links are found piece by piece: in a text made of two parts, the
      first ending with a separator, the ids are those of the first part
      followed by those of the second. */
  lemma ExtractIdsAppend(a: string, b: string)
    requires |a| > 0 && IsSeparator(a[|a| - 1])
    ensures ExtractIds(a + b) == ExtractIds(a) + ExtractIds(b)
  {
    MatchesFromSplit(a, b, 0);
    MatchesFromShift(a, b, 0);
    var ma, mb := MatchesFrom(a, 0), MatchesFrom(b, 0);
    MatchesFromAreMatches(a, 0);
    MatchesFromAreMatches(b, 0);
    var moved := Shift(mb, |a|);
    ShiftAt(mb, |a|);
    CapturesAppend(a + b, ma, moved);
    CapturesInPrefix(a, b, ma);
    CapturesShifted(a, b, mb, moved);
  }

  /** One track link followed by a space yields its id. */
  lemma SingleLink(id: string)
    requires id != [] && forall c :: c in id ==> IsAlnum(c)
    ensures ExtractIds(TrackLink + id + " ") == [id]
  {
    var s := TrackLink + id + " ";
    var P := |TrackLink|;
    assert s[..P] == TrackLink;
    assert s[P] == id[0];
    assert MatchesAt(s, 0);
    RunEndOver(s, P, P + |id|, IsAlnum);
    assert MatchesFrom(s, P + |id|) == [] by {
      assert !MatchesAt(s, P + |id|);
      assert MatchesFrom(s, P + |id|) == MatchesFrom(s, |s|);
    }
    assert s[P..P + |id|] == id;
  }

  /** Repeated links are not merged: the same link twice gives the id twice. */
  lemma DuplicatesKept(id: string)
    requires id != [] && forall c :: c in id ==> IsAlnum(c)
    ensures var link := TrackLink + id + " ";
      ExtractIds(link + link) == [id, id]
  {
    var link := TrackLink + id + " ";
    SingleLink(id);
    assert IsSeparator(link[|link| - 1]);
    ExtractIdsAppend(link, link);
  }

  /** A run over [j, e) that stops at e ends at e. */
  lemma {:induction false} RunEndOver(s: string, j: nat, e: nat, p: char -> bool)
    requires j <= e <= |s|
    requires forall k :: j <= k < e ==> p(s[k])
    requires e == |s| || !p(s[e])
    ensures RunEnd(s, j, p) == e
    decreases e - j
  {
    if j < e { RunEndOver(s, j + 1, e, p); }
  }

  // ----------------------------------------------------------------- reply

  const AddedPrefix := "\U{2705} Added "
  const CountSuffix := " track(s): "

  /** `✅ Added ${ids.length} track(s): https://open.spotify.com/playlist/${playlistId}`:
      the text states the count and the playlist it was built from. */
  function ConfirmationText(count: nat, playlistId: string): (text: string)
    ensures ParseConfirmation(text) == Some((count, playlistId))
  {
    var text := AddedPrefix + NatToString(count) + CountSuffix + PlaylistUrl(playlistId);
    assert text[|AddedPrefix|..] == NatToString(count) + CountSuffix + PlaylistUrl(playlistId);
    CountAndUrlRoundTrip(count, playlistId);
    text
  }

  /** Reads a confirmation back into the count and the playlist id. */
  function ParseConfirmation(text: string): Option<(nat, string)> {
    if AddedPrefix <= text then ParseCountAndUrl(text[|AddedPrefix|..]) else None
  }

  /** Reads `<digits> track(s): <playlist URL>`. */
  function ParseCountAndUrl(rest: string): Option<(nat, string)> {
    var n := RunEnd(rest, 0, IsDigit);
    if n == 0 || !(CountSuffix <= rest[n..]) then None
    else
      match PlaylistIdOfUrl(rest[n + |CountSuffix|..])
      case None => None
      case Some(id) =>
        RunEndAll(rest, 0, IsDigit);
        Some((DigitsValue(rest[..n]), id))
  }

  lemma CountAndUrlRoundTrip(count: nat, playlistId: string)
    ensures ParseCountAndUrl(NatToString(count) + CountSuffix + PlaylistUrl(playlistId)) == Some((count, playlistId))
  {
    var digits := NatToString(count);
    var tail := CountSuffix + PlaylistUrl(playlistId);
    assert digits + tail == NatToString(count) + CountSuffix + PlaylistUrl(playlistId);
    SuffixThenUrl(playlistId);
    DigitsThen(digits, tail);
    PlaylistUrlRoundTrip(playlistId);
    DigitsValueOfNatToString(count);
  }

  /** A non-empty run of digits followed by a non-digit is read whole. */
  lemma DigitsThen(d: string, t: string)
    requires d != [] && forall k :: 0 <= k < |d| ==> IsDigit(d[k])
    requires t != [] && !IsDigit(t[0])
    ensures RunEnd(d + t, 0, IsDigit) == |d|
    ensures (d + t)[..|d|] == d && (d + t)[|d|..] == t
  {
    assert (d + t)[|d|] == t[0];
    RunEndOver(d + t, 0, |d|, IsDigit);
  }

  /** The text after the count starts with the suffix, then the URL. */
  lemma SuffixThenUrl(playlistId: string)
    ensures var t := CountSuffix + PlaylistUrl(playlistId);
      && t != [] && !IsDigit(t[0])
      && CountSuffix <= t && t[|CountSuffix|..] == PlaylistUrl(playlistId)
  {
  }

  /** The reply note (lines 70-76): a text note by the bot that references the
      mention alone and reports the count and the playlist. */
  function Reply(botPk: string, mention: Event, count: nat, playlistId: string, createdAt: int): (r: Template)
    ensures r.kind == 1 && r.pubkey == botPk && r.createdAt == createdAt
    ensures r.tags == [["e", mention.id]]
    ensures ParseConfirmation(r.content) == Some((count, playlistId))
  {
    Template(1, botPk, createdAt, [["e", mention.id]], ConfirmationText(count, playlistId))
  }

  // --------------------------------------------------------------- handler

  /** The observable effects of one mention, in order. */
  datatype Effect =
    | StoreCall(call: Call)
    | AddTracks(playlistId: string, accessToken: string, uris: seq<string>)
    | Publish(relays: seq<string>, note: Template)

  function StoreCalls(calls: seq<Call>): (effects: seq<Effect>)
    ensures |effects| == |calls|
    ensures forall k :: 0 <= k < |calls| ==> effects[k] == StoreCall(calls[k])
  {
    seq(|calls|, k requires 0 <= k < |calls| => StoreCall(calls[k]))
  }

  /** `onevent(event)`. Without ids it returns at once. Otherwise it gets or
      creates the author's playlist, adds one URI per id (duplicates
      included), and only when that succeeds publishes the reply; a failure of
      either awaited step ends the handler without a reply. `nowMs` is
      `Date.now()`; `addTracks` says whether Spotify accepts the addition. */
  method OnEvent(cfg: Config, bot: BotSpotify, event: Event, nowMs: nat,
                 refresh: string -> Option<string>, create: PlaylistSpec -> Option<string>,
                 addTracks: (string, string, seq<string>) -> bool)
    returns (effects: seq<Effect>)
    modifies bot
    ensures ExtractIds(event.content) == [] ==> effects == [] && bot.Record() == old(bot.Record())
    ensures ExtractIds(event.content) != [] ==>
      var ids := ExtractIds(event.content);
      var o := GetOrCreate(old(bot.Record()), event.pubkey, refresh, create);
      && bot.Record() == o.after
      && effects == StoreCalls(o.calls) +
           match o.result
           case Err(_) => []
           case Ok(p) =>
             [AddTracks(p.playlistId, p.accessToken, TrackUris(ids))] +
             if addTracks(p.playlistId, p.accessToken, TrackUris(ids))
             then [Publish(cfg.relays, Reply(cfg.botPk, event, |ids|, p.playlistId, nowMs / 1000))]
             else []
  {
    var ids := ExtractIds(event.content);
    if |ids| == 0 {
      return [];
    }
    var result, calls := GetOrCreatePlaylistForPubKey(bot, event.pubkey, refresh, create);
    effects := StoreCalls(calls);
    if result.Err? {
      return;
    }
    var uris := TrackUris(ids);
    effects := effects + [AddTracks(result.value.playlistId, result.value.accessToken, uris)];
    if !addTracks(result.value.playlistId, result.value.accessToken, uris) {
      return;
    }
    var reply := Reply(cfg.botPk, event, |ids|, result.value.playlistId, nowMs / 1000);
    effects := effects + [Publish(cfg.relays, reply)];
  }
}
