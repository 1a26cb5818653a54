/** The per-issuer cache of signing keys in the backend's token check (the key sets of
    section 5 of RFC 7517). */
module JwksCache {
  import opened Wrappers

  type Issuer = string
  datatype Jwk = Jwk(kid: Option<string>, material: string)
  datatype Entry = Entry(keys: seq<Jwk>, storedAt: int)

  const JWKS_TTL_SECONDS := 300

  predicate Fresh(e: Entry, now: int) { now - e.storedAt < JWKS_TTL_SECONDS }

  /** A key set an issuer served, and when its download finished. */
  datatype Fetch = Fetch(issuer: Issuer, keys: seq<Jwk>, completedAt: int)

  /** A key set that a token check went on with. */
  datatype Use = Use(issuer: Issuer, keys: seq<Jwk>, at: int)

  /** The cache, the downloads in flight, and the record of what was served and used. */
  datatype State = State(
    cache: map<Issuer, Entry>,
    inFlight: map<nat, Issuer>,
    served: seq<Fetch>,
    uses: seq<Use>,
    now: int)

  const EMPTY := State(map[], map[], [], [], 0)

  /** Every check awaits its own download, so downloads of one issuer may overlap and finish
      in any order. */
  datatype Event =
    | Begin(id: nat, issuer: Issuer, time: int)
    | Complete(id: nat, keys: seq<Jwk>, time: int)
    | Fail(id: nat, time: int)

  predicate Enabled(s: State, e: Event) {
    && s.now <= e.time
    && match e
       case Begin(id, _, _) => id !in s.inFlight
       case Complete(id, _, _) => id in s.inFlight
       case Fail(id, _) => id in s.inFlight
  }

  function Next(s: State, e: Event): State
    requires Enabled(s, e)
  {
    match e
    case Begin(id, issuer, time) =>
      if issuer in s.cache && Fresh(s.cache[issuer], time) then
        s.(uses := s.uses + [Use(issuer, s.cache[issuer].keys, time)], now := time)
      else s.(inFlight := s.inFlight[id := issuer], now := time)
    case Complete(id, keys, time) =>
      var issuer := s.inFlight[id];
      s.(cache := s.cache[issuer := Entry(keys, time)],
         inFlight := s.inFlight - {id},
         served := s.served + [Fetch(issuer, keys, time)],
         uses := s.uses + [Use(issuer, keys, time)],
         now := time)
    case Fail(id, time) => s.(inFlight := s.inFlight - {id}, now := time)
  }

  predicate IsRun(trace: seq<State>, events: seq<Event>) {
    && |trace| == |events| + 1 && trace[0] == EMPTY
    && forall i :: 0 <= i < |events| ==> Enabled(trace[i], events[i]) && trace[i + 1] == Next(trace[i], events[i])
  }

  /** The used keys were served by the same issuer less than the TTL before. */
  predicate Backs(f: Fetch, u: Use) {
    f.issuer == u.issuer && f.keys == u.keys && f.completedAt <= u.at < f.completedAt + JWKS_TTL_SECONDS
  }

  ghost predicate Backed(s: State, u: Use) {
    exists f :: f in s.served && Backs(f, u)
  }

  ghost predicate Invariant(s: State) {
    && (forall i :: i in s.cache ==>
          s.cache[i].storedAt <= s.now && Fetch(i, s.cache[i].keys, s.cache[i].storedAt) in s.served)
    && (forall u :: u in s.uses ==> Backed(s, u))
  }

  lemma NextKeepsInvariant(s: State, e: Event)
    requires Invariant(s) && Enabled(s, e)
    ensures Invariant(Next(s, e))
  {
    var t := Next(s, e);
    assert forall f :: f in s.served ==> f in t.served;
    if e.Complete? {
      assert t.served[|s.served|] == Fetch(s.inFlight[e.id], e.keys, e.time);
    }
    forall u | u in t.uses ensures Backed(t, u) {
      if u in s.uses {
        var f :| f in s.served && Backs(f, u);
        assert f in t.served;
      } else if e.Begin? {
        var c := s.cache[e.issuer];
        assert Backs(Fetch(e.issuer, c.keys, c.storedAt), u);
      } else {
        assert Backs(Fetch(s.inFlight[e.id], e.keys, e.time), u);
      }
    }
  }

  /** MAIN RESULT. In every run with an advancing clock, every key set a token check uses was
      served by that issuer in a download that finished less than 300 seconds earlier. */
  lemma {:induction false} KeysUsedAreRecentlyServed(trace: seq<State>, events: seq<Event>, i: nat)
    requires IsRun(trace, events) && i < |trace|
    ensures Invariant(trace[i])
    ensures forall u :: u in trace[i].uses ==> Backed(trace[i], u)
  {
    if i > 0 {
      KeysUsedAreRecentlyServed(trace, events, i - 1);
      NextKeepsInvariant(trace[i - 1], events[i - 1]);
    }
  }

  predicate Touches(s: State, e: Event, issuer: Issuer)
    requires Enabled(s, e)
  {
    e.Complete? && s.inFlight[e.id] == issuer
  }

  /** An issuer's entry is changed by its own completed downloads only: the last of them, in
      finishing order, is what the cache holds. */
  lemma {:induction false} OtherIssuersDoNotInterfere(trace: seq<State>, events: seq<Event>, i: nat, j: nat, issuer: Issuer)
    requires IsRun(trace, events) && i <= j < |trace|
    requires forall k :: i <= k < j ==> !Touches(trace[k], events[k], issuer)
    ensures issuer in trace[j].cache <==> issuer in trace[i].cache
    ensures issuer in trace[i].cache ==> trace[j].cache[issuer] == trace[i].cache[issuer]
  {
    if i < j {
      OtherIssuersDoNotInterfere(trace, events, i, j - 1, issuer);
      assert !Touches(trace[j - 1], events[j - 1], issuer);
    }
  }

  // ------------------------------------------------- which calls go out, and when

  /** The download of this issuer that finished last. */
  predicate LastServed(served: seq<Fetch>, k: nat, issuer: Issuer) {
    && k < |served| && served[k].issuer == issuer
    && forall j :: k < j < |served| ==> served[j].issuer != issuer
  }

  ghost predicate CacheIsLast(s: State) {
    && (forall issuer :: issuer in s.cache ==>
          exists k: nat :: LastServed(s.served, k, issuer) && s.cache[issuer] == Entry(s.served[k].keys, s.served[k].completedAt))
    && (forall k :: 0 <= k < |s.served| ==> s.served[k].issuer in s.cache)
  }

  lemma NextKeepsLast(s: State, e: Event)
    requires CacheIsLast(s) && Enabled(s, e)
    ensures CacheIsLast(Next(s, e))
  {
    var t := Next(s, e);
    forall issuer | issuer in t.cache
      ensures exists k: nat :: LastServed(t.served, k, issuer) && t.cache[issuer] == Entry(t.served[k].keys, t.served[k].completedAt)
    {
      if e.Complete? && s.inFlight[e.id] == issuer {
        assert LastServed(t.served, |s.served|, issuer);
      } else {
        var k: nat :| LastServed(s.served, k, issuer) && s.cache[issuer] == Entry(s.served[k].keys, s.served[k].completedAt);
        assert LastServed(t.served, k, issuer);
      }
    }
  }

  lemma {:induction false} RunKeepsLast(trace: seq<State>, events: seq<Event>, i: nat)
    requires IsRun(trace, events) && i < |trace|
    ensures CacheIsLast(trace[i])
  {
    if i > 0 {
      RunKeepsLast(trace, events, i - 1);
      NextKeepsLast(trace[i - 1], events[i - 1]);
    }
  }

  /** MAIN RESULT. In every run, a token check goes on without a download exactly when the issuer's
      last completed download finished less than 300 seconds before, and then with the keys of that
      download; otherwise it starts one and uses nothing yet. */
  lemma DownloadUnlessRecent(trace: seq<State>, events: seq<Event>, i: nat)
    requires IsRun(trace, events) && i < |events| && events[i].Begin?
    ensures var s, t, e := trace[i], trace[i + 1], events[i];
      && t.cache == s.cache && t.served == s.served
      && (if exists k: nat :: LastServed(s.served, k, e.issuer) && e.time < s.served[k].completedAt + 300 then
            && t.inFlight == s.inFlight && |t.uses| == |s.uses| + 1
            && exists k: nat :: LastServed(s.served, k, e.issuer) && t.uses == s.uses + [Use(e.issuer, s.served[k].keys, e.time)]
          else t.uses == s.uses && t.inFlight == s.inFlight[e.id := e.issuer])
  {
    RunKeepsLast(trace, events, i);
    var s, e := trace[i], events[i];
    if k: nat :| LastServed(s.served, k, e.issuer) {
      assert s.served[k].issuer in s.cache;
      var m: nat :| LastServed(s.served, m, e.issuer) && s.cache[e.issuer] == Entry(s.served[m].keys, s.served[m].completedAt);
      assert m == k;
    }
  }

  function Begun(events: seq<Event>): nat {
    if events == [] then 0 else Begun(events[..|events| - 1]) + if events[|events| - 1].Begin? then 1 else 0
  }

  function Failures(events: seq<Event>): nat {
    if events == [] then 0 else Failures(events[..|events| - 1]) + if events[|events| - 1].Fail? then 1 else 0
  }

  /** Every token check is accounted for: it has used keys, is waiting, or its download failed. */
  lemma {:induction false} CallsAreConserved(trace: seq<State>, events: seq<Event>, i: nat)
    requires IsRun(trace, events) && i < |trace|
    ensures Begun(events[..i]) == |trace[i].uses| + |trace[i].inFlight| + Failures(events[..i])
  {
    if i > 0 {
      CallsAreConserved(trace, events, i - 1);
      assert events[..i][..i - 1] == events[..i - 1];
      StepIsConserved(trace[i - 1], events[i - 1]);
      hide Next, Enabled;
    }
  }

  lemma StepIsConserved(s: State, e: Event)
    requires Enabled(s, e)
    ensures var t := Next(s, e);
      |t.uses| + |t.inFlight| + (if e.Fail? then 1 else 0) == |s.uses| + |s.inFlight| + if e.Begin? then 1 else 0
  {
    match e
    case Begin(id, issuer, _) => OneMore(s.inFlight, id, issuer);
    case Complete(id, _, _) => OneLess(s.inFlight, id);
    case Fail(id, _) => OneLess(s.inFlight, id);
  }

  lemma OneMore(m: map<nat, Issuer>, id: nat, issuer: Issuer)
    requires id !in m
    ensures |m[id := issuer]| == |m| + 1
  {
    assert m[id := issuer].Keys == m.Keys + {id};
  }

  lemma OneLess(m: map<nat, Issuer>, id: nat)
    requires id in m
    ensures |m - {id}| == |m| - 1
  {
    assert m.Keys == (m - {id}).Keys + {id};
  }

  /** A completed download is recorded, kept and used, for its own issuer and at its own time. */
  lemma CompletedIsUsed(s: State, e: Event)
    requires Enabled(s, e) && e.Complete?
    ensures var t, issuer := Next(s, e), s.inFlight[e.id];
      && t.served == s.served + [Fetch(issuer, e.keys, e.time)] && t.uses == s.uses + [Use(issuer, e.keys, e.time)]
      && e.id !in t.inFlight && t.now == e.time
  {
  }

  /** The first key of the list that carries the token's kid. */
  predicate IsFirstMatch(keys: seq<Jwk>, kid: Option<string>, k: nat) {
    k < |keys| && keys[k].kid == kid && forall j :: 0 <= j < k ==> keys[j].kid != kid
  }

  /** The search of `verify_token`; a missing kid matches a key without one. */
  method FindSigningKey(jwks: seq<Jwk>, kid: Option<string>) returns (signingKey: Option<Jwk>)
    ensures signingKey.Some? ==> exists k: nat :: IsFirstMatch(jwks, kid, k) && signingKey.value == jwks[k]
    ensures signingKey.None? <==> forall k :: 0 <= k < |jwks| ==> jwks[k].kid != kid
  {
    signingKey := None;
    for i := 0 to |jwks|
      invariant signingKey.None?
      invariant forall k :: 0 <= k < i ==> jwks[k].kid != kid
    {
      if jwks[i].kid == kid {
        assert IsFirstMatch(jwks, kid, i);
        signingKey := Some(jwks[i]);
        break;
      }
    }
  }

  /** The module-level dictionary with the two halves of `_fetch_jwks` around its await. */
  class Cache {
    var entries: map<Issuer, Entry>

    constructor ()
      ensures entries == map[]
    {
      entries := map[];
    }

    /** Up to the await: the cached keys while they are fresh. */
    method BeforeAwait(issuer: Issuer, now: int) returns (keys: Option<seq<Jwk>>)
      ensures keys.Some? <==> issuer in entries && Fresh(entries[issuer], now)
      ensures keys.Some? ==> keys.value == entries[issuer].keys
    {
      if issuer in entries && now - entries[issuer].storedAt < JWKS_TTL_SECONDS {
        return Some(entries[issuer].keys);
      }
      return None;
    }

    /** After it: the served keys replace the entry. */
    method AfterAwait(issuer: Issuer, served: seq<Jwk>, now: int) returns (keys: seq<Jwk>)
      modifies this
      ensures entries == old(entries)[issuer := Entry(served, now)] && keys == served
    {
      entries := entries[issuer := Entry(served, now)];
      keys := served;
    }
  }
}
