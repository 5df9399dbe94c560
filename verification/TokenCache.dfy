/** The OAuth token cache of the Airalo adapter
    (`internal/provider/airalo.go`). A mutex is held for the whole of `token`, so
    the calls of any number of callers are a sequence: the order in which they
    took the mutex. Times are in nanoseconds. */
module TokenCache {
  import opened Common

  const SECOND := 1_000_000_000
  const MARGIN := 300 * SECOND

  datatype Grant = Grant(token: string, expiresIn: int)

  /** What the token endpoint gives: nothing, or a status with a body that may not
      decode. */
  datatype Answer = Unreachable | Response(code: nat, body: Option<Grant>) {
    predicate Granted() {
      Response? && code / 100 == 2 && body.Some?
    }
  }

  datatype Failure = Transport | BadStatus(code: nat) | Undecodable

  datatype Cache = Cache(token: string, expiresAt: int)

  /** One call: the clock when it holds the mutex, the answer it would get, and
      the clock once that answer is decoded. */
  datatype Call = Call(start: int, answer: Answer, end: int)

  predicate Fresh(c: Cache, now: int) {
    c.token != "" && c.expiresAt - now > MARGIN
  }

  /** The call goes to the endpoint and gets a token. */
  predicate Fetches(c: Cache, k: Call) {
    !Fresh(c, k.start) && k.answer.Granted()
  }

  function FilledBy(k: Call): Cache
    requires k.answer.Granted()
  {
    Cache(k.answer.body.value.token, k.end + k.answer.body.value.expiresIn * SECOND)
  }

  function Next(c: Cache, k: Call): Cache {
    if Fetches(c, k) then FilledBy(k) else c
  }

  function Reply(c: Cache, k: Call): Result<string, Failure> {
    if Fresh(c, k.start) then Ok(c.token)
    else match k.answer
      case Unreachable => Err(Transport)
      case Response(code, body) =>
        if code / 100 != 2 then Err(BadStatus(code))
        else if body.None? then Err(Undecodable)
        else Ok(body.value.token)
  }

  function Run(c: Cache, ks: seq<Call>): Cache
    decreases |ks|
  {
    if ks == [] then c else Run(Next(c, ks[0]), ks[1..])
  }

  const EMPTY := Cache("", 0)

  // ------------------------------------------------------------- single calls

  /** What one call replies, by the answer it gets. A non-empty cached token with
      more than 300 s left is the reply, whatever the endpoint would say. Otherwise
      the token of the answer is, and is cached for as many seconds as the answer
      says, if the status is one of 200 to 299 and the body decodes; and no
      connection, any other status, or a body that does not decode is an error
      that changes nothing. */
  lemma ReplyTable(c: Cache, k: Call)
    ensures var cached := c.token != "" && c.expiresAt > k.start + 300_000_000_000;
            var (d, r) := (Next(c, k), Reply(c, k));
            && (cached ==> d == c && r == Ok(c.token))
            && (!cached ==>
                  match k.answer
                  case Unreachable => d == c && r == Err(Transport)
                  case Response(code, body) =>
                    && (code < 200 || code > 299 ==> d == c && r == Err(BadStatus(code)))
                    && (200 <= code <= 299 ==>
                          match body
                          case None => d == c && r == Err(Undecodable)
                          case Some(g) => d == Cache(g.token, k.end + g.expiresIn * 1_000_000_000) && r == Ok(g.token)))
  {
  }

  /** A failed call leaves the cache as it was; a call that succeeds returns what
      the cache then holds, and holds more than five minutes of it unless it has
      just been fetched. */
  lemma ReplyIsCached(c: Cache, k: Call)
    ensures Reply(c, k).Err? ==> Next(c, k) == c && !Fresh(c, k.start)
    ensures Reply(c, k).Ok? ==> Reply(c, k).value == Next(c, k).token
    ensures Reply(c, k).Ok? && !Fetches(c, k) ==> Next(c, k) == c && c.token != "" && c.expiresAt > k.start + MARGIN
  {
  }

  /** After a grant the next call is answered from the cache exactly while the
      token is non-empty and more than five minutes are left: an empty token, or
      one that lives 300 s or less, is fetched again every time. */
  lemma ServedFromCache(c: Cache, k: Call, next: Call)
    requires Fetches(c, k)
    ensures Fresh(Next(c, k), next.start) <==>
            k.answer.body.value.token != "" && next.start < k.end + (k.answer.body.value.expiresIn - 300) * SECOND
    ensures next.start >= k.end && k.answer.body.value.expiresIn <= 300 ==> !Fresh(Next(c, k), next.start)
  {
  }

  // --------------------------------------------------------------------- runs

  /** The call, if any, that filled the cache. */
  function LastFetch(c: Cache, ks: seq<Call>): Option<Call>
    decreases |ks|
  {
    if ks == [] then None else
    var later := LastFetch(Next(c, ks[0]), ks[1..]);
    if later.Some? then later else if Fetches(c, ks[0]) then Some(ks[0]) else None
  }

  /** At any point of any run the cache is the last granted token, with an expiry
      counted from the moment its answer was decoded, however many calls were
      answered from the cache or failed since. */
  lemma {:induction false} CacheIsLastGrant(c: Cache, ks: seq<Call>)
    ensures match LastFetch(c, ks)
            case None => Run(c, ks) == c
            case Some(k) => k in ks && k.answer.Granted() && Run(c, ks) == FilledBy(k)
    decreases |ks|
  {
    if ks != [] {
      CacheIsLastGrant(Next(c, ks[0]), ks[1..]);
      if LastFetch(Next(c, ks[0]), ks[1..]).Some? {
        assert LastFetch(c, ks).value in ks[1..];
      }
    }
  }

  /** Successful fetches whose answer is decoded at a time in [from, to]. */
  function FetchCount(c: Cache, ks: seq<Call>, from: int, to: int): (n: nat)
    decreases |ks|
  {
    if ks == [] then 0
    else (if Fetches(c, ks[0]) && from <= ks[0].end <= to then 1 else 0) + FetchCount(Next(c, ks[0]), ks[1..], from, to)
  }

  /** The clock does not run backwards within a call, and every granted token is
      non-empty and lives at least this long. */
  predicate Generous(ks: seq<Call>, lifetime: int) {
    forall i :: 0 <= i < |ks| ==>
      && ks[i].start <= ks[i].end
      && (ks[i].answer.Granted() ==> ks[i].answer.body.value.token != "" && ks[i].answer.body.value.expiresIn >= lifetime)
  }

  /** The earliest time at which a cache can be refilled. */
  function Earliest(c: Cache, from: int): int {
    if c.token != "" && c.expiresAt - MARGIN > from then c.expiresAt - MARGIN else from
  }

  /** One more fetch at `end`, m fetches after it at least d apart. */
  lemma OneMoreFetch(m: int, d: int, end: int, next: int, to: int)
    requires d > 0 && m >= 0 && end + d <= next && end <= to && (m > 0 ==> (m - 1) * d <= to - next)
    ensures m * d <= to - end
  {
    assert m * d == (m - 1) * d + d;
  }

  /** No fetch after `next` falls before `to` once that is past. */
  lemma NoMoreFetch(m: int, d: int, next: int, to: int)
    requires d > 0 && m >= 0 && to < next && (m > 0 ==> (m - 1) * d <= to - next)
    ensures m == 0
  {
    if m > 0 { NotNegative(m - 1, d); }
  }

  lemma NotNegative(m: int, d: int)
    requires m >= 0 && d > 0
    ensures m * d >= 0
  {
  }

  lemma GenerousTail(ks: seq<Call>, lifetime: int)
    requires ks != [] && Generous(ks, lifetime)
    ensures Generous(ks[1..], lifetime)
  {
    assert forall i :: 0 <= i < |ks[1..]| ==> ks[1..][i] == ks[i + 1];
  }

  lemma {:induction false} Spacing(c: Cache, ks: seq<Call>, lifetime: int, d: int, from: int, to: int)
    requires lifetime > 300 && Generous(ks, lifetime) && from <= to && d == (lifetime - 300) * SECOND
    ensures var n := FetchCount(c, ks, from, to);
            n > 0 ==> (n - 1) * d <= to - Earliest(c, from)
    decreases |ks|
  {
    if ks != [] {
      var k, end := Next(c, ks[0]), ks[0].end;
      GenerousTail(ks, lifetime);
      Spacing(k, ks[1..], lifetime, d, from, to);
      var m := FetchCount(k, ks[1..], from, to);
      if Fetches(c, ks[0]) {
        assert end + d <= k.expiresAt - MARGIN <= Earliest(k, from);
        if end <= to {
          OneMoreFetch(m, d, end, Earliest(k, from), to);
        } else {
          NoMoreFetch(m, d, Earliest(k, from), to);
        }
      }
    }
  }

  /** For any callers and any schedule, when every reply carries a non-empty token
      living at least L > 300 s, a window of W holds at most W / (L - 300 s) + 1
      successful fetches. */
  lemma FetchBound(c: Cache, ks: seq<Call>, lifetime: int, from: int, window: nat)
    requires lifetime > 300 && Generous(ks, lifetime)
    ensures FetchCount(c, ks, from, from + window) <= window / ((lifetime - 300) * SECOND) + 1
  {
    var n, d := FetchCount(c, ks, from, from + window), (lifetime - 300) * SECOND;
    Spacing(c, ks, lifetime, d, from, from + window);
    if n > 0 {
      AtMost(n - 1, d, window);
    }
  }

  lemma MulAtLeast(x: int, d: int)
    requires d > 0
    ensures x >= 1 ==> x * d >= d
  {
  }

  lemma AtMost(n: nat, d: int, w: nat)
    requires d > 0 && n * d <= w
    ensures n <= w / d
  {
    var q := w / d;
    assert w < q * d + d;
    assert (n - q) * d == n * d - q * d;
    MulAtLeast(n - q, d);
  }

  /** n callers, each coming the moment the token has five minutes left. */
  function Eager(lifetime: int, at: int, n: nat): seq<Call>
    decreases n
  {
    if n == 0 then []
    else [Call(at, Response(200, Some(Grant("t", lifetime))), at)] + Eager(lifetime, at + (lifetime - 300) * SECOND, n - 1)
  }

  /** The bound is exact: a window of n periods can hold n + 1 fetches. */
  lemma {:induction false} FetchBoundAttained(c: Cache, lifetime: int, from: int, at: int, n: nat, to: int)
    requires lifetime > 300 && !Fresh(c, at) && from <= at && at + n * ((lifetime - 300) * SECOND) <= to
    ensures Generous(Eager(lifetime, at, n + 1), lifetime)
    ensures FetchCount(c, Eager(lifetime, at, n + 1), from, to) == n + 1
    decreases n
  {
    var d := (lifetime - 300) * SECOND;
    var ks := Eager(lifetime, at, n + 1);
    var rest := Eager(lifetime, at + d, n);
    assert ks[1..] == rest;
    assert n * d >= 0;
    if n > 0 {
      assert n * d == (n - 1) * d + d;
      FetchBoundAttained(Next(c, ks[0]), lifetime, from, at + d, n - 1, to);
      assert forall i :: 0 < i < |ks| ==> ks[i] == rest[i - 1];
    } else {
      assert rest == [];
    }
  }

  // ---------------------------------------------------------------- the code

  class Airalo {
    var accessToken: string
    var expiresAt: int

    constructor ()
      ensures Snapshot() == EMPTY
    {
      accessToken, expiresAt := "", 0;
    }

    function Snapshot(): Cache
      reads this
    {
      Cache(accessToken, expiresAt)
    }

    method Token(k: Call) returns (r: Result<string, Failure>)
      modifies this
      ensures Snapshot() == Next(old(Snapshot()), k) && r == Reply(old(Snapshot()), k)
    {
      if accessToken != "" && expiresAt - k.start > MARGIN { return Ok(accessToken); }
      if k.answer.Unreachable? { return Err(Transport); }
      if k.answer.code / 100 != 2 { return Err(BadStatus(k.answer.code)); }
      if k.answer.body.None? { return Err(Undecodable); }
      var t := k.answer.body.value;
      accessToken := t.token;
      expiresAt := k.end + t.expiresIn * SECOND;
      return Ok(accessToken);
    }
  }
}
