/**
 * The access-token cache of the push handler: the module-level `cachedToken`
 * and `getAccessToken` (api/push.ts, lines 13 and 15-33).
 *
 * The clock (`Date.now()` in whole seconds) and the issuer's answer to
 * `jwtClient.authorize()` are parameters. Calls are taken one at a time.
 */
module Credentials {
  import opened Wrappers

  /** A cached access token and its expiry, in epoch seconds. */
  datatype Entry = Entry(token: string, exp: int)

  /** The issuer's answer: the token (`None` when null or undefined) and
      `res.data.exp` read as a number (`None` when missing or not a number). */
  datatype Reply = Reply(token: Option<string>, exp: Option<int>)

  /** Why no access token could be produced. */
  datatype CredentialError = MissingServiceAccount | NoAccessToken

  /** A cached token is reused only while it has more than this many seconds left. */
  const RefreshMargin := 60

  /** The lifetime assumed when the issuer gives no usable expiry. */
  const DefaultLifetime := 3000

  /** The cache holds a token that may be reused at time `now`. */
  predicate Fresh(c: Option<Entry>, now: int)
    // a reusable token has not expired yet
    ensures Fresh(c, now) ==> c.Some? && c.value.exp > now
  {
    c.Some? && c.value.exp - RefreshMargin > now
  }

  /** Every cached token is non-empty: only a truthy token is ever stored. */
  predicate Usable(c: Option<Entry>) {
    c.Some? ==> c.value.token != ""
  }

  /** `Number(res?.data?.exp) || now + 3000`: zero and a missing number fall back to the default. */
  function ExpiryOf(reply: Reply, now: int): int {
    if reply.exp.Some? && reply.exp.value != 0 then reply.exp.value else now + DefaultLifetime
  }

  /** The outcome of one `getAccessToken` call: what it returns or throws, the
      cache afterwards, and whether the issuer was asked. */
  datatype Acquired = Acquired(result: Result<string, CredentialError>, cache: Option<Entry>, consulted: bool)

  /** One `getAccessToken` call, given whether the service account is configured,
      the cache before the call, the time and the reply the issuer would give. */
  function Acquire(hasServiceAccount: bool, c: Option<Entry>, now: int, reply: Reply): (a: Acquired)
    // the issuer is asked exactly when the cache cannot be reused
    ensures a.consulted <==> hasServiceAccount && !Fresh(c, now)
    // reuse: the cached token comes back and the cache stays as it was
    ensures hasServiceAccount && Fresh(c, now) ==> a.result == Ok(c.value.token) && a.cache == c
    // no service account: an error before the cache is even looked at
    ensures !hasServiceAccount ==> a.result == Err(MissingServiceAccount)
    // refresh: success exactly when the issuer hands back a non-empty token
    ensures a.consulted ==> (a.result.Ok? <==> reply.token.Some? && reply.token.value != "")
    ensures a.consulted && a.result.Ok? ==>
              a.result == Ok(reply.token.value) && a.cache == Some(Entry(reply.token.value, ExpiryOf(reply, now)))
    // a failed call leaves the cache alone
    ensures a.result.Err? ==> a.cache == c
    // only non-empty tokens are handed out and stored
    ensures Usable(c) ==> Usable(a.cache) && (a.result.Ok? ==> a.result.value != "")
  {
    if !hasServiceAccount then Acquired(Err(MissingServiceAccount), c, false)
    else if Fresh(c, now) then Acquired(Ok(c.value.token), c, false)
    else if reply.token.None? || reply.token.value == "" then Acquired(Err(NoAccessToken), c, true)
    else Acquired(Ok(reply.token.value), Some(Entry(reply.token.value, ExpiryOf(reply, now))), true)
  }

  /** A token stored with the default lifetime can be reused for the next
      `DefaultLifetime - RefreshMargin` seconds and no longer. */
  lemma DefaultExpiryWindow(token: string, reply: Reply, now: int, later: int)
    requires reply.exp.None? || reply.exp == Some(0)
    ensures Fresh(Some(Entry(token, ExpiryOf(reply, now))), later) <==>
            later < now + DefaultLifetime - RefreshMargin
  {
  }

  /** The one-slot cache (`cachedToken`). `fetches` counts the calls to the issuer. */
  class TokenCache {
    var cached: Option<Entry>
    ghost var fetches: nat

    ghost predicate Valid()
      reads this
    {
      Usable(cached)
    }

    /** The cache starts empty (`let cachedToken = null`). */
    constructor ()
      ensures Valid() && cached == None && fetches == 0
    {
      cached := None;
      fetches := 0;
    }

    /** `getAccessToken`: reuse the cached token while fresh, otherwise ask the
        issuer and store what it hands back. */
    method GetAccessToken(hasServiceAccount: bool, now: int, reply: Reply) returns (r: Result<string, CredentialError>)
      requires Valid()
      modifies this
      ensures Valid()
      ensures r == Acquire(hasServiceAccount, old(cached), now, reply).result
      ensures cached == Acquire(hasServiceAccount, old(cached), now, reply).cache
      ensures fetches == old(fetches) + if Acquire(hasServiceAccount, old(cached), now, reply).consulted then 1 else 0
    {
      if !hasServiceAccount {
        return Err(MissingServiceAccount);
      }
      if cached.Some? && cached.value.exp - RefreshMargin > now {
        return Ok(cached.value.token);
      }
      fetches := fetches + 1;
      if reply.token.None? || reply.token.value == "" {
        return Err(NoAccessToken);
      }
      var token := reply.token.value;
      var exp := if reply.exp.Some? && reply.exp.value != 0 then reply.exp.value else now + DefaultLifetime;
      cached := Some(Entry(token, exp));
      r := Ok(token);
    }
  }

  // ---------------------------------------------------------------------------
  // Several calls in a row.

  /** One call's inputs: the time and the reply the issuer would give. */
  datatype Call = Call(now: int, reply: Reply)

  /** The cache after a run of calls and how many of them asked the issuer. */
  datatype History = History(cache: Option<Entry>, fetches: nat)

  function Replay(hasServiceAccount: bool, c: Option<Entry>, calls: seq<Call>): (h: History)
    ensures h.fetches <= |calls|
    decreases |calls|
  {
    if calls == [] then History(c, 0)
    else
      var a := Acquire(hasServiceAccount, c, calls[0].now, calls[0].reply);
      var rest := Replay(hasServiceAccount, a.cache, calls[1..]);
      History(rest.cache, rest.fetches + if a.consulted then 1 else 0)
  }

  /** While the cached token stays fresh, no call asks the issuer and the cache
      does not change. */
  lemma {:induction false} NoFetchWhileFresh(c: Option<Entry>, calls: seq<Call>)
    requires c.Some?
    requires forall i :: 0 <= i < |calls| ==> calls[i].now < c.value.exp - RefreshMargin
    ensures Replay(true, c, calls) == History(c, 0)
    decreases |calls|
  {
    if calls != [] {
      NoFetchWhileFresh(c, calls[1..]);
    }
  }

  /** A call on a stale cache asks the issuer once; when the issuer gives a
      token without an expiry, every further call within the default window
      reuses it, so the whole run asks the issuer exactly once. */
  lemma {:induction false} OneFetchPerWindow(c: Option<Entry>, first: Call, calls: seq<Call>)
    requires !Fresh(c, first.now)
    requires first.reply.token.Some? && first.reply.token.value != ""
    requires first.reply.exp.None? || first.reply.exp == Some(0)
    requires forall i :: 0 <= i < |calls| ==> calls[i].now < first.now + DefaultLifetime - RefreshMargin
    ensures Replay(true, c, [first] + calls).fetches == 1
    ensures Replay(true, c, [first] + calls).cache
              == Some(Entry(first.reply.token.value, first.now + DefaultLifetime))
  {
    var e := Some(Entry(first.reply.token.value, first.now + DefaultLifetime));
    assert ([first] + calls)[1..] == calls;
    NoFetchWhileFresh(e, calls);
  }

  /** Replaying one more call extends the history by that call. */
  lemma {:induction false} ReplayExtends(hasServiceAccount: bool, c: Option<Entry>, calls: seq<Call>, last: Call)
    ensures var h := Replay(hasServiceAccount, c, calls);
            var a := Acquire(hasServiceAccount, h.cache, last.now, last.reply);
            Replay(hasServiceAccount, c, calls + [last])
              == History(a.cache, h.fetches + if a.consulted then 1 else 0)
    decreases |calls|
  {
    if calls != [] {
      var a0 := Acquire(hasServiceAccount, c, calls[0].now, calls[0].reply);
      assert (calls + [last])[1..] == calls[1..] + [last];
      ReplayExtends(hasServiceAccount, a0.cache, calls[1..], last);
    } else {
      assert [last][1..] == [];
    }
  }

  /** Without a service account no call reaches the issuer and the cache is
      never touched. */
  lemma {:induction false} NoFetchWithoutServiceAccount(c: Option<Entry>, calls: seq<Call>)
    ensures Replay(false, c, calls) == History(c, 0)
    decreases |calls|
  {
    if calls != [] {
      NoFetchWithoutServiceAccount(c, calls[1..]);
    }
  }
}
