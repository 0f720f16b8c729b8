/**
 * Sending one notification per token and tallying the deliveries
 * (api/push.ts: `sendToToken`, lines 35-59, and the loop of the handler,
 * lines 77-85).
 *
 * The HTTP call to the messaging service is abstracted to its outcome: each
 * token comes with an `Attempt` saying what time it is when its credential is
 * requested, what the issuer would answer if asked, and whether the service
 * accepted the message.
 */
module Delivery {
  import opened Wrappers
  import opened Credentials

  /** The title used when the request gives none. */
  const DefaultTitle := "SOC Metr\U{00F3}poli"

  /** The notification sent to every token of one request. */
  datatype Notification = Notification(title: string, body: string, data: map<string, string>)

  /** `title || 'SOC Metrópoli'`, `body || ''` and `data || {}`. */
  function WithDefaults(title: Option<string>, body: Option<string>, data: Option<map<string, string>>): (n: Notification)
    ensures n.title != ""
    ensures n.title == DefaultTitle <==> title.None? || title == Some("") || title == Some(DefaultTitle)
    ensures n.title != DefaultTitle ==> title == Some(n.title)
    ensures body.Some? ==> n.body == body.value
    ensures body.None? ==> n.body == ""
    ensures data.Some? ==> n.data == data.value
    ensures data.None? ==> n.data == map[]
  {
    Notification(
      if title.None? || title.value == "" then DefaultTitle else title.value,
      body.GetOr(""),
      data.GetOr(map[]))
  }

  /** One request to the messaging service: project, target token, bearer
      credential and notification. */
  datatype Message = Message(projectId: string, token: string, accessToken: string, note: Notification)

  /** What became of one token: no credential could be obtained (nothing was
      sent), the service refused the message, or it accepted it. */
  datatype Outcome =
    | NoCredential(token: string)
    | Refused(request: Message)
    | Accepted(request: Message)

  function TokenOf(o: Outcome): string {
    match o
    case NoCredential(t) => t
    case Refused(m) => m.token
    case Accepted(m) => m.token
  }

  /** The environment of one send: the clock when the credential is requested,
      the issuer's reply if it is asked, and whether the service answered with
      a success status and a JSON body. */
  datatype Attempt = Attempt(now: int, reply: Reply, accepted: bool)

  /** One `sendToToken` call: its outcome, the cache afterwards and whether the
      issuer was asked. */
  datatype Step = Step(outcome: Outcome, cache: Option<Entry>, consulted: bool)

  function SendOne(hasServiceAccount: bool, c: Option<Entry>, projectId: string, token: string,
                   note: Notification, at: Attempt): (s: Step)
    ensures TokenOf(s.outcome) == token
    // a message goes out exactly when a credential was obtained, and carries it
    ensures s.outcome.NoCredential? <==> Acquire(hasServiceAccount, c, at.now, at.reply).result.Err?
    ensures !s.outcome.NoCredential? ==>
              s.outcome.request == Message(projectId, token, Acquire(hasServiceAccount, c, at.now, at.reply).result.value, note)
    // delivered exactly when a credential was obtained and the service accepted
    ensures s.outcome.Accepted? <==> !s.outcome.NoCredential? && at.accepted
    // only the credential request touches the cache
    ensures s.cache == Acquire(hasServiceAccount, c, at.now, at.reply).cache
    ensures s.consulted == Acquire(hasServiceAccount, c, at.now, at.reply).consulted
  {
    var a := Acquire(hasServiceAccount, c, at.now, at.reply);
    var outcome :=
      if a.result.Err? then NoCredential(token)
      else
        var m := Message(projectId, token, a.result.value, note);
        if at.accepted then Accepted(m) else Refused(m);
    Step(outcome, a.cache, a.consulted)
  }

  /** The whole loop over `tokens`: the outcome of each token in order, the
      cache at the end and the number of calls to the issuer. */
  datatype Tally = Tally(log: seq<Outcome>, cache: Option<Entry>, fetches: nat)

  /** The loop over the first `k` tokens. */
  function Run(hasServiceAccount: bool, c: Option<Entry>, projectId: string, note: Notification,
               tokens: seq<string>, attempts: seq<Attempt>, k: nat): (t: Tally)
    requires |attempts| == |tokens| && k <= |tokens|
    // every token is tried, in order, whatever happened to the ones before it
    ensures |t.log| == k
    ensures t.fetches <= k
    decreases k
  {
    if k == 0 then Tally([], c, 0)
    else
      var before := Run(hasServiceAccount, c, projectId, note, tokens, attempts, k - 1);
      var s := SendOne(hasServiceAccount, before.cache, projectId, tokens[k - 1], note, attempts[k - 1]);
      Tally(before.log + [s.outcome], s.cache, before.fetches + if s.consulted then 1 else 0)
  }

  /** The number of accepted messages in a log. */
  function CountAccepted(log: seq<Outcome>): (n: nat)
    ensures n <= |log|
    decreases |log|
  {
    if log == [] then 0
    else CountAccepted(log[..|log| - 1]) + if log[|log| - 1].Accepted? then 1 else 0
  }

  /** The `sendToToken` of the source: get a credential, then post the message.
      A failure is reported as an outcome instead of an exception. */
  method SendToToken(cache: TokenCache, hasServiceAccount: bool, projectId: string, token: string,
                     note: Notification, at: Attempt) returns (o: Outcome)
    requires cache.Valid()
    modifies cache
    ensures cache.Valid()
    ensures o == SendOne(hasServiceAccount, old(cache.cached), projectId, token, note, at).outcome
    ensures cache.cached == SendOne(hasServiceAccount, old(cache.cached), projectId, token, note, at).cache
    ensures cache.fetches == old(cache.fetches)
              + if SendOne(hasServiceAccount, old(cache.cached), projectId, token, note, at).consulted then 1 else 0
  {
    var credential := cache.GetAccessToken(hasServiceAccount, at.now, at.reply);
    if credential.Err? {
      return NoCredential(token);
    }
    var request := Message(projectId, token, credential.value, note);
    if at.accepted {
      o := Accepted(request);
    } else {
      o := Refused(request);
    }
  }

  /** The handler's loop: one send per token, a failed send caught and
      skipped, `delivered` counting the accepted ones. */
  method Dispatch(cache: TokenCache, hasServiceAccount: bool, projectId: string, note: Notification,
                  tokens: seq<string>, attempts: seq<Attempt>)
    returns (delivered: nat, total: nat, ghost log: seq<Outcome>)
    requires cache.Valid() && |attempts| == |tokens|
    modifies cache
    ensures cache.Valid()
    ensures total == |tokens|
    ensures log == Run(hasServiceAccount, old(cache.cached), projectId, note, tokens, attempts, |tokens|).log
    ensures delivered == CountAccepted(log)
    ensures cache.cached == Run(hasServiceAccount, old(cache.cached), projectId, note, tokens, attempts, |tokens|).cache
    ensures cache.fetches == old(cache.fetches)
              + Run(hasServiceAccount, old(cache.cached), projectId, note, tokens, attempts, |tokens|).fetches
  {
    ghost var c0, f0 := cache.cached, cache.fetches;
    delivered, log := 0, [];
    var i := 0;
    while i < |tokens|
      invariant 0 <= i <= |tokens|
      invariant cache.Valid()
      invariant cache.fetches >= f0
      invariant Run(hasServiceAccount, c0, projectId, note, tokens, attempts, i)
                  == Tally(log, cache.cached, cache.fetches - f0)
      invariant delivered == CountAccepted(log)
    {
      var o := SendToToken(cache, hasServiceAccount, projectId, tokens[i], note, attempts[i]);
      if o.Accepted? {
        delivered := delivered + 1;
      }
      CountAcceptedExtends(log, o);
      log := log + [o];
      i := i + 1;
    }
    total := |tokens|;
  }

  lemma CountAcceptedExtends(log: seq<Outcome>, o: Outcome)
    ensures CountAccepted(log + [o]) == CountAccepted(log) + if o.Accepted? then 1 else 0
  {
  }

  // ---------------------------------------------------------------------------
  // What the loop guarantees.

  /** The log names every token once, in the order of the list. */
  lemma {:induction false} EveryTokenTriedInOrder(hasServiceAccount: bool, c: Option<Entry>, projectId: string,
                                                   note: Notification, tokens: seq<string>, attempts: seq<Attempt>, k: nat)
    requires |attempts| == |tokens| && k <= |tokens|
    ensures forall i :: 0 <= i < k ==>
              TokenOf(Run(hasServiceAccount, c, projectId, note, tokens, attempts, k).log[i]) == tokens[i]
    decreases k
  {
    if k > 0 {
      EveryTokenTriedInOrder(hasServiceAccount, c, projectId, note, tokens, attempts, k - 1);
    }
  }

  /** Running further only appends: the outcomes of the first `j` tokens are
      fixed once they are tried. */
  lemma {:induction false} RunOnlyAppends(hasServiceAccount: bool, c: Option<Entry>, projectId: string,
                                          note: Notification, tokens: seq<string>, attempts: seq<Attempt>, j: nat, k: nat)
    requires |attempts| == |tokens| && j <= k <= |tokens|
    ensures Run(hasServiceAccount, c, projectId, note, tokens, attempts, k).log[..j]
              == Run(hasServiceAccount, c, projectId, note, tokens, attempts, j).log
    decreases k
  {
    var t := Run(hasServiceAccount, c, projectId, note, tokens, attempts, k);
    if j < k {
      var before := Run(hasServiceAccount, c, projectId, note, tokens, attempts, k - 1);
      RunOnlyAppends(hasServiceAccount, c, projectId, note, tokens, attempts, j, k - 1);
      assert t.log[..j] == before.log[..j];
    } else {
      assert t.log[..j] == t.log;
    }
  }

  /** Each token's outcome is one send on the cache its predecessors left:
      a refused or failed send before it changes nothing about how it is tried. */
  lemma OutcomeOfToken(hasServiceAccount: bool, c: Option<Entry>, projectId: string, note: Notification,
                       tokens: seq<string>, attempts: seq<Attempt>, i: nat)
    requires |attempts| == |tokens| && i < |tokens|
    ensures Run(hasServiceAccount, c, projectId, note, tokens, attempts, |tokens|).log[i]
              == SendOne(hasServiceAccount, Run(hasServiceAccount, c, projectId, note, tokens, attempts, i).cache,
                         projectId, tokens[i], note, attempts[i]).outcome
  {
    RunOnlyAppends(hasServiceAccount, c, projectId, note, tokens, attempts, i + 1, |tokens|);
    var t := Run(hasServiceAccount, c, projectId, note, tokens, attempts, |tokens|);
    assert t.log[i] == t.log[..i + 1][i];
  }

  /** Whether the service accepted a message never changes the cache or the
      number of issuer calls. */
  lemma {:induction false} CacheIgnoresDelivery(hasServiceAccount: bool, c: Option<Entry>, projectId: string,
                                                note: Notification, tokens: seq<string>, attempts: seq<Attempt>,
                                                attempts': seq<Attempt>, k: nat)
    requires |attempts| == |attempts'| == |tokens| && k <= |tokens|
    requires forall i :: 0 <= i < |tokens| ==> attempts[i].now == attempts'[i].now && attempts[i].reply == attempts'[i].reply
    ensures Run(hasServiceAccount, c, projectId, note, tokens, attempts, k).cache
              == Run(hasServiceAccount, c, projectId, note, tokens, attempts', k).cache
    ensures Run(hasServiceAccount, c, projectId, note, tokens, attempts, k).fetches
              == Run(hasServiceAccount, c, projectId, note, tokens, attempts', k).fetches
    decreases k
  {
    if k > 0 {
      CacheIgnoresDelivery(hasServiceAccount, c, projectId, note, tokens, attempts, attempts', k - 1);
    }
  }

  /** The outcome a token has when the service refuses its message instead. */
  function AsRefused(o: Outcome): Outcome {
    if o.Accepted? then Refused(o.request) else o
  }

  /** A refusal for token `j` changes that token's outcome alone: every other
      token is tried exactly as before. */
  lemma RefusalIsIsolated(hasServiceAccount: bool, c: Option<Entry>, projectId: string,
                          note: Notification, tokens: seq<string>, attempts: seq<Attempt>, j: nat)
    requires |attempts| == |tokens| && j < |tokens|
    ensures var t := Run(hasServiceAccount, c, projectId, note, tokens, attempts, |tokens|);
            Run(hasServiceAccount, c, projectId, note, tokens, attempts[j := attempts[j].(accepted := false)], |tokens|).log
              == t.log[j := AsRefused(t.log[j])]
  {
    var refused := attempts[j := attempts[j].(accepted := false)];
    var t := Run(hasServiceAccount, c, projectId, note, tokens, attempts, |tokens|);
    var t' := Run(hasServiceAccount, c, projectId, note, tokens, refused, |tokens|);
    forall i | 0 <= i < |tokens|
      ensures t'.log[i] == t.log[j := AsRefused(t.log[j])][i]
    {
      OutcomeOfToken(hasServiceAccount, c, projectId, note, tokens, attempts, i);
      OutcomeOfToken(hasServiceAccount, c, projectId, note, tokens, refused, i);
      CacheIgnoresDelivery(hasServiceAccount, c, projectId, note, tokens, attempts, refused, i);
      if i == j {
        RefusedSend(hasServiceAccount, Run(hasServiceAccount, c, projectId, note, tokens, attempts, i).cache,
                    projectId, tokens[i], note, attempts[i]);
      }
    }
  }

  /** The same send with the message refused. */
  lemma RefusedSend(hasServiceAccount: bool, c: Option<Entry>, projectId: string, token: string,
                    note: Notification, at: Attempt)
    ensures SendOne(hasServiceAccount, c, projectId, token, note, at.(accepted := false)).outcome
              == AsRefused(SendOne(hasServiceAccount, c, projectId, token, note, at).outcome)
  {
  }

  /** Changing one entry of a log changes the count by that entry alone. */
  lemma {:induction false} CountAcceptedUpdate(log: seq<Outcome>, j: nat, o: Outcome)
    requires j < |log|
    ensures CountAccepted(log[j := o])
              == CountAccepted(log) - (if log[j].Accepted? then 1 else 0) + (if o.Accepted? then 1 else 0)
    decreases |log|
  {
    var n := |log| - 1;
    assert log[j := o][..n] == if j < n then log[..n][j := o] else log[..n];
    if j < n {
      CountAcceptedUpdate(log[..n], j, o);
    }
  }

  /** A refused send lowers `delivered` by one if that token would have been
      delivered, and by nothing otherwise; `total` does not change. */
  lemma RefusalCostsOneDelivery(hasServiceAccount: bool, c: Option<Entry>, projectId: string,
                                note: Notification, tokens: seq<string>, attempts: seq<Attempt>, j: nat)
    requires |attempts| == |tokens| && j < |tokens|
    ensures var t := Run(hasServiceAccount, c, projectId, note, tokens, attempts, |tokens|);
            var t' := Run(hasServiceAccount, c, projectId, note, tokens, attempts[j := attempts[j].(accepted := false)], |tokens|);
            && |t'.log| == |t.log|
            && CountAccepted(t'.log) == CountAccepted(t.log) - if t.log[j].Accepted? then 1 else 0
  {
    var t := Run(hasServiceAccount, c, projectId, note, tokens, attempts, |tokens|);
    RefusalIsIsolated(hasServiceAccount, c, projectId, note, tokens, attempts, j);
    CountAcceptedUpdate(t.log, j, AsRefused(t.log[j]));
  }

  /** Nothing the service refuses is counted: when it accepts no message, no
      token is delivered. */
  lemma {:induction false} NothingAcceptedNothingDelivered(hasServiceAccount: bool, c: Option<Entry>, projectId: string,
                                                           note: Notification, tokens: seq<string>,
                                                           attempts: seq<Attempt>, k: nat)
    requires |attempts| == |tokens| && k <= |tokens|
    requires forall i :: 0 <= i < |tokens| ==> !attempts[i].accepted
    ensures CountAccepted(Run(hasServiceAccount, c, projectId, note, tokens, attempts, k).log) == 0
    decreases k
  {
    if k > 0 {
      var t := Run(hasServiceAccount, c, projectId, note, tokens, attempts, k);
      NothingAcceptedNothingDelivered(hasServiceAccount, c, projectId, note, tokens, attempts, k - 1);
      assert t.log[..k - 1] == Run(hasServiceAccount, c, projectId, note, tokens, attempts, k - 1).log;
    }
  }

  /** With a configured service account, an issuer that always hands out a
      token and a service that accepts everything, every token is delivered. */
  lemma {:induction false} AllAcceptedAllDelivered(c: Option<Entry>, projectId: string, note: Notification,
                                                   tokens: seq<string>, attempts: seq<Attempt>, k: nat)
    requires |attempts| == |tokens| && k <= |tokens| && Usable(c)
    requires forall i :: 0 <= i < |tokens| ==>
               attempts[i].accepted && attempts[i].reply.token.Some? && attempts[i].reply.token.value != ""
    ensures Usable(Run(true, c, projectId, note, tokens, attempts, k).cache)
    ensures CountAccepted(Run(true, c, projectId, note, tokens, attempts, k).log) == k
    decreases k
  {
    if k > 0 {
      AllAcceptedAllDelivered(c, projectId, note, tokens, attempts, k - 1);
      var b := Run(true, c, projectId, note, tokens, attempts, k - 1);
      var s := SendOne(true, b.cache, projectId, tokens[k - 1], note, attempts[k - 1]);
      assert Acquire(true, b.cache, attempts[k - 1].now, attempts[k - 1].reply).result.Ok?;
      assert s.outcome.Accepted? && Usable(s.cache);
      var t := Run(true, c, projectId, note, tokens, attempts, k);
      assert t.log == b.log + [s.outcome] && t.cache == s.cache;
      CountAcceptedExtends(b.log, s.outcome);
    }
  }

  // ---------------------------------------------------------------------------
  // The loop seen from the cache: a run of `getAccessToken` calls.

  /** The cache-side inputs of the first `k` sends. */
  function CallsOf(attempts: seq<Attempt>, k: nat): seq<Call>
    requires k <= |attempts|
  {
    seq(k, i requires 0 <= i < k => Call(attempts[i].now, attempts[i].reply))
  }

  /** The loop leaves the cache, and asks the issuer as often, as the same
      credential requests made one after another. */
  lemma {:induction false} RunIsReplay(hasServiceAccount: bool, c: Option<Entry>, projectId: string,
                                       note: Notification, tokens: seq<string>, attempts: seq<Attempt>, k: nat)
    requires |attempts| == |tokens| && k <= |tokens|
    ensures Run(hasServiceAccount, c, projectId, note, tokens, attempts, k).cache
              == Replay(hasServiceAccount, c, CallsOf(attempts, k)).cache
    ensures Run(hasServiceAccount, c, projectId, note, tokens, attempts, k).fetches
              == Replay(hasServiceAccount, c, CallsOf(attempts, k)).fetches
    decreases k
  {
    if k > 0 {
      RunIsReplay(hasServiceAccount, c, projectId, note, tokens, attempts, k - 1);
      var last := Call(attempts[k - 1].now, attempts[k - 1].reply);
      assert CallsOf(attempts, k) == CallsOf(attempts, k - 1) + [last];
      ReplayExtends(hasServiceAccount, c, CallsOf(attempts, k - 1), last);
    }
  }

  /** While the cached token stays fresh for every send, the loop never asks
      the issuer and leaves the cache as it was. */
  lemma NoFetchWhileFreshInLoop(hasServiceAccount: bool, c: Option<Entry>, projectId: string,
                                note: Notification, tokens: seq<string>, attempts: seq<Attempt>)
    requires |attempts| == |tokens| && c.Some?
    requires forall i :: 0 <= i < |attempts| ==> attempts[i].now < c.value.exp - RefreshMargin
    ensures Run(hasServiceAccount, c, projectId, note, tokens, attempts, |tokens|).fetches == 0
    ensures Run(hasServiceAccount, c, projectId, note, tokens, attempts, |tokens|).cache == c
  {
    RunIsReplay(hasServiceAccount, c, projectId, note, tokens, attempts, |tokens|);
    if hasServiceAccount {
      NoFetchWhileFresh(c, CallsOf(attempts, |tokens|));
    } else {
      NoFetchWithoutServiceAccount(c, CallsOf(attempts, |tokens|));
    }
  }

  /** The first send on a stale cache refreshes it; when the issuer gives a
      token without an expiry and the later sends fall within the default
      window, the whole loop asks the issuer exactly once. */
  lemma OneFetchPerWindowInLoop(c: Option<Entry>, projectId: string, note: Notification,
                                tokens: seq<string>, attempts: seq<Attempt>)
    requires |attempts| == |tokens| > 0
    requires !Fresh(c, attempts[0].now)
    requires attempts[0].reply.token.Some? && attempts[0].reply.token.value != ""
    requires attempts[0].reply.exp.None? || attempts[0].reply.exp == Some(0)
    requires forall i :: 1 <= i < |attempts| ==> attempts[i].now < attempts[0].now + DefaultLifetime - RefreshMargin
    ensures Run(true, c, projectId, note, tokens, attempts, |tokens|).fetches == 1
  {
    RunIsReplay(true, c, projectId, note, tokens, attempts, |tokens|);
    var calls := CallsOf(attempts, |tokens|);
    assert calls == [calls[0]] + calls[1..];
    OneFetchPerWindow(c, calls[0], calls[1..]);
  }
}
