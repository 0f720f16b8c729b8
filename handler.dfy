/**
 * The push handler (api/push.ts, lines 61-92) put together: validation,
 * token resolution, defaults for the notification and the delivery loop,
 * answered with a status and the counts.
 */
module Handler {
  import opened Wrappers
  import opened Validation
  import opened Credentials
  import opened Delivery

  /** The response, reduced to what the caller can tell apart: which check
      refused the request, or the project and the two counts. */
  datatype Response = Rejected(why: Rejection) | Sent(projectId: string, delivered: nat, total: nat)

  /** The HTTP status of a response. */
  function Status(r: Response): (code: int)
    ensures code == 200 <==> r.Sent?
    ensures r.Rejected? ==> 400 <= code < 600
  {
    match r
    case Rejected(MethodNotAllowed) => 405
    case Rejected(BadAppKey) => 401
    case Rejected(MissingProjectId) => 500
    case Rejected(MissingTargets) => 400
    case Sent(_, _, _) => 200
  }

  /** The `ok` field of the JSON answer. */
  function IsOk(r: Response): (ok: bool)
    ensures ok <==> Status(r) == 200
  {
    r.Sent?
  }

  /** The notification every token of the request receives. */
  function NoteOf(req: Request): (n: Notification)
    ensures n.title != ""
    ensures req.body.None? ==> n == Notification(DefaultTitle, "", map[])
    ensures req.body.Some? && req.body.value.text.Some? ==> n.body == req.body.value.text.value
  {
    var b := Fields(req);
    WithDefaults(b.title, b.text, b.data)
  }

  /** One invocation: the response, the cache afterwards, the number of issuer
      calls and what became of each token. */
  datatype Invocation = Invocation(response: Response, cache: Option<Entry>, fetches: nat, log: seq<Outcome>)

  /** The handler as a function of the configuration, the request, the cache
      before the call and the environment of each send. */
  function Respond(cfg: Config, req: Request, c: Option<Entry>, attempts: seq<Attempt>): (inv: Invocation)
    requires |attempts| == |ResolveTokens(req)|
    // a refused request sends nothing and leaves the cache alone
    ensures inv.response.Rejected? ==> inv.cache == c && inv.fetches == 0 && inv.log == []
    // an accepted one tries every resolved token once and counts what got through
    ensures inv.response.Sent? ==>
              && inv.response.total == |ResolveTokens(req)| == |inv.log|
              && inv.response.delivered == CountAccepted(inv.log) <= inv.response.total
              && Some(inv.response.projectId) == ProjectId(cfg)
  {
    match Validate(cfg, req)
    case Err(why) => Invocation(Rejected(why), c, 0, [])
    case Ok(projectId) =>
      var tokens := ResolveTokens(req);
      var t := Run(cfg.serviceAccount.Some?, c, projectId, NoteOf(req), tokens, attempts, |tokens|);
      Invocation(Sent(projectId, CountAccepted(t.log), |tokens|), t.cache, t.fetches, t.log)
  }

  /** For an accepted request, entry i of the log is about the i-th resolved
      token, and it is a delivery exactly when a credential was obtained for
      that send and the service accepted the message; so `delivered` counts
      precisely those tokens. */
  lemma RespondTriesEachToken(cfg: Config, req: Request, c: Option<Entry>, attempts: seq<Attempt>)
    requires |attempts| == |ResolveTokens(req)|
    ensures var inv := Respond(cfg, req, c, attempts);
            inv.response.Sent? ==>
              forall i :: 0 <= i < |inv.log| ==>
                && TokenOf(inv.log[i]) == ResolveTokens(req)[i]
                && (inv.log[i].Accepted? <==> !inv.log[i].NoCredential? && attempts[i].accepted)
  {
    var inv := Respond(cfg, req, c, attempts);
    if inv.response.Sent? {
      var tokens := ResolveTokens(req);
      var hasServiceAccount, projectId, note := cfg.serviceAccount.Some?, Validate(cfg, req).value, NoteOf(req);
      EveryTokenTriedInOrder(hasServiceAccount, c, projectId, note, tokens, attempts, |tokens|);
      forall i | 0 <= i < |inv.log|
        ensures inv.log[i].Accepted? <==> !inv.log[i].NoCredential? && attempts[i].accepted
      {
        OutcomeOfToken(hasServiceAccount, c, projectId, note, tokens, attempts, i);
      }
    }
  }

  /** `handler`: the checks in order, then one send per token. */
  method Handle(cfg: Config, req: Request, cache: TokenCache, attempts: seq<Attempt>)
    returns (resp: Response, ghost log: seq<Outcome>)
    requires cache.Valid() && |attempts| == |ResolveTokens(req)|
    modifies cache
    ensures cache.Valid()
    ensures resp == Respond(cfg, req, old(cache.cached), attempts).response
    ensures log == Respond(cfg, req, old(cache.cached), attempts).log
    ensures cache.cached == Respond(cfg, req, old(cache.cached), attempts).cache
    ensures cache.fetches == old(cache.fetches) + Respond(cfg, req, old(cache.cached), attempts).fetches
  {
    var verdict := Validate(cfg, req);
    if verdict.Err? {
      return Rejected(verdict.error), [];
    }
    var projectId := verdict.value;
    var tokens := ResolveTokens(req);
    var delivered, total;
    delivered, total, log := Dispatch(cache, cfg.serviceAccount.Some?, projectId, NoteOf(req), tokens, attempts);
    resp := Sent(projectId, delivered, total);
  }

  // ---------------------------------------------------------------------------
  // Properties of whole invocations.

  /** The status is decided by the first failing check: 405 for any method but
      POST, then 401 for a wrong key, then 500 without a project id, then 400
      without targets, and 200 otherwise. */
  lemma StatusPrecedence(cfg: Config, req: Request, c: Option<Entry>, attempts: seq<Attempt>)
    requires |attempts| == |ResolveTokens(req)|
    ensures var code := Status(Respond(cfg, req, c, attempts).response);
            && (code == 405 <==> req.verb != "POST")
            && (code == 401 <==> req.verb == "POST" && req.appKey != Some(cfg.appKey))
            && (code == 500 <==> req.verb == "POST" && req.appKey == Some(cfg.appKey) && ProjectId(cfg).None?)
            && (code == 400 <==> req.verb == "POST" && req.appKey == Some(cfg.appKey) && ProjectId(cfg).Some?
                                 && !NonEmptyList(Fields(req).tokens) && !NonEmptyList(Fields(req).userIds))
            && (code == 200 <==> Validate(cfg, req).Ok?)
  {
  }

  /** A request naming user ids and no token is answered 200 with nothing
      delivered out of nothing: user ids are not resolved to tokens. */
  lemma UserIdsOnlyDeliverNothing(cfg: Config, req: Request, c: Option<Entry>)
    requires req.verb == "POST" && req.appKey == Some(cfg.appKey) && ProjectId(cfg).Some?
    requires NonEmptyList(Fields(req).userIds) && !NonEmptyList(Fields(req).tokens)
    ensures Respond(cfg, req, c, []).response == Sent(ProjectId(cfg).value, 0, 0)
    ensures Respond(cfg, req, c, []).fetches == 0
  {
    UserIdsOnlyResolveToNothing(cfg, req);
  }

  /** A failure to get a credential is caught per token: with an empty cache
      and an issuer that hands out nothing, the request still succeeds, with
      every token tried and none delivered. */
  lemma CredentialFailureIsNotAServerError(cfg: Config, req: Request, attempts: seq<Attempt>)
    requires |attempts| == |ResolveTokens(req)| && Validate(cfg, req).Ok?
    requires forall i :: 0 <= i < |attempts| ==> attempts[i].reply.token.None?
    ensures Respond(cfg, req, None, attempts).response == Sent(Validate(cfg, req).value, 0, |ResolveTokens(req)|)
    ensures forall i :: 0 <= i < |attempts| ==>
              Respond(cfg, req, None, attempts).log[i] == NoCredential(ResolveTokens(req)[i])
  {
    var tokens := ResolveTokens(req);
    NoCredentialNoDelivery(cfg.serviceAccount.Some?, Validate(cfg, req).value, NoteOf(req), tokens, attempts, |tokens|);
  }

  /** With an empty cache and an issuer that gives no token, no send gets a
      credential: every outcome is `NoCredential` and the cache stays empty. */
  lemma {:induction false} NoCredentialNoDelivery(hasServiceAccount: bool, projectId: string, note: Notification,
                                                  tokens: seq<string>, attempts: seq<Attempt>, k: nat)
    requires |attempts| == |tokens| && k <= |tokens|
    requires forall i :: 0 <= i < |attempts| ==> attempts[i].reply.token.None?
    ensures var t := Run(hasServiceAccount, None, projectId, note, tokens, attempts, k);
            && t.cache == None
            && (forall i :: 0 <= i < k ==> t.log[i] == NoCredential(tokens[i]))
            && CountAccepted(t.log) == 0
    decreases k
  {
    if k > 0 {
      NoCredentialNoDelivery(hasServiceAccount, projectId, note, tokens, attempts, k - 1);
      var b := Run(hasServiceAccount, None, projectId, note, tokens, attempts, k - 1);
      var s := SendOne(hasServiceAccount, None, projectId, tokens[k - 1], note, attempts[k - 1]);
      assert s.outcome == NoCredential(tokens[k - 1]) && s.cache == None;
      var t := Run(hasServiceAccount, None, projectId, note, tokens, attempts, k);
      assert t.log == b.log + [s.outcome] && t.cache == None;
      CountAcceptedExtends(b.log, s.outcome);
      forall i | 0 <= i < k
        ensures t.log[i] == NoCredential(tokens[i])
      {
        if i < k - 1 {
          assert t.log[i] == b.log[i];
        }
      }
    }
  }

  /** Two tokens, the first accepted and the second refused: the request
      succeeds with one delivered out of two, and the issuer is asked once. */
  lemma OneOfTwoDelivered(cfg: Config, req: Request, now: int, token: string)
    requires req.verb == "POST" && req.appKey == Some(cfg.appKey) && ProjectId(cfg).Some?
    requires Fields(req).tokens == List(["A", "B"]) && token != ""
    ensures var reply := Reply(Some(token), None);
            var attempts := [Attempt(now, reply, true), Attempt(now, reply, false)];
            var inv := Respond(cfg, req, None, attempts);
            && inv.response == Sent(ProjectId(cfg).value, 1, 2)
            && IsOk(inv.response)
            && inv.fetches == 1
  {
    var reply := Reply(Some(token), None);
    var attempts := [Attempt(now, reply, true), Attempt(now, reply, false)];
    var tokens := ResolveTokens(req);
    var note := NoteOf(req);
    var pid := ProjectId(cfg).value;
    assert tokens == ["A", "B"] && cfg.serviceAccount.Some?;
    var e := Some(Entry(token, now + DefaultLifetime));
    var s0 := SendOne(true, None, pid, "A", note, attempts[0]);
    assert s0.outcome.Accepted? && s0.cache == e && s0.consulted;
    var t1 := Run(true, None, pid, note, tokens, attempts, 1);
    assert t1 == Tally([s0.outcome], e, 1);
    var s1 := SendOne(true, e, pid, "B", note, attempts[1]);
    assert Fresh(e, now);
    assert s1.outcome.Refused? && s1.cache == e && !s1.consulted;
    var t2 := Run(true, None, pid, note, tokens, attempts, 2);
    assert t2 == Tally([s0.outcome, s1.outcome], e, 1);
    CountAcceptedExtends([], s0.outcome);
    assert [s0.outcome] == [] + [s0.outcome];
    assert t2.log == t1.log + [t2.log[1]];
    CountAcceptedExtends(t1.log, t2.log[1]);
  }
}
