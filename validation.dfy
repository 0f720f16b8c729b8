/**
 * The request-validation chain of the push handler (api/push.ts, lines 63-70)
 * and the resolution of the target tokens (line 75).
 *
 * The HTTP request is abstracted to the three things the chain looks at: the
 * method, the `x-app-key` header and the parsed JSON body. The configuration
 * is the shared secret and the parsed service account.
 */
module Validation {
  import opened Wrappers

  /** A field of the JSON body as the handler sees it: missing (or null),
      present but not an array, or an array of strings. */
  datatype Field = Absent | NotArray | List(items: seq<string>)

  /** The body fields the handler destructures. `text` is the JSON field `body`;
      a falsy `title` or `body` (missing, null, "") is `None` or `Some("")`. */
  datatype Body = Body(
    userIds: Field,
    tokens: Field,
    title: Option<string>,
    text: Option<string>,
    data: Option<map<string, string>>)

  /** `verb` is the HTTP method; `body == None` is a request without a (parsed) body. */
  datatype Request = Request(verb: string, appKey: Option<string>, body: Option<Body>)

  /** The parsed service-account JSON; only `project_id` matters to the chain. */
  datatype ServiceAccount = ServiceAccount(projectId: Option<string>)

  /** `serviceAccount == None` is an unset credentials variable. */
  datatype Config = Config(appKey: string, serviceAccount: Option<ServiceAccount>)

  /** The four ways the chain can refuse a request, in the order it checks them. */
  datatype Rejection = MethodNotAllowed | BadAppKey | MissingProjectId | MissingTargets

  const EmptyBody := Body(Absent, Absent, None, None, None)

  /** `req.body || {}`: a missing body reads as one with no fields. */
  function Fields(req: Request): Body {
    req.body.GetOr(EmptyBody)
  }

  /** `Array.isArray(f) && f.length > 0` */
  predicate NonEmptyList(f: Field) {
    f.List? && |f.items| > 0
  }

  /** `saJson?.project_id` when it is truthy. */
  function ProjectId(cfg: Config): Option<string> {
    match cfg.serviceAccount
    case None => None
    case Some(sa) => if sa.projectId.Some? && sa.projectId.value != "" then sa.projectId else None
  }

  /** The ordered chain: method, shared secret, configuration, targets.
      On success the result is the project id the messages are sent under. */
  function Validate(cfg: Config, req: Request): (r: Result<string, Rejection>)
    ensures r.Ok? ==> Some(r.value) == ProjectId(cfg)
    ensures r.Ok? ==> NonEmptyList(Fields(req).tokens) || NonEmptyList(Fields(req).userIds)
    ensures req.verb != "POST" ==> r == Err(MethodNotAllowed)
  {
    if req.verb != "POST" then Err(MethodNotAllowed)
    else if req.appKey != Some(cfg.appKey) then Err(BadAppKey)
    else if ProjectId(cfg).None? then Err(MissingProjectId)
    else
      var b := Fields(req);
      if !NonEmptyList(b.tokens) && !NonEmptyList(b.userIds) then Err(MissingTargets)
      else Ok(ProjectId(cfg).value)
  }

  /** `Array.isArray(tokens) ? tokens : []`: the tokens the handler sends to.
      User ids are never resolved to tokens. */
  function ResolveTokens(req: Request): seq<string> {
    match Fields(req).tokens
    case List(items) => items
    case _ => []
  }

  // ---------------------------------------------------------------------------
  // An order-free description of the checks, against which the chain is proved.

  /** Whether the request fails check `w`, judged on its own. */
  predicate Violates(cfg: Config, req: Request, w: Rejection) {
    match w
    case MethodNotAllowed => req.verb != "POST"
    case BadAppKey => req.appKey != Some(cfg.appKey)
    case MissingProjectId => ProjectId(cfg).None?
    case MissingTargets => !NonEmptyList(Fields(req).tokens) && !NonEmptyList(Fields(req).userIds)
  }

  /** The position of each check in the chain. */
  function Rank(w: Rejection): nat {
    match w
    case MethodNotAllowed => 0
    case BadAppKey => 1
    case MissingProjectId => 2
    case MissingTargets => 3
  }

  /** The chain accepts exactly the requests that fail no check, and otherwise
      reports the earliest check the request fails, whatever the later ones say. */
  lemma ValidateReportsFirstViolation(cfg: Config, req: Request)
    ensures Validate(cfg, req).Ok? <==> forall w :: !Violates(cfg, req, w)
    ensures Validate(cfg, req).Err? ==>
              var e := Validate(cfg, req).error;
              Violates(cfg, req, e) && forall w :: Violates(cfg, req, w) ==> Rank(e) <= Rank(w)
  {
    var r := Validate(cfg, req);
    if r.Ok? {
      forall w ensures !Violates(cfg, req, w) {
        match w
        case MethodNotAllowed =>
        case BadAppKey =>
        case MissingProjectId =>
        case MissingTargets =>
      }
    } else {
      assert Violates(cfg, req, r.error);
    }
  }

  /** A non-POST request is refused with the first check whatever its key,
      body or the configuration. */
  lemma MethodCheckedFirst(cfg1: Config, req1: Request, cfg2: Config, req2: Request)
    requires req1.verb == req2.verb && req1.verb != "POST"
    ensures Validate(cfg1, req1) == Validate(cfg2, req2) == Err(MethodNotAllowed)
  {
  }

  /** A POST with a wrong or missing key is refused before the configuration
      or the body is looked at. */
  lemma KeyCheckedBeforeConfigAndBody(cfg1: Config, req1: Request, cfg2: Config, req2: Request)
    requires req1.verb == req2.verb == "POST"
    requires req1.appKey != Some(cfg1.appKey) && req2.appKey != Some(cfg2.appKey)
    ensures Validate(cfg1, req1) == Validate(cfg2, req2) == Err(BadAppKey)
  {
  }

  /** A request that names user ids and no token (no `tokens` array, or an
      empty one) passes the chain, yet no token is resolved for it. */
  lemma UserIdsOnlyResolveToNothing(cfg: Config, req: Request)
    requires req.verb == "POST" && req.appKey == Some(cfg.appKey) && ProjectId(cfg).Some?
    requires NonEmptyList(Fields(req).userIds) && !NonEmptyList(Fields(req).tokens)
    ensures Validate(cfg, req).Ok?
    ensures ResolveTokens(req) == []
  {
  }

  /** Whatever passes the chain with no user ids has at least one token to send to. */
  lemma AcceptedWithoutUserIdsHasTokens(cfg: Config, req: Request)
    requires Validate(cfg, req).Ok? && !NonEmptyList(Fields(req).userIds)
    ensures |ResolveTokens(req)| > 0
  {
  }
}
