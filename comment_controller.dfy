/**
 * The comment controller: two routes, each an ordered list of middleware
 * checks and a terminal handler, and the two handlers that turn the comment
 * service's result into an HTTP outcome.
 *
 * What the middlewares find is an input: `Env` says which identifiers are
 * well formed and which offers and users exist. The comment service is an
 * input too: a pair of functions from the arguments of its two calls to
 * their (possibly absent) results.
 */
module CommentRoutes {
  import opened Wrappers
  import opened CommentDto
  import Pipeline

  /** A comment as the service returns it. */
  datatype Comment = Comment(id: string, offerId: string, authorId: string, text: string, rating: int)

  /** The two path parameters of the comment routes. */
  datatype Param = OfferId | UserId

  /** The entity an existence check looks up, by its label. */
  datatype Entity = Offer | User

  /** One middleware of a route. */
  datatype Check =
    | ValidateObjectId(param: Param)
    | ValidateDto
    | CheckExists(param: Param, entity: Entity)

  datatype HttpMethod = Get | Post

  /** The terminal handler a route ends in. */
  datatype Handler = Index | Create

  datatype Route = Route(path: string, verb: HttpMethod, handler: Handler, middlewares: seq<Check>)

  /** A request as the comment routes see it: the two path parameters and
      the JSON body. The GET route has no `userId` and ignores it. */
  datatype Request = Request(offerId: string, userId: string, body: Body)

  /** What the middlewares would find: the identifiers of the right format
      and the identifiers of the offers and users that exist. */
  datatype Env = Env(wellFormed: set<string>, offers: set<string>, users: set<string>)

  /** The comment service, as the two calls the controller makes. */
  datatype CommentService = CommentService(
    findByOffer: string -> Option<seq<Comment>>,
    create: (string, string, Body) -> Option<Comment>)

  /** A call the controller makes on the comment service. */
  datatype ServiceCall =
    | FindByOffer(offerId: string)
    | CreateComment(offerId: string, userId: string, dto: Body)

  /** Why a request ended without success. */
  datatype Failure =
    | MalformedId(param: Param, id: string)
    | InvalidBody(violations: seq<Violation>)
    | NotFound(entity: Entity, id: string)
    | HttpError(status: int, message: string, details: map<string, string>)
  {
    /** The status code the failure is answered with. */
    function Status(): int {
      match this
      case MalformedId(_, _) => 400
      case InvalidBody(_) => 400
      case NotFound(_, _) => 404
      case HttpError(status, _, _) => status
    }
  }

  datatype Payload = Comments(comments: seq<Comment>) | OneComment(comment: Comment)

  /** Exactly one response per request: a success with its payload, or a failure. */
  datatype Response = Sent(status: int, payload: Payload) | Failed(failure: Failure)
  {
    function Status(): int {
      if Sent? then status else failure.Status()
    }
  }

  /** The response, the middlewares that ran (in order) and the calls made
      on the comment service. */
  datatype Reply = Reply(response: Response, ran: seq<Check>, calls: seq<ServiceCall>)

  const OfferNotFound := "Offer not found"

  function ParamValue(req: Request, p: Param): string {
    match p
    case OfferId => req.offerId
    case UserId => req.userId
  }

  function Store(env: Env, e: Entity): set<string> {
    match e
    case Offer => env.offers
    case User => env.users
  }

  /** Whether one middleware lets the request through. */
  predicate Passes(c: Check, env: Env, req: Request) {
    match c
    case ValidateObjectId(p) => ParamValue(req, p) in env.wellFormed
    case ValidateDto => Validate(req.body).Ok?
    case CheckExists(p, e) => ParamValue(req, p) in Store(env, e)
  }

  /** Runs one middleware: None lets the request through; otherwise the
      failure names the offending parameter, the body's violations, or the
      missing entity. */
  function Evaluate(c: Check, env: Env, req: Request): (r: Option<Failure>)
    ensures r.None? <==> Passes(c, env, req)
    ensures r.Some? && c.ValidateObjectId? ==>
      r.value == MalformedId(c.param, ParamValue(req, c.param)) && r.value.Status() == 400
    ensures r.Some? && c.ValidateDto? ==>
      r.value == InvalidBody(Validate(req.body).error) && r.value.Status() == 400 &&
      r.value.violations != []
    ensures r.Some? && c.CheckExists? ==>
      r.value == NotFound(c.entity, ParamValue(req, c.param)) && r.value.Status() == 404
  {
    match c
    case ValidateObjectId(p) =>
      if ParamValue(req, p) in env.wellFormed then None else Some(MalformedId(p, ParamValue(req, p)))
    case ValidateDto =>
      if Validate(req.body).Ok? then None else Some(InvalidBody(Validate(req.body).error))
    case CheckExists(p, e) =>
      if ParamValue(req, p) in Store(env, e) then None else Some(NotFound(e, ParamValue(req, p)))
  }

  /** `index`: list the offer's comments, or 404 when the service finds no
      result for the offer. An empty list is a result. */
  function IndexHandler(svc: CommentService, req: Request): (r: (Response, seq<ServiceCall>))
    ensures r.1 == [FindByOffer(req.offerId)]
    ensures r.0.Status() == 404 <==> svc.findByOffer(req.offerId).None?
    ensures r.0.Status() == 404 ==>
      r.0 == Failed(HttpError(404, OfferNotFound, map["offerId" := req.offerId]))
    ensures r.0.Status() != 404 ==>
      r.0.Status() == 200 && r.0 == Sent(200, Comments(svc.findByOffer(req.offerId).value))
  {
    var comments := svc.findByOffer(req.offerId);
    if comments.None? then
      (Failed(HttpError(404, OfferNotFound, map["offerId" := req.offerId])), [FindByOffer(req.offerId)])
    else
      (Sent(200, Comments(comments.value)), [FindByOffer(req.offerId)])
  }

  /** `create`: pass both path parameters and the body to the service
      unchanged; 201 with the created comment, or 404 when there is none. */
  function CreateHandler(svc: CommentService, req: Request): (r: (Response, seq<ServiceCall>))
    ensures r.1 == [CreateComment(req.offerId, req.userId, req.body)]
    ensures r.0.Status() == 404 <==> svc.create(req.offerId, req.userId, req.body).None?
    ensures r.0.Status() == 404 ==>
      r.0 == Failed(HttpError(404, OfferNotFound, map["offerId" := req.offerId]))
    ensures r.0.Status() != 404 ==>
      r.0.Status() == 201 && r.0 == Sent(201, OneComment(svc.create(req.offerId, req.userId, req.body).value))
  {
    var comment := svc.create(req.offerId, req.userId, req.body);
    if comment.None? then
      (Failed(HttpError(404, OfferNotFound, map["offerId" := req.offerId])), [CreateComment(req.offerId, req.userId, req.body)])
    else
      (Sent(201, OneComment(comment.value)), [CreateComment(req.offerId, req.userId, req.body)])
  }

  /** Every middleware of a route, run against the same request. */
  function Middleware(env: Env, req: Request): Check -> Option<Failure> {
    c => Evaluate(c, env, req)
  }

  function Handle(h: Handler, svc: CommentService, req: Request): (Response, seq<ServiceCall>) {
    match h
    case Index => IndexHandler(svc, req)
    case Create => CreateHandler(svc, req)
  }

  /** Serves one request on `route`: the first failing middleware answers
      and nothing after it runs; the handler runs only when all pass. */
  function Dispatch(route: Route, env: Env, svc: CommentService, req: Request): (r: Reply)
    ensures r.calls != [] <==> forall i :: 0 <= i < |route.middlewares| ==> Passes(route.middlewares[i], env, req)
    ensures r.calls != [] ==> r.ran == route.middlewares && |r.calls| == 1
    ensures r.calls != [] ==> (r.response, r.calls) == Handle(route.handler, svc, req)
    ensures r.calls == [] ==>
      r.response.Failed? &&
      0 < |r.ran| <= |route.middlewares| && r.ran == route.middlewares[..|r.ran|] &&
      !Passes(r.ran[|r.ran| - 1], env, req) &&
      Evaluate(r.ran[|r.ran| - 1], env, req) == Some(r.response.failure) &&
      forall i :: 0 <= i < |r.ran| - 1 ==> Passes(r.ran[i], env, req)
  {
    match Pipeline.FirstFailure(route.middlewares, Middleware(env, req))
    case Some((i, failure)) => Reply(Failed(failure), route.middlewares[..i + 1], [])
    case None =>
      var (response, calls) := Handle(route.handler, svc, req);
      Reply(response, route.middlewares, calls)
  }

  /** GET /offers/:offerId/comments. */
  const ListRoute := Route("/offers/:offerId/comments", Get, Index,
    [ValidateObjectId(OfferId), CheckExists(OfferId, Offer)])

  /** POST /offers/:offerId/comments/:userId. */
  const CreateRoute := Route("/offers/:offerId/comments/:userId", Post, Create,
    [ValidateObjectId(OfferId), ValidateObjectId(UserId), ValidateDto,
     CheckExists(UserId, User), CheckExists(OfferId, Offer)])

  /** GET: a malformed offerId is answered 400 after the format check alone,
      before the offer is looked up. */
  lemma ListMalformedOffer(env: Env, svc: CommentService, req: Request)
    requires req.offerId !in env.wellFormed
    ensures Dispatch(ListRoute, env, svc, req)
         == Reply(Failed(MalformedId(OfferId, req.offerId)), [ValidateObjectId(OfferId)], [])
  {
  }

  /** GET: a well-formed offerId of an offer that does not exist is answered
      404 naming the offer, and the comment service is not called. */
  lemma ListMissingOffer(env: Env, svc: CommentService, req: Request)
    requires req.offerId in env.wellFormed && req.offerId !in env.offers
    ensures Dispatch(ListRoute, env, svc, req)
         == Reply(Failed(NotFound(Offer, req.offerId)), ListRoute.middlewares, [])
  {
  }

  /** GET: an existing offer reaches `index` after exactly its two checks;
      the answer is 200 with the service's list as it is (an empty list
      included), or 404 with the offerId when the service finds nothing. */
  lemma ListExistingOffer(env: Env, svc: CommentService, req: Request)
    requires req.offerId in env.wellFormed && req.offerId in env.offers
    ensures var r := Dispatch(ListRoute, env, svc, req);
      r.ran == [ValidateObjectId(OfferId), CheckExists(OfferId, Offer)] &&
      r.calls == [FindByOffer(req.offerId)] &&
      r.response == match svc.findByOffer(req.offerId)
        case None => Failed(HttpError(404, OfferNotFound, map["offerId" := req.offerId]))
        case Some(comments) => Sent(200, Comments(comments))
  {
  }

  /** POST: a malformed offerId is reported first, whatever else is wrong. */
  lemma CreateMalformedOffer(env: Env, svc: CommentService, req: Request)
    requires req.offerId !in env.wellFormed
    ensures Dispatch(CreateRoute, env, svc, req)
         == Reply(Failed(MalformedId(OfferId, req.offerId)), [ValidateObjectId(OfferId)], [])
  {
  }

  /** POST: with a well-formed offerId, a malformed userId is reported ahead
      of an invalid body and of missing entities. */
  lemma CreateMalformedUser(env: Env, svc: CommentService, req: Request)
    requires req.offerId in env.wellFormed && req.userId !in env.wellFormed
    ensures Dispatch(CreateRoute, env, svc, req)
         == Reply(Failed(MalformedId(UserId, req.userId)), CreateRoute.middlewares[..2], [])
  {
  }

  /** POST: with both identifiers well formed, an invalid body is reported
      with all its violations before either entity is looked up. */
  lemma CreateInvalidBody(env: Env, svc: CommentService, req: Request)
    requires req.offerId in env.wellFormed && req.userId in env.wellFormed
    requires Validate(req.body).Err?
    ensures Dispatch(CreateRoute, env, svc, req)
         == Reply(Failed(InvalidBody(Validate(req.body).error)),
                  [ValidateObjectId(OfferId), ValidateObjectId(UserId), ValidateDto], [])
  {
  }

  /** POST: a missing user is reported ahead of a missing offer, and the
      comment service is not called. */
  lemma CreateMissingUser(env: Env, svc: CommentService, req: Request)
    requires req.offerId in env.wellFormed && req.userId in env.wellFormed
    requires Validate(req.body).Ok? && req.userId !in env.users
    ensures Dispatch(CreateRoute, env, svc, req)
         == Reply(Failed(NotFound(User, req.userId)), CreateRoute.middlewares[..4], [])
  {
  }

  /** POST: the offer's existence is the last check. */
  lemma CreateMissingOffer(env: Env, svc: CommentService, req: Request)
    requires req.offerId in env.wellFormed && req.userId in env.wellFormed
    requires Validate(req.body).Ok? && req.userId in env.users && req.offerId !in env.offers
    ensures Dispatch(CreateRoute, env, svc, req)
         == Reply(Failed(NotFound(Offer, req.offerId)), CreateRoute.middlewares, [])
  {
    var checks := CreateRoute.middlewares;
    assert forall i :: 0 <= i < 4 ==> Passes(checks[i], env, req);
    Pipeline.FailureAt(checks, Middleware(env, req), 4);
    assert checks[..5] == checks;
  }

  /** POST: `create`, and with it the service's create call, is reached
      exactly when all five checks pass. It then receives the path's
      identifiers and the body unchanged, and that body is a valid DTO
      whose text and rating are the submitted ones. */
  lemma CreateReached(env: Env, svc: CommentService, req: Request)
    ensures var r := Dispatch(CreateRoute, env, svc, req);
      (r.calls != [] <==>
        req.offerId in env.wellFormed && req.userId in env.wellFormed &&
        Validate(req.body).Ok? && req.userId in env.users && req.offerId in env.offers)
    ensures var r := Dispatch(CreateRoute, env, svc, req);
      r.calls != [] ==>
        r.calls == [CreateComment(req.offerId, req.userId, req.body)] &&
        Field(req.body, "text") == Str(Validate(req.body).value.text) &&
        Field(req.body, "rating") == Num(Validate(req.body).value.rating as real) &&
        r.response == match svc.create(req.offerId, req.userId, req.body)
          case None => Failed(HttpError(404, OfferNotFound, map["offerId" := req.offerId]))
          case Some(comment) => Sent(201, OneComment(comment))
  {
  }

  /** The controller: its route table, filled in by the constructor. */
  class CommentController {
    const commentService: CommentService
    var routes: seq<Route>

    constructor (commentService: CommentService)
      ensures this.commentService == commentService
      ensures routes == [ListRoute, CreateRoute]
    {
      this.commentService := commentService;
      routes := [];
      new;
      AddRoute(ListRoute);
      AddRoute(CreateRoute);
    }

    /** Registers one more route after those already declared. */
    method AddRoute(route: Route)
      modifies this`routes
      ensures routes == old(routes) + [route]
    {
      routes := routes + [route];
    }

    /** Serves a request on the `i`-th registered route. */
    function Serve(i: nat, env: Env, req: Request): (r: Reply)
      reads this
      requires i < |routes|
      ensures r.calls != [] <==> forall k :: 0 <= k < |routes[i].middlewares| ==> Passes(routes[i].middlewares[k], env, req)
      ensures r.calls != [] ==>
        r.ran == routes[i].middlewares &&
        (r.response, r.calls) == Handle(routes[i].handler, commentService, req)
      ensures r.calls == [] ==>
        r.response.Failed? &&
        0 < |r.ran| <= |routes[i].middlewares| && r.ran == routes[i].middlewares[..|r.ran|] &&
        Evaluate(r.ran[|r.ran| - 1], env, req) == Some(r.response.failure) &&
        forall k :: 0 <= k < |r.ran| - 1 ==> Passes(r.ran[k], env, req)
    {
      Dispatch(routes[i], env, commentService, req)
    }
  }
}
