# Comment routes of the six-cities API, modelled in Dafny

This project models the comment sub-resource of the six-cities HTTP API:
comments attached to offers. It covers two pieces of logic:

- **`CreateCommentDto`**, the body validator (`comment_dto.dfy`). `text`
  must be a string of 5 to 1024 characters and `rating` an integer from 1
  to 5. `Validate` takes a JSON-like body (property name to `Str`, `Num` or
  `Other`) and returns either the typed DTO or one violation per failing
  property, each naming every constraint that property failed.
- **`CommentController`**, the route table and its handlers
  (`comment_controller.dfy`, with the generic runner in `pipeline.dfy`).
  - `GET /offers/:offerId/comments` runs two checks: offerId format, then
    offer existence.
  - `POST /offers/:offerId/comments/:userId` runs five: offerId format,
    userId format, body validation, user existence, offer existence.
  - `Dispatch` runs a route's checks in order. The first failure answers
    the request. The handler and the comment service run only when every
    check passes.
  - `index` maps an absent service result to 404 "Offer not found" with
    `{ offerId }` as details; a present one (an empty list included) to 200.
    `create` does the same but answers 201 with the created comment.

The class `CommentController` keeps the route table in a `routes` field. Its
constructor fills that field with two `AddRoute` calls, as the source does.

The middlewares' findings are inputs of the model. `Env` says which
identifiers are well formed and which offers and users exist. The comment
service is an input too: one function per call, from its arguments to an
`Option` result. A `Reply` records the response, the checks that ran and the
service calls made. That makes "not consulted" and "never called" statable.

On the POST route, body validation runs before both existence checks, and
the user check runs before the offer check. So an invalid body sent for a
missing offer is answered 400, and a missing user is reported ahead of a
missing offer.

## Model

| member | source | states |
|---|---|---|
| `CommentDto.TextFailures` | src/modules/comment/create-comment.dto.ts:4-6 | `@IsString` fails exactly on a non-string; `@Length(5, 1024)` fails exactly unless the value is a string whose length is in [5, 1024] |
| `CommentDto.RatingFailures` | src/modules/comment/create-comment.dto.ts:8-11 | `@IsInt` fails exactly unless the value is an integral number; `@Min(1)` and `@Max(5)` fail exactly unless it is a number at least 1 / at most 5 |
| `CommentDto.Validate` | src/modules/comment/create-comment.dto.ts:3-12 | valid iff both properties are valid; a valid body yields a DTO with the submitted text and rating, within bounds; otherwise a non-empty list with exactly one entry per failing property, text before rating, each carrying the property's value and exactly the constraints that value fails |
| `CommentDto.TextLengthBoundaries` | src/modules/comment/create-comment.dto.ts:5 | lengths 5 and 1024 are accepted; 4 and 1025 fail `@Length` only |
| `CommentDto.RatingBoundaries` | src/modules/comment/create-comment.dto.ts:8-10 | 1 and 5 pass; 0 fails only `@Min`, 6 only `@Max`, 2.5 only `@IsInt`; the string "3" fails all three |
| `CommentDto.BothPropertiesReported` | src/modules/comment/create-comment.dto.ts:3-12 | a text of length 4 with rating 6 gives exactly two violations in one report, one per property |
| `Pipeline.FirstFailure` | src/modules/comment/comment.controller.ts:25-41 | the runner returns the first failing check and its error, with every earlier check passing; it returns none exactly when all checks pass |
| `Pipeline.FailureAt` | src/modules/comment/comment.controller.ts:36-40 | a failing check preceded only by passing checks is the one reported, whatever follows it |
| `CommentRoutes.Evaluate` | src/modules/comment/comment.controller.ts:36-40 | a check passes exactly when its condition holds; a format failure is 400 naming the parameter, a body failure 400 with all violations, an existence failure 404 naming the entity and id |
| `CommentRoutes.IndexHandler` | src/modules/comment/comment.controller.ts:44-53 | one `findByOffer(offerId)` call; 404 "Offer not found" with `{ offerId }` exactly when the result is absent, otherwise 200 with exactly the returned list |
| `CommentRoutes.CreateHandler` | src/modules/comment/comment.controller.ts:55-65 | one `create(offerId, userId, body)` call with the request's values unchanged; 404 "Offer not found" with `{ offerId }` exactly when the result is absent, otherwise 201 with the created comment |
| `CommentRoutes.Dispatch` | src/modules/comment/comment.controller.ts:25-41 | the handler is called exactly when every declared check passes, after all of them ran, and the reply is then that handler's response and service call; otherwise the response is the error of the first failing check, the checks run are the prefix ending at it, and no service call is made |
| `CommentRoutes.ListMalformedOffer` | src/modules/comment/comment.controller.ts:25-30 | GET with a malformed offerId: 400 after the format check alone, no offer lookup, no service call |
| `CommentRoutes.ListMissingOffer` | src/modules/comment/comment.controller.ts:29 | GET with a well-formed offerId of a missing offer: 404 naming the offer, no service call |
| `CommentRoutes.ListExistingOffer` | src/modules/comment/comment.controller.ts:25-53 | GET with an existing offer runs exactly the two checks, then one `findByOffer`; 200 with the list as returned (empty too) or 404 with the offerId |
| `CommentRoutes.CreateMalformedOffer` | src/modules/comment/comment.controller.ts:36 | POST with a malformed offerId: that error wins over every other, after one check |
| `CommentRoutes.CreateMalformedUser` | src/modules/comment/comment.controller.ts:36-37 | POST with a good offerId and a malformed userId: the userId error wins over body and existence errors |
| `CommentRoutes.CreateInvalidBody` | src/modules/comment/comment.controller.ts:36-40 | POST with good ids and an invalid body: 400 with all violations, before either entity is looked up |
| `CommentRoutes.CreateMissingUser` | src/modules/comment/comment.controller.ts:38-40 | POST with a valid body and a missing user: 404 for the user even when the offer is missing too; the service is not called |
| `CommentRoutes.CreateMissingOffer` | src/modules/comment/comment.controller.ts:40 | POST where only the offer is missing: 404 for the offer after all five checks ran |
| `CommentRoutes.CreateReached` | src/modules/comment/comment.controller.ts:32-58 | the create call happens iff all five checks pass; it then gets the path's ids and the body unchanged, that body validates to a DTO with the submitted text and rating, and the answer is 201 or 404 per the service result |
| `CommentRoutes.CommentController.constructor` | src/modules/comment/comment.controller.ts:17-42 | the route table is exactly the GET route then the POST route, with their checks in declared order |
| `CommentRoutes.CommentController.AddRoute` | src/modules/comment/comment.controller.ts:25-30 | registering appends the route after those already declared |
| `CommentRoutes.CommentController.Serve` | src/modules/comment/comment.controller.ts:25-41 | serving on a registered route: its handler answers, with the controller's comment service, exactly when every check of that route passes; otherwise the first failing check answers, after only the checks up to it ran |

## Left out

- Express request and response objects, the rendering done by `this.ok` and `this.created`, and URL path matching. The `Controller` base class is not part of this model. `AddRoute` only appends to the table. A response is its status code and payload.
- Dependency injection: the comment service is a constructor argument. The offer and user services appear only through `Env`, the middlewares' findings.
- The middlewares `validateObjectId`, `checkExists` and `validateDto` are not part of this model. The identifier format and entity existence are abstract sets. Their error messages are not modelled; each failure is a constructor naming its parameter, entity or violations. Their bodies are not shown; format and body failures are taken to answer 400 and missing entities 404.
- What `checkExists` may attach to the request, the services' persistence, and comment fields beyond the five in `Comment`.
- `async`/`await` and the race between an existence check and the service call. The model takes the service's absent result as given.
- Unexpected collaborator failures (500) and the serialisation of error bodies.
- How `validateDto` turns the raw JSON into a DTO instance and its validator options (whitelisting, unknown properties). The body's property values are used as they are.
- `CommentDto.TextFailures`: length is the number of elements of the character sequence; how the validation library counts UTF-16 surrogate pairs and variation selectors is not modelled.
- `CommentDto.RatingFailures`: numbers are exact reals. NaN and the infinities are folded into `Other`, which fails every numeric constraint, although an infinity does satisfy `@Min` or `@Max` in the library.
