# Grade passback for an LTI tool, modelled in Dafny

This project models the `POST /grade` route of an LTI 1.3 tool. The route sends a
learner's score to the LMS gradebook through the Assignment and Grade Services
(AGS). The route:

1. checks that the launch token carries a platform context with an AGS endpoint
   (otherwise 400);
2. resolves the gradebook column, called a line item:
   - it uses the id embedded in the token when that id is truthy;
   - otherwise it lists the resource link's line items and takes the first;
   - if the list is empty, it creates a `"Grade"` line item for the resource
     link, and that needs the resource (otherwise 400);
3. builds the AGS score, in which everything except the learner, the grade, the
   comment and the timestamp is a constant;
4. submits the score and passes the platform's reply back unchanged. Any
   rejection from the platform becomes 500 with the error's message.

The three AGS calls are an oracle. A `Script` says how the platform answers:
- the listing's outcome;
- for creation, a function from the draft line item to an outcome;
- for submission, a function from the line-item id and score to an outcome.

Each outcome is a value or a `Fail(message)`. The handler yields the HTTP
response together with the trace of the calls it made.

Files:
- `wrappers.dfy`: `Option` and `Outcome`.
- `launch.dfy` (module `Launch`): the launch token with optional fields, the
  request body, the score, line items and the response. It also holds
  JavaScript truthiness for the embedded line-item id: `""` counts as absent.
- `grade_route.dfy` (module `GradeRoute`) contains:
  - the score and draft builders;
  - `Resolve` and `Handle`, which define the route's behaviour as functions;
  - lemmas for each path through the route;
  - the class `GradeService`, which answers calls from its script and records
    them;
  - `PostGrade`, the handler written as ordered steps with early returns,
    which is proved to produce exactly `Handle`'s response and calls.
- `gradebook.dfy` (module `Gradebook`): a platform that keeps one resource
  link's columns and scores between requests, served one after the other.
  Every statement about several requests assumes that they come from that one
  link:
  - every token that has a platform context names the link's resource
    (`FromLink`);
  - every column the platform starts with belongs to the link (`OfLink`).

  So the listing, which the route scopes by resource link, returns exactly the
  platform's columns. For any such sequence of requests it proves:
  - every column stays on the link, including a created one;
  - a link that has a column keeps exactly its columns;
  - a link never goes from at most one column to two.

  Under further conditions it also proves where the scores go:
  - On a link that has a column, when no token embeds a line item, every new
    score goes to the first column.
  - On a link that starts empty, suppose the first request carries a context
    and an endpoint, and no token embeds a line item. Then the link ends with
    exactly one column, which belongs to the link, and every new score goes
    to it.
  - A token that embeds a line item bypasses the platform's columns: its score
    goes to the embedded id, and it creates no column.

Three things are parameters instead of being computed:
- `toNumber` stands for JavaScript's `Number(grade)`, uninterpreted;
- `now` stands for `new Date().toISOString()`;
- the platform's answers are the `Script`.

Two details follow the code:
- the learner id comes from the token's `user` field;
- the score is built before the context check, which makes no observable
  difference.

## Model

| member | source | states |
|---|---|---|
| `GradeRoute.BuildScore` | src/routes.js:27-35 | No contract of its own. The fields of the score it builds are stated by `SubmittedScoreFields`. |
| `GradeRoute.DraftFor` | src/routes.js:58-63 | No contract of its own. The draft it builds is stated literally by `LineItemCreatedWhenNoneListed`. |
| `Launch.Truthy` | src/routes.js:46 | No contract of its own. It models the `!lineItemId` test, under which undefined and `""` are falsy. The path lemmas and `Resolve` state what each outcome of the test leads to. |
| `GradeRoute.Resolve` | src/routes.js:44-67 | Resolution makes no call exactly when the embedded id is truthy; otherwise its first call is the listing, scoped by resource link. It makes at most a listing and then a creation, in that order, and never a submission. Only its last call can have failed, and when it has, resolution halts with 500 carrying that call's message. It halts only with 400 "platformContext.resource is undefined" or with 500 carrying the failed call's message. |
| `GradeRoute.Handle` | src/routes.js:21-79 | Calls strictly follow list, create, submit. A failed call is always the last one, and the response is then 500 with that call's message. A 500 always comes from a failed last call. The status is 200 exactly when the last call is a submission that succeeded, and the body is then that submission's reply, unchanged. A 400 carries one of the two fixed messages, and the status is always 200, 400 or 500. |
| `GradeRoute.OrderedTraceShape` | src/routes.js:47-74 | In a call trace ordered list, create, submit, each kind of call occurs at most once, and a submission is always the last call. |
| `GradeRoute.HandleTraceShape` | src/routes.js:47-74 | In every request's trace there is at most one creation and at most one submission, and a submission, when made, is the last call. |
| `GradeRoute.ListingFailureReported` | src/routes.js:46-49 | With no truthy embedded id and a listing that rejects with `m`, the response is 500 `{err: m}` and the listing is the only call. |
| `GradeRoute.MissingContextRejected` | src/routes.js:39-42 | Without `platformContext` or `endpoint`, the response is 400 `{err: "platformContext or endpoint is undefined"}` and no AGS call is made. |
| `GradeRoute.EmptyEmbeddedIdIsListed` | src/routes.js:46-49 | An embedded `lineitem` equal to `""` is treated as absent: the first call is the listing, scoped by resource link. |
| `GradeRoute.EmbeddedLineItemUsed` | src/routes.js:45-74 | A truthy embedded `lineitem` means neither listing nor creation happens. The only call is the submission against exactly that id. |
| `GradeRoute.FirstListedLineItemUsed` | src/routes.js:46-66 | With no truthy embedded id and a non-empty listing, the calls are exactly the listing (scoped by resource link) and then the submission against `lineItems[0].id`. No creation happens. |
| `GradeRoute.LineItemCreatedWhenNoneListed` | src/routes.js:51-74 | With an empty listing and a resource, exactly one creation follows the listing, with `{scoreMaximum: 10000, label: "Grade", tag: "grade", resourceLinkId: resource.id}`. If it succeeds, the single submission uses the returned id. If it fails, the response is 500 with its message and nothing is submitted. |
| `GradeRoute.MissingResourceRejected` | src/routes.js:51-57 | With an empty listing and no resource, the response is 400 `{err: "platformContext.resource is undefined"}`. The listing is the only call, so there is neither creation nor submission. |
| `GradeRoute.SubmittedScoreFields` | src/routes.js:25-35 | Every submitted score carries the request's token, `userId = token.user`, `scoreGiven = Number(grade)`, `scoreMaximum = 10000`, `"Completed"`, `"FullyGraded"`, the comment unaltered and the request's timestamp. |
| `GradeRoute.GradeService.GetLineItems` | src/routes.js:47-49 | Returns the scripted listing and appends a listing call, scoped by resource link, to the trace. |
| `GradeRoute.GradeService.CreateLineItem` | src/routes.js:64 | Returns the scripted answer for the draft and appends the creation call to the trace. |
| `GradeRoute.GradeService.SubmitScore` | src/routes.js:70-74 | Returns the scripted answer for the id and score and appends the submission call to the trace. |
| `GradeRoute.PostGrade` | src/routes.js:21-79 | The step-by-step handler returns `Handle`'s response, and the service's trace grows by exactly `Handle`'s calls. |
| `Gradebook.CreationOnlyWhenNoneListed` | src/routes.js:46-66 | One request creates at most one line item, and creates one only when the listing succeeded and was empty. |
| `Gradebook.RequestStaysOnLink` | src/routes.js:47-64 | One request from the link leaves every column on the link, because a created column takes the token's resource id. |
| `Gradebook.ColumnsStayOnLink` | src/routes.js:47-64 | Any sequence of requests from the link keeps every column on the link. |
| `Gradebook.ExistingColumnReused` | src/routes.js:46-66 | Once the resource link has a column, any sequence of later requests from the link leaves the platform's columns unchanged. |
| `Gradebook.AtMostOneColumn` | src/routes.js:46-66 | Sequential requests from the link never take it from at most one column to two. |
| `Gradebook.RequestOnExistingColumn` | src/routes.js:46-74 | On a link that has a column, one request from the link without an embedded id keeps the columns. It records either no score or one score against the first column. |
| `Gradebook.EmbeddedRequestBypassesColumns` | src/routes.js:45-74 | A request whose token embeds a truthy line-item id leaves the platform's columns unchanged and posts exactly one score, to that id. |
| `Gradebook.ScoresGoToFirstColumn` | src/routes.js:46-74 | On a link that has a column, for requests from the link without embedded ids, the columns stay and earlier scores are kept. Every new score is posted to the first column. |
| `Gradebook.FirstRequestCreatesColumn` | src/routes.js:51-74 | On a link without a column, a request from the link with a context and an endpoint creates exactly the column `(new id, 10000, "Grade", "grade", link)` and posts its score there. |
| `Gradebook.OneColumnForAllSubmissions` | src/routes.js:46-74 | On a link that starts empty, the first request from the link has a context and an endpoint, and it is followed by any number of requests from the link without embedded ids. The link ends with exactly one column, which belongs to the link, and all the new scores, at least one, go to it. |

## Left out

- `index.js` is not part of this model. It covers provider setup and deployment, the database connection, platform registration, file serving and process signal handling, which are configuration and process lifecycle.
- `src/logger.js` is not part of this model. It is logging configuration.
- The request-logging middleware (src/routes.js:11-18) and every `console` call are left out, because they only produce output.
- The AGS network calls and the OAuth token exchange are left out. They are the `Script` oracle, and their internals are not modelled.
- `Number(grade)` is the parameter `toNumber`, a total function to `real`. NaN, infinities and floating point are not modelled.
- `new Date().toISOString()` is the parameter `now`.
- The race between two concurrent first submissions, which can both create a line item, is left out. It is concurrency across requests. `Gradebook` proves the property only for requests served one after the other.
- Errors thrown by the route's own code are left out. Reading `user` when the token is missing is one; the launch provider always attaches a token before the route runs. Reading `req.body` when it is missing is another; the body parser always sets one.
- A listing reply without a `lineItems` array is left out. That reply comes from the AGS client, and the listing is modelled as returning a sequence of line items.
- Request bodies whose `grade` is null, a boolean, an object or an array are left out, and so are bodies whose `comment` is null or not a string. The grade only reaches the model through the uninterpreted `toNumber`, and the comment is passed through unchanged, so these shapes would not change any contract.
- Missing `id` fields and non-string error messages are left out: the model gives the line item's `id`, the resource's `id` and the error `message` as strings.
- `Gradebook` assumes that every call made in its requests succeeds. Failures are covered, one request at a time, by `GradeRoute.Handle`.
- `Gradebook` keeps the columns of a single resource link, and its lemmas about several requests require that the requests come from that link (`FromLink`, `OfLink`). A platform serving several links at once, whose listing filters by `resourceLinkId`, is not modelled.
