/**
 * The `POST /grade` route: resolve the line item a score belongs to, build
 * the AGS score, submit it and map the outcome to an HTTP response.
 *
 * The three AGS calls (`getLineItems`, `createLineItem`, `submitScore`) are
 * an oracle: a `Script` says how each call would turn out, and the handler
 * produces the response together with the trace of the calls it made.
 */
module GradeRoute {
  import opened Wrappers
  import opened Launch

  const ScoreMaximum := 10000
  const MissingContextError := "platformContext or endpoint is undefined"
  const MissingResourceError := "platformContext.resource is undefined"

  /** The score object, built from the token, the body and the current time. */
  function BuildScore(token: IdToken, body: GradeBody, now: string, toNumber: JsValue -> real): Score {
    Score(token.user, toNumber(body.grade), ScoreMaximum, "Completed", "FullyGraded", body.comment, now)
  }

  /** The line item created when the resource link has none. */
  function DraftFor(resource: Resource): LineItemDraft {
    LineItemDraft(ScoreMaximum, "Grade", "grade", resource.id)
  }

  /** How the platform answers each AGS call during one request. */
  datatype Script = Script(
    lineItems: Outcome<seq<LineItem>>,
    create: LineItemDraft -> Outcome<LineItem>,
    submit: (string, Score) -> Outcome<Payload>)

  /** One AGS call, with the arguments it was made with. */
  datatype Call =
    | GetLineItems(token: IdToken, byResourceLink: bool)
    | CreateLineItem(token: IdToken, draft: LineItemDraft)
    | SubmitScore(token: IdToken, lineItemId: string, score: Score)

  /** The position of a call in the order list, create, submit. */
  function Rank(c: Call): nat {
    match c
    case GetLineItems(_, _) => 0
    case CreateLineItem(_, _) => 1
    case SubmitScore(_, _, _) => 2
  }

  /** Calls strictly follow the order list, create, submit; so each kind occurs at most once. */
  predicate Ordered(calls: seq<Call>) {
    forall i, j :: 0 <= i < j < |calls| ==> Rank(calls[i]) < Rank(calls[j])
  }

  /** True when the script makes this call reject. */
  predicate Failed(c: Call, script: Script) {
    match c
    case GetLineItems(_, _) => script.lineItems.Fail?
    case CreateLineItem(_, d) => script.create(d).Fail?
    case SubmitScore(_, id, s) => script.submit(id, s).Fail?
  }

  /** The `message` of the error a failing call rejects with. */
  function FailureMessage(c: Call, script: Script): string
    requires Failed(c, script)
  {
    match c
    case GetLineItems(_, _) => script.lineItems.message
    case CreateLineItem(_, d) => script.create(d).message
    case SubmitScore(_, id, s) => script.submit(id, s).message
  }

  function BadRequest(err: string): Response {
    Response(400, ErrorBody(err))
  }

  function ServerError(message: string): Response {
    Response(500, ErrorBody(message))
  }

  /** Line-item resolution ends with an id to submit against, or with an early response. */
  datatype Resolution =
    | Resolved(lineItemId: string, calls: seq<Call>)
    | Halted(response: Response, calls: seq<Call>)

  /** The response and the trace of AGS calls of one request. */
  datatype Exchange = Exchange(response: Response, calls: seq<Call>)

  /**
   * Resolve the line-item id: the embedded one if it is truthy; otherwise the
   * first listed one; otherwise a newly created one, which needs the resource.
   */
  function Resolve(token: IdToken, ctx: PlatformContext, script: Script): (r: Resolution)
    requires ctx.endpoint.Some?
    ensures Truthy(ctx.endpoint.value.lineitem) <==> r.calls == []
    ensures !Truthy(ctx.endpoint.value.lineitem) ==> r.calls[0] == GetLineItems(token, true)
    ensures Ordered(r.calls)
    ensures forall i :: 0 <= i < |r.calls| ==> !r.calls[i].SubmitScore?
    ensures forall i :: 0 <= i < |r.calls| - 1 ==> !Failed(r.calls[i], script)
    ensures r.Resolved? ==> r.calls == [] || !Failed(r.calls[|r.calls| - 1], script)
    ensures r.calls != [] && Failed(r.calls[|r.calls| - 1], script) ==>
      r.Halted? && r.response == ServerError(FailureMessage(r.calls[|r.calls| - 1], script))
    ensures r.Halted? ==>
      r.response == BadRequest(MissingResourceError) ||
      (r.calls != [] && Failed(r.calls[|r.calls| - 1], script) &&
       r.response == ServerError(FailureMessage(r.calls[|r.calls| - 1], script)))
  {
    var embedded := ctx.endpoint.value.lineitem;
    if Truthy(embedded) then
      Resolved(embedded.value, [])
    else
      var list := GetLineItems(token, true);
      match script.lineItems
      case Fail(m) => Halted(ServerError(m), [list])
      case Ok(items) =>
        if |items| == 0 then
          match ctx.resource
          case None => Halted(BadRequest(MissingResourceError), [list])
          case Some(resource) =>
            var create := CreateLineItem(token, DraftFor(resource));
            match script.create(DraftFor(resource))
            case Fail(m) => Halted(ServerError(m), [list, create])
            case Ok(item) => Resolved(item.id, [list, create])
        else
          Resolved(items[0].id, [list])
  }

  /**
   * The whole handler: the context check, resolution, submission and the
   * mapping of every rejection to 500 with its message.
   */
  function Handle(token: IdToken, body: GradeBody, now: string, toNumber: JsValue -> real, script: Script): (x: Exchange)
    ensures Ordered(x.calls)
    ensures forall i :: 0 <= i < |x.calls| && Failed(x.calls[i], script) ==>
      i == |x.calls| - 1 && x.response == ServerError(FailureMessage(x.calls[i], script))
    ensures x.response.status == 500 ==>
      x.calls != [] && Failed(x.calls[|x.calls| - 1], script)
    ensures x.response.status == 200 <==>
      x.calls != [] && x.calls[|x.calls| - 1].SubmitScore? && !Failed(x.calls[|x.calls| - 1], script)
    ensures x.response.status == 200 ==>
      var last := x.calls[|x.calls| - 1];
      x.response.body == Forwarded(script.submit(last.lineItemId, last.score).value)
    ensures x.response.status == 400 ==>
      x.response.body in {ErrorBody(MissingContextError), ErrorBody(MissingResourceError)}
    ensures x.response.status in {200, 400, 500}
  {
    var score := BuildScore(token, body, now, toNumber);
    if token.platformContext.None? || token.platformContext.value.endpoint.None? then
      Exchange(BadRequest(MissingContextError), [])
    else
      match Resolve(token, token.platformContext.value, script)
      case Halted(response, calls) => Exchange(response, calls)
      case Resolved(id, calls) =>
        var submit := SubmitScore(token, id, score);
        match script.submit(id, score)
        case Fail(m) => Exchange(ServerError(m), calls + [submit])
        case Ok(reply) => Exchange(Response(200, Forwarded(reply)), calls + [submit])
  }

  /** In any ordered trace, calls of one kind occur at most once and a submission is the last call. */
  lemma OrderedTraceShape(calls: seq<Call>)
    requires Ordered(calls)
    ensures forall i, j :: 0 <= i < |calls| && 0 <= j < |calls| && Rank(calls[i]) == Rank(calls[j]) ==> i == j
    ensures forall i :: 0 <= i < |calls| && calls[i].SubmitScore? ==> i == |calls| - 1
  {
    forall i | 0 <= i < |calls| - 1
      ensures !calls[i].SubmitScore?
    {
      assert Rank(calls[i]) < Rank(calls[|calls| - 1]);
    }
  }

  /** Without a platform context or an endpoint: 400 and no AGS call. */
  lemma MissingContextRejected(token: IdToken, body: GradeBody, now: string, toNumber: JsValue -> real, script: Script)
    requires token.platformContext.None? || token.platformContext.value.endpoint.None?
    ensures Handle(token, body, now, toNumber, script) ==
      Exchange(Response(400, ErrorBody("platformContext or endpoint is undefined")), [])
  {
  }

  /** With no embedded line item, a rejected listing is answered 500 with its message and nothing else is called. */
  lemma ListingFailureReported(token: IdToken, body: GradeBody, now: string, toNumber: JsValue -> real, script: Script, m: string)
    requires token.platformContext.Some? && token.platformContext.value.endpoint.Some?
    requires !Truthy(token.platformContext.value.endpoint.value.lineitem)
    requires script.lineItems == Fail(m)
    ensures Handle(token, body, now, toNumber, script) ==
      Exchange(Response(500, ErrorBody(m)), [GetLineItems(token, true)])
  {
  }

  /**
   * The trace of every request: at most one creation, at most one submission,
   * and a submission, when made, is the last call.
   */
  lemma HandleTraceShape(token: IdToken, body: GradeBody, now: string, toNumber: JsValue -> real, script: Script)
    ensures var c := Handle(token, body, now, toNumber, script).calls;
      (forall i, j :: 0 <= i < |c| && 0 <= j < |c| && c[i].CreateLineItem? && c[j].CreateLineItem? ==> i == j) &&
      (forall i, j :: 0 <= i < |c| && 0 <= j < |c| && c[i].SubmitScore? && c[j].SubmitScore? ==> i == j) &&
      (forall i :: 0 <= i < |c| && c[i].SubmitScore? ==> i == |c| - 1)
  {
    OrderedTraceShape(Handle(token, body, now, toNumber, script).calls);
  }

  /**
   * An embedded `lineitem` that is the empty string is falsy, exactly as an
   * absent one: the handler starts by listing the resource link's line items.
   */
  lemma EmptyEmbeddedIdIsListed(token: IdToken, body: GradeBody, now: string, toNumber: JsValue -> real, script: Script)
    requires token.platformContext.Some? && token.platformContext.value.endpoint.Some?
    requires token.platformContext.value.endpoint.value.lineitem == Some("")
    ensures var c := Handle(token, body, now, toNumber, script).calls;
      c != [] && c[0] == GetLineItems(token, true)
  {
  }

  /** A truthy embedded line item is used as is: the only call is the submission against it. */
  lemma EmbeddedLineItemUsed(token: IdToken, body: GradeBody, now: string, toNumber: JsValue -> real, script: Script)
    requires token.platformContext.Some? && token.platformContext.value.endpoint.Some?
    requires Truthy(token.platformContext.value.endpoint.value.lineitem)
    ensures Handle(token, body, now, toNumber, script).calls ==
      [SubmitScore(token, token.platformContext.value.endpoint.value.lineitem.value, BuildScore(token, body, now, toNumber))]
  {
  }

  /** With no embedded line item and a non-empty list, the first listed id is used and nothing is created. */
  lemma FirstListedLineItemUsed(token: IdToken, body: GradeBody, now: string, toNumber: JsValue -> real, script: Script)
    requires token.platformContext.Some? && token.platformContext.value.endpoint.Some?
    requires !Truthy(token.platformContext.value.endpoint.value.lineitem)
    requires script.lineItems.Ok? && script.lineItems.value != []
    ensures Handle(token, body, now, toNumber, script).calls ==
      [GetLineItems(token, true), SubmitScore(token, script.lineItems.value[0].id, BuildScore(token, body, now, toNumber))]
  {
  }

  /**
   * With no embedded line item, an empty list and a resource, one line item
   * is created for the resource link and the score goes to the id it returns.
   */
  lemma LineItemCreatedWhenNoneListed(token: IdToken, body: GradeBody, now: string, toNumber: JsValue -> real, script: Script)
    requires token.platformContext.Some? && token.platformContext.value.endpoint.Some?
    requires !Truthy(token.platformContext.value.endpoint.value.lineitem)
    requires script.lineItems == Ok([])
    requires token.platformContext.value.resource.Some?
    ensures var x := Handle(token, body, now, toNumber, script);
      var draft := LineItemDraft(10000, "Grade", "grade", token.platformContext.value.resource.value.id);
      |x.calls| >= 2 &&
      x.calls[..2] == [GetLineItems(token, true), CreateLineItem(token, draft)] &&
      (script.create(draft).Ok? ==>
         x.calls[2..] == [SubmitScore(token, script.create(draft).value.id, BuildScore(token, body, now, toNumber))]) &&
      (script.create(draft).Fail? ==>
         |x.calls| == 2 && x.response == Response(500, ErrorBody(script.create(draft).message)))
  {
  }

  /** With no embedded line item, an empty list and no resource: 400, and neither creation nor submission. */
  lemma MissingResourceRejected(token: IdToken, body: GradeBody, now: string, toNumber: JsValue -> real, script: Script)
    requires token.platformContext.Some? && token.platformContext.value.endpoint.Some?
    requires !Truthy(token.platformContext.value.endpoint.value.lineitem)
    requires script.lineItems == Ok([])
    requires token.platformContext.value.resource.None?
    ensures Handle(token, body, now, toNumber, script) ==
      Exchange(Response(400, ErrorBody("platformContext.resource is undefined")), [GetLineItems(token, true)])
  {
  }

  /** Every submitted score carries the learner, the coerced grade, the fixed constants and the comment unaltered. */
  lemma SubmittedScoreFields(token: IdToken, body: GradeBody, now: string, toNumber: JsValue -> real, script: Script)
    ensures var x := Handle(token, body, now, toNumber, script);
      forall i :: 0 <= i < |x.calls| && x.calls[i].SubmitScore? ==>
        var s := x.calls[i].score;
        x.calls[i].token == token &&
        s.userId == token.user && s.scoreGiven == toNumber(body.grade) &&
        s.scoreMaximum == 10000 && s.activityProgress == "Completed" &&
        s.gradingProgress == "FullyGraded" && s.comment == body.comment && s.timestamp == now
  {
  }

  /**
   * The AGS client of one request: it answers each call as its script says
   * and records the calls made, in order.
   */
  class GradeService {
    const script: Script
    var calls: seq<Call>

    constructor (script: Script)
      ensures this.script == script && calls == []
    {
      this.script := script;
      calls := [];
    }

    method GetLineItems(token: IdToken) returns (r: Outcome<seq<LineItem>>)
      modifies this
      ensures r == script.lineItems
      ensures calls == old(calls) + [Call.GetLineItems(token, true)]
    {
      r := script.lineItems;
      calls := calls + [Call.GetLineItems(token, true)];
    }

    method CreateLineItem(token: IdToken, draft: LineItemDraft) returns (r: Outcome<LineItem>)
      modifies this
      ensures r == script.create(draft)
      ensures calls == old(calls) + [Call.CreateLineItem(token, draft)]
    {
      r := script.create(draft);
      calls := calls + [Call.CreateLineItem(token, draft)];
    }

    method SubmitScore(token: IdToken, lineItemId: string, score: Score) returns (r: Outcome<Payload>)
      modifies this
      ensures r == script.submit(lineItemId, score)
      ensures calls == old(calls) + [Call.SubmitScore(token, lineItemId, score)]
    {
      r := script.submit(lineItemId, score);
      calls := calls + [Call.SubmitScore(token, lineItemId, score)];
    }
  }

  /**
   * The route handler as ordered steps with early returns; the response and
   * the calls it makes are those of `Handle`.
   */
  method PostGrade(service: GradeService, token: IdToken, body: GradeBody, now: string, toNumber: JsValue -> real)
    returns (res: Response)
    modifies service
    ensures res == Handle(token, body, now, toNumber, service.script).response
    ensures service.calls == old(service.calls) + Handle(token, body, now, toNumber, service.script).calls
  {
    var score := BuildScore(token, body, now, toNumber);
    if token.platformContext.None? || token.platformContext.value.endpoint.None? {
      return BadRequest(MissingContextError);
    }
    var ctx := token.platformContext.value;
    var lineItemId := ctx.endpoint.value.lineitem;
    if !Truthy(lineItemId) {
      var listed := service.GetLineItems(token);
      if listed.Fail? {
        return ServerError(listed.message);
      }
      var lineItems := listed.value;
      if |lineItems| == 0 {
        if ctx.resource.None? {
          return BadRequest(MissingResourceError);
        }
        var created := service.CreateLineItem(token, DraftFor(ctx.resource.value));
        if created.Fail? {
          return ServerError(created.message);
        }
        lineItemId := Some(created.value.id);
      } else {
        lineItemId := Some(lineItems[0].id);
      }
    }
    var submitted := service.SubmitScore(token, lineItemId.value, score);
    if submitted.Fail? {
      return ServerError(submitted.message);
    }
    return Response(200, Forwarded(submitted.value));
  }
}
