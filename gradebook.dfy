/**
 * Sequential grading requests from one resource link, served by a platform
 * that keeps that link's gradebook columns between requests. Every request's
 * token that has a context names the link's resource, and every column
 * belongs to the link (`FromLink`, `OfLink`). Reusing a listed column before
 * creating one means an existing column is never duplicated. A link that
 * starts without a column ends with exactly one when the first request has a
 * context and an endpoint and no token embeds a line item.
 */
module Gradebook {
  import opened Wrappers
  import opened Launch
  import opened GradeRoute

  /** A score the platform has recorded against a line item. */
  datatype Posted = Posted(lineItemId: string, score: Score)

  /**
   * The platform's state for one resource link: its columns, the scores
   * posted so far, how many columns it has created (`minted`), the id it
   * gives the n-th column it creates (`naming`), and its reply to a score.
   */
  datatype Platform = Platform(
    columns: seq<LineItem>,
    scores: seq<Posted>,
    minted: nat,
    naming: nat -> string,
    receipt: Payload)

  /** One grading request: the launch token, the body and the time it arrives. */
  datatype Request = Request(token: IdToken, body: GradeBody, now: string)

  /** The column a platform in state `p` stores for a created draft. */
  function Stored(p: Platform, d: LineItemDraft): LineItem {
    LineItem(p.naming(p.minted), d.scoreMaximum, d.columnLabel, d.tag, d.resourceLinkId)
  }

  /** How a platform in state `p` answers the calls of one request; every call succeeds. */
  function ScriptOf(p: Platform): Script {
    Script(Ok(p.columns), (d: LineItemDraft) => Ok(Stored(p, d)), (id: string, s: Score) => Ok(p.receipt))
  }

  /** The effect of one call on the platform. */
  function Perform(p: Platform, c: Call): Platform {
    match c
    case GetLineItems(_, _) => p
    case CreateLineItem(_, d) => p.(columns := p.columns + [Stored(p, d)], minted := p.minted + 1)
    case SubmitScore(_, id, s) => p.(scores := p.scores + [Posted(id, s)])
  }

  /** The number of creation calls in a trace. */
  function Creations(calls: seq<Call>): nat {
    if calls == [] then 0
    else (if calls[0].CreateLineItem? then 1 else 0) + Creations(calls[1..])
  }

  /** The scores a trace submits, in order. */
  function Posts(calls: seq<Call>): seq<Posted> {
    if calls == [] then []
    else (if calls[0].SubmitScore? then [Posted(calls[0].lineItemId, calls[0].score)] else []) + Posts(calls[1..])
  }

  /** The effect of a trace: one new column per creation, the submitted scores appended. */
  function Apply(p: Platform, calls: seq<Call>): (q: Platform)
    ensures |q.columns| == |p.columns| + Creations(calls)
    ensures q.columns[..|p.columns|] == p.columns
    ensures q.scores == p.scores + Posts(calls)
    decreases |calls|
  {
    if calls == [] then p else Apply(Perform(p, calls[0]), calls[1..])
  }

  /** The platform after serving the requests one after the other. */
  function Serve(p: Platform, requests: seq<Request>, toNumber: JsValue -> real): Platform
    decreases |requests|
  {
    if requests == [] then p
    else
      var r := requests[0];
      var x := Handle(r.token, r.body, r.now, toNumber, ScriptOf(p));
      Serve(Apply(p, x.calls), requests[1..], toNumber)
  }

  /** The request's token, when it has a context, names resource link `link`. */
  predicate FromLink(r: Request, link: string) {
    r.token.platformContext.Some? ==> r.token.platformContext.value.resource == Some(Resource(link))
  }

  /** Every request comes from resource link `link`. */
  predicate AllFromLink(requests: seq<Request>, link: string) {
    forall i :: 0 <= i < |requests| ==> FromLink(requests[i], link)
  }

  /** Every column of the platform belongs to resource link `link`. */
  predicate OfLink(p: Platform, link: string) {
    forall i :: 0 <= i < |p.columns| ==> p.columns[i].resourceLinkId == link
  }

  /** The requests after the first still come from the link. */
  lemma RestFromLink(requests: seq<Request>, link: string)
    requires requests != [] && AllFromLink(requests, link)
    ensures FromLink(requests[0], link) && AllFromLink(requests[1..], link)
  {
    forall i | 0 <= i < |requests[1..]| ensures FromLink(requests[1..][i], link) {
      assert requests[1..][i] == requests[i + 1];
    }
  }

  /** True when the token binds a line item, so the handler does not consult the platform's columns. */
  predicate EmbedsLineItem(token: IdToken) {
    token.platformContext.Some? && token.platformContext.value.endpoint.Some? &&
    Truthy(token.platformContext.value.endpoint.value.lineitem)
  }

  /** One request creates at most one line item, and only when none is listed. */
  lemma CreationOnlyWhenNoneListed(token: IdToken, body: GradeBody, now: string, toNumber: JsValue -> real, script: Script)
    ensures var x := Handle(token, body, now, toNumber, script);
      Creations(x.calls) <= 1 && (Creations(x.calls) == 1 ==> script.lineItems == Ok([]))
  {
    var x := Handle(token, body, now, toNumber, script);
    OrderedCreatesOnce(x.calls);
    CreationWitness(x.calls);
  }

  /** An ordered trace holds at most one creation. */
  lemma {:induction false} OrderedCreatesOnce(calls: seq<Call>)
    requires Ordered(calls)
    ensures Creations(calls) <= 1
  {
    if calls != [] {
      var tail := calls[1..];
      assert Ordered(tail) by {
        forall i, j | 0 <= i < j < |tail| ensures Rank(tail[i]) < Rank(tail[j]) {
          assert tail[i] == calls[i + 1] && tail[j] == calls[j + 1];
        }
      }
      OrderedCreatesOnce(tail);
      if calls[0].CreateLineItem? {
        forall i | 0 <= i < |tail| ensures !tail[i].CreateLineItem? {
          assert Rank(calls[0]) < Rank(calls[i + 1]);
        }
        CreationWitness(tail);
      }
    }
  }

  /** A trace that counts a creation contains a creation call. */
  lemma {:induction false} CreationWitness(calls: seq<Call>)
    ensures Creations(calls) > 0 ==> exists i :: 0 <= i < |calls| && calls[i].CreateLineItem?
  {
    if calls != [] && !calls[0].CreateLineItem? {
      CreationWitness(calls[1..]);
      if Creations(calls[1..]) > 0 {
        var k :| 0 <= k < |calls[1..]| && calls[1..][k].CreateLineItem?;
        assert calls[k + 1].CreateLineItem?;
      }
    }
  }

  /** Once the resource link has a column, later requests never add one. */
  lemma {:induction false} ExistingColumnReused(p: Platform, requests: seq<Request>, toNumber: JsValue -> real, link: string)
    requires p.columns != [] && OfLink(p, link) && AllFromLink(requests, link)
    ensures Serve(p, requests, toNumber).columns == p.columns
    decreases |requests|
  {
    if requests != [] {
      var r := requests[0];
      var x := Handle(r.token, r.body, r.now, toNumber, ScriptOf(p));
      CreationOnlyWhenNoneListed(r.token, r.body, r.now, toNumber, ScriptOf(p));
      var q := Apply(p, x.calls);
      assert q.columns == p.columns;
      RestFromLink(requests, link);
      ExistingColumnReused(q, requests[1..], toNumber, link);
    }
  }

  /** Serving requests one after the other never leaves a resource link with two columns. */
  lemma {:induction false} AtMostOneColumn(p: Platform, requests: seq<Request>, toNumber: JsValue -> real, link: string)
    requires |p.columns| <= 1 && OfLink(p, link) && AllFromLink(requests, link)
    ensures |Serve(p, requests, toNumber).columns| <= 1
    decreases |requests|
  {
    if requests != [] {
      var r := requests[0];
      var x := Handle(r.token, r.body, r.now, toNumber, ScriptOf(p));
      CreationOnlyWhenNoneListed(r.token, r.body, r.now, toNumber, ScriptOf(p));
      RestFromLink(requests, link);
      RequestStaysOnLink(p, r, toNumber, link);
      AtMostOneColumn(Apply(p, x.calls), requests[1..], toNumber, link);
    }
  }

  /** One request from the link leaves every column on the link: a created column takes the token's resource id. */
  lemma RequestStaysOnLink(p: Platform, r: Request, toNumber: JsValue -> real, link: string)
    requires OfLink(p, link) && FromLink(r, link)
    ensures OfLink(Apply(p, Handle(r.token, r.body, r.now, toNumber, ScriptOf(p)).calls), link)
  {
    var x := Handle(r.token, r.body, r.now, toNumber, ScriptOf(p));
    CreationOnlyWhenNoneListed(r.token, r.body, r.now, toNumber, ScriptOf(p));
    if Creations(x.calls) == 1 {
      var ctx := r.token.platformContext;
      if ctx.Some? && ctx.value.endpoint.Some? && !EmbedsLineItem(r.token) && ctx.value.resource.Some? {
        FirstRequestCreatesColumn(p, r, toNumber, link);
        assert [r][1..] == [];
      }
    }
  }

  /** Serving requests from the link keeps every column on the link. */
  lemma {:induction false} ColumnsStayOnLink(p: Platform, requests: seq<Request>, toNumber: JsValue -> real, link: string)
    requires OfLink(p, link) && AllFromLink(requests, link)
    ensures OfLink(Serve(p, requests, toNumber), link)
    decreases |requests|
  {
    if requests != [] {
      var r := requests[0];
      RestFromLink(requests, link);
      RequestStaysOnLink(p, r, toNumber, link);
      ColumnsStayOnLink(Apply(p, Handle(r.token, r.body, r.now, toNumber, ScriptOf(p)).calls), requests[1..], toNumber, link);
    }
  }

  /** One request on a link that has a column: the columns stay, and a score, if any, goes to the first one. */
  lemma RequestOnExistingColumn(p: Platform, r: Request, toNumber: JsValue -> real, link: string)
    requires p.columns != [] && !EmbedsLineItem(r.token) && OfLink(p, link) && FromLink(r, link)
    ensures var q := Apply(p, Handle(r.token, r.body, r.now, toNumber, ScriptOf(p)).calls);
      q.columns == p.columns &&
      (q.scores == p.scores || q.scores == p.scores + [Posted(p.columns[0].id, BuildScore(r.token, r.body, r.now, toNumber))])
  {
  }

  /** A request whose token embeds a line item leaves the columns alone and posts its score to the embedded id. */
  lemma EmbeddedRequestBypassesColumns(p: Platform, r: Request, toNumber: JsValue -> real)
    requires EmbedsLineItem(r.token)
    ensures var q := Serve(p, [r], toNumber);
      q.columns == p.columns &&
      q.scores == p.scores + [Posted(r.token.platformContext.value.endpoint.value.lineitem.value,
                                     BuildScore(r.token, r.body, r.now, toNumber))]
  {
  }

  /** Every score from position `from` on is posted to line item `id`. */
  predicate PostedTo(scores: seq<Posted>, from: nat, id: string) {
    forall k :: from <= k < |scores| ==> scores[k].lineItemId == id
  }

  /** With a column present and no line item embedded in the tokens, every later score is posted to the first column. */
  lemma {:induction false} ScoresGoToFirstColumn(p: Platform, requests: seq<Request>, toNumber: JsValue -> real, link: string)
    requires p.columns != [] && OfLink(p, link) && AllFromLink(requests, link)
    requires forall i :: 0 <= i < |requests| ==> !EmbedsLineItem(requests[i].token)
    ensures var q := Serve(p, requests, toNumber);
      q.columns == p.columns && p.scores <= q.scores && PostedTo(q.scores, |p.scores|, p.columns[0].id)
    decreases |requests|
  {
    if requests != [] {
      var r, rest := requests[0], requests[1..];
      var q1 := Apply(p, Handle(r.token, r.body, r.now, toNumber, ScriptOf(p)).calls);
      RestFromLink(requests, link);
      RequestOnExistingColumn(p, r, toNumber, link);
      assert p.scores <= q1.scores && PostedTo(q1.scores, |p.scores|, p.columns[0].id);
      assert forall i :: 0 <= i < |rest| ==> !EmbedsLineItem(rest[i].token) by {
        forall i | 0 <= i < |rest| ensures !EmbedsLineItem(rest[i].token) {
          assert rest[i] == requests[i + 1];
        }
      }
      ScoresGoToFirstColumn(q1, rest, toNumber, link);
      var q := Serve(q1, rest, toNumber);
      assert Serve(p, requests, toNumber) == q;
      assert PostedTo(q.scores, |p.scores|, p.columns[0].id) by {
        forall k | |p.scores| <= k < |q.scores| ensures q.scores[k].lineItemId == p.columns[0].id {
          if k < |q1.scores| {
            assert q.scores[k] == q1.scores[k];
          }
        }
      }
    }
  }

  /**
   * On a resource link without a column, a request from the link with a
   * context and an endpoint creates one "Grade" column for the link and posts
   * its score there.
   */
  lemma FirstRequestCreatesColumn(p: Platform, r: Request, toNumber: JsValue -> real, link: string)
    requires p.columns == []
    requires !EmbedsLineItem(r.token) && FromLink(r, link)
    requires r.token.platformContext.Some? && r.token.platformContext.value.endpoint.Some?
    ensures var q := Serve(p, [r], toNumber);
      var id := p.naming(p.minted);
      q.columns == [LineItem(id, 10000, "Grade", "grade", link)] &&
      q.scores == p.scores + [Posted(id, BuildScore(r.token, r.body, r.now, toNumber))]
  {
    var x := Handle(r.token, r.body, r.now, toNumber, ScriptOf(p));
    LineItemCreatedWhenNoneListed(r.token, r.body, r.now, toNumber, ScriptOf(p));
    assert x.calls == x.calls[..2] + x.calls[2..];
    var p1 := Perform(p, x.calls[0]);
    var p2 := Perform(p1, x.calls[1]);
    assert Apply(p, x.calls) == Apply(p2, x.calls[2..]);
  }

  /**
   * Sequential requests from one resource link that starts without a column,
   * none of whose tokens embeds a line item: the first creates the one column,
   * which belongs to the link, and every score, the first and all later ones,
   * is posted to it.
   */
  lemma OneColumnForAllSubmissions(p: Platform, requests: seq<Request>, toNumber: JsValue -> real, link: string)
    requires p.columns == [] && requests != [] && AllFromLink(requests, link)
    requires forall i :: 0 <= i < |requests| ==> !EmbedsLineItem(requests[i].token)
    requires requests[0].token.platformContext.Some? && requests[0].token.platformContext.value.endpoint.Some?
    ensures var q := Serve(p, requests, toNumber);
      |q.columns| == 1 && q.columns[0].id == p.naming(p.minted) && q.columns[0].resourceLinkId == link &&
      |q.scores| > |p.scores| && p.scores <= q.scores && PostedTo(q.scores, |p.scores|, p.naming(p.minted))
  {
    var r, rest := requests[0], requests[1..];
    var p1 := Apply(p, Handle(r.token, r.body, r.now, toNumber, ScriptOf(p)).calls);
    assert [r][1..] == [];
    assert Serve(p, [r], toNumber) == p1;
    assert Serve(p, requests, toNumber) == Serve(p1, rest, toNumber);
    RestFromLink(requests, link);
    FirstRequestCreatesColumn(p, r, toNumber, link);
    assert forall i :: 0 <= i < |rest| ==> !EmbedsLineItem(rest[i].token) by {
      forall i | 0 <= i < |rest| ensures !EmbedsLineItem(rest[i].token) {
        assert rest[i] == requests[i + 1];
      }
    }
    ScoresGoToFirstColumn(p1, rest, toNumber, link);
  }
}
