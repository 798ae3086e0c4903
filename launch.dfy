/**
 * The data the grading route works on: the launch token the LTI provider
 * attaches to the request, the request body, the AGS score and line item,
 * and the HTTP response.
 */
module Launch {
  import opened Wrappers

  /** The resource link (the placement in the LMS) that launched the tool. */
  datatype Resource = Resource(id: string)

  /** The AGS endpoint claim; `lineitem` is set when the launch binds one gradebook column. */
  datatype Endpoint = Endpoint(lineitem: Option<string>)

  datatype PlatformContext = PlatformContext(endpoint: Option<Endpoint>, resource: Option<Resource>)

  /** The validated launch token (`res.locals.token`). */
  datatype IdToken = IdToken(user: string, platformContext: Option<PlatformContext>)

  /** The `grade` field of the JSON body, as sent. */
  datatype JsValue = Undefined | Text(text: string) | Number(number: real)

  /** The JSON body of `POST /grade`. */
  datatype GradeBody = GradeBody(grade: JsValue, comment: Option<string>)

  /** The AGS score object sent to the platform. */
  datatype Score = Score(
    userId: string,
    scoreGiven: real,
    scoreMaximum: int,
    activityProgress: string,
    gradingProgress: string,
    comment: Option<string>,
    timestamp: string)

  /** A line item the tool asks the platform to create (`columnLabel` is the AGS `label`); the platform assigns the id. */
  datatype LineItemDraft = LineItemDraft(scoreMaximum: int, columnLabel: string, tag: string, resourceLinkId: string)

  /** A line item (gradebook column) as the platform returns it. */
  datatype LineItem = LineItem(id: string, scoreMaximum: int, columnLabel: string, tag: string, resourceLinkId: string)

  /** The platform's reply to a score submission, passed back verbatim. */
  datatype Payload = Payload(json: string)

  datatype ResponseBody = ErrorBody(err: string) | Forwarded(payload: Payload)

  datatype Response = Response(status: nat, body: ResponseBody)

  /** JavaScript truthiness of an optional string: undefined and "" are falsy. */
  predicate Truthy(s: Option<string>) {
    s.Some? && s.value != ""
  }
}
