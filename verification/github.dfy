/**
 * The GitHub tool (tools/github.go): dispatch on the requested action to one of
 * two fixed issue searches. The HTTP search is an oracle taking the token and
 * the query.
 */
module Github {
  import opened Wrappers
  import opened Json
  import opened Tools

  const Name: string := "github"

  const ListMyPRs: string := "list_my_prs"
  const ListReviewRequests: string := "list_review_requests"

  const MyPRsQuery: string := "is:pr is:open author:@me"
  const ReviewRequestsQuery: string := "is:pr is:open review-requested:@me"

  const InvalidJsonMessage: string := "invalid JSON format"
  const InvalidActionMessage: string :=
    "invalid action, supported actions are: list_my_prs, list_review_requests"
  const StatusErrorPrefix: string := "GitHub API returned status "

  /** Decodes `{"action": ..}`; a missing action is the empty string. */
  function DecodeAction(raw: RawMessage): (r: Option<string>)
    ensures raw.Malformed? ==> r.None?
    ensures raw == Wellformed(JNull) ==> r == Some("")
    ensures ObjectFields(raw).None? ==> r.None?
    ensures ObjectFields(raw).Some? ==> r == StringField(ObjectFields(raw).value, "action")
    ensures raw.Wellformed? && raw.value.JObject? && "action" in raw.value.fields &&
              raw.value.fields["action"].JString? ==>
              r == Some(raw.value.fields["action"].s)
    ensures raw.Wellformed? && raw.value.JObject? && "action" !in raw.value.fields ==> r == Some("")
  {
    match ObjectFields(raw)
    case None => None
    case Some(fields) => StringField(fields, "action")
  }

  /** The search each supported action runs; no other action, the empty one included, has one. */
  function SearchQuery(action: string): (r: Option<string>)
    ensures r == Some(MyPRsQuery) <==> action == ListMyPRs
    ensures r == Some(ReviewRequestsQuery) <==> action == ListReviewRequests
    ensures r.None? <==> action != ListMyPRs && action != ListReviewRequests
  {
    if action == ListMyPRs then Some(MyPRsQuery)
    else if action == ListReviewRequests then Some(ReviewRequestsQuery)
    else None
  }

  /**
   * `searchGitHub` after the round trip: only status 200 yields output; every
   * other reply is an ordinary error, never an invalid-arguments one.
   */
  function SearchOutcome(reply: HttpReply): (r: ToolOutcome)
    ensures r.Output? <==> reply.Response? && reply.status == StatusOK
    ensures r.Output? ==> r.text == reply.body
    ensures r.Error? ==> r.error.Failed?
    ensures reply.Response? && reply.status != StatusOK ==>
              r == Error(Failed(StatusErrorPrefix + Decimal(reply.status)))
  {
    match reply
    case TransportError(detail) => Error(Failed("failed to execute request: " + detail))
    case Response(status, body) =>
      if status != StatusOK then Error(Failed(StatusErrorPrefix + Decimal(status)))
      else Output(body)
  }

  /** `Github.Run`: decode the action, run its search, or reject the action. */
  function Run(raw: RawMessage, token: string, search: (string, string) -> HttpReply): (r: ToolOutcome)
    ensures DecodeAction(raw).None? ==> r == Error(InvalidToolArguments(Name, InvalidJsonMessage))
    ensures DecodeAction(raw) == Some(ListMyPRs) ==> r == SearchOutcome(search(token, MyPRsQuery))
    ensures DecodeAction(raw) == Some(ListReviewRequests) ==>
              r == SearchOutcome(search(token, ReviewRequestsQuery))
    ensures DecodeAction(raw).Some? && DecodeAction(raw).value != ListMyPRs &&
            DecodeAction(raw).value != ListReviewRequests ==>
              r == Error(InvalidToolArguments(Name, InvalidActionMessage))
  {
    match DecodeAction(raw)
    case None => Error(InvalidToolArguments(Name, InvalidJsonMessage))
    case Some(action) =>
      match SearchQuery(action)
      case Some(query) => SearchOutcome(search(token, query))
      case None => Error(InvalidToolArguments(Name, InvalidActionMessage))
  }
}
