/**
 * The Linear tool (tools/linear.go): dispatch on the requested action to one of
 * two issue queries. The GraphQL request is an oracle taking the token and the
 * query, described by what varies in it.
 */
module Linear {
  import opened Wrappers
  import opened Json
  import opened Tools

  const Name: string := "linear"

  const TeamsInReviewIssues: string := "get_my_teams_in_review_issues"
  const MyIssues: string := "get_my_issues"

  const ParseErrorMessage: string := "failed to parse arguments"
  const InvalidActionPrefix: string := "invalid action: "
  const StatusErrorPrefix: string := "Linear API returned status "

  datatype LinearInput = LinearInput(action: string, teams: seq<string>, name: string)

  /**
   * The two GraphQL queries, by their parameters: in-review issues of the
   * listed team keys not assigned to `name`, and the issues assigned to `name`.
   */
  datatype Query =
    | InReviewIssuesQuery(teamKeys: string, excludedAssignee: string)
    | AssignedIssuesQuery(assignee: string)

  /** Decodes `{"action": .., "teams": [..], "name": ..}`; missing fields are empty. */
  function DecodeInput(raw: RawMessage): (r: Option<LinearInput>)
    ensures raw.Malformed? ==> r.None?
    ensures raw == Wellformed(JNull) ==> r == Some(LinearInput("", [], ""))
    ensures ObjectFields(raw).None? ==> r.None?
    ensures ObjectFields(raw).Some? ==>
              var f := ObjectFields(raw).value;
              (r.Some? <==> StringField(f, "action").Some? && StringListField(f, "teams").Some? &&
                            StringField(f, "name").Some?) &&
              (r.Some? ==> r.value == LinearInput(StringField(f, "action").value, StringListField(f, "teams").value,
                                                  StringField(f, "name").value))
  {
    match ObjectFields(raw)
    case None => None
    case Some(fields) =>
      match (StringField(fields, "action"), StringListField(fields, "teams"), StringField(fields, "name"))
      case (Some(a), Some(t), Some(n)) => Some(LinearInput(a, t, n))
      case _ => None
  }

  /** A team name in double quotes, with no escaping. */
  function Quoted(team: string): (r: string)
    ensures |r| == |team| + 2 && r[0] == '"' && r[|r| - 1] == '"' && r[1..|r| - 1] == team
  {
    "\"" + team + "\""
  }

  /** `strings.Join`. */
  function Join(parts: seq<string>, sep: string): (r: string)
    ensures parts == [] ==> r == ""
    ensures parts != [] ==> |r| == SumLengths(parts) + (|parts| - 1) * |sep|
    ensures parts != [] ==> r[..|parts[0]|] == parts[0]
  {
    if parts == [] then ""
    else if |parts| == 1 then parts[0]
    else parts[0] + sep + Join(parts[1..], sep)
  }

  /** The team-key list of the in-review query: each team quoted, joined with ", ", in input order. */
  function TeamKeys(teams: seq<string>): (r: string)
    ensures teams == [] <==> r == []
  {
    Join(QuotedAll(teams), ", ")
  }

  function QuotedAll(teams: seq<string>): (r: seq<string>)
    ensures |r| == |teams|
    ensures forall i :: 0 <= i < |teams| ==> r[i] == Quoted(teams[i])
  {
    if teams == [] then [] else [Quoted(teams[0])] + QuotedAll(teams[1..])
  }

  function SumLengths(teams: seq<string>): nat
  {
    if teams == [] then 0 else |teams[0]| + SumLengths(teams[1..])
  }

  /** Every team adds its name and two quotes, and every gap a separator of two characters. */
  lemma {:induction false} TeamKeysLength(teams: seq<string>)
    requires teams != []
    ensures |TeamKeys(teams)| == SumLengths(teams) + 2 * |teams| + 2 * (|teams| - 1)
  {
    if |teams| > 1 {
      TeamKeysLength(teams[1..]);
      assert QuotedAll(teams)[1..] == QuotedAll(teams[1..]);
    }
  }

  lemma {:induction false} JoinAppend(p: seq<string>, q: seq<string>, sep: string)
    requires p != [] && q != []
    ensures Join(p + q, sep) == Join(p, sep) + sep + Join(q, sep)
  {
    assert (p + q)[0] == p[0];
    if |p| == 1 {
      assert (p + q)[1..] == q;
    } else {
      JoinAppend(p[1..], q, sep);
      assert (p + q)[1..] == p[1..] + q;
    }
  }

  /** The keys of two lists of teams are the keys of each, joined by one separator: order is kept. */
  lemma TeamKeysAppend(a: seq<string>, b: seq<string>)
    requires a != [] && b != []
    ensures TeamKeys(a + b) == TeamKeys(a) + ", " + TeamKeys(b)
  {
    assert QuotedAll(a + b) == QuotedAll(a) + QuotedAll(b);
    JoinAppend(QuotedAll(a), QuotedAll(b), ", ");
  }

  /** `makeRequest` after the round trip: only status 200 yields the body; any other status is an ordinary error naming it. */
  function RequestOutcome(reply: HttpReply): (r: ToolOutcome)
    ensures r.Output? <==> reply.Response? && reply.status == StatusOK
    ensures r.Output? ==> r.text == reply.body
    ensures r.Error? ==> r.error.Failed?
    ensures reply.Response? && reply.status != StatusOK ==>
              r == Error(Failed(StatusErrorPrefix + Decimal(reply.status) + ": " + reply.body))
  {
    match reply
    case TransportError(detail) => Error(Failed("failed to make request: " + detail))
    case Response(status, body) =>
      if status != StatusOK then Error(Failed(StatusErrorPrefix + Decimal(status) + ": " + body))
      else Output(body)
  }

  /**
   * `Linear.Run`. Unlike the other tools, every failure here, including
   * undecodable arguments and an unknown action, is an ordinary error.
   */
  function Run(raw: RawMessage, token: string, request: (string, Query) -> HttpReply): (r: ToolOutcome)
    ensures r.Error? ==> r.error.Failed?
    ensures DecodeInput(raw).None? ==> r == Error(Failed(ParseErrorMessage))
    ensures DecodeInput(raw).Some? && DecodeInput(raw).value.action == TeamsInReviewIssues ==>
              var input := DecodeInput(raw).value;
              r == RequestOutcome(request(token, InReviewIssuesQuery(TeamKeys(input.teams), input.name)))
    ensures DecodeInput(raw).Some? && DecodeInput(raw).value.action == MyIssues ==>
              r == RequestOutcome(request(token, AssignedIssuesQuery(DecodeInput(raw).value.name)))
    ensures DecodeInput(raw).Some? && DecodeInput(raw).value.action != TeamsInReviewIssues &&
            DecodeInput(raw).value.action != MyIssues ==>
              r == Error(Failed(InvalidActionPrefix + DecodeInput(raw).value.action))
  {
    match DecodeInput(raw)
    case None => Error(Failed(ParseErrorMessage))
    case Some(input) =>
      if input.action == TeamsInReviewIssues then
        RequestOutcome(request(token, InReviewIssuesQuery(TeamKeys(input.teams), input.name)))
      else if input.action == MyIssues then
        RequestOutcome(request(token, AssignedIssuesQuery(input.name)))
      else
        Error(Failed(InvalidActionPrefix + input.action))
  }
}
