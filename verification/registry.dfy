/**
 * The tool registry (`ToolCalls` in tools/tools.go): an ordered list of tools,
 * looked up by name, whose definitions are sent to the model on every call.
 * The tools are the three collaborators the program registers; what they
 * reach over the network is gathered in a `World` of oracles.
 */
module Registry {
  import opened Wrappers
  import opened Json
  import opened Tools
  import Calendar
  import Github
  import Linear

  /** A registered tool with its configuration. */
  datatype Tool =
    | CalendarTool(icsUrl: string)
    | GithubTool(githubToken: string)
    | LinearTool(linearToken: string)

  /** Everything the tools fetch: the ICS feed and its serialisation, GitHub search, Linear queries. */
  datatype World = World(
    fetchCalendar: string -> Calendar.FeedReply,
    serializeCalendar: seq<Calendar.Event> -> string,
    searchGithub: (string, string) -> HttpReply,
    requestLinear: (string, Linear.Query) -> HttpReply)

  /** What the model is told about a tool: its name, description and the properties of its input. */
  datatype ToolDefinition = ToolDefinition(name: string, description: string, properties: seq<string>)

  function Name(tool: Tool): string
  {
    match tool
    case CalendarTool(_) => Calendar.Name
    case GithubTool(_) => Github.Name
    case LinearTool(_) => Linear.Name
  }

  function Definition(tool: Tool): (d: ToolDefinition)
    ensures d.name == Name(tool)
  {
    match tool
    case CalendarTool(_) =>
      ToolDefinition(Calendar.Name, "Get events from the calendar", ["year", "month", "day"])
    case GithubTool(_) =>
      ToolDefinition(Github.Name, "Interact with GitHub Pull Requests", ["action"])
    case LinearTool(_) =>
      ToolDefinition(Linear.Name, "Get status of all tasks for your team in Linear", ["action", "teams", "name"])
  }

  /** The tool's `Run` on raw arguments, against the world's oracles. */
  function Run(tool: Tool, raw: RawMessage, w: World): (r: ToolOutcome)
    ensures r.Error? && r.error.InvalidToolArguments? ==> r.error.toolName == Name(tool)
    ensures tool.LinearTool? ==> !(r.Error? && r.error.InvalidToolArguments?)
  {
    match tool
    case CalendarTool(url) => Calendar.Run(raw, url, w.fetchCalendar, w.serializeCalendar)
    case GithubTool(token) => Github.Run(raw, token, w.searchGithub)
    case LinearTool(token) => Linear.Run(raw, token, w.requestLinear)
  }

  const NotFoundPrefix: string := "tool not found: "

  /**
   * `ToolCalls.GetTool`: the first tool in list order with the name; an error
   * exactly when none has it. Duplicate names are not rejected.
   */
  function GetTool(tools: seq<Tool>, name: string): (r: Result<Tool, string>)
    ensures r.Ok? <==> exists i :: 0 <= i < |tools| && Name(tools[i]) == name
    ensures r.Ok? ==> exists i :: 0 <= i < |tools| && tools[i] == r.value && Name(tools[i]) == name &&
                                  forall j :: 0 <= j < i ==> Name(tools[j]) != name
    ensures r.Err? ==> r.error == NotFoundPrefix + name
  {
    if tools == [] then Err(NotFoundPrefix + name)
    else if Name(tools[0]) == name then Ok(tools[0])
    else
      var r := GetTool(tools[1..], name);
      assert forall k :: 0 <= k < |tools| - 1 ==> tools[1..][k] == tools[k + 1];
      r
  }

  /** `ToolCalls.GetToolDefinitions`: one definition per registered tool, in registry order. */
  function GetToolDefinitions(tools: seq<Tool>): (r: seq<ToolDefinition>)
    ensures |r| == |tools|
    ensures forall i :: 0 <= i < |tools| ==> r[i] == Definition(tools[i]) && r[i].name == Name(tools[i])
  {
    seq(|tools|, i requires 0 <= i < |tools| => Definition(tools[i]))
  }
}
