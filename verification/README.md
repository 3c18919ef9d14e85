# good-morning: the tool-calling conversation loop, in Dafny

This project models the core of good-morning. good-morning is a daily-briefing
generator. It seeds a conversation with eight user instructions. It then drives
a language model that may ask for tools: a calendar feed, a GitHub search and a
Linear query. It feeds the tool results back until the model answers with text.

The model has one module per source file:

- `Conversation` (`context_manager.dfy`) is the conversation store. `ContextManager` is a class whose `messages` and
  `hasNewMessages` fields its append, acknowledge and clear methods update in place.
- `Agent` (`agent.dfy`) is the loop. It holds the pure classification of a tool-use block
  (`ProcessToolUseBlock`) and the walk over a reply (`Process`). It also holds a specification of the whole loop
  as a function of the store, the model's script and the tools (`CallModelSpec`). The class `Agent` runs the loop
  on the store (`CallModel`, `ProcessResponse`, `GenerateDailySummary`) and is proved to do what that function says.
- `AgentProperties` (`agent_properties.dfy`) proves properties of the loop, one step and one scenario at a time.
- The tool registry and the three tools are split as follows:
  - `Registry` (`registry.dfy`): the registry, with lookup by name and the list of tool definitions.
  - `Tools` (`tools.dfy`): the invalid-arguments error text and the weather helper.
  - `Calendar`, `Github` and `Linear`: one module per tool.
  - `Json`: how each tool decodes its arguments.
- The two helpers of the local-model variant:
  - `SlidingWindow` is a class with a priority-evicting buffer.
  - `TokenCounter` is the approximate token count.
- `Version` is a class holding an append-only change log, plus pure queries over it.

The outside world is a parameter. The model client is a scripted list of outcomes, and it records every request
it receives. The calendar feed, the ICS serialiser, the GitHub search and the Linear endpoint are total functions
held in a `World` value. The clock is an argument.

Some of the program's behaviour is easy to misread; the model follows the code:

- There is no iteration cap in `callModel`. The model's script is finite, and a call made after it runs out
  fails, which ends the loop.
- A reply with a tool-use stop reason, or with no text block at all (an empty `end_turn` reply, for one),
  appends a tool-result turn, an empty one when the reply has no tool-use blocks, and the loop calls the model
  again. A reply under any other stop reason whose first text block is empty ends the loop with "" and appends
  nothing.
- The calendar's target date is built with Go's `time.Date`, which carries a day past the end of the month into
  the next month. Validation accepts any day from 1 to 31, so 31 February 2025 selects the events of 3 March 2025.
- An invalid-arguments error reaches the model wrapped as
  `invalid arguments for tool <name>: <message>`, not as the bare message.
- Tool names are not checked for uniqueness. Lookup returns the first tool with the name.
- Eviction in the sliding window removes the first message with the numerically smallest priority. With the
  priority constants of agent/message_priority.go:7-12, that means system messages go first.

## Model

| member | source | states |
|---|---|---|
| `Conversation.ContextManager.constructor` | agent/context_manager.go:39-45 | a new store is empty, has no pending messages, and keeps its window and file location |
| `Conversation.ContextManager.Append` | agent/context_manager.go:108-111 | the message goes at the end of the history, and nothing else changes |
| `Conversation.ContextManager.AppendUserMessage` | agent/context_manager.go:81-89 | one user text message is appended and the store becomes pending |
| `Conversation.ContextManager.AppendToolResults` | agent/context_manager.go:91-97 | one user message carrying exactly the tool results is appended and the store becomes pending |
| `Conversation.ContextManager.AppendAssistantMessage` | agent/context_manager.go:99-101 | the message is appended and the pending flag keeps its value |
| `Conversation.ContextManager.AppendAssistantMessageAck` | agent/context_manager.go:103-106 | the message is appended and the store becomes pending |
| `Conversation.ContextManager.GetMessages` | agent/context_manager.go:113-115 | returns the whole history |
| `Conversation.ContextManager.HasNewMessages` | agent/context_manager.go:117-119 | returns the pending flag |
| `Conversation.ContextManager.ClearNewMessages` | agent/context_manager.go:121-123 | the flag is cleared and the history is unchanged |
| `Conversation.ContextManager.GetLastMessage` | agent/context_manager.go:188-190 | on a non-empty history, returns its last message |
| `Conversation.StoreScenario` | agent/context_manager.go:81-123 | append user text, then assistant reply, then tool results, then clear: the history is those three in order and nothing is pending, even after clearing twice |
| `Agent.ProcessToolUseBlock` | agent/agent.go:159-175 | every call gives one error-flagged or successful result for the call's id. An unknown tool gives the fixed "not in the list" text. Invalid arguments give the error's own text. Any other failure gives the fixed generic text. Success gives the tool's output, not flagged |
| `Agent.Process` | agent/agent.go:137-157 | a final text only comes from a text block of the reply when the stop reason is not tool use; a tool turn keeps every result gathered before |
| `Agent.LoopGuarantees` | agent/agent.go:107-135 | after the loop, nothing is pending. It calls the model iff messages were pending, and the first call gets the history as it stood. History and request log only grow, and the script is only consumed. Every request carries a history between the initial and final one and the same tool definitions. A non-empty answer is a text block of the last stored message, which is the assistant's |
| `Agent.LoopPass` | agent/agent.go:109-133 | one pass makes exactly one request with the current history and tools. It never loses history and consumes at most one scripted outcome. It continues only after consuming one; when it stops, nothing is pending, and a non-empty answer is a text block of the stored reply |
| `Agent.LoopGrowth` | agent/agent.go:107-135 | over the whole loop, the history and the request log only grow, and the script is consumed from its front |
| `Agent.LoopMessagesGrow` | agent/agent.go:107-135 | the history after the loop extends the history before it |
| `Agent.LoopRequestsGrow` | agent/agent.go:107-135 | the requests after the loop extend the requests before it |
| `Agent.LoopScriptConsumed` | agent/agent.go:107-135 | what is left of the script is a suffix of what there was |
| `Agent.LoopFirstCall` | agent/agent.go:107-121 | the flag ends clear; with nothing pending nothing happens, otherwise the first new request carries the history as it stood |
| `Agent.LoopRequests` | agent/agent.go:108-120 | every request made by the loop carries the registered tool definitions and a history between the initial and the final one |
| `Agent.LoopAnswer` | agent/agent.go:125-131 | a non-empty answer is a text block of the last stored message, and that message is the model's |
| `Agent.CallModelSpec` | agent/agent.go:107-135 | the loop ends with nothing pending, and calls the model at least once when something was pending |
| `Agent.ModelClient.New` | agent/agent.go:109-120 | the request is recorded; the outcome is the next scripted one, or a failure once the script is exhausted |
| `Agent.SeedMessages` | agent/agent.go:57-98 | the conversation is seeded with exactly eight user messages |
| `Agent.SeedTurns` | agent/agent.go:57-98 | each seed becomes one user text message, in order |
| `Agent.Agent.constructor` | agent/agent.go:30-54 | the agent gets a fresh, empty store with the default window of 4000 at the configured location, keeps its client and tools, and has the fixed system prompt and model name |
| `Agent.Agent.ProcessResponse` | agent/agent.go:137-157 | a final text is returned and the store is untouched. Otherwise "" is returned, and exactly one user message holding the tool results in block order is appended, leaving the store pending |
| `Agent.Agent.CallModel` | agent/agent.go:107-135 | the loop on the store and the client ends with the result and state that `CallModelSpec` gives for the state it started from |
| `Agent.Agent.GenerateDailySummary` | agent/agent.go:56-105 | the eight seeds are appended and the loop runs; the model is called at least once, first with the earlier history followed by the eight seed messages |
| `Agent.Agent.SeedConversation` | agent/agent.go:57-98 | the eight seed texts are appended as user messages, in order, after the existing history, and the store becomes pending |
| `AgentProperties.ToolUses` | agent/agent.go:139-153 | the requests of the tool-use blocks of a reply, never more than there are blocks |
| `AgentProperties.ToolUsesExact` | agent/agent.go:139-153 | a request is gathered exactly when the reply has a tool-use block carrying it |
| `AgentProperties.FirstText` | agent/agent.go:139-146 | there is a first text exactly when some block is a text block |
| `AgentProperties.RunAll` | agent/agent.go:147-152 | one result per tool request, in the requests' order, each for that request's id |
| `AgentProperties.ProcessCharacterised` | agent/agent.go:137-157 | the walk equals `Expected`, a definition without a walk: it gives the first text when the stop reason is not tool use and there is one; otherwise it gives the results of every tool request in order |
| `AgentProperties.RunAllCons` | agent/agent.go:147-152 | the results of a request list are the first request's result followed by those of the rest |
| `AgentProperties.TextStep` | agent/agent.go:141-146 | a leading text block ends the walk with its text unless the stop reason is tool use, in which case it is skipped |
| `AgentProperties.ToolUseStep` | agent/agent.go:147-152 | a leading tool-use block adds its result to those gathered and the walk goes on |
| `AgentProperties.ExpectedToolUse` | agent/agent.go:147-152 | gathering a leading request's result first and then the rest gives the same outcome as treating the whole reply |
| `AgentProperties.OtherStep` | agent/agent.go:139-154 | a block that is neither text nor tool use is skipped |
| `AgentProperties.UnknownToolNeverRuns` | agent/agent.go:161-165 | a name no registered tool has is answered with the "not in the list" error, whatever the outside world does |
| `AgentProperties.NothingPendingNoCall` | agent/agent.go:107-108 | with nothing pending the loop returns "" and changes nothing |
| `AgentProperties.ModelErrorStops` | agent/agent.go:109-124 | a failed model call ends the loop with that error, after one request and with the flag cleared |
| `AgentProperties.FinalAnswerStops` | agent/agent.go:125-131 | a non-empty final text ends the loop with that text, after storing the reply |
| `AgentProperties.EmptyFinalTextStops` | agent/agent.go:125-134 | an empty final text stores the reply and leaves nothing pending, so the loop returns "" |
| `AgentProperties.ToolTurnContinues` | agent/agent.go:125-156 | a tool turn stores the reply and the results and runs the loop again |
| `AgentProperties.NormalTermination` | agent/agent.go:107-146 | one question answered with plain text: one request, the reply stored, the answer returned |
| `AgentProperties.MultiRound` | agent/agent.go:107-175 | a GitHub tool request followed by a text answer: two requests, four stored messages, the answer returned |
| `AgentProperties.GithubTurn` | agent/agent.go:125-156 | a reply asking for the GitHub tool gets one result with the request's id, and the loop runs again with reply and result stored |
| `AgentProperties.UnknownToolScenario` | agent/agent.go:161-165 | asking for "weather" when only the calendar is registered gives the "not in the list" error |
| `AgentProperties.InvalidYearScenario` | tools/calendar.go:41-46 | a calendar call with year 1500 comes back as an error carrying the invalid-arguments text of the year message |
| `Tools.InvalidArgumentsText` | tools/tools.go:57-59 | the text is the fixed prefix, the tool name, ": " and the message, in that layout |
| `Tools.InvalidArgumentsTextInjective` | tools/tools.go:57-59 | for tool names without ':', the text determines tool name and message |
| `Tools.DecimalRoundTrip` | tools/github.go:68 | any status, negative ones included, printed with `%d` reads back as the same number |
| `Tools.NatDigits` | tools/github.go:68 | the rendering of a number is a non-empty run of digits, with no leading zero unless the number is 0 |
| `Tools.Decimal` | tools/github.go:68 | `%d` text: a leading minus exactly for negative numbers, then digits without a leading zero |
| `Tools.NatDigitsRoundTrip` | tools/github.go:68 | the decimal rendering of a status code reads back as the same number |
| `Tools.WeatherRun` | tools/tools.go:64-69 | a string location gives "The weather in ", the location and " is sunny"; otherwise the "not found" text |
| `Tools.WeatherReportNamesLocation` | tools/tools.go:64-69 | the location can be read back from the report, and the "not found" text never starts like a report |
| `Json.ObjectFields` | tools/calendar.go:32-38 | arguments decode to fields exactly when they are well-formed JSON null or an object |
| `Json.IntField` | tools/calendar.go:24-28 | a missing or null integer field is 0; a number in the 64-bit range is itself; anything else is a decoding error |
| `Json.StringField` | tools/github.go:23-25 | a missing or null string field is ""; a string is itself; anything else is a decoding error |
| `Json.StringItems` | tools/linear.go:213-217 | a list of strings and nulls decodes to a list of the same length, with the strings in place and "" for each null; any other element fails |
| `Json.StringListField` | tools/linear.go:215 | a missing or null list is empty; an array decodes element by element; any other value fails |
| `Calendar.DecodeInput` | tools/calendar.go:32-38 | malformed or non-object arguments are rejected and `null` decodes to all-zero fields; an object decodes iff its year, month and day fields each decode, into those three values |
| `Calendar.YearOnlyDecodes` | tools/calendar.go:32-38 | an object with only a year decodes with month and day 0 |
| `Calendar.Validate` | tools/calendar.go:40-58 | accepted iff year, month and day are all in range. Otherwise the message names the first failing check, in order year, month, day |
| `Calendar.DaysInMonth` | tools/calendar.go:73 | every month has 28 to 31 days, and February has 29 exactly in Gregorian leap years |
| `Calendar.TargetDate` | tools/calendar.go:73 | the date `time.Date` builds from a validated input is a real date of the same year, at the position in the year that the month and day name |
| `Calendar.TargetDateOfRealDate` | tools/calendar.go:73 | a date that exists is its own target |
| `Calendar.TargetDateUnique` | tools/calendar.go:73 | the target is the only real date of the year at that position |
| `Calendar.DayOfYearInjective` | tools/calendar.go:73 | two real dates of one year at the same position are the same date |
| `Calendar.DaysBeforeGrows` | tools/calendar.go:73 | a later month starts no earlier in the year |
| `Calendar.February31st2025` | tools/calendar.go:73 | 31 February 2025 passes validation and becomes 3 March 2025 |
| `Calendar.February31st2024` | tools/calendar.go:73 | 31 February 2024 becomes 2 March 2024, since 2024 is a leap year |
| `Calendar.EventsOn` | tools/calendar.go:76-93 | the kept events are events of the feed that start on the target day |
| `Calendar.EventsOnAppend` | tools/calendar.go:76-93 | filtering distributes over concatenation, so it keeps the feed's order |
| `Calendar.EventsOnSingle` | tools/calendar.go:77-87 | one event is kept exactly when it has a start on the target year, month and day |
| `Calendar.FilterEvents` | tools/calendar.go:76-93 | the loop builds exactly the events of the feed that start on the target day, in feed order |
| `Calendar.Run` | tools/calendar.go:30-97 | bad JSON and out-of-range dates are invalid-argument errors. With valid input, a feed failure is exactly the opaque "error parsing calendar data" error. Success happens iff input and feed are good, and then the output is the serialisation of the events that start on the normalised target date |
| `Calendar.February31stListsMarch3rd` | tools/calendar.go:30-97 | asked for 31 February 2025, the tool lists the feed's events that start on 3 March 2025 |
| `Calendar.RejectedInputIgnoresFeed` | tools/calendar.go:33-61 | a rejected input gives the same invalid-argument error whatever the feed and serialiser are: the feed is not consulted |
| `Github.DecodeAction` | tools/github.go:28-34 | malformed or non-object arguments are rejected and `null` decodes to the empty action; an object gives its string `action`, "" when absent, and is rejected when the action is neither string nor null |
| `Github.SearchQuery` | tools/github.go:36-46 | each of the two actions maps to its own search query, and every other action to none |
| `Github.SearchOutcome` | tools/github.go:49-82 | the body is returned iff the reply has status 200. Other statuses give the "returned status N" error, and transport failures give an opaque error |
| `Github.Run` | tools/github.go:27-47 | bad JSON and unknown actions are invalid-argument errors; the two actions run their query with the token |
| `Linear.DecodeInput` | tools/linear.go:99-103 | malformed or non-object arguments are rejected and `null` decodes to empty fields; an object decodes iff its action, teams and name fields each decode, into those values |
| `Linear.Quoted` | tools/linear.go:120 | a team key is the team name between double quotes |
| `Linear.TeamKeys` | tools/linear.go:118-121 | the key list is empty exactly when there are no teams |
| `Linear.QuotedAll` | tools/linear.go:118-121 | one quoted key per team, in order |
| `Linear.TeamKeysLength` | tools/linear.go:118-121 | the key list is as long as the names, plus two quotes per team and a ", " between neighbours |
| `Linear.Join` | tools/linear.go:151 | joining gives "" for no parts; otherwise its length is the parts' lengths plus one separator per gap, and it starts with the first part |
| `Linear.JoinAppend` | tools/linear.go:151 | joining two non-empty lists puts one separator between the two joins |
| `Linear.TeamKeysAppend` | tools/linear.go:118-121 | the keys of two team lists are the keys of each, joined by ", " |
| `Linear.RequestOutcome` | tools/linear.go:67-97 | the body is returned iff the status is 200; other statuses give "Linear API returned status N: body" |
| `Linear.Run` | tools/linear.go:99-113 | every error is opaque. Bad JSON gives the parse error, and unknown actions give "invalid action: ". The two actions send their query: team keys and excluded name, or the assignee name |
| `Registry.Definition` | tools/calendar.go:103-109 | a tool's definition carries the tool's own name (the GitHub and Linear definitions, tools/github.go:96-102 and tools/linear.go:205-211, are built the same way) |
| `Registry.Run` | tools/tools.go:32-36 | an invalid-arguments error always names the tool that raised it, and the Linear tool never raises one |
| `Registry.GetTool` | tools/tools.go:15-22 | found iff some tool has the name, and then it is the first such tool; otherwise "tool not found: " and the name |
| `Registry.GetToolDefinitions` | tools/tools.go:24-30 | one definition per tool, index by index, each with that tool's name |
| `SlidingWindow.LowestPriority` | agent/sliding_window.go:16-23 | the minimum of the low-priority constant and every message's priority |
| `SlidingWindow.FirstWithPriority` | agent/sliding_window.go:24-29 | the index of the first message with the priority, or none when no message has it |
| `SlidingWindow.RemoveLowest` | agent/sliding_window.go:16-30 | eviction removes at most one message and adds none |
| `SlidingWindow.Added` | agent/sliding_window.go:8-14 | the new message ends the window. Below capacity it is simply appended, and at most one old message is evicted |
| `SlidingWindow.RemoveLowestShape` | agent/sliding_window.go:16-30 | the buffer is unchanged iff every priority is above the low constant. Otherwise exactly one message goes: the first with the lowest priority, with the rest kept in order |
| `SlidingWindow.SystemEvictedFirst` | agent/sliding_window.go:16-30 | with no negative priorities, the first system message is the one removed |
| `SlidingWindow.SlidingWindow.constructor` | agent/sliding_window.go:3-6 | a new window is empty with the given capacity |
| `SlidingWindow.SlidingWindow.Add` | agent/sliding_window.go:8-14 | at or over capacity, one lowest-priority message is evicted first; the new message goes at the end |
| `SlidingWindow.SlidingWindow.RemoveLowestPriority` | agent/sliding_window.go:16-30 | the two loops remove exactly the first message of the lowest priority |
| `SlidingWindow.AddedBound` | agent/sliding_window.go:8-14 | the new message is last; below capacity it is simply appended. With capacity at least one, a full window and priorities no greater than the low constant, the window stays within capacity |
| `TokenCounter.WordLength` | agent/token_counter.go:51 | the leading word has no white space and ends at white space or at the end |
| `TokenCounter.Fields` | agent/token_counter.go:51 | no word is empty |
| `TokenCounter.WordLengthBeforeSpace` | agent/token_counter.go:51 | a word stops at the first white-space character |
| `TokenCounter.FieldsSplit` | agent/token_counter.go:51 | splitting at white space splits the word list |
| `TokenCounter.SumWordsAppend` | agent/token_counter.go:54-64 | the charge of two word lists is the sum of their charges |
| `TokenCounter.CountAdditive` | agent/token_counter.go:46-67 | the count of two texts joined by a space is the sum of their counts |
| `TokenCounter.SumWordsAtLeastTwoEach` | agent/token_counter.go:54-64 | every word costs at least two tokens |
| `TokenCounter.FieldsEmpty` | agent/token_counter.go:51 | there are no words exactly when the text is all white space |
| `TokenCounter.CountBounds` | agent/token_counter.go:46-67 | the count is at least twice the number of words, and zero exactly for all-white-space text |
| `TokenCounter.SingleWord` | agent/token_counter.go:54-64 | one word costs a quarter of its characters, rounded up, plus one |
| `TokenCounter.WholeWord` | agent/token_counter.go:51 | text without white space is one whole word |
| `TokenCounter.CountContentTokens` | agent/token_counter.go:46-67 | a text costs at least two tokens per word |
| `TokenCounter.CountTokens` | agent/token_counter.go:20-44 | a message costs three tokens plus at least two per word of its content and its role |
| `TokenCounter.ToolCallsAdditive` | agent/token_counter.go:31-41 | the tool-call charge of two lists is the sum of their charges, and each call costs at least three |
| `TokenCounter.CountTokensLowerBound` | agent/token_counter.go:20-44 | a message costs at least three tokens plus three per tool call; without tool calls it costs exactly three plus its content and role counts |
| `Version.LatestContent` | version/version.go:46-51 | the latest content is the last change's content, or "" for an empty log |
| `Version.ChangesByType` | version/version.go:89-97 | only changes of the requested type, never more than the log holds |
| `Version.ChangesByTypeAppend` | version/version.go:89-97 | filtering distributes over concatenation, so it keeps the log's order |
| `Version.ChangesByTypeExact` | version/version.go:89-97 | every change of the type is kept and nothing else is; the log comes back whole iff all its changes have that type |
| `Version.LastUserChange` | version/version.go:99-106 | none iff no change is a user change; otherwise a user change with no user change after it |
| `Version.LastUserChangeIsLastOfType` | version/version.go:89-106 | the backward scan finds the last element of the user-change filter, and finds nothing iff the filter is empty |
| `Version.VersionHistory.constructor` | version/version.go:30-34 | a new history is empty |
| `Version.VersionHistory.AddChange` | version/version.go:36-51 | one change at the end with the given time, the rest untouched. The latest content becomes the new content, and the last user change moves to it exactly when it is a user change |

## Left out

- Persistence: `ContextManager.save`, the file and directory creation in `CreateContextManager`, and `SaveToFile`/`LoadFromFile` of the change log are file I/O. The store keeps its file location and window size but never writes.
- The network and the Anthropic client are not modelled. The model's replies are a script, and the calendar feed, the GitHub search and the Linear endpoint are functions of the `World` value. HTTP request construction, headers and read errors are folded into one transport failure per call.
- `Agent.Agent.CallModel`: the source loop has no bound. The model's script bounds it, and a call after the script runs out fails with a fixed error.
- `Agent.Agent.ProcessResponse`: the source's error branch after `processToolUseBlock` is dead, because that function never returns an error. The model has no such branch.
- Console output (`fmt.Println`) and `time.Now` are left out. The date of the summary and the time of a change are arguments.
- `maxRetries`, the agent's `state` metadata and the context window are set by the source but never read, so they are not modelled.
- `Agent.SeedMessages`: the report template of the eighth seed message is abbreviated, and the system prompt's line indentation is dropped. Only the number and order of the seeds is modelled exactly.
- `Calendar.Run`: each event's start is taken as the calendar date it reads in its own time zone, as `startTime.Year()`, `Month()` and `Day()` give it. ICS parsing, the copying of event properties into the filtered calendar and its serialisation are the `World`'s serialiser. The model keeps which events are selected and in what order. It does not model that the source copies every matching event's properties onto the first filtered event.
- `Github.SearchOutcome`: decoding and re-indenting the response body are left out, and the body is returned as received. The errors for a body that fails to decode or re-encode are not modelled.
- `Linear.Run`: the GraphQL query text is represented by the `Query` value carrying its parameters: team keys and excluded name, or assignee. The parse error text omits the decoder's detail message.
- JSON decoding matches keys exactly, where Go matches them case-insensitively. Numbers are integers only, so fractional numbers are not modelled.
- `GenerateSchema` and the tools' input schemas are left out. A tool definition carries its name, description and property names.
- `CurrentWeather.Name` and `CurrentWeather.ToolDefinition` are left out. `CurrentWeather` is not one of the registered tools, so only its `Run` is modelled.
- `TokenCounter.CountTokens`: the JSON encoding of tool-call arguments is taken as given text. Invalid UTF-8 is not modelled, because strings here are sequences of Unicode characters.
- Context cancellation and the goroutine-based parts of the repository are outside this core.
