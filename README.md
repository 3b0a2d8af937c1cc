# Course-materials assistant: tool-calling orchestrator and tool registry

This project models, in Dafny, the two components of the course-materials
question-answering backend that hold its decision logic:

- **The answer generator** (`backend/ai_generator.py`). It calls the remote
  language model through a retry wrapper with exponential backoff. It answers
  a query either in a single round without tools, or in a loop of at most two
  tool-calling rounds. The loop keeps the conversation in a `RoundContext`:
  an append-only message list and a round counter. A failed model call
  inside the loop becomes an apology text. A tool that raises ends the loop
  with a fixed error message.
- **The tool registry and its two tools** (`backend/search_tools.py`). The
  content-search tool formats the hits of the vector store, numbers their
  citations from 1, and keeps them in `last_sources`. The course-outline tool
  renders a course's title, instructor, link and lessons, and turns every
  failure into text. The `ToolManager` registers tools by name in insertion
  order, lists their definitions, dispatches calls by name, and collects or
  resets the citations of the last search.

Files:

- `wrappers.dfy`: `Option`.
- `text.dfy`: Python's truthiness of optional strings, `str(int)` with its
  round trip through a parser, and `str.join` with a splitting lemma.
- `search_tools.dfy`, module `SearchTools`: the data model, the store
  oracle, the reference functions of both tools' texts, the classes
  `CourseSearchTool`, `CourseOutlineTool` and `ToolManager`, and the binding
  of keyword arguments.
- `ai_generator.dfy`, module `AiGenerator`: messages, requests, the
  model-client oracle, the retry loop, rounds, tool execution, the
  `RoundContext` class and the `AIGenerator` class.

The loops of the retry wrapper, the round loop, the tool loop, the
formatting of search hits and the rendering of lessons are each a `method`
with a `while` loop. Its `ensures` ties the result, or the new state, to a
reference function. `RetryFrom`, `RunTools` and `RoundsFrom` are recursive.
`ToolPhase`, `SearchReply`, `Sources` and `OutlineReply` are not. Lemmas
then state what the source promises about those functions. Two iterations
of the registry are not loops in the model. The early return of
`get_last_sources` is the recursive function `ToolManager.FirstSources`.
The list comprehension of `get_tool_definitions` is a sequence
comprehension.

The outside world enters as parameters:

- The remote model is a `Client`: a function from the request and the
  attempt index to a response or a failure kind.
- The clock reading `time.time() % 1` is a `JitterSource` with values in
  [0, 1).
- The vector store is a `Store` value holding its lookup functions.
- The tool manager seen by the orchestrator is a `ToolExecutor`;
  `ToolManager.Executor` is the registry's own.

Some behaviour of the code is easy to overlook, and the model keeps it:

- Three code paths let exceptions reach the caller. The model returns
  `Escaped(message)` for each exception:
  - The single-round path (no tools, or no tool manager) can raise in three
    ways. A failed retried call raises its RuntimeError. When
    `content[0].text` is read (`backend/ai_generator.py:229`), an empty
    content list raises an IndexError. A first block without text raises an
    AttributeError.
  - In the tool loop, `get_text_content` also reads `content[0].text`. A
    final response whose first block is a tool use therefore raises an
    AttributeError; an empty content list gives `""`.
  - The legacy `_handle_tool_execution` catches nothing. A tool that raises
    in `execute_tool` (`backend/ai_generator.py:401-403`) lets its exception
    through. So does the follow-up call's RuntimeError. The final
    `content[0].text` (`backend/ai_generator.py:425-426`) raises an
    IndexError or an AttributeError, as on the single-round path.
- The third test of `_should_continue_rounds` (execution failed) never
  decides: a round result only asks for tools after a successful call
  (`ExecutionCheckIsRedundant`).
- The `return` after the loop of `_execute_sequential_rounds` cannot be
  reached: round 2 always ends the loop. The method ends with a done flag
  instead.
- `backend/vector_store.py` is not part of this model. An empty search result
  is taken to mean one without documents.

## Model

| member | source | states |
|---|---|---|
| Text.IntToStringRoundTrip | backend/search_tools.py:106 | the decimal text of a lesson number parses back to that number, with a leading '-' exactly for negatives |
| Text.NatToStringRoundTrip | backend/search_tools.py:87 | the decimal text of a natural number parses back to it, has no leading zero and is all digits |
| Text.JoinAppend | backend/search_tools.py:141 | joining two non-empty lists of parts is joining each and putting the separator once between them |
| Text.JoinSplit | backend/search_tools.py:141 | joining with a separator puts every part between the join of the parts before it and the join of the parts after it, separated once on each side |
| SearchTools.CourseSearchTool.constructor | backend/search_tools.py:25-27 | a new search tool keeps its store and holds no citations |
| SearchTools.CourseSearchTool.GetToolDefinition | backend/search_tools.py:29-52 | the definition is named search_course_content and has exactly the properties "query" and "course_name" of type string and "lesson_number" of type integer, in that order; only "query" is required |
| SearchTools.CourseSearchTool.Execute | backend/search_tools.py:54-91 | an error string of the store is returned first and keeps the citations; an empty result gives the filter message and keeps them; otherwise the reply is the formatted hits and the citations become theirs |
| SearchTools.SearchReply | backend/search_tools.py:73-91 | a truthy store error is the reply, and is never empty; else a result without documents gives the filter message; else the reply is the formatted hits |
| SearchTools.SourcesAfterSearch | backend/search_tools.py:77-139 | the citations are kept on the error path and the empty path; otherwise they become the reference citations, one per hit |
| SearchTools.FilterInfo | backend/search_tools.py:83-87 | the filter text is empty exactly when neither the course name nor the lesson number is truthy; a truthy course alone gives exactly " in course '<name>'", a truthy lesson alone exactly " in lesson <n>", and both give the course part followed by the lesson part |
| SearchTools.NoContentMessage | backend/search_tools.py:81-88 | the message is "No relevant content found", then exactly the filter text of the truthy filters, then "."; it is "No relevant content found." exactly when neither filter is truthy |
| SearchTools.CourseSearchTool.FormatResults | backend/search_tools.py:93-141 | the loop builds exactly the reference entries joined by blank lines, and replaces the retained citations with the reference citations |
| SearchTools.CourseSearchTool.FormatHit | backend/search_tools.py:99-136 | the loop body gives the i-th reference entry and the i-th reference citation, whose number is i + 1 |
| SearchTools.Sources | backend/search_tools.py:96-139 | one citation per zipped hit, numbered 1..k in hit order, with the hit's title (default "unknown"), lesson, snippet and the i-th score or 0.5 |
| SearchTools.SourcesLinks | backend/search_tools.py:112-118 | each citation carries the store's course link for its title; its lesson title and lesson link are the store's lookups when the hit has a lesson number, and absent otherwise |
| SearchTools.HeaderShape | backend/search_tools.py:103-107 | a hit's header is "[", its course title (default "unknown"), then " - Lesson <n>" exactly when the hit has a lesson number (0 included), then "]" |
| SearchTools.EntryShape | backend/search_tools.py:136 | an entry is the hit's header, one newline and the whole document |
| SearchTools.Snippet | backend/search_tools.py:110 | a document of at most 150 characters is kept whole; a longer one becomes its first 150 characters followed by "..." |
| SearchTools.SearchErrorComesFirst | backend/search_tools.py:77-79 | whenever the store reports an error, the reply is that error verbatim (even with no documents) and the retained citations are unchanged |
| SearchTools.LessonZeroIsNoFilter | backend/search_tools.py:82-88 | lesson number 0 is omitted from the empty-result message like a missing one; without filters the message is "No relevant content found." |
| SearchTools.FormattedResultsHoldEachHit | backend/search_tools.py:104-141 | the i-th hit appears as its header, a newline and its full document, between the entries before it and after it, separated by blank lines |
| SearchTools.CourseOutlineTool.constructor | backend/search_tools.py:147-148 | a new outline tool keeps its store |
| SearchTools.CourseOutlineTool.GetToolDefinition | backend/search_tools.py:150-165 | the definition is named get_course_outline and has exactly one property, the string "course_name", which is required |
| SearchTools.CourseOutlineTool.Execute | backend/search_tools.py:167-222 | the method returns exactly the reference outline reply |
| SearchTools.OutlineReply | backend/search_tools.py:178-222 | an unresolved name gives "No course found matching '<name>'"; a catalog error or undecodable lessons give "Error retrieving course outline: <msg>"; no metadata gives "No metadata found for course '<title>'"; otherwise the outline lines joined by newlines |
| SearchTools.OutlineHeader | backend/search_tools.py:189-204 | five lines: the bold title (the exact title when the metadata has none), "Instructor: " with the instructor or "Unknown", "Course Link: " with the link or "No link available", a blank line and "**Lessons:**" |
| SearchTools.LessonLineShape | backend/search_tools.py:210-216 | a lesson line starts "Lesson <n>: <title>" (title default "Untitled"); it goes on exactly when the link is truthy, and then only with " (<link>)" |
| SearchTools.OutlineLinesShape | backend/search_tools.py:199-219 | the outline is the title, instructor, course link, a blank line and "**Lessons:**", then one line per lesson in order, or the one line "No lessons found" |
| SearchTools.BindSearchArgs | backend/search_tools.py:54-59 | a call binds exactly when its keys are among query, course_name and lesson_number, the query is a string, the course name is not an integer and the lesson number is not a string; the query and the given filters are passed on unchanged |
| SearchTools.BindOutlineArgs | backend/search_tools.py:167 | a call binds exactly when its only key is course_name with a string value, which it passes on unchanged |
| SearchTools.ToolNameIsDefinitionName | backend/search_tools.py:233-234 | a tool is registered under the name its definition gives |
| SearchTools.ToolManager.constructor | backend/search_tools.py:228-229 | a new manager has no tools |
| SearchTools.ToolManager.RegisterTool | backend/search_tools.py:231-237 | a definition without a truthy name is refused with "Tool must have a 'name' in its definition" and changes nothing; otherwise the tool is stored under its name, replacing an earlier one in its place in the order, and the registry stays consistent |
| SearchTools.ToolManager.GetToolDefinitions | backend/search_tools.py:239-241 | one definition per registered tool, in registration order, each named by its key |
| SearchTools.ToolManager.ExecuteTool | backend/search_tools.py:243-248 | an unknown name returns "Tool '<name>' not found" and changes no citations; a known name returns what its tool does with the bound arguments, and only the search tool that ran may change its citations |
| SearchTools.Dispatch | backend/search_tools.py:243-248 | a built-in tool raises exactly when the arguments do not bind to its parameters; otherwise the search tool returns the search reply for the bound query and filters, and the outline tool the outline reply; a custom tool does what its behaviour does |
| SearchTools.ToolManager.Executor | backend/search_tools.py:243-248 | the registry's executor answers an unknown name with "Tool '<name>' not found" and hands a known name to that tool |
| SearchTools.ToolManager.FirstSources | backend/search_tools.py:253-256 | the result is empty exactly when every search tool among the names has no citations; else it is the citations of the first one that has some |
| SearchTools.ToolManager.GetLastSources | backend/search_tools.py:250-256 | empty exactly when no search tool holds citations; otherwise the citations of the first such tool in registration order |
| SearchTools.ToolManager.ResetSources | backend/search_tools.py:258-262 | every search tool's citations become empty, nothing else may change, and GetLastSources is then empty |
| AiGenerator.RoundContext.constructor | backend/ai_generator.py:12-15 | a new context holds only the user's query as a user message, is at round 1, and keeps the history |
| AiGenerator.RoundContext.AddAssistantMessage | backend/ai_generator.py:17-19 | appends one assistant message and keeps the earlier messages and the round |
| AiGenerator.RoundContext.AddUserMessage | backend/ai_generator.py:21-23 | appends one user message and keeps the earlier messages and the round |
| AiGenerator.RoundContext.IncrementRound | backend/ai_generator.py:25-27 | the round goes up by one; the messages are unchanged |
| AiGenerator.GetTextContent | backend/ai_generator.py:39-43 | the apology of a failed call is its text; an empty response gives ""; otherwise the first block's text; the only error it raises is the missing text attribute |
| AiGenerator.FirstBlockText | backend/ai_generator.py:229 | the answer exists exactly when the first block exists and is text, and it is that block's text |
| AiGenerator.AIGenerator.constructor | backend/ai_generator.py:94-99 | a new generator keeps the model name and the client |
| AiGenerator.Retryable | backend/ai_generator.py:114-163 | a failure is retried exactly when it is a rate limit, a connection failure or one of the statuses 529, 502, 503 and 504; an unexpected error never is |
| AiGenerator.ExhaustedMessage | backend/ai_generator.py:114-159 | the fixed texts for an exhausted rate limit, connection failure and 529; for 502, 503 and 504 exactly the fixed prefix, the status in decimal and the fixed suffix, so that the status parses back from the text |
| AiGenerator.FatalMessage | backend/ai_generator.py:146-148 | a status that is not retried gives "API error: " followed by the failure's message; an unexpected error gives "Unexpected error during API call: " followed by it |
| AiGenerator.BackoffDelay | backend/ai_generator.py:119-155 | the wait after attempt a lies in [2^a, 2^a + 1) seconds, and is exactly 2^a after a connection failure |
| AiGenerator.RetryFrom | backend/ai_generator.py:107-163 | a retried call makes between one and four attempts and waits once between each two of them |
| AiGenerator.AIGenerator.MakeApiCallWithRetry | backend/ai_generator.py:101-163 | the attempt loop returns exactly the outcome, the attempt count and the waits of the reference retry function, with at most four attempts |
| AiGenerator.RetryOutcomeIgnoresJitter | backend/ai_generator.py:119-141 | the clock reading changes only the waits, never the outcome nor the number of attempts |
| AiGenerator.RetrySucceedsIff | backend/ai_generator.py:110-163 | a call returns a response exactly when some attempt up to the fourth returns it and every earlier attempt failed in a retryable way |
| AiGenerator.FatalFailureStopsAtOnce | backend/ai_generator.py:146-163 | a status outside 529/502/503/504, or an unexpected error, ends the call at that attempt with "API error: …" or "Unexpected error during API call: …", without waiting |
| AiGenerator.RetryableFailuresExhaust | backend/ai_generator.py:114-159 | when all attempts fail in a retryable way, four attempts and three waits are made and the error is the last failure's exhaustion message (overloaded for 529, temporarily unavailable with the status for 502/503/504) |
| AiGenerator.RetryDelaysAgree | backend/ai_generator.py:114-159 | the waits of a retried call are one per attempt that fails in a retryable way before the fourth, in order |
| AiGenerator.BackoffEachDelay | backend/ai_generator.py:119-141 | the wait after attempt i lies in [2^i, 2^i + 1) seconds |
| AiGenerator.BackoffSumAtLeast | backend/ai_generator.py:119-159 | n waits from attempt a add up to at least 2^(a+n) - 2^a seconds, the backoff doubling each time |
| AiGenerator.BackoffSumBelow | backend/ai_generator.py:119-159 | n waits from attempt a add up to at most 2^(a+n) - 2^a + n seconds, and strictly less when there is at least one |
| AiGenerator.TotalBackoffUnderTenSeconds | backend/ai_generator.py:107-159 | the waits of one retried call add up to less than ten seconds |
| AiGenerator.BuildSystemPrompt | backend/ai_generator.py:363-375 | every prompt starts with the instructions; round 2's ends with its note; with a falsy history, any other round's prompt is the instructions alone |
| AiGenerator.SystemPromptShapes | backend/ai_generator.py:363-375 | round 2's prompt is round 1's followed by its note; every other round's equals round 1's; a truthy history is appended to the instructions under its heading |
| AiGenerator.SingleRoundSystemPrompt | backend/ai_generator.py:204-208 | the single-round prompt is the round-1 prompt of the tool loop |
| AiGenerator.RoundOutcome | backend/ai_generator.py:265-301 | a round succeeds exactly when the retried call returns; it asks for tools exactly when that response stops for tool use; a failed call gives no tools, the apology text and the error |
| AiGenerator.AIGenerator.ExecuteSingleRound | backend/ai_generator.py:261-301 | the round sends the context's messages with the round's system prompt and tools and returns the reference round result |
| AiGenerator.ShouldContinueRounds | backend/ai_generator.py:303-319 | true exactly when the round is below the maximum, the response asked for tools and the call succeeded |
| AiGenerator.ExecutionCheckIsRedundant | backend/ai_generator.py:315-317 | for every round result the loop builds, continuing depends only on the round number and the tool request |
| AiGenerator.ToolUses | backend/ai_generator.py:331-332 | the tool-use blocks are taken from the content, no more of them than there are blocks |
| AiGenerator.ToolUsesComplete | backend/ai_generator.py:331-332 | a block of the content is among the tool uses exactly when it is a tool-use block |
| AiGenerator.ToolUsesAppend | backend/ai_generator.py:331-332 | the tool uses of two contents put together are those of the first followed by those of the second, so block order is kept |
| AiGenerator.RunTools | backend/ai_generator.py:330-347 | content without tool-use blocks runs no tool and gives no results; all-returned runs give at most one result per block |
| AiGenerator.RunToolsMeaning | backend/ai_generator.py:330-347 | all tools return exactly when no tool use raises; then one record per tool use in block order with its id and result; a failure carries the first raised message |
| AiGenerator.RunToolsFailurePersists | backend/ai_generator.py:351-361 | once a tool has raised, later blocks change nothing |
| AiGenerator.ToolPhase | backend/ai_generator.py:325-361 | the assistant's content is appended first; success is exactly that all tools returned; a failure appends one user message with the single "error" record |
| AiGenerator.AIGenerator.ExecuteToolsForRound | backend/ai_generator.py:321-361 | the context's messages become exactly those of the reference tool phase, the result is its success, and the round is unchanged |
| AiGenerator.RoundsFrom | backend/ai_generator.py:238-259 | from round r, the loop makes between one and 3 - r calls; the first sends the messages so far under round r's prompt; all of them use the base parameters and offer the tools |
| AiGenerator.RoundsFromAppendsAndEscapesOnlyOnText | backend/ai_generator.py:238-259 | the rounds only append to the messages they start from, and the loop raises only when a final first block has no text |
| AiGenerator.SequentialRounds | backend/ai_generator.py:231-259 | the conversation starts with the user's question, and its only escaping error is the missing text attribute |
| AiGenerator.AIGenerator.ExecuteSequentialRounds | backend/ai_generator.py:231-259 | the round loop returns exactly the reply, the requests sent and the final messages of the reference two-round conversation |
| AiGenerator.AtMostTwoRounds | backend/ai_generator.py:236-259 | one or two model calls, the first with the question alone, each offering the tools |
| AiGenerator.FailedCallGivesApology | backend/ai_generator.py:287-301 | a failed first call gives "I apologize, but I encountered an error: <msg>" after one call, and no tool runs |
| AiGenerator.DirectAnswerEndsAfterOneRound | backend/ai_generator.py:250-254 | a first response without tool use is answered with its text after exactly one call, and no tool runs |
| AiGenerator.ToolFailureEndsLoop | backend/ai_generator.py:243-248 | a tool raising in round 1 gives "I encountered an error while searching for information." after one call, with the error record appended |
| AiGenerator.SecondRoundSeesToolResults | backend/ai_generator.py:238-259 | after round-1 tools that all return, the second and last call sends the question, the assistant's blocks and the results (3 messages when there are results) under the round-2 prompt; round 2's tools still run and its text is the answer unless they raise |
| AiGenerator.SingleRoundSendsFirstRequest | backend/ai_generator.py:204-219 | the single-round path sends exactly the request of round 1 |
| AiGenerator.SingleRoundReply | backend/ai_generator.py:197-229 | a failed call escapes; a response stopping for tool use gives "I have tools available but cannot execute them without a tool manager."; otherwise the first block's text |
| AiGenerator.AIGenerator.GenerateSingleRoundResponse | backend/ai_generator.py:197-229 | returns exactly the reference single-round reply |
| AiGenerator.AIGenerator.GenerateResponse | backend/ai_generator.py:165-195 | the tool loop when tools and a manager are given, else the single round |
| AiGenerator.ResponseReply | backend/ai_generator.py:186-195 | without tools or without a manager the reply is the single-round reply; with both, the only error that escapes is the missing text attribute |
| AiGenerator.EntryPointErrorHandling | backend/ai_generator.py:186-195 | a failed first call escapes without tools or without a manager, and is answered with the apology when both are given |
| AiGenerator.LegacyFollowUpOffersNoTools | backend/ai_generator.py:391-422 | the legacy follow-up keeps the caller's messages and system prompt, adds the assistant's blocks, then, when there are results, one user message holding exactly those results, and offers no tools |
| AiGenerator.LegacyReply | backend/ai_generator.py:391-426 | a raising tool escapes with its message; when every tool returns, a failed follow-up call escapes with its error and a returned one gives the text of its first block (or the error of reading it); an answer therefore means every tool returned, the follow-up returned, and its first block is text |
| AiGenerator.AIGenerator.HandleToolExecution | backend/ai_generator.py:377-426 | the legacy path returns exactly the reference legacy reply: a raising tool or failed call escapes, else the first block's text of the follow-up |

## Left out

- The client library of the remote model is replaced by the `Client` oracle and
  the `FailureKind` datatype. A 429 status that arrives as a plain status error,
  rather than as the library's rate-limit error, is not modelled as a rate limit.
- `time.sleep` and the `print` progress notices are left out. The waits are
  returned as a list of delays in seconds (`real`) instead of being slept.
- `time.time() % 1` is the parameter `JitterSource`, indexed by attempt. It is
  read only after a rate limit or a retried status failure that another
  attempt follows. It is never read after a connection failure, the last
  attempt or a call that returns.
- The `Client` is a function of the request and the attempt index. Two calls
  with an identical request therefore see the same attempts. A stateful client
  that answers an identical request differently is not modelled.
- The text of `SYSTEM_PROMPT` is the opaque constant `SystemPrompt`.
- The vector store, the course catalog, `get_relevance_scores` and
  `json.loads` are the functions of a `Store`. A lesson list arrives already
  decoded, or as a decoding failure (`Unparseable`). `_resolve_course_name` is
  assumed not to raise.
- `backend/vector_store.py` and `backend/models.py` are not part of this
  model. `SourceObject` and `SearchResults` are plain datatypes.
- A metadata key that is present with the value null is treated as absent.
- Keyword-argument binding (`**kwargs`) is modelled as a map from names to
  JSON scalars. An unknown keyword, a missing required one, or a string/integer
  mismatch becomes a raised TypeError-like message. The message does not name
  the unexpected keyword. Python would accept an ill-typed value and fail later,
  or not at all.
- Tool inputs that `**` would reject are not modelled, such as a key
  `tool_name` that collides with the positional parameter.
- A custom tool (`CustomTool`) is never treated as keeping citations.
  `get_last_sources` and `reset_sources` only see search tools.
- The orchestrator runs tools through a pure `ToolExecutor`. What a tool run
  does to the registry's citations is stated only by `ToolManager.ExecuteTool`.
- `AiGenerator.AIGenerator.ExecuteSingleRound`: the request keeps a snapshot of
  the messages at call time, which is what the client receives. In the source,
  the request dictionary holds the context's own list, which later appends
  still change.
- Response blocks other than text and tool use are not modelled, such as
  thinking blocks.
- The block that stands in for a failed call is modelled as a text block.
  Reading its `type`, which happens only if that result is passed to the tool
  step, raises the recorded AttributeError message:
  `"'obj' object has no attribute 'type'"`.
- The optional `tools` argument is a list in which `[]` stands for both `None`
  and the empty list, since the source only tests its truthiness.
  `tool_choice` always accompanies attached tools, so it is not a separate
  field.
- Exception messages of tools and the client (`str(e)`) are carried as given
  strings.
