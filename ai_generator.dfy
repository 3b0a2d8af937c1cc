/**
 * The answer generator of the course-materials assistant
 * (backend/ai_generator.py): the retrying call to the remote language model,
 * the single-round path without tools, and the loop of at most two
 * tool-calling rounds that keeps the conversation in a RoundContext.
 *
 * The remote model is a `Client` function of the request and the attempt
 * index; the clock that supplies the backoff jitter is a `JitterSource`; the
 * tool manager is a `ToolExecutor` (ToolManager.Executor gives the
 * registry's own).
 */
module AiGenerator {

  import opened Wrappers
  import opened Text
  import opened SearchTools

  // ---------------------------------------------------------------------------
  // Messages, requests and responses
  // ---------------------------------------------------------------------------

  datatype Role = User | Assistant

  /** A content block of a model response. */
  datatype Block =
    | TextBlock(text: string)
    | ToolUseBlock(id: string, name: string, input: Args)

  /** One entry of the list sent back after running tools ("type": "tool_result"). */
  datatype ToolResultRecord = ToolResultRecord(toolUseId: string, content: string)

  /** A message's content: plain text, the blocks of an assistant reply, or tool results. */
  datatype Content =
    | Plain(text: string)
    | Blocks(blocks: seq<Block>)
    | ToolResults(results: seq<ToolResultRecord>)

  datatype Message = Message(role: Role, content: Content)

  /**
   * The keyword arguments of `messages.create`. `tools` is None when no tools
   * are attached; attached tools always come with the tool choice "auto".
   */
  datatype ApiRequest = ApiRequest(
    model: string,
    temperature: int,
    maxTokens: nat,
    messages: seq<Message>,
    system: string,
    tools: Option<seq<ToolDefinition>>)

  datatype Response = Response(content: seq<Block>, stopReason: string)

  /** The exception classes of the client library the retry logic tells apart. */
  datatype FailureKind =
    | RateLimited
    | StatusError(status: int, message: string)
    | ConnectionFailed
    | Unexpected(message: string)

  /** What one attempt of `messages.create` does. */
  datatype AttemptOutcome = Succeeded(response: Response) | Failed(kind: FailureKind)

  /** The remote model: the outcome of the attempt with the given index for a request. */
  type Client = (ApiRequest, nat) -> AttemptOutcome

  /** `time.time() % 1`. */
  type Jitter = x: real | 0.0 <= x < 1.0

  /**
   * The clock as the retry loop reads it: reading `attempt` is taken only when
   * that attempt hit a rate limit or a retried status and another attempt follows.
   */
  type JitterSource = nat -> Jitter

  /** What `_make_api_call_with_retry` does: it returns a response or raises a RuntimeError. */
  datatype CallOutcome = Ok(response: Response) | Err(message: string)

  /** What a public entry point does: it returns text, or an exception escapes with this message. */
  datatype Reply = Answer(text: string) | Escaped(message: string)

  const Temperature := 0
  const MaxTokens := 800
  const ToolUseStop := "tool_use"

  /** The fixed instructions sent with every request; the text itself is not part of this model. */
  const SystemPrompt: string

  function UserQuery(query: string): Message {
    Message(User, Plain(query))
  }

  /** The "tools" key only when the tool list is non-empty. */
  function OfferedTools(tools: seq<ToolDefinition>): Option<seq<ToolDefinition>> {
    if tools != [] then Some(tools) else None
  }

  // ---------------------------------------------------------------------------
  // Retry with exponential backoff
  // ---------------------------------------------------------------------------

  const MaxRetries := 3
  const BaseDelay := 1
  const RetryableStatuses := [529, 502, 503, 504]

  const RateLimitExhausted := "API rate limit exceeded after multiple retries. Please try again later."
  const OverloadedExhausted := "Anthropic API is currently overloaded. Please try again in a few minutes."
  const ConnectionExhausted := "Unable to connect to Anthropic API. Please check your internet connection."

  function Pow2(n: nat): (p: nat)
    ensures p >= 1
  {
    if n == 0 then 1 else 2 * Pow2(n - 1)
  }

  /** Rate limits, the four server-side statuses and connection failures are retried. */
  predicate Retryable(kind: FailureKind)
    ensures Retryable(kind) <==> !kind.Unexpected? && (kind.StatusError? ==> kind.status == 529 || 502 <= kind.status <= 504)
  {
    match kind
    case RateLimited => true
    case StatusError(status, _) => status in RetryableStatuses
    case ConnectionFailed => true
    case Unexpected(_) => false
  }

  const FatalStatusPrefix := "API error: "
  const UnexpectedPrefix := "Unexpected error during API call: "
  const UnavailablePrefix := "Anthropic API is temporarily unavailable (status "
  const UnavailableSuffix := "). Please try again later."

  /**
   * The RuntimeError raised when the last attempt fails in a retryable way: a
   * fixed text per kind, except that the text of a 502, 503 or 504 names the
   * status so that it can be read back.
   */
  function ExhaustedMessage(kind: FailureKind): (m: string)
    requires Retryable(kind)
    ensures kind.RateLimited? ==> m == RateLimitExhausted
    ensures kind.ConnectionFailed? ==> m == ConnectionExhausted
    ensures kind.StatusError? && kind.status == 529 ==> m == OverloadedExhausted
    ensures kind.StatusError? && kind.status != 529 ==>
              && |m| == |UnavailablePrefix| + |IntToString(kind.status)| + |UnavailableSuffix|
              && m[..|UnavailablePrefix|] == UnavailablePrefix
              && m[|UnavailablePrefix|..|m| - |UnavailableSuffix|] == IntToString(kind.status)
              && m[|m| - |UnavailableSuffix|..] == UnavailableSuffix
              && ParseInt(m[|UnavailablePrefix|..|m| - |UnavailableSuffix|]) == kind.status
  {
    match kind
    case RateLimited => RateLimitExhausted
    case StatusError(status, _) =>
      if status == 529 then OverloadedExhausted
      else
        var m := UnavailablePrefix + IntToString(status) + UnavailableSuffix;
        assert m[..|UnavailablePrefix|] == UnavailablePrefix;
        assert m[|UnavailablePrefix|..|m| - |UnavailableSuffix|] == IntToString(status);
        assert m[|m| - |UnavailableSuffix|..] == UnavailableSuffix;
        IntToStringRoundTrip(status);
        m
    case ConnectionFailed => ConnectionExhausted
  }

  /**
   * The RuntimeError raised at once for a failure that is not retried: a fixed
   * text for the class of failure, ending with the failure's own message.
   */
  function FatalMessage(kind: FailureKind): (m: string)
    requires !Retryable(kind)
    ensures var prefix := if kind.StatusError? then FatalStatusPrefix else UnexpectedPrefix;
            && |m| == |prefix| + |kind.message|
            && m[..|prefix|] == prefix && m[|prefix|..] == kind.message
  {
    var prefix := if kind.StatusError? then FatalStatusPrefix else UnexpectedPrefix;
    var m := prefix + kind.message;
    assert m[..|prefix|] == prefix && m[|prefix|..] == kind.message;
    m
  }

  /** The wait after failed attempt `attempt`: 2^attempt seconds plus the jitter, except after a connection failure. */
  function BackoffDelay(kind: FailureKind, attempt: nat, jitter: Jitter): (d: real)
    ensures Pow2(attempt) as real <= d < Pow2(attempt) as real + 1.0
    ensures kind.ConnectionFailed? ==> d == Pow2(attempt) as real
  {
    if kind.ConnectionFailed? then (BaseDelay * Pow2(attempt)) as real
    else (BaseDelay * Pow2(attempt)) as real + jitter
  }

  /** The full course of a retried call: its outcome, how many attempts it made and the waits between them. */
  datatype RetryRun = RetryRun(outcome: CallOutcome, attempts: nat, delays: seq<real>)

  /** The retry loop from attempt `attempt` on: the reference definition of `MakeApiCallWithRetry`. */
  function RetryFrom(client: Client, request: ApiRequest, jitter: JitterSource, attempt: nat): (run: RetryRun)
    requires attempt <= MaxRetries
    decreases MaxRetries - attempt
    ensures attempt < run.attempts <= MaxRetries + 1
    ensures |run.delays| == run.attempts - 1 - attempt
  {
    match client(request, attempt)
    case Succeeded(response) => RetryRun(Ok(response), attempt + 1, [])
    case Failed(kind) =>
      if !Retryable(kind) then RetryRun(Err(FatalMessage(kind)), attempt + 1, [])
      else if attempt == MaxRetries then RetryRun(Err(ExhaustedMessage(kind)), attempt + 1, [])
      else
        var rest := RetryFrom(client, request, jitter, attempt + 1);
        RetryRun(rest.outcome, rest.attempts, [BackoffDelay(kind, attempt, jitter(attempt))] + rest.delays)
  }

  const NoJitter: JitterSource := _ => 0.0

  /** What a retried call returns or raises; the clock does not change it. */
  function Call(client: Client, request: ApiRequest): CallOutcome {
    RetryFrom(client, request, NoJitter, 0).outcome
  }

  /** The jitter only changes how long the loop waits, never what it returns or how often it tries. */
  lemma {:induction false} RetryOutcomeIgnoresJitter(client: Client, request: ApiRequest, j1: JitterSource, j2: JitterSource, attempt: nat)
    requires attempt <= MaxRetries
    decreases MaxRetries - attempt
    ensures RetryFrom(client, request, j1, attempt).outcome == RetryFrom(client, request, j2, attempt).outcome
    ensures RetryFrom(client, request, j1, attempt).attempts == RetryFrom(client, request, j2, attempt).attempts
  {
    match client(request, attempt)
    case Succeeded(_) =>
    case Failed(kind) =>
      if Retryable(kind) && attempt < MaxRetries {
        RetryOutcomeIgnoresJitter(client, request, j1, j2, attempt + 1);
      }
  }

  /** Attempts `from` up to, not including, `to` all failed in a retryable way. */
  ghost predicate RetryableUntil(client: Client, request: ApiRequest, from: nat, to: nat) {
    forall j: nat :: from <= j < to ==> client(request, j).Failed? && Retryable(client(request, j).kind)
  }

  /** A call returns a response exactly when some attempt up to the fourth succeeds after retryable failures only. */
  lemma {:induction false} RetrySucceedsIff(client: Client, request: ApiRequest, jitter: JitterSource, attempt: nat, response: Response)
    requires attempt <= MaxRetries
    decreases MaxRetries - attempt
    ensures RetryFrom(client, request, jitter, attempt).outcome == Ok(response) <==>
            exists k: nat :: attempt <= k <= MaxRetries && client(request, k) == Succeeded(response)
                             && RetryableUntil(client, request, attempt, k)
  {
    var outcome := client(request, attempt);
    if outcome.Succeeded? {
      if outcome.response == response {
        assert RetryableUntil(client, request, attempt, attempt);
      } else {
        forall k: nat | attempt <= k <= MaxRetries && client(request, k) == Succeeded(response)
          ensures !RetryableUntil(client, request, attempt, k)
        {
          assert k != attempt;
          assert !(client(request, attempt).Failed?);
        }
      }
    } else if !Retryable(outcome.kind) || attempt == MaxRetries {
      forall k: nat | attempt <= k <= MaxRetries && client(request, k) == Succeeded(response)
        ensures !RetryableUntil(client, request, attempt, k)
      {
        assert k != attempt;
        assert !(client(request, attempt).Failed? && Retryable(client(request, attempt).kind));
      }
    } else {
      RetrySucceedsIff(client, request, jitter, attempt + 1, response);
      if RetryFrom(client, request, jitter, attempt).outcome == Ok(response) {
        var k: nat :| attempt + 1 <= k <= MaxRetries && client(request, k) == Succeeded(response)
                      && RetryableUntil(client, request, attempt + 1, k);
        assert RetryableUntil(client, request, attempt, k);
      } else {
        forall k: nat | attempt <= k <= MaxRetries && client(request, k) == Succeeded(response)
          ensures !RetryableUntil(client, request, attempt, k)
        {
          assert k != attempt;
        }
      }
    }
  }

  /** A failure that is not retried ends the call at once with its own message. */
  lemma FatalFailureStopsAtOnce(client: Client, request: ApiRequest, jitter: JitterSource, attempt: nat)
    requires attempt <= MaxRetries
    requires client(request, attempt).Failed? && !Retryable(client(request, attempt).kind)
    ensures RetryFrom(client, request, jitter, attempt)
            == RetryRun(Err(FatalMessage(client(request, attempt).kind)), attempt + 1, [])
  {
  }

  /** When every attempt fails in a retryable way, four attempts are made and the last failure names the error. */
  lemma {:induction false} RetryableFailuresExhaust(client: Client, request: ApiRequest, jitter: JitterSource, attempt: nat)
    requires attempt <= MaxRetries
    requires RetryableUntil(client, request, attempt, MaxRetries + 1)
    decreases MaxRetries - attempt
    ensures Retryable(client(request, MaxRetries).kind)
    ensures var run := RetryFrom(client, request, jitter, attempt);
            && run.outcome == Err(ExhaustedMessage(client(request, MaxRetries).kind))
            && run.attempts == MaxRetries + 1
            && |run.delays| == MaxRetries - attempt
  {
    assert client(request, MaxRetries).Failed? && Retryable(client(request, MaxRetries).kind);
    if attempt < MaxRetries {
      assert client(request, attempt).Failed? && Retryable(client(request, attempt).kind);
      assert RetryableUntil(client, request, attempt + 1, MaxRetries + 1);
      RetryableFailuresExhaust(client, request, jitter, attempt + 1);
    }
  }

  /** Attempt `attempt` failed in a way that is retried, and it was not the last attempt. */
  predicate RetriedAt(client: Client, request: ApiRequest, attempt: nat) {
    client(request, attempt).Failed? && Retryable(client(request, attempt).kind) && attempt < MaxRetries
  }

  /** The waits of the retry loop from attempt `attempt` on, one after each retried attempt. */
  function RetryDelays(client: Client, request: ApiRequest, jitter: JitterSource, attempt: nat): seq<real>
    requires attempt <= MaxRetries
    decreases MaxRetries - attempt
  {
    if RetriedAt(client, request, attempt)
    then [BackoffDelay(client(request, attempt).kind, attempt, jitter(attempt))] + RetryDelays(client, request, jitter, attempt + 1)
    else []
  }

  /** The waits of the retry loop are those of RetryDelays. */
  lemma {:induction false} RetryDelaysAgree(client: Client, request: ApiRequest, jitter: JitterSource, attempt: nat)
    requires attempt <= MaxRetries
    decreases MaxRetries - attempt
    ensures RetryFrom(client, request, jitter, attempt).delays == RetryDelays(client, request, jitter, attempt)
  {
    if RetriedAt(client, request, attempt) {
      RetryDelaysAgree(client, request, jitter, attempt + 1);
    }
  }

  function Sum(s: seq<real>): real {
    if s == [] then 0.0 else s[0] + Sum(s[1..])
  }

  /** Each wait lies in [2^i, 2^i + 1) seconds, i being the index of the failed attempt it follows. */
  lemma {:induction false} BackoffEachDelay(client: Client, request: ApiRequest, jitter: JitterSource, attempt: nat)
    requires attempt <= MaxRetries
    decreases MaxRetries - attempt
    ensures var d := RetryDelays(client, request, jitter, attempt);
            forall i :: 0 <= i < |d| ==> Pow2(attempt + i) as real <= d[i] < Pow2(attempt + i) as real + 1.0
  {
    if RetriedAt(client, request, attempt) {
      BackoffEachDelay(client, request, jitter, attempt + 1);
      var rest := RetryDelays(client, request, jitter, attempt + 1);
      var d := RetryDelays(client, request, jitter, attempt);
      forall i | 0 < i < |d|
        ensures Pow2(attempt + i) as real <= d[i] < Pow2(attempt + i) as real + 1.0
      {
        assert d[i] == rest[i - 1];
        assert attempt + i == attempt + 1 + (i - 1);
      }
    }
  }

  /** n waits from attempt a on add up to at least 2^(a+n) - 2^a seconds: the backoff doubles. */
  lemma {:induction false} BackoffSumAtLeast(client: Client, request: ApiRequest, jitter: JitterSource, attempt: nat)
    requires attempt <= MaxRetries
    decreases MaxRetries - attempt
    ensures var d := RetryDelays(client, request, jitter, attempt);
            (Pow2(attempt + |d|) - Pow2(attempt)) as real <= Sum(d)
  {
    if RetriedAt(client, request, attempt) {
      BackoffSumAtLeast(client, request, jitter, attempt + 1);
      var rest := RetryDelays(client, request, jitter, attempt + 1);
      var d := RetryDelays(client, request, jitter, attempt);
      assert d[1..] == rest;
      assert attempt + |d| == attempt + 1 + |rest|;
      assert Pow2(attempt + 1) == 2 * Pow2(attempt);
    }
  }

  /** n > 0 waits from attempt a on add up to less than 2^(a+n) - 2^a + n seconds: under a second of jitter each. */
  lemma {:induction false} BackoffSumBelow(client: Client, request: ApiRequest, jitter: JitterSource, attempt: nat)
    requires attempt <= MaxRetries
    decreases MaxRetries - attempt
    ensures var d := RetryDelays(client, request, jitter, attempt);
            && Sum(d) <= (Pow2(attempt + |d|) - Pow2(attempt) + |d|) as real
            && (d != [] ==> Sum(d) < (Pow2(attempt + |d|) - Pow2(attempt) + |d|) as real)
  {
    if RetriedAt(client, request, attempt) {
      BackoffSumBelow(client, request, jitter, attempt + 1);
      var rest := RetryDelays(client, request, jitter, attempt + 1);
      var d := RetryDelays(client, request, jitter, attempt);
      assert d[1..] == rest;
      assert attempt + |d| == attempt + 1 + |rest|;
      assert Pow2(attempt + 1) == 2 * Pow2(attempt);
    }
  }

  /** A retried call never waits ten seconds in all: 1 + 2 + 4 seconds plus under a second of jitter each. */
  lemma TotalBackoffUnderTenSeconds(client: Client, request: ApiRequest, jitter: JitterSource)
    ensures Sum(RetryFrom(client, request, jitter, 0).delays) < 10.0
  {
    RetryDelaysAgree(client, request, jitter, 0);
    var d := RetryDelays(client, request, jitter, 0);
    BackoffSumBelow(client, request, jitter, 0);
    assert |d| <= 3;
    assert Pow2(1) == 2 && Pow2(2) == 4 && Pow2(3) == 8;
  }

  // ---------------------------------------------------------------------------
  // System prompts and the result of one round
  // ---------------------------------------------------------------------------

  const HistoryHeading := "\n\nPrevious conversation:\n"
  const RoundTwoNote := "\n\nROUND 2: You have previous tool results available. Use them to make informed decisions about additional searches or provide a comprehensive final answer."

  /** The system prompt of a round: the instructions, the history when it is truthy, and the note of round 2. */
  function BuildSystemPrompt(history: Option<string>, round: int): (p: string)
    ensures |p| >= |SystemPrompt| && p[..|SystemPrompt|] == SystemPrompt
    ensures round == 2 ==> |p| >= |RoundTwoNote| && p[|p| - |RoundTwoNote|..] == RoundTwoNote
    ensures !Truthy(history) && round != 2 ==> p == SystemPrompt
  {
    var withHistory := if Truthy(history) then SystemPrompt + (HistoryHeading + history.value) else SystemPrompt;
    if round == 2 then withHistory + RoundTwoNote else withHistory
  }

  /** The system prompt of the single-round path. */
  function SingleRoundSystemPrompt(history: Option<string>): (p: string)
    ensures p == BuildSystemPrompt(history, 1)
  {
    assert Truthy(history) ==>
           SystemPrompt + HistoryHeading + history.value == SystemPrompt + (HistoryHeading + history.value);
    if Truthy(history) then SystemPrompt + HistoryHeading + history.value else SystemPrompt
  }

  /**
   * The single-round path and round 1 send the same system prompt; round 2
   * sends that prompt followed by its note; every prompt starts with the
   * instructions, and the history is in it exactly when it is truthy.
   */
  lemma SystemPromptShapes(history: Option<string>)
    ensures BuildSystemPrompt(history, 2) == BuildSystemPrompt(history, 1) + RoundTwoNote
    ensures forall round :: round != 2 ==> BuildSystemPrompt(history, round) == BuildSystemPrompt(history, 1)
    ensures Truthy(history) ==> BuildSystemPrompt(history, 1) == SystemPrompt + HistoryHeading + history.value
  {
    if Truthy(history) {
      assert SystemPrompt + HistoryHeading + history.value == SystemPrompt + (HistoryHeading + history.value);
    }
  }

  /** The response a round holds: the model's, or the stand-in built from the error of a failed call. */
  datatype RoundResponse = Api(response: Response) | Fallback(text: string)

  datatype RoundResult = RoundResult(response: RoundResponse, hasToolUse: bool, executionSuccess: bool, error: Option<string>)

  const ApologyPrefix := "I apologize, but I encountered an error: "
  const IndexOutOfRange := "list index out of range"
  const NoTextAttribute := "'ToolUseBlock' object has no attribute 'text'"
  const NoTypeAttribute := "'obj' object has no attribute 'type'"

  /** The request of one round of the tool loop. */
  function RoundRequest(model: string, messages: seq<Message>, system: string, tools: seq<ToolDefinition>): ApiRequest {
    ApiRequest(model, Temperature, MaxTokens, messages, system, OfferedTools(tools))
  }

  /** What `_execute_single_round` returns for a request: a failed call becomes an apology, never an exception. */
  function RoundOutcome(client: Client, request: ApiRequest): (rr: RoundResult)
    ensures rr.executionSuccess <==> Call(client, request).Ok?
    ensures rr.hasToolUse <==> Call(client, request).Ok? && Call(client, request).response.stopReason == ToolUseStop
    ensures rr.executionSuccess ==> rr.response == Api(Call(client, request).response) && rr.error == None
    ensures !rr.executionSuccess ==>
              rr.response == Fallback(ApologyPrefix + Call(client, request).message)
              && rr.error == Some(Call(client, request).message)
  {
    match Call(client, request)
    case Ok(response) => RoundResult(Api(response), response.stopReason == ToolUseStop, true, None)
    case Err(message) => RoundResult(Fallback(ApologyPrefix + message), false, false, Some(message))
  }

  /** `response.content[0].text`: the first block's text; no block, or a first block without text, raises. */
  function FirstBlockText(response: Response): (r: Reply)
    ensures r.Answer? <==> response.content != [] && response.content[0].TextBlock?
    ensures r.Answer? ==> r.text == response.content[0].text
  {
    if response.content == [] then Escaped(IndexOutOfRange)
    else match response.content[0]
      case TextBlock(text) => Answer(text)
      case ToolUseBlock(_, _, _) => Escaped(NoTextAttribute)
  }

  /** `RoundResult.get_text_content`: like FirstBlockText, except that a response without blocks gives "". */
  function GetTextContent(rr: RoundResult): (r: Reply)
    ensures rr.response.Fallback? ==> r == Answer(rr.response.text)
    ensures rr.response.Api? && rr.response.response.content == [] ==> r == Answer("")
    ensures rr.response.Api? && rr.response.response.content != [] ==> r == FirstBlockText(rr.response.response)
    ensures r.Escaped? ==> r.message == NoTextAttribute
  {
    match rr.response
    case Fallback(text) => Answer(text)
    case Api(response) => if response.content == [] then Answer("") else FirstBlockText(response)
  }

  /** Another round follows only before the last round, after a call that succeeded and asked for tools. */
  function ShouldContinueRounds(roundNumber: int, rr: RoundResult, maxRounds: int): (r: bool)
    ensures r ==> roundNumber < maxRounds
    ensures r <==> roundNumber < maxRounds && rr.hasToolUse && rr.executionSuccess
  {
    if roundNumber >= maxRounds then false
    else if !rr.hasToolUse then false
    else if !rr.executionSuccess then false
    else true
  }

  /** Every round result asks for tools only after a successful call, so the third test never decides. */
  lemma ExecutionCheckIsRedundant(client: Client, request: ApiRequest, roundNumber: int, maxRounds: int)
    ensures var rr := RoundOutcome(client, request);
            ShouldContinueRounds(roundNumber, rr, maxRounds) <==> roundNumber < maxRounds && rr.hasToolUse
  {
  }

  // ---------------------------------------------------------------------------
  // Running the tools a response asks for
  // ---------------------------------------------------------------------------

  /** The tool-use blocks of a content list, in order. */
  function ToolUses(blocks: seq<Block>): (uses: seq<Block>)
    ensures |uses| <= |blocks|
    ensures forall k :: 0 <= k < |uses| ==> uses[k].ToolUseBlock? && uses[k] in blocks
  {
    if blocks == [] then []
    else
      var last := blocks[|blocks| - 1];
      var uses := ToolUses(blocks[..|blocks| - 1]);
      assert forall b :: b in blocks[..|blocks| - 1] ==> b in blocks;
      uses + (if last.ToolUseBlock? then [last] else [])
  }

  /** Every tool-use block of the content is taken, and nothing else. */
  lemma {:induction false} ToolUsesComplete(blocks: seq<Block>)
    decreases |blocks|
    ensures forall b :: b in blocks ==> (b in ToolUses(blocks) <==> b.ToolUseBlock?)
  {
    if blocks != [] {
      var init := blocks[..|blocks| - 1];
      ToolUsesComplete(init);
      assert blocks == init + [blocks[|blocks| - 1]];
    }
  }

  /** The tool uses of two stretches of content are those of the first followed by those of the second. */
  lemma {:induction false} ToolUsesAppend(a: seq<Block>, b: seq<Block>)
    decreases |b|
    ensures ToolUses(a + b) == ToolUses(a) + ToolUses(b)
  {
    if b == [] {
      assert a + b == a;
    } else {
      var init := b[..|b| - 1];
      assert (a + b)[..|a + b| - 1] == a + init;
      assert (a + b)[|a + b| - 1] == b[|b| - 1];
      ToolUsesAppend(a, init);
    }
  }

  /** Running the tool-use blocks in order: every result, or the message of the first tool that raised. */
  datatype ToolRun = AllReturned(results: seq<ToolResultRecord>) | FailedWith(message: string)

  /** The reference definition of the loop over a response's blocks. */
  function RunTools(exec: ToolExecutor, blocks: seq<Block>): (r: ToolRun)
    ensures r.AllReturned? ==> |r.results| <= |blocks|
    ensures (forall k :: 0 <= k < |blocks| ==> !blocks[k].ToolUseBlock?) ==> r == AllReturned([])
  {
    if blocks == [] then AllReturned([])
    else
      var previous := RunTools(exec, blocks[..|blocks| - 1]);
      var last := blocks[|blocks| - 1];
      if previous.FailedWith? || !last.ToolUseBlock? then previous
      else match exec(last.name, last.input)
        case Returned(text) => AllReturned(previous.results + [ToolResultRecord(last.id, text)])
        case Raised(message) => FailedWith(message)
  }

  /** Once a tool has raised, the blocks after it change nothing. */
  lemma {:induction false} RunToolsFailurePersists(exec: ToolExecutor, prefix: seq<Block>, blocks: seq<Block>)
    requires prefix <= blocks
    requires RunTools(exec, prefix).FailedWith?
    decreases |blocks|
    ensures RunTools(exec, blocks) == RunTools(exec, prefix)
  {
    if |blocks| > |prefix| {
      assert prefix <= blocks[..|blocks| - 1];
      RunToolsFailurePersists(exec, prefix, blocks[..|blocks| - 1]);
    } else {
      assert prefix == blocks;
    }
  }

  /**
   * All tools return exactly when none of the tool uses raises; then there is
   * one record per tool use, in order, carrying its id and the tool's text.
   * A failure carries the message of the first tool use that raised.
   */
  lemma {:induction false} RunToolsMeaning(exec: ToolExecutor, blocks: seq<Block>)
    decreases |blocks|
    ensures var uses := ToolUses(blocks);
            RunTools(exec, blocks).AllReturned? <==>
              forall k :: 0 <= k < |uses| ==> exec(uses[k].name, uses[k].input).Returned?
    ensures var uses := ToolUses(blocks);
            RunTools(exec, blocks).AllReturned? ==>
              var rs := RunTools(exec, blocks).results;
              && |rs| == |uses|
              && forall k :: 0 <= k < |uses| ==>
                   rs[k] == ToolResultRecord(uses[k].id, exec(uses[k].name, uses[k].input).text)
    ensures var uses := ToolUses(blocks);
            RunTools(exec, blocks).FailedWith? ==>
              exists k :: 0 <= k < |uses| && exec(uses[k].name, uses[k].input) == Raised(RunTools(exec, blocks).message)
                          && forall j :: 0 <= j < k ==> exec(uses[j].name, uses[j].input).Returned?
  {
    if blocks != [] {
      var init := blocks[..|blocks| - 1];
      var last := blocks[|blocks| - 1];
      RunToolsMeaning(exec, init);
      var before := ToolUses(init);
      var uses := ToolUses(blocks);
      assert uses == before + (if last.ToolUseBlock? then [last] else []);
      assert forall k :: 0 <= k < |before| ==> uses[k] == before[k];
      var previous := RunTools(exec, init);
      if previous.FailedWith? {
        var k :| 0 <= k < |before| && exec(before[k].name, before[k].input) == Raised(previous.message)
                 && forall j :: 0 <= j < k ==> exec(before[j].name, before[j].input).Returned?;
        assert uses[k] == before[k];
      } else if last.ToolUseBlock? {
        assert uses[|before|] == last;
        if exec(last.name, last.input).Raised? {
          assert forall j :: 0 <= j < |before| ==> exec(uses[j].name, uses[j].input).Returned?;
          assert exec(uses[|before|].name, uses[|before|].input) == Raised(RunTools(exec, blocks).message);
        }
      }
    }
  }

  const ToolFailurePrefix := "Tool execution failed: "
  const ErrorToolUseId := "error"

  /** The single record sent back when running the tools raised. */
  function ErrorRecord(message: string): ToolResultRecord {
    ToolResultRecord(ErrorToolUseId, ToolFailurePrefix + message)
  }

  /** The conversation after the tools of a round ran, and whether they all returned. */
  datatype ToolPhaseResult = ToolPhaseResult(messages: seq<Message>, success: bool)

  /**
   * The reference definition of `_execute_tools_for_round`: the assistant's
   * blocks are appended, then the tool results when there are any, or the
   * single error record when a tool raised. The stand-in response of a failed
   * call has blocks without a kind, so reading their kind raises.
   */
  function ToolPhase(exec: ToolExecutor, response: RoundResponse, messages: seq<Message>): (p: ToolPhaseResult)
    ensures |messages| + 1 <= |p.messages| <= |messages| + 2
    ensures p.messages[..|messages|] == messages
    ensures p.messages[|messages|].role == Assistant
    ensures response.Api? ==> p.messages[|messages|] == Message(Assistant, Blocks(response.response.content))
    ensures response.Api? ==> (p.success <==> RunTools(exec, response.response.content).AllReturned?)
    ensures response.Fallback? ==> !p.success
    ensures !p.success ==>
              && |p.messages| == |messages| + 2 && p.messages[|messages| + 1].role == User
              && p.messages[|messages| + 1].content.ToolResults?
              && |p.messages[|messages| + 1].content.results| == 1
              && p.messages[|messages| + 1].content.results[0].toolUseId == ErrorToolUseId
  {
    match response
    case Fallback(text) =>
      ToolPhaseResult(messages + [Message(Assistant, Blocks([TextBlock(text)])),
                                  Message(User, ToolResults([ErrorRecord(NoTypeAttribute)]))], false)
    case Api(r) =>
      var withAssistant := messages + [Message(Assistant, Blocks(r.content))];
      match RunTools(exec, r.content)
      case FailedWith(message) => ToolPhaseResult(withAssistant + [Message(User, ToolResults([ErrorRecord(message)]))], false)
      case AllReturned(results) =>
        ToolPhaseResult(if results == [] then withAssistant else withAssistant + [Message(User, ToolResults(results))], true)
  }

  // ---------------------------------------------------------------------------
  // The tool loop: at most two rounds
  // ---------------------------------------------------------------------------

  const MaxRounds := 2
  const ToolErrorMessage := "I encountered an error while searching for information."

  /** The answer of a conversation, every round's request, and the final conversation. */
  datatype Conversation = Conversation(reply: Reply, requests: seq<ApiRequest>, messages: seq<Message>)

  /** The reference definition of the tool loop, from round `round` on with the conversation so far. */
  function RoundsFrom(model: string, client: Client, tools: seq<ToolDefinition>, exec: ToolExecutor,
                      history: Option<string>, messages: seq<Message>, round: int): (c: Conversation)
    requires 1 <= round <= MaxRounds
    decreases MaxRounds - round
    ensures 1 <= |c.requests| <= MaxRounds - round + 1
    ensures c.requests[0] == RoundRequest(model, messages, BuildSystemPrompt(history, round), tools)
    ensures forall i :: 0 <= i < |c.requests| ==>
              c.requests[i].model == model && c.requests[i].temperature == Temperature
              && c.requests[i].maxTokens == MaxTokens && c.requests[i].tools == OfferedTools(tools)
    ensures |messages| <= |c.messages|
  {
    var request := RoundRequest(model, messages, BuildSystemPrompt(history, round), tools);
    var rr := RoundOutcome(client, request);
    var phase := if rr.hasToolUse then ToolPhase(exec, rr.response, messages) else ToolPhaseResult(messages, true);
    if !phase.success then Conversation(Answer(ToolErrorMessage), [request], phase.messages)
    else if !ShouldContinueRounds(round, rr, MaxRounds) then Conversation(GetTextContent(rr), [request], phase.messages)
    else
      var rest := RoundsFrom(model, client, tools, exec, history, phase.messages, round + 1);
      Conversation(rest.reply, [request] + rest.requests, rest.messages)
  }

  /**
   * The loop only appends to the conversation it is given, and the only
   * exception that escapes it is reading the text of a first block that is a
   * tool use.
   */
  lemma {:induction false} RoundsFromAppendsAndEscapesOnlyOnText(
    model: string, client: Client, tools: seq<ToolDefinition>, exec: ToolExecutor,
    history: Option<string>, messages: seq<Message>, round: int)
    requires 1 <= round <= MaxRounds
    decreases MaxRounds - round
    ensures var c := RoundsFrom(model, client, tools, exec, history, messages, round);
            && c.messages[..|messages|] == messages
            && (c.reply.Escaped? ==> c.reply.message == NoTextAttribute)
  {
    var request := RoundRequest(model, messages, BuildSystemPrompt(history, round), tools);
    var rr := RoundOutcome(client, request);
    var phase := if rr.hasToolUse then ToolPhase(exec, rr.response, messages) else ToolPhaseResult(messages, true);
    if phase.success && ShouldContinueRounds(round, rr, MaxRounds) {
      RoundsFromAppendsAndEscapesOnlyOnText(model, client, tools, exec, history, phase.messages, round + 1);
      var rest := RoundsFrom(model, client, tools, exec, history, phase.messages, round + 1);
      assert rest.messages[..|messages|] == rest.messages[..|phase.messages|][..|messages|];
    }
  }

  /**
   * One round of the loop: its request is the first, and after it the loop
   * either stops with the error message or the round's text, or goes on into
   * the next round with the conversation the tools left.
   */
  lemma RoundsFromStep(model: string, client: Client, tools: seq<ToolDefinition>, exec: ToolExecutor,
                       history: Option<string>, messages: seq<Message>, round: int,
                       rr: RoundResult, phase: ToolPhaseResult)
    requires 1 <= round <= MaxRounds
    requires rr == RoundOutcome(client, RoundRequest(model, messages, BuildSystemPrompt(history, round), tools))
    requires phase == if rr.hasToolUse then ToolPhase(exec, rr.response, messages) else ToolPhaseResult(messages, true)
    ensures var c := RoundsFrom(model, client, tools, exec, history, messages, round);
            var request := RoundRequest(model, messages, BuildSystemPrompt(history, round), tools);
            && (!phase.success ==> c == Conversation(Answer(ToolErrorMessage), [request], phase.messages))
            && (phase.success && !ShouldContinueRounds(round, rr, MaxRounds) ==>
                  c == Conversation(GetTextContent(rr), [request], phase.messages))
            && (phase.success && ShouldContinueRounds(round, rr, MaxRounds) ==>
                  var rest := RoundsFrom(model, client, tools, exec, history, phase.messages, round + 1);
                  c == Conversation(rest.reply, [request] + rest.requests, rest.messages))
  {
  }

  /** The tool loop for a query: round 1 starts from the user's question alone. */
  function SequentialRounds(model: string, client: Client, query: string, history: Option<string>,
                            tools: seq<ToolDefinition>, exec: ToolExecutor): (c: Conversation)
    ensures |c.messages| >= 1 && c.messages[0] == UserQuery(query)
    ensures c.reply.Escaped? ==> c.reply.message == NoTextAttribute
  {
    RoundsFromAppendsAndEscapesOnlyOnText(model, client, tools, exec, history, [UserQuery(query)], 1);
    RoundsFrom(model, client, tools, exec, history, [UserQuery(query)], 1)
  }

  /** Round 1's request. */
  function FirstRequest(model: string, query: string, history: Option<string>, tools: seq<ToolDefinition>): ApiRequest {
    RoundRequest(model, [UserQuery(query)], BuildSystemPrompt(history, 1), tools)
  }

  /** Whatever the model answers, the loop makes one or two calls, each offering the tools. */
  lemma AtMostTwoRounds(model: string, client: Client, query: string, history: Option<string>,
                        tools: seq<ToolDefinition>, exec: ToolExecutor)
    ensures var c := SequentialRounds(model, client, query, history, tools, exec);
            && 1 <= |c.requests| <= MaxRounds
            && c.requests[0] == FirstRequest(model, query, history, tools)
            && forall i :: 0 <= i < |c.requests| ==> c.requests[i].tools == OfferedTools(tools)
  {
  }

  /** A failed first call is answered with the apology and its error; nothing else is called. */
  lemma FailedCallGivesApology(model: string, client: Client, query: string, history: Option<string>,
                               tools: seq<ToolDefinition>, exec: ToolExecutor)
    requires Call(client, FirstRequest(model, query, history, tools)).Err?
    ensures var c := SequentialRounds(model, client, query, history, tools, exec);
            && c.reply == Answer(ApologyPrefix + Call(client, FirstRequest(model, query, history, tools)).message)
            && |c.requests| == 1
            && c.messages == [UserQuery(query)]
  {
  }

  /** A first response that does not ask for tools is the answer; no tool runs and no second call is made. */
  lemma DirectAnswerEndsAfterOneRound(model: string, client: Client, query: string, history: Option<string>,
                                      tools: seq<ToolDefinition>, exec: ToolExecutor)
    requires var outcome := Call(client, FirstRequest(model, query, history, tools));
             outcome.Ok? && outcome.response.stopReason != ToolUseStop
    ensures var c := SequentialRounds(model, client, query, history, tools, exec);
            var rr := RoundOutcome(client, FirstRequest(model, query, history, tools));
            && c.reply == GetTextContent(rr)
            && |c.requests| == 1
            && c.messages == [UserQuery(query)]
  {
  }

  /** A tool that raises in round 1 ends the loop with the search-error message and the error record; no second call. */
  lemma ToolFailureEndsLoop(model: string, client: Client, query: string, history: Option<string>,
                            tools: seq<ToolDefinition>, exec: ToolExecutor)
    requires var outcome := Call(client, FirstRequest(model, query, history, tools));
             && outcome.Ok? && outcome.response.stopReason == ToolUseStop
             && RunTools(exec, outcome.response.content).FailedWith?
    ensures var outcome := Call(client, FirstRequest(model, query, history, tools));
            var c := SequentialRounds(model, client, query, history, tools, exec);
            && c.reply == Answer(ToolErrorMessage)
            && |c.requests| == 1
            && c.messages == [UserQuery(query), Message(Assistant, Blocks(outcome.response.content)),
                              Message(User, ToolResults([ErrorRecord(RunTools(exec, outcome.response.content).message)]))]
  {
  }

  /**
   * After round-1 tools that all return, round 2 is called with the question,
   * the assistant's blocks and the tool results, under the round-2 prompt.
   * Round 2 is the last call: its tools still run, and the answer is its text
   * unless those tools raise.
   */
  lemma SecondRoundSeesToolResults(model: string, client: Client, query: string, history: Option<string>,
                                   tools: seq<ToolDefinition>, exec: ToolExecutor)
    requires var outcome := Call(client, FirstRequest(model, query, history, tools));
             && outcome.Ok? && outcome.response.stopReason == ToolUseStop
             && RunTools(exec, outcome.response.content).AllReturned?
    ensures var outcome := Call(client, FirstRequest(model, query, history, tools));
            var results := RunTools(exec, outcome.response.content).results;
            var c := SequentialRounds(model, client, query, history, tools, exec);
            var secondMessages := [UserQuery(query), Message(Assistant, Blocks(outcome.response.content))]
                                  + (if results == [] then [] else [Message(User, ToolResults(results))]);
            var second := RoundRequest(model, secondMessages, BuildSystemPrompt(history, 2), tools);
            var rr2 := RoundOutcome(client, second);
            && |c.requests| == 2
            && c.requests[1] == second
            && (results != [] ==> |c.requests[1].messages| == 3)
            && c.reply == (if rr2.hasToolUse && !ToolPhase(exec, rr2.response, secondMessages).success
                           then Answer(ToolErrorMessage) else GetTextContent(rr2))
  {
    var outcome := Call(client, FirstRequest(model, query, history, tools));
    var first := FirstRequest(model, query, history, tools);
    var rr1 := RoundOutcome(client, first);
    var phase1 := ToolPhase(exec, rr1.response, [UserQuery(query)]);
    var results := RunTools(exec, outcome.response.content).results;
    var secondMessages := [UserQuery(query), Message(Assistant, Blocks(outcome.response.content))]
                          + (if results == [] then [] else [Message(User, ToolResults(results))]);
    assert phase1.messages == secondMessages;
    assert ShouldContinueRounds(1, rr1, MaxRounds);
    var rest := RoundsFrom(model, client, tools, exec, history, secondMessages, 2);
    assert SequentialRounds(model, client, query, history, tools, exec)
           == Conversation(rest.reply, [first] + rest.requests, rest.messages);
  }

  /** The single-round path sends exactly round 1's request. */
  lemma SingleRoundSendsFirstRequest(model: string, query: string, history: Option<string>, tools: seq<ToolDefinition>)
    ensures SingleRoundRequest(model, query, history, tools) == FirstRequest(model, query, history, tools)
  {
    SystemPromptShapes(history);
  }

  // ---------------------------------------------------------------------------
  // The single-round path, the entry point and the legacy follow-up
  // ---------------------------------------------------------------------------

  const NoManagerMessage := "I have tools available but cannot execute them without a tool manager."

  function SingleRoundRequest(model: string, query: string, history: Option<string>, tools: seq<ToolDefinition>): ApiRequest {
    ApiRequest(model, Temperature, MaxTokens, [UserQuery(query)], SingleRoundSystemPrompt(history), OfferedTools(tools))
  }

  /**
   * What `_generate_single_round_response` does: errors of the call escape, a
   * request for tools is declined with a fixed message, and otherwise the
   * first block's text is the answer.
   */
  function SingleRoundReply(model: string, client: Client, query: string, history: Option<string>,
                            tools: seq<ToolDefinition>): (r: Reply)
    ensures var outcome := Call(client, SingleRoundRequest(model, query, history, tools));
            && (outcome.Err? ==> r == Escaped(outcome.message))
            && (outcome.Ok? && outcome.response.stopReason == ToolUseStop ==> r == Answer(NoManagerMessage))
            && (outcome.Ok? && outcome.response.stopReason != ToolUseStop ==> r == FirstBlockText(outcome.response))
  {
    match Call(client, SingleRoundRequest(model, query, history, tools))
    case Err(message) => Escaped(message)
    case Ok(response) => if response.stopReason == ToolUseStop then Answer(NoManagerMessage) else FirstBlockText(response)
  }

  /** What `generate_response` does: the tool loop when there are tools and a manager, else the single round. */
  function ResponseReply(model: string, client: Client, query: string, history: Option<string>,
                         tools: seq<ToolDefinition>, manager: Option<ToolExecutor>): (r: Reply)
    ensures tools == [] || manager.None? ==> r == SingleRoundReply(model, client, query, history, tools)
    ensures tools != [] && manager.Some? && r.Escaped? ==> r.message == NoTextAttribute
  {
    if tools == [] || manager.None? then SingleRoundReply(model, client, query, history, tools)
    else SequentialRounds(model, client, query, history, tools, manager.value).reply
  }

  /**
   * Without tools or without a manager, a failed call escapes as an exception;
   * with both, it comes back as an apology. Without tools, no request offers any.
   */
  lemma EntryPointErrorHandling(model: string, client: Client, query: string, history: Option<string>,
                                tools: seq<ToolDefinition>, manager: Option<ToolExecutor>)
    requires Call(client, FirstRequest(model, query, history, tools)).Err?
    ensures var message := Call(client, FirstRequest(model, query, history, tools)).message;
            ResponseReply(model, client, query, history, tools, manager)
            == if tools == [] || manager.None? then Escaped(message) else Answer(ApologyPrefix + message)
  {
    SingleRoundSendsFirstRequest(model, query, history, tools);
  }

  /** The follow-up request of the legacy path: the conversation so far, the assistant's blocks, the results, no tools. */
  function LegacyFinalRequest(model: string, messages: seq<Message>, system: string, initial: Response,
                              results: seq<ToolResultRecord>): ApiRequest
  {
    var withAssistant := messages + [Message(Assistant, Blocks(initial.content))];
    ApiRequest(model, Temperature, MaxTokens,
               if results == [] then withAssistant else withAssistant + [Message(User, ToolResults(results))],
               system, None)
  }

  /** What `_handle_tool_execution` does: a raising tool or a failed follow-up call escapes; else the first block's text. */
  function LegacyReply(model: string, client: Client, initial: Response, messages: seq<Message>, system: string,
                       exec: ToolExecutor): (r: Reply)
    ensures RunTools(exec, initial.content).FailedWith? ==> r == Escaped(RunTools(exec, initial.content).message)
    ensures r.Answer? ==>
              && RunTools(exec, initial.content).AllReturned?
              && var outcome := Call(client, LegacyFinalRequest(model, messages, system, initial,
                                                                RunTools(exec, initial.content).results));
                 && outcome.Ok? && outcome.response.content != [] && outcome.response.content[0].TextBlock?
                 && r.text == outcome.response.content[0].text
    ensures RunTools(exec, initial.content).AllReturned? ==>
              var outcome := Call(client, LegacyFinalRequest(model, messages, system, initial,
                                                             RunTools(exec, initial.content).results));
              && (outcome.Err? ==> r == Escaped(outcome.message))
              && (outcome.Ok? ==> r == FirstBlockText(outcome.response))
  {
    match RunTools(exec, initial.content)
    case FailedWith(message) => Escaped(message)
    case AllReturned(results) =>
      match Call(client, LegacyFinalRequest(model, messages, system, initial, results))
      case Err(message) => Escaped(message)
      case Ok(response) => FirstBlockText(response)
  }

  /** The legacy follow-up keeps the caller's messages and system prompt, adds the exchange, and offers no tools. */
  lemma LegacyFollowUpOffersNoTools(model: string, messages: seq<Message>, system: string, initial: Response,
                                    results: seq<ToolResultRecord>)
    ensures var request := LegacyFinalRequest(model, messages, system, initial, results);
            && request.tools == None
            && request.system == system
            && request.messages[..|messages|] == messages
            && request.messages[|messages|] == Message(Assistant, Blocks(initial.content))
            && |request.messages| == |messages| + (if results == [] then 1 else 2)
            && (results != [] ==> request.messages[|messages| + 1] == Message(User, ToolResults(results)))
  {
  }

  // ---------------------------------------------------------------------------
  // The conversation state of the tool loop
  // ---------------------------------------------------------------------------

  /** The messages of the conversation so far and the number of the current round. */
  class RoundContext {

    var messages: seq<Message>
    var roundNumber: int
    const conversationHistory: Option<string>

    constructor (initialQuery: string, conversationHistory: Option<string>)
      ensures messages == [UserQuery(initialQuery)] && roundNumber == 1
      ensures this.conversationHistory == conversationHistory
    {
      messages := [UserQuery(initialQuery)];
      roundNumber := 1;
      this.conversationHistory := conversationHistory;
    }

    method AddAssistantMessage(content: Content)
      modifies this
      ensures messages == old(messages) + [Message(Assistant, content)]
      ensures roundNumber == old(roundNumber)
    {
      messages := messages + [Message(Assistant, content)];
    }

    method AddUserMessage(content: Content)
      modifies this
      ensures messages == old(messages) + [Message(User, content)]
      ensures roundNumber == old(roundNumber)
    {
      messages := messages + [Message(User, content)];
    }

    method IncrementRound()
      modifies this
      ensures roundNumber == old(roundNumber) + 1
      ensures messages == old(messages)
    {
      roundNumber := roundNumber + 1;
    }
  }

  // ---------------------------------------------------------------------------
  // The generator
  // ---------------------------------------------------------------------------

  /** Answers queries with one model and one client; neither changes after construction. */
  class AIGenerator {

    const model: string
    const client: Client

    constructor (model: string, client: Client)
      ensures this.model == model && this.client == client
    {
      this.model := model;
      this.client := client;
    }

    /**
     * Calls the model up to four times. Rate limits, the statuses 529, 502,
     * 503 and 504 and connection failures are retried after a backoff;
     * anything else, and a retryable failure of the last attempt, ends the
     * call with an error message.
     */
    method MakeApiCallWithRetry(request: ApiRequest, jitter: JitterSource)
      returns (r: CallOutcome, attempts: nat, delays: seq<real>)
      ensures RetryRun(r, attempts, delays) == RetryFrom(client, request, jitter, 0)
      ensures r == Call(client, request)
      ensures 1 <= attempts <= MaxRetries + 1 && |delays| == attempts - 1
    {
      var attempt: nat := 0;
      var done := false;
      r, attempts, delays := Err(""), 0, [];
      while !done
        invariant attempt <= MaxRetries
        invariant !done ==>
                    var rest := RetryFrom(client, request, jitter, attempt);
                    RetryFrom(client, request, jitter, 0) == RetryRun(rest.outcome, rest.attempts, delays + rest.delays)
        invariant done ==> RetryRun(r, attempts, delays) == RetryFrom(client, request, jitter, 0)
        decreases MaxRetries - attempt, if done then 0 else 1
      {
        match client(request, attempt) {
          case Succeeded(response) =>
            r, attempts, done := Ok(response), attempt + 1, true;
          case Failed(kind) =>
            if !Retryable(kind) {
              r, attempts, done := Err(FatalMessage(kind)), attempt + 1, true;
            } else if attempt == MaxRetries {
              r, attempts, done := Err(ExhaustedMessage(kind)), attempt + 1, true;
            } else {
              var delay := BackoffDelay(kind, attempt, jitter(attempt));
              ghost var rest := RetryFrom(client, request, jitter, attempt + 1);
              assert (delays + [delay]) + rest.delays == delays + ([delay] + rest.delays);
              delays := delays + [delay];
              attempt := attempt + 1;
            }
        }
        if done {
          assert delays + [] == delays;
        }
      }
      RetryOutcomeIgnoresJitter(client, request, jitter, NoJitter, 0);
    }

    /** One round: the call with the context's messages and prompt; a failed call becomes the apology. */
    method ExecuteSingleRound(context: RoundContext, tools: seq<ToolDefinition>, jitter: JitterSource)
      returns (r: RoundResult)
      ensures r == RoundOutcome(client, RoundRequest(model, context.messages,
                                                     BuildSystemPrompt(context.conversationHistory, context.roundNumber), tools))
    {
      var systemContent := BuildSystemPrompt(context.conversationHistory, context.roundNumber);
      var request := ApiRequest(model, Temperature, MaxTokens, context.messages, systemContent, OfferedTools(tools));
      var outcome, _, _ := MakeApiCallWithRetry(request, jitter);
      match outcome {
        case Ok(response) =>
          r := RoundResult(Api(response), response.stopReason == ToolUseStop, true, None);
        case Err(message) =>
          r := RoundResult(Fallback(ApologyPrefix + message), false, false, Some(message));
      }
    }

    /**
     * Appends the assistant's blocks to the context, runs the tool uses in
     * order and appends their results; when a tool raises, appends the error
     * record instead and reports failure.
     */
    method ExecuteToolsForRound(roundResult: RoundResult, context: RoundContext, exec: ToolExecutor)
      returns (success: bool)
      modifies context
      ensures var phase := ToolPhase(exec, roundResult.response, old(context.messages));
              context.messages == phase.messages && success == phase.success
      ensures context.roundNumber == old(context.roundNumber)
    {
      match roundResult.response {
        case Fallback(text) =>
          context.AddAssistantMessage(Blocks([TextBlock(text)]));
          context.AddUserMessage(ToolResults([ErrorRecord(NoTypeAttribute)]));
          return false;
        case Api(response) =>
          var content := response.content;
          context.AddAssistantMessage(Blocks(content));
          var toolResults: seq<ToolResultRecord> := [];
          var i := 0;
          while i < |content|
            invariant 0 <= i <= |content|
            invariant RunTools(exec, content[..i]) == AllReturned(toolResults)
            invariant context.messages == old(context.messages) + [Message(Assistant, Blocks(content))]
            invariant context.roundNumber == old(context.roundNumber)
          {
            var block := content[i];
            assert content[..i + 1][..i] == content[..i];
            if block.ToolUseBlock? {
              match exec(block.name, block.input) {
                case Raised(message) =>
                  RunToolsFailurePersists(exec, content[..i + 1], content);
                  context.AddUserMessage(ToolResults([ErrorRecord(message)]));
                  return false;
                case Returned(result) =>
                  toolResults := toolResults + [ToolResultRecord(block.id, result)];
              }
            }
            i := i + 1;
          }
          assert content[..i] == content;
          if toolResults != [] {
            context.AddUserMessage(ToolResults(toolResults));
          }
          return true;
      }
    }

    /**
     * The tool loop: up to two rounds over one conversation. Besides the reply,
     * `requests` records the request of every round's call and `messages` the
     * final conversation.
     */
    method ExecuteSequentialRounds(query: string, history: Option<string>, tools: seq<ToolDefinition>,
                                   exec: ToolExecutor, jitter: JitterSource)
      returns (r: Reply, ghost requests: seq<ApiRequest>, ghost messages: seq<Message>)
      ensures r == SequentialRounds(model, client, query, history, tools, exec).reply
      ensures Conversation(r, requests, messages) == SequentialRounds(model, client, query, history, tools, exec)
    {
      var context := new RoundContext(query, history);
      var done := false;
      r := Answer("");
      requests := [];
      ghost var whole := SequentialRounds(model, client, query, history, tools, exec);
      while context.roundNumber <= MaxRounds && !done
        invariant 1 <= context.roundNumber <= MaxRounds
        invariant context.conversationHistory == history
        invariant !done ==>
                    var rest := RoundsFrom(model, client, tools, exec, history, context.messages, context.roundNumber);
                    whole.reply == rest.reply && whole.requests == requests + rest.requests && whole.messages == rest.messages
        invariant done ==> whole.reply == r && whole.requests == requests && whole.messages == context.messages
        decreases MaxRounds - context.roundNumber, if done then 0 else 1
      {
        ghost var round, sent := context.roundNumber, context.messages;
        ghost var current := RoundsFrom(model, client, tools, exec, history, sent, round);
        ghost var request := RoundRequest(model, sent, BuildSystemPrompt(history, round), tools);
        var roundResult := ExecuteSingleRound(context, tools, jitter);
        assert roundResult == RoundOutcome(client, request);
        ghost var phase := if roundResult.hasToolUse then ToolPhase(exec, roundResult.response, sent)
                           else ToolPhaseResult(sent, true);
        if roundResult.hasToolUse {
          var success := ExecuteToolsForRound(roundResult, context, exec);
          if !success {
            r, done := Answer(ToolErrorMessage), true;
          }
        }
        assert context.messages == phase.messages && (done <==> !phase.success);
        RoundsFromStep(model, client, tools, exec, history, sent, round, roundResult, phase);
        if !done {
          if !ShouldContinueRounds(context.roundNumber, roundResult, MaxRounds) {
            r, done := GetTextContent(roundResult), true;
          } else {
            context.IncrementRound();
          }
        }
        if !done {
          ghost var next := RoundsFrom(model, client, tools, exec, history, context.messages, context.roundNumber);
          AppendAssociates(requests, [request], next.requests);
        }
        requests := requests + [request];
      }
      messages := context.messages;
    }

    /** The single round without a tool manager. */
    method GenerateSingleRoundResponse(query: string, history: Option<string>, tools: seq<ToolDefinition>,
                                       jitter: JitterSource)
      returns (r: Reply)
      ensures r == SingleRoundReply(model, client, query, history, tools)
    {
      var systemContent := if Truthy(history) then SystemPrompt + HistoryHeading + history.value else SystemPrompt;
      var request := ApiRequest(model, Temperature, MaxTokens, [UserQuery(query)], systemContent, OfferedTools(tools));
      var outcome, _, _ := MakeApiCallWithRetry(request, jitter);
      match outcome {
        case Err(message) =>
          r := Escaped(message);
        case Ok(response) =>
          if response.stopReason == ToolUseStop {
            r := Answer(NoManagerMessage);
          } else {
            r := FirstBlockText(response);
          }
      }
    }

    /** Answers a query: the tool loop when tools and a manager are given, else a single round. */
    method GenerateResponse(query: string, history: Option<string>, tools: seq<ToolDefinition>,
                            manager: Option<ToolExecutor>, jitter: JitterSource)
      returns (r: Reply)
      ensures r == ResponseReply(model, client, query, history, tools, manager)
    {
      if tools == [] || manager.None? {
        r := GenerateSingleRoundResponse(query, history, tools, jitter);
      } else {
        ghost var requests, messages;
        r, requests, messages := ExecuteSequentialRounds(query, history, tools, manager.value, jitter);
      }
    }

    /** The legacy follow-up: runs the requested tools, then calls once more without tools. */
    method HandleToolExecution(initial: Response, messages: seq<Message>, system: string, exec: ToolExecutor,
                               jitter: JitterSource)
      returns (r: Reply)
      ensures r == LegacyReply(model, client, initial, messages, system, exec)
    {
      var content := initial.content;
      var toolResults: seq<ToolResultRecord> := [];
      var i := 0;
      while i < |content|
        invariant 0 <= i <= |content|
        invariant RunTools(exec, content[..i]) == AllReturned(toolResults)
      {
        var block := content[i];
        assert content[..i + 1][..i] == content[..i];
        if block.ToolUseBlock? {
          match exec(block.name, block.input) {
            case Raised(message) =>
              RunToolsFailurePersists(exec, content[..i + 1], content);
              return Escaped(message);
            case Returned(result) =>
              toolResults := toolResults + [ToolResultRecord(block.id, result)];
          }
        }
        i := i + 1;
      }
      assert content[..i] == content;
      var finalMessages := messages + [Message(Assistant, Blocks(content))];
      if toolResults != [] {
        finalMessages := finalMessages + [Message(User, ToolResults(toolResults))];
      }
      var finalRequest := ApiRequest(model, Temperature, MaxTokens, finalMessages, system, None);
      var outcome, _, _ := MakeApiCallWithRetry(finalRequest, jitter);
      match outcome {
        case Err(message) =>
          r := Escaped(message);
        case Ok(response) =>
          r := FirstBlockText(response);
      }
    }
  }
}
