/** The tool-use loop of agent.py: one run of converse calls and tool dispatches under a policy. */
module AgentLoop {
  import opened Wrappers
  import opened Json

  type Params = map<string, Json>

  datatype ToolUse = ToolUse(id: string, name: string, input: Params)

  /** A content block of the model: it may carry text, a tool use, both or neither. */
  datatype Block = Block(text: Option<string>, toolUse: Option<ToolUse>)

  datatype ToolError = CapabilityDenied(name: string) | UnknownTool(name: string) | Failed(reason: string)
    | Reported(error: string)

  datatype ToolResult = ToolResult(content: Json, error: Option<ToolError>) {
    predicate Ok() {
      error.None?
    }
  }

  datatype ResultBlock = ResultBlock(id: string, result: ToolResult, success: bool)

  datatype Message = UserText(text: string) | Assistant(content: seq<Block>) | ToolResults(results: seq<ResultBlock>)

  datatype Response = Response(inputTokens: nat, outputTokens: nat, content: seq<Block>, stop: string) {
    function Cost(): nat {
      inputTokens + outputTokens
    }
  }

  datatype StopReason =
    | EndTurn | ToolUseStop | MaxIterations | BudgetExhausted | UpstreamMaxTokens
    | StopSequence | ContentFiltered | GuardrailIntervened | Error
  {
    /** The value of the enumeration member. */
    function Value(): string {
      match this
      case EndTurn => "end_turn"
      case ToolUseStop => "tool_use"
      case MaxIterations => "max_iterations"
      case BudgetExhausted => "budget_exhausted"
      case UpstreamMaxTokens => "max_tokens"
      case StopSequence => "stop_sequence"
      case ContentFiltered => "content_filtered"
      case GuardrailIntervened => "guardrail_intervened"
      case Error => "error"
    }
  }

  const TOOL_USE := "tool_use"
  const END_TURN := "end_turn"

  /** `_coerce_stop_reason`: an unknown reason is an error. */
  function Coerce(raw: string): StopReason {
    match raw
    case "end_turn" => EndTurn
    case "tool_use" => ToolUseStop
    case "max_iterations" => MaxIterations
    case "budget_exhausted" => BudgetExhausted
    case "max_tokens" => UpstreamMaxTokens
    case "stop_sequence" => StopSequence
    case "content_filtered" => ContentFiltered
    case "guardrail_intervened" => GuardrailIntervened
    case _ => Error
  }

  /** What a run is given. The model is a function of the conversation and a tool a function of the number of
      the call, so that neither need answer the same question in the same way twice. */
  datatype Setup = Setup(
    converse: seq<Message> -> Response,
    allowed: string -> bool,
    tools: set<string>,
    execute: (nat, string, Params) -> Result<ToolResult, string>,
    pins: seq<(string, Json)>,
    maxIterations: int,
    maxTotalTokens: int)

  datatype CallRecord = CallRecord(
    name: string, input: Params, result: ToolResult, pinned: seq<string>, pinOverrides: seq<string>)

  /** The tool input after the first `n` pins are forced on it. */
  function Pinned(input: Params, pins: seq<(string, Json)>, n: nat): Params
    requires n <= |pins|
  {
    if n == 0 then input else Pinned(input, pins, n - 1)[pins[n - 1].0 := pins[n - 1].1]
  }

  function Overrides(input: Params, pins: seq<(string, Json)>, n: nat): seq<string>
    requires n <= |pins|
  {
    if n == 0 then []
    else
      var (key, value) := pins[n - 1];
      var before := Pinned(input, pins, n - 1);
      Overrides(input, pins, n - 1) + (if key in before && before[key] != value then [key] else [])
  }

  function PinKeys(pins: seq<(string, Json)>): seq<string> {
    seq(|pins|, i requires 0 <= i < |pins| => pins[i].0)
  }

  /** `_dispatch`: the capability layers, then the registry, then the tool itself. */
  function Dispatch(setup: Setup, n: nat, name: string, params: Params): ToolResult {
    if !setup.allowed(name) then ToolResult(Null, Some(CapabilityDenied(name)))
    else if name !in setup.tools then ToolResult(Null, Some(UnknownTool(name)))
    else match setup.execute(n, name, params)
      case Success(result) => result
      case Failure(reason) => ToolResult(Null, Some(Failed(reason)))
  }

  /** The record of the run's tool call number `n`. */
  function RecordOf(setup: Setup, use: ToolUse, n: nat): CallRecord {
    var input := Pinned(use.input, setup.pins, |setup.pins|);
    CallRecord(use.name, input, Dispatch(setup, n, use.name, input), PinKeys(setup.pins),
               Overrides(use.input, setup.pins, |setup.pins|))
  }

  function ToolUses(content: seq<Block>): seq<ToolUse> {
    if content == [] then []
    else ToolUses(content[..|content| - 1]) +
         (match content[|content| - 1].toolUse case Some(use) => [use] case None => [])
  }

  function RecordsFor(setup: Setup, uses: seq<ToolUse>, n: nat): seq<CallRecord> {
    seq(|uses|, i requires 0 <= i < |uses| => RecordOf(setup, uses[i], n + i))
  }

  function AnswersTo(setup: Setup, uses: seq<ToolUse>, n: nat): seq<ResultBlock> {
    seq(|uses|, i requires 0 <= i < |uses| =>
      var result := RecordOf(setup, uses[i], n + i).result; ResultBlock(uses[i].id, result, result.Ok()))
  }

  function TextParts(content: seq<Block>): seq<string> {
    if content == [] then []
    else (match content[0].text case Some(t) => [t] case None => []) + TextParts(content[1..])
  }

  function Join(parts: seq<string>): string {
    if parts == [] then "" else if |parts| == 1 then parts[0] else parts[0] + "\n" + Join(parts[1..])
  }

  datatype State = State(
    messages: seq<Message>,
    toolCalls: seq<CallRecord>,
    inputTokens: nat,
    outputTokens: nat,
    iterations: nat,
    calls: nat,
    lastText: string)
  {
    function Total(): nat {
      inputTokens + outputTokens
    }
  }

  function Initial(userMessage: string): State {
    State([UserText(userMessage)], [], 0, 0, 0, 0, "")
  }

  /** The state once the model has answered. */
  function Heard(s: State, r: Response): State {
    var text := Join(TextParts(r.content));
    s.(iterations := s.iterations + 1,
       inputTokens := s.inputTokens + r.inputTokens,
       outputTokens := s.outputTokens + r.outputTokens,
       messages := s.messages + [Assistant(r.content)],
       lastText := if text != "" then text else s.lastText)
  }

  /** The state once its tool uses are answered. */
  function Answered(setup: Setup, s: State, content: seq<Block>): State {
    var uses := ToolUses(content);
    s.(toolCalls := s.toolCalls + RecordsFor(setup, uses, s.calls),
       calls := s.calls + |uses|,
       messages := s.messages + [ToolResults(AnswersTo(setup, uses, s.calls))])
  }

  /** `run` from a loop head with `left` iterations to go. */
  function RunFrom(setup: Setup, s: State, left: nat): (State, StopReason)
    decreases left
  {
    if left == 0 then (s, MaxIterations)
    else if s.Total() > setup.maxTotalTokens then (s, BudgetExhausted)
    else
      var r := setup.converse(s.messages);
      var heard := Heard(s, r);
      if r.stop == TOOL_USE then RunFrom(setup, Answered(setup, heard, r.content), left - 1)
      else (heard, Coerce(r.stop))
  }

  function Iterations(setup: Setup): nat {
    if setup.maxIterations > 0 then setup.maxIterations else 0
  }

  function Run(setup: Setup, userMessage: string): (State, StopReason) {
    RunFrom(setup, Initial(userMessage), Iterations(setup))
  }

  /** One run of an agent, with the conversation, the call log and the usage it updates as it goes. */
  class AgentRun {
    var messages: seq<Message>
    var toolCalls: seq<CallRecord>
    var inputTokens: nat
    var outputTokens: nat
    var iterations: nat
    var calls: nat
    var lastText: string

    function Current(): State
      reads this
    {
      State(messages, toolCalls, inputTokens, outputTokens, iterations, calls, lastText)
    }

    constructor (userMessage: string)
      ensures Current() == Initial(userMessage)
    {
      messages, toolCalls := [UserText(userMessage)], [];
      inputTokens, outputTokens, iterations, calls := 0, 0, 0, 0;
      lastText := "";
    }

    /** `_execute_tool_calls`: pins are written over the model's input, block by block. */
    method ExecuteToolCalls(setup: Setup, content: seq<Block>) returns (results: seq<ResultBlock>)
      modifies this`toolCalls, this`calls
      ensures results == AnswersTo(setup, ToolUses(content), old(calls))
      ensures toolCalls == old(toolCalls) + RecordsFor(setup, ToolUses(content), old(calls))
      ensures calls == old(calls) + |ToolUses(content)|
    {
      results := [];
      for b := 0 to |content|
        invariant var uses := ToolUses(content[..b]);
          && results == AnswersTo(setup, uses, old(calls))
          && toolCalls == old(toolCalls) + RecordsFor(setup, uses, old(calls))
          && calls == old(calls) + |uses|
      {
        assert content[..b + 1][..b] == content[..b];
        if content[b].toolUse.Some? {
          var use := content[b].toolUse.value;
          var toolInput, pinned, pinOverrides := PinInput(use.input, setup.pins);
          var result := Dispatch(setup, calls, use.name, toolInput);
          OneMoreUse(setup, ToolUses(content[..b]), use, old(calls));
          calls := calls + 1;
          toolCalls := toolCalls + [CallRecord(use.name, toolInput, result, pinned, pinOverrides)];
          results := results + [ResultBlock(use.id, result, result.Ok())];
        } else {
          assert ToolUses(content[..b + 1]) == ToolUses(content[..b]);
        }
      }
      assert content[..|content|] == content;
    }

    /** `run` */
    method RunLoop(setup: Setup) returns (stop: StopReason)
      modifies this
      ensures (Current(), stop) == RunFrom(setup, old(Current()), Iterations(setup))
    {
      hide ToolUses, RecordsFor, AnswersTo, TextParts, Join;
      for i := 0 to Iterations(setup)
        invariant RunFrom(setup, Current(), Iterations(setup) - i) == RunFrom(setup, old(Current()), Iterations(setup))
      {
        if inputTokens + outputTokens > setup.maxTotalTokens {
          return BudgetExhausted;
        }
        var response := setup.converse(messages);
        ghost var before := Current();
        iterations := iterations + 1;
        inputTokens := inputTokens + response.inputTokens;
        outputTokens := outputTokens + response.outputTokens;
        messages := messages + [Assistant(response.content)];
        var text := Join(TextParts(response.content));
        if text != "" {
          lastText := text;
        }
        assert Current() == Heard(before, response);
        if response.stop == END_TURN {
          return EndTurn;
        }
        if response.stop == TOOL_USE {
          var results := ExecuteToolCalls(setup, response.content);
          messages := messages + [ToolResults(results)];
          assert Current() == Answered(setup, Heard(before, response), response.content);
        } else {
          return Coerce(response.stop);
        }
      }
      return MaxIterations;
    }
  }

  /** The pin loop: pinned keys are listed, differing ones noted, and the value forced. */
  method PinInput(input: Params, pins: seq<(string, Json)>)
    returns (toolInput: Params, pinned: seq<string>, pinOverrides: seq<string>)
    ensures toolInput == Pinned(input, pins, |pins|)
    ensures pinned == PinKeys(pins) && pinOverrides == Overrides(input, pins, |pins|)
  {
    toolInput, pinned, pinOverrides := input, [], [];
    for i := 0 to |pins|
      invariant toolInput == Pinned(input, pins, i) && pinOverrides == Overrides(input, pins, i)
      invariant pinned == PinKeys(pins)[..i]
    {
      var (key, value) := pins[i];
      pinned := pinned + [key];
      if key in toolInput && toolInput[key] != value {
        pinOverrides := pinOverrides + [key];
      }
      toolInput := toolInput[key := value];
    }
  }

  lemma OneMoreUse(setup: Setup, uses: seq<ToolUse>, use: ToolUse, n: nat)
    ensures RecordsFor(setup, uses + [use], n) == RecordsFor(setup, uses, n) + [RecordOf(setup, use, n + |uses|)]
    ensures AnswersTo(setup, uses + [use], n) == AnswersTo(setup, uses, n) +
      [ResultBlock(use.id, RecordOf(setup, use, n + |uses|).result, RecordOf(setup, use, n + |uses|).result.Ok())]
  {
  }
}
