/** What every run of the tool-use loop keeps: the shape of the conversation, the call log, the usage and the policy. */
module AgentTheorems {
  import opened Wrappers
  import opened Json
  import opened AgentLoop

  /** The tokens of the converse calls a conversation took. */
  function Spent(setup: Setup, m: seq<Message>): nat {
    if m == [] then 0
    else
      var before := m[..|m| - 1];
      Spent(setup, before) + (if m[|m| - 1].Assistant? then setup.converse(before).Cost() else 0)
  }

  /** The input and the output tokens of the converse calls a conversation took. */
  function Used(setup: Setup, m: seq<Message>): (nat, nat) {
    if m == [] then (0, 0)
    else
      var before := m[..|m| - 1];
      var (input, output) := Used(setup, before);
      var r := setup.converse(before);
      if m[|m| - 1].Assistant? then (input + r.inputTokens, output + r.outputTokens) else (input, output)
  }

  /** The text of the last message of the model that has some. */
  function LastText(m: seq<Message>): string {
    if m == [] then ""
    else
      var last := m[|m| - 1];
      if last.Assistant? && Join(TextParts(last.content)) != "" then Join(TextParts(last.content))
      else LastText(m[..|m| - 1])
  }

  /** The converse calls a conversation took: each appends one message of the model. */
  function Calls(m: seq<Message>): nat {
    if m == [] then 0 else Calls(m[..|m| - 1]) + (if m[|m| - 1].Assistant? then 1 else 0)
  }

  /** The tool uses that have been answered, in order. */
  function AnsweredUses(m: seq<Message>): seq<ToolUse> {
    if |m| < 2 then []
    else
      AnsweredUses(m[..|m| - 1]) +
      (if m[|m| - 1].ToolResults? && m[|m| - 2].Assistant? then ToolUses(m[|m| - 2].content) else [])
  }

  /** Message `i` is the model's answer to the conversation before it, or the results of the tool uses of the
      message before it: one result per use, with its id, in its place, holding what the log recorded. */
  ghost predicate Follows(setup: Setup, m: seq<Message>, i: nat)
    requires 0 < i < |m|
  {
    if i % 2 == 1 then m[i] == Assistant(setup.converse(m[..i]).content)
    else
      && m[i - 1].Assistant? && setup.converse(m[..i - 1]).stop == TOOL_USE
      && m[i] == ToolResults(AnswersTo(setup, ToolUses(m[i - 1].content), |AnsweredUses(m[..i - 1])|))
  }

  /** The user speaks first, then the model and the user side take turns. */
  ghost predicate Alternates(setup: Setup, m: seq<Message>) {
    m != [] && m[0].UserText? && forall i :: 0 < i < |m| ==> Follows(setup, m, i)
  }

  /** No converse call was made once the budget was overdrawn. */
  ghost predicate WithinBudget(setup: Setup, m: seq<Message>) {
    forall i :: 0 < i < |m| && m[i].Assistant? ==> Spent(setup, m[..i]) <= setup.maxTotalTokens
  }

  /** What holds at every point of a run. */
  ghost predicate Invariant(setup: Setup, s: State) {
    && Alternates(setup, s.messages)
    && WithinBudget(setup, s.messages)
    && s.iterations == Calls(s.messages)
    && s.Total() == Spent(setup, s.messages) && (s.inputTokens, s.outputTokens) == Used(setup, s.messages)
    && s.lastText == LastText(s.messages)
    && s.calls == |AnsweredUses(s.messages)|
    && s.toolCalls == RecordsFor(setup, AnsweredUses(s.messages), 0)
  }

  lemma OneMoreMessage(setup: Setup, m: seq<Message>, last: Message)
    requires m != []
    ensures var more := m + [last];
      && Spent(setup, more) == Spent(setup, m) + (if last.Assistant? then setup.converse(m).Cost() else 0)
      && Calls(more) == Calls(m) + (if last.Assistant? then 1 else 0)
      && AnsweredUses(more) == AnsweredUses(m) +
           (if last.ToolResults? && m[|m| - 1].Assistant? then ToolUses(m[|m| - 1].content) else [])
  {
    assert (m + [last])[..|m|] == m;
  }

  lemma OneMoreAnswer(setup: Setup, m: seq<Message>, last: Message)
    ensures var more := m + [last]; var r := setup.converse(m);
      && Used(setup, more) == (Used(setup, m).0 + (if last.Assistant? then r.inputTokens else 0),
                               Used(setup, m).1 + (if last.Assistant? then r.outputTokens else 0))
      && var text := if last.Assistant? then Join(TextParts(last.content)) else "";
         LastText(more) == if text != "" then text else LastText(m)
  {
    hide Join, TextParts;
    assert (m + [last])[..|m|] == m;
  }

  lemma StillAlternates(setup: Setup, m: seq<Message>, last: Message)
    requires Alternates(setup, m) && Follows(setup, m + [last], |m|)
    ensures Alternates(setup, m + [last])
  {
    var more := m + [last];
    forall i | 0 < i < |more| ensures Follows(setup, more, i) {
      if i < |m| {
        assert Follows(setup, m, i);
        assert more[..i] == m[..i] && more[..i - 1] == m[..i - 1];
      }
    }
  }

  lemma StillWithinBudget(setup: Setup, m: seq<Message>, last: Message)
    requires WithinBudget(setup, m) && (last.Assistant? ==> Spent(setup, m) <= setup.maxTotalTokens)
    ensures WithinBudget(setup, m + [last])
  {
    var more := m + [last];
    forall i | 0 < i < |more| && more[i].Assistant? ensures Spent(setup, more[..i]) <= setup.maxTotalTokens {
      if i < |m| {
        assert more[..i] == m[..i];
      } else {
        assert more[..i] == m;
      }
    }
  }

  lemma HearingKeeps(setup: Setup, s: State)
    requires Invariant(setup, s) && |s.messages| % 2 == 1 && s.Total() <= setup.maxTotalTokens
    ensures Invariant(setup, Heard(s, setup.converse(s.messages)))
  {
    hide Calls, Spent, Used, LastText, AnsweredUses, RecordsFor, Alternates, WithinBudget, Join, TextParts;
    var r := setup.converse(s.messages);
    var last := Assistant(r.content);
    assert (s.messages + [last])[..|s.messages|] == s.messages;
    assert s.messages != [] by { Starts(setup, s.messages); }
    OneMoreMessage(setup, s.messages, last);
    OneMoreAnswer(setup, s.messages, last);
    assert AnsweredUses(s.messages) + [] == AnsweredUses(s.messages);
    StillAlternates(setup, s.messages, last);
    StillWithinBudget(setup, s.messages, last);
  }

  lemma Starts(setup: Setup, m: seq<Message>)
    requires Alternates(setup, m)
    ensures m != []
  {
  }

  lemma RecordsJoin(setup: Setup, a: seq<ToolUse>, b: seq<ToolUse>)
    ensures RecordsFor(setup, a + b, 0) == RecordsFor(setup, a, 0) + RecordsFor(setup, b, |a|)
  {
  }

  /** The state after an answer that asked for tools, before they are run. */
  ghost predicate AsksForTools(setup: Setup, s: State) {
    && |s.messages| >= 2 && |s.messages| % 2 == 0
    && s.messages[|s.messages| - 1].Assistant?
    && setup.converse(s.messages[..|s.messages| - 1]).stop == TOOL_USE
  }

  lemma AnsweringKeeps(setup: Setup, s: State)
    requires Invariant(setup, s) && AsksForTools(setup, s)
    ensures Invariant(setup, Answered(setup, s, s.messages[|s.messages| - 1].content))
  {
    hide Calls, Spent, Used, LastText, RecordsFor, Alternates, WithinBudget, AnswersTo, ToolUses, Join, TextParts;
    var m := s.messages;
    var uses := ToolUses(m[|m| - 1].content);
    var last := ToolResults(AnswersTo(setup, uses, s.calls));
    assert (m + [last])[..|m| - 1] == m[..|m| - 1];
    assert AnsweredUses(m) == AnsweredUses(m[..|m| - 1]) + [];
    OneMoreMessage(setup, m, last);
    OneMoreAnswer(setup, m, last);
    StillAlternates(setup, m, last);
    StillWithinBudget(setup, m, last);
    RecordsJoin(setup, AnsweredUses(m), uses);
  }

  lemma InitialKeeps(setup: Setup, userMessage: string)
    ensures Invariant(setup, Initial(userMessage))
  {
  }

  /** How a run ends, from a loop head with `left` iterations to go. */
  ghost predicate EndsRightly(setup: Setup, from: State, left: nat, end: State, stop: StopReason) {
    && from.iterations <= end.iterations <= from.iterations + left
    && stop != ToolUseStop
    && if |end.messages| % 2 == 0 then
         && end.messages != [] && end.messages[|end.messages| - 1].Assistant?
         && var r := setup.converse(end.messages[..|end.messages| - 1]); r.stop != TOOL_USE && stop == Coerce(r.stop)
       else if end.iterations == from.iterations + left then stop == MaxIterations
       else stop == BudgetExhausted && end.Total() > setup.maxTotalTokens
  }

  lemma {:induction false} RunKeeps(setup: Setup, s: State, left: nat)
    requires Invariant(setup, s) && |s.messages| % 2 == 1
    ensures var (end, stop) := RunFrom(setup, s, left); Invariant(setup, end) && EndsRightly(setup, s, left, end, stop)
    decreases left
  {
    hide Invariant, Answered, Heard, Coerce, EndsRightly;
    if left == 0 || s.Total() > setup.maxTotalTokens {
      StopsAtOnce(setup, s, left);
    } else {
      var r := setup.converse(s.messages);
      var heard := Heard(s, r);
      HearingKeeps(setup, s);
      HeardSizes(s, r);
      if r.stop == TOOL_USE {
        var next := Answered(setup, heard, r.content);
        AsksWhenHeard(setup, s);
        AnsweringKeeps(setup, heard);
        AnsweredSizes(setup, heard, r.content);
        RunKeeps(setup, next, left - 1);
        EndsLater(setup, s, next, left, RunFrom(setup, next, left - 1).0, RunFrom(setup, next, left - 1).1);
      } else {
        EndsWithAnswer(setup, s, left);
      }
    }
  }

  lemma StopsAtOnce(setup: Setup, s: State, left: nat)
    requires |s.messages| % 2 == 1 && (left == 0 || s.Total() > setup.maxTotalTokens)
    ensures EndsRightly(setup, s, left, s, if left == 0 then MaxIterations else BudgetExhausted)
  {
  }

  lemma EndsWithAnswer(setup: Setup, s: State, left: nat)
    requires |s.messages| % 2 == 1 && left > 0 && setup.converse(s.messages).stop != TOOL_USE
    ensures var r := setup.converse(s.messages); EndsRightly(setup, s, left, Heard(s, r), Coerce(r.stop))
  {
    hide Coerce;
    var r := setup.converse(s.messages);
    HeardSizes(s, r);
    OtherStopsAreFinal(r.stop);
  }

  lemma EndsLater(setup: Setup, s: State, next: State, left: nat, end: State, stop: StopReason)
    requires left > 0 && next.iterations == s.iterations + 1 && EndsRightly(setup, next, left - 1, end, stop)
    ensures EndsRightly(setup, s, left, end, stop)
  {
    hide Coerce;
  }

  lemma AsksWhenHeard(setup: Setup, s: State)
    requires |s.messages| % 2 == 1 && setup.converse(s.messages).stop == TOOL_USE
    ensures AsksForTools(setup, Heard(s, setup.converse(s.messages)))
  {
    HeardSizes(s, setup.converse(s.messages));
  }

  lemma HeardSizes(s: State, r: Response)
    ensures var heard := Heard(s, r);
      && |heard.messages| == |s.messages| + 1 && heard.messages[..|s.messages|] == s.messages
      && heard.messages[|s.messages|] == Assistant(r.content) && heard.iterations == s.iterations + 1
  {
  }

  lemma AnsweredSizes(setup: Setup, s: State, content: seq<Block>)
    ensures |Answered(setup, s, content).messages| == |s.messages| + 1
    ensures Answered(setup, s, content).iterations == s.iterations
  {
  }

  lemma OtherStopsAreFinal(raw: string)
    ensures Coerce(raw) == ToolUseStop <==> raw == TOOL_USE
  {
    var t := TOOL_USE;
    assert t[0] == 't' && t[1] == 'o';
  }

  /** Every run stays within policy. It makes as many converse calls as it counts, at most `maxIterations`; it
      never calls the model once the budget is overdrawn; the conversation alternates, each tool use being
      answered once, in order and under its id; the log holds each call once; and the run ends for the reason
      it reports, which is never a tool use. */
  lemma RunStaysWithinPolicy(setup: Setup, userMessage: string)
    ensures var (end, stop) := Run(setup, userMessage);
      && Invariant(setup, end)
      && (end.iterations <= setup.maxIterations || (end.iterations == 0 && setup.maxIterations < 0))
      && (|end.messages| % 2 == 1 && end.iterations < setup.maxIterations ==> stop == BudgetExhausted)
      && EndsRightly(setup, Initial(userMessage), Iterations(setup), end, stop)
  {
    InitialKeeps(setup, userMessage);
    RunKeeps(setup, Initial(userMessage), Iterations(setup));
  }

  /** Message `i` is the model's last. */
  ghost predicate LastCall(m: seq<Message>, i: nat) {
    && 0 < i < |m| && m[i].Assistant?
    && forall j :: i < j < |m| ==> !m[j].Assistant?
  }

  lemma {:induction false} SpentIsLastCall(setup: Setup, m: seq<Message>)
    requires Alternates(setup, m) && WithinBudget(setup, m) && Spent(setup, m) > setup.maxTotalTokens
    requires setup.maxTotalTokens >= 0
    ensures exists i: nat :: LastCall(m, i) && Spent(setup, m) == Spent(setup, m[..i]) + setup.converse(m[..i]).Cost()
  {
    var n := |m| - 1;
    assert m[..0] == [];
    if n % 2 == 1 {
      assert Follows(setup, m, n);
      assert LastCall(m, n);
    } else if n > 0 {
      assert Follows(setup, m, n);
      assert LastCall(m, n - 1);
      assert m[..n][..n - 1] == m[..n - 1];
      assert Spent(setup, m) == Spent(setup, m[..n]);
    }
  }

  /** The budget is overdrawn by at most the tokens of the last converse call. */
  lemma OverdraftIsOneCall(setup: Setup, userMessage: string)
    ensures var (end, _) := Run(setup, userMessage);
      end.Total() > setup.maxTotalTokens && end.iterations > 0 ==>
        exists i: nat :: LastCall(end.messages, i) &&
                         end.Total() - setup.converse(end.messages[..i]).Cost() <= setup.maxTotalTokens
  {
    RunStaysWithinPolicy(setup, userMessage);
    var (end, stop) := Run(setup, userMessage);
    if end.Total() > setup.maxTotalTokens && end.iterations > 0 {
      CallsNeedBudget(setup, end.messages);
      SpentIsLastCall(setup, end.messages);
    }
  }

  lemma CallsNeedBudget(setup: Setup, m: seq<Message>)
    requires Alternates(setup, m) && WithinBudget(setup, m) && Calls(m) > 0
    ensures setup.maxTotalTokens >= 0
  {
    assert m[..0] == [];
    if |m| > 1 {
      assert Follows(setup, m, 1);
      assert Spent(setup, m[..1]) <= setup.maxTotalTokens;
    }
  }

  /** The pins of a dictionary: each key once. */
  ghost predicate DistinctPins(pins: seq<(string, Json)>) {
    forall i, j :: 0 <= i < j < |pins| ==> pins[i].0 != pins[j].0
  }

  ghost predicate IsPin(pins: seq<(string, Json)>, n: nat, k: string) {
    exists i :: 0 <= i < n && i < |pins| && pins[i].0 == k
  }

  lemma {:induction false} PinsAreForced(input: Params, pins: seq<(string, Json)>, n: nat)
    requires n <= |pins| && DistinctPins(pins)
    ensures forall i :: 0 <= i < n ==>
      pins[i].0 in Pinned(input, pins, n) && Pinned(input, pins, n)[pins[i].0] == pins[i].1
    ensures forall k :: !IsPin(pins, n, k) ==>
      (k in Pinned(input, pins, n) <==> k in input) && (k in input ==> Pinned(input, pins, n)[k] == input[k])
  {
    if n > 0 {
      PinsAreForced(input, pins, n - 1);
      forall k | !IsPin(pins, n, k) ensures !IsPin(pins, n - 1, k) && k != pins[n - 1].0 {
      }
    }
  }

  ghost predicate Overridden(input: Params, pins: seq<(string, Json)>, i: nat)
    requires i < |pins|
  {
    pins[i].0 in input && input[pins[i].0] != pins[i].1
  }

  lemma {:induction false} OverridesAreTheDifferences(input: Params, pins: seq<(string, Json)>, n: nat)
    requires n <= |pins| && DistinctPins(pins)
    ensures forall k :: k in Overrides(input, pins, n) <==>
      exists i :: 0 <= i < n && pins[i].0 == k && Overridden(input, pins, i)
  {
    hide Pinned, DistinctPins;
    if n > 0 {
      OverridesAreTheDifferences(input, pins, n - 1);
      NextOverride(input, pins, n);
    }
  }

  lemma NextOverride(input: Params, pins: seq<(string, Json)>, n: nat)
    requires 0 < n <= |pins| && DistinctPins(pins)
    ensures Overrides(input, pins, n) ==
      Overrides(input, pins, n - 1) + (if Overridden(input, pins, n - 1) then [pins[n - 1].0] else [])
  {
    hide Pinned;
    PinsAreForced(input, pins, n - 1);
    assert !IsPin(pins, n - 1, pins[n - 1].0);
  }

  /** Every dispatched call carries the pinned values, keeps the model's value everywhere else, and names as
      overrides exactly the pins for which the model gave another value. */
  lemma EveryCallIsPinned(setup: Setup, userMessage: string, n: nat)
    requires DistinctPins(setup.pins) && n < |Run(setup, userMessage).0.toolCalls|
    ensures var end := Run(setup, userMessage).0; var call := end.toolCalls[n];
      && n < |AnsweredUses(end.messages)|
      && var use := AnsweredUses(end.messages)[n];
         CallHonoursPins(setup, use, call)
  {
    hide Invariant, EndsRightly, Alternates, WithinBudget, AnsweredUses;
    RunStaysWithinPolicy(setup, userMessage);
    var end := Run(setup, userMessage).0;
    LogHoldsUses(setup, end, n);
    PinsAreForced(AnsweredUses(end.messages)[n].input, setup.pins, |setup.pins|);
    OverridesAreTheDifferences(AnsweredUses(end.messages)[n].input, setup.pins, |setup.pins|);
  }

  lemma LogHoldsUses(setup: Setup, s: State, n: nat)
    requires Invariant(setup, s) && n < |s.toolCalls|
    ensures n < |AnsweredUses(s.messages)| && s.toolCalls[n] == RecordOf(setup, AnsweredUses(s.messages)[n], n)
  {
    hide Alternates, WithinBudget, AnsweredUses, RecordOf;
  }

  ghost predicate CallHonoursPins(setup: Setup, use: ToolUse, call: CallRecord) {
    var pins := setup.pins;
    && call.name == use.name
    && |call.pinned| == |pins| && (forall i :: 0 <= i < |pins| ==> call.pinned[i] == pins[i].0)
    && (forall i :: 0 <= i < |pins| ==> pins[i].0 in call.input && call.input[pins[i].0] == pins[i].1)
    && (forall k :: !IsPin(pins, |pins|, k) ==>
          (k in call.input <==> k in use.input) && (k in use.input ==> call.input[k] == use.input[k]))
    && (forall k :: k in call.pinOverrides <==>
      exists i :: 0 <= i < |pins| && pins[i].0 == k && Overridden(use.input, pins, i))
  }

  /** What a call answers: an allowed and registered tool answers for itself, in the place of the call among all calls
      of the run; a tool that raises, is denied or is unknown is an error without content. */
  ghost predicate CallAnswers(setup: Setup, n: nat, call: CallRecord) {
    if !setup.allowed(call.name) then call.result == ToolResult(Null, Some(CapabilityDenied(call.name)))
    else if call.name !in setup.tools then call.result == ToolResult(Null, Some(UnknownTool(call.name)))
    else match setup.execute(n, call.name, call.input)
      case Success(own) => call.result == own
      case Failure(reason) => call.result == ToolResult(Null, Some(Failed(reason)))
  }

  lemma EveryCallAnswers(setup: Setup, userMessage: string, n: nat)
    requires n < |Run(setup, userMessage).0.toolCalls|
    ensures CallAnswers(setup, n, Run(setup, userMessage).0.toolCalls[n])
  {
    hide Invariant, EndsRightly, AnsweredUses, Pinned, Overrides;
    RunStaysWithinPolicy(setup, userMessage);
    LogHoldsUses(setup, Run(setup, userMessage).0, n);
  }

  /** The model is told what the log says: message `i` answers the tool uses before it one by one, each under its
      id, with the result that was logged for it, and as a success exactly when that result is no error. */
  lemma ResultsTellTheLog(setup: Setup, userMessage: string, i: nat, j: nat)
    requires var m := Run(setup, userMessage).0.messages; i < |m| && m[i].ToolResults? && j < |m[i].results|
    ensures var end := Run(setup, userMessage).0; var m := end.messages;
      && i > 0 && m[i - 1].Assistant? && |m[i].results| == |ToolUses(m[i - 1].content)|
      && var use, told, n := ToolUses(m[i - 1].content)[j], m[i].results[j], |AnsweredUses(m[..i - 1])| + j;
      && told.id == use.id && told.success == told.result.error.None?
      && n < |end.toolCalls| && end.toolCalls[n].name == use.name && end.toolCalls[n].result == told.result
  {
    hide Invariant, EndsRightly, AnsweredUses, Follows, Run, RunFrom, RecordOf;
    RunStaysWithinPolicy(setup, userMessage);
    var end := Run(setup, userMessage).0;
    var m := end.messages;
    ResultsFollow(setup, end, i);
    AnsweredGrow(m, i + 1);
    AnsweredSlice(m, i);
    var n := |AnsweredUses(m[..i - 1])| + j;
    assert AnsweredUses(m)[n] == AnsweredUses(m[..i + 1])[n] == ToolUses(m[i - 1].content)[j];
    LogIsAsLongAsTheUses(setup, end);
    LogHoldsUses(setup, end, n);
    RecordTells(setup, ToolUses(m[i - 1].content)[j], n);
  }

  lemma ResultsFollow(setup: Setup, s: State, i: nat)
    requires Invariant(setup, s) && i < |s.messages| && s.messages[i].ToolResults?
    ensures i > 0 && s.messages[i - 1].Assistant?
    ensures s.messages[i] ==
      ToolResults(AnswersTo(setup, ToolUses(s.messages[i - 1].content), |AnsweredUses(s.messages[..i - 1])|))
  {
    assert i > 0 && Follows(setup, s.messages, i);
  }

  lemma LogIsAsLongAsTheUses(setup: Setup, s: State)
    requires Invariant(setup, s)
    ensures |s.toolCalls| == |AnsweredUses(s.messages)|
  {
  }

  lemma RecordTells(setup: Setup, use: ToolUse, n: nat)
    ensures RecordOf(setup, use, n).name == use.name
  {
  }

  /** The uses of message `i - 1` come right after those answered before it. */
  lemma AnsweredSlice(m: seq<Message>, i: nat)
    requires 0 < i < |m| && m[i].ToolResults? && m[i - 1].Assistant?
    ensures AnsweredUses(m[..i + 1]) == AnsweredUses(m[..i - 1]) + ToolUses(m[i - 1].content)
  {
    assert m[..i + 1][..i] == m[..i] && m[..i][..i - 1] == m[..i - 1];
  }

  lemma {:induction false} AnsweredGrow(m: seq<Message>, n: nat)
    requires n <= |m|
    ensures AnsweredUses(m[..n]) <= AnsweredUses(m)
    decreases |m| - n
  {
    if n == |m| {
      assert m[..n] == m;
    } else {
      AnsweredGrow(m, n + 1);
      assert m[..n + 1][..n] == m[..n];
    }
  }

  /** Every member of the enumeration is read from its value, and any other text is an error. */
  lemma CoercionReadsBack(raw: string, reason: StopReason)
    ensures Coerce(reason.Value()) == reason
    ensures Coerce(raw) != Error ==> raw == Coerce(raw).Value()
  {
  }

  /** The text of a message: the parts of its blocks, in order, one line break between each two. */
  lemma TextIsItsParts(a: seq<Block>, b: seq<Block>)
    ensures TextParts(a + b) == TextParts(a) + TextParts(b)
    ensures |a| == 1 ==> TextParts(a) == if a[0].text.Some? then [a[0].text.value] else []
    ensures TextParts(a) != [] && TextParts(b) != [] ==>
      Join(TextParts(a + b)) == Join(TextParts(a)) + "\n" + Join(TextParts(b))
    ensures |TextParts(a)| == 1 ==> Join(TextParts(a)) == TextParts(a)[0]
  {
    PartsJoin(a, b);
    if TextParts(a) != [] && TextParts(b) != [] {
      JoinsJoin(TextParts(a), TextParts(b));
    }
  }

  lemma {:induction false} PartsJoin(a: seq<Block>, b: seq<Block>)
    ensures TextParts(a + b) == TextParts(a) + TextParts(b)
  {
    if a == [] {
      assert a + b == b;
    } else {
      assert (a + b)[1..] == a[1..] + b;
      PartsJoin(a[1..], b);
    }
  }

  lemma {:induction false} JoinsJoin(a: seq<string>, b: seq<string>)
    requires a != [] && b != []
    ensures Join(a + b) == Join(a) + "\n" + Join(b)
  {
    assert (a + b)[1..] == a[1..] + b;
    if |a| > 1 {
      JoinsJoin(a[1..], b);
    } else {
      assert a[1..] + b == b;
    }
  }

  /** The tool uses of a message: those of its blocks, in order, whether a block also carries text or not. */
  lemma {:induction false} UsesAreTheirBlocks(a: seq<Block>, b: seq<Block>)
    ensures ToolUses(a + b) == ToolUses(a) + ToolUses(b)
    ensures |a| == 1 ==> ToolUses(a) == if a[0].toolUse.Some? then [a[0].toolUse.value] else []
    decreases |b|
  {
    if b == [] {
      assert a + b == a;
    } else {
      assert (a + b)[..|a + b| - 1] == a + b[..|b| - 1];
      UsesAreTheirBlocks(a, b[..|b| - 1]);
    }
  }

  /** Two setups that differ only in what tools do that are not allowed or not registered. */
  ghost predicate SameWhereAllowed(a: Setup, b: Setup) {
    && b == a.(execute := b.execute)
    && forall n, name, params :: a.allowed(name) && name in a.tools ==>
      a.execute(n, name, params) == b.execute(n, name, params)
  }

  lemma {:induction false} DeniedToolsDoNothing(a: Setup, b: Setup, s: State, left: nat)
    requires SameWhereAllowed(a, b)
    ensures RunFrom(a, s, left) == RunFrom(b, s, left)
    decreases left
  {
    if left > 0 && s.Total() <= a.maxTotalTokens {
      var r := a.converse(s.messages);
      var heard := Heard(s, r);
      var uses := ToolUses(r.content);
      forall use, n ensures RecordOf(a, use, n) == RecordOf(b, use, n) {
      }
      assert RecordsFor(a, uses, heard.calls) == RecordsFor(b, uses, heard.calls);
      assert AnswersTo(a, uses, heard.calls) == AnswersTo(b, uses, heard.calls);
      DeniedToolsDoNothing(a, b, Answered(a, heard, r.content), left - 1);
    }
  }
}
