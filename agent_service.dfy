/**
 * Request bookkeeping of the agent service (infrastructure/ai/agent_service.py): the execution
 * context that records tool calls and errors, the summary appended to an answer, the prompt
 * built from a chat history, and the summary chosen for a tool's result.
 */
module AgentService {
  import opened Wrappers
  import opened Py
  import Text

  /** "pending", "success" or "error". */
  datatype ExecStatus = Pending | Succeeded | Failed

  /** One recorded tool call. */
  datatype ToolExecution = ToolExecution(
    name: string,
    status: ExecStatus,
    arguments: string,
    resultSummary: string,
    error: string)

  /** The entry a completion for `name` may settle: same name, still pending. */
  predicate Open(e: ToolExecution, name: string) {
    e.name == name && e.status == Pending
  }

  /** The index of the most recent open entry for `name`, if any. */
  function LatestPending(execs: seq<ToolExecution>, name: string): (r: Option<nat>)
    ensures r.Some? ==> r.value < |execs| && Open(execs[r.value], name)
    ensures r.Some? ==> forall j | r.value < j < |execs| :: !Open(execs[j], name)
    ensures r.None? ==> forall j | 0 <= j < |execs| :: !Open(execs[j], name)
  {
    if execs == [] then None
    else if Open(execs[|execs| - 1], name) then Some(|execs| - 1)
    else LatestPending(execs[..|execs| - 1], name)
  }

  /** The list after `mark_tool_success(name, summary)`. */
  function MarkSuccess(execs: seq<ToolExecution>, name: string, summary: string): seq<ToolExecution> {
    match LatestPending(execs, name)
    case None => execs
    case Some(k) => execs[k := execs[k].(status := Succeeded, resultSummary := summary)]
  }

  /** The list after `mark_tool_error(name, error)`. */
  function MarkError(execs: seq<ToolExecution>, name: string, error: string): seq<ToolExecution> {
    match LatestPending(execs, name)
    case None => execs
    case Some(k) => execs[k := execs[k].(status := Failed, error := error)]
  }

  /** The state a request is tracked in. */
  class ExecutionContext {
    var sessionId: string
    var toolExecutions: seq<ToolExecution>
    var errors: seq<string>

    constructor (sessionId: string)
      ensures this.sessionId == sessionId && toolExecutions == [] && errors == []
    {
      this.sessionId := sessionId;
      toolExecutions := [];
      errors := [];
    }

    /** `add_tool_call`: appends one pending execution and returns it. */
    method AddToolCall(name: string, arguments: string) returns (execution: ToolExecution)
      modifies this
      ensures execution == ToolExecution(name, Pending, arguments, "", "")
      ensures toolExecutions == old(toolExecutions) + [execution]
      ensures errors == old(errors) && sessionId == old(sessionId)
    {
      execution := ToolExecution(name, Pending, arguments, "", "");
      toolExecutions := toolExecutions + [execution];
    }

    /** `mark_tool_success`: settles the latest open entry for `name`, scanning from the end. */
    method MarkToolSuccess(name: string, resultSummary: string)
      modifies this
      ensures toolExecutions == MarkSuccess(old(toolExecutions), name, resultSummary)
      ensures errors == old(errors) && sessionId == old(sessionId)
    {
      var i := |toolExecutions|;
      while i > 0
        invariant 0 <= i <= |toolExecutions|
        invariant toolExecutions == old(toolExecutions)
        invariant forall j | i <= j < |toolExecutions| :: !Open(toolExecutions[j], name)
      {
        i := i - 1;
        var exec := toolExecutions[i];
        if exec.name == name && exec.status == Pending {
          LatestPendingIs(toolExecutions, name, i);
          toolExecutions := toolExecutions[i := exec.(status := Succeeded, resultSummary := resultSummary)];
          return;
        }
      }
      LatestPendingNone(toolExecutions, name);
    }

    /** `mark_tool_error`: like `mark_tool_success`, and logs "name: error" iff an entry was settled. */
    method MarkToolError(name: string, error: string)
      modifies this
      ensures toolExecutions == MarkError(old(toolExecutions), name, error)
      ensures errors == old(errors) + (if LatestPending(old(toolExecutions), name).Some? then [name + ": " + error] else [])
      ensures sessionId == old(sessionId)
    {
      var i := |toolExecutions|;
      while i > 0
        invariant 0 <= i <= |toolExecutions|
        invariant toolExecutions == old(toolExecutions) && errors == old(errors)
        invariant forall j | i <= j < |toolExecutions| :: !Open(toolExecutions[j], name)
      {
        i := i - 1;
        var exec := toolExecutions[i];
        if exec.name == name && exec.status == Pending {
          LatestPendingIs(toolExecutions, name, i);
          toolExecutions := toolExecutions[i := exec.(status := Failed, error := error)];
          errors := errors + [name + ": " + error];
          return;
        }
      }
      LatestPendingNone(toolExecutions, name);
    }

    /** `add_error` */
    method AddError(error: string)
      modifies this
      ensures errors == old(errors) + [error]
      ensures toolExecutions == old(toolExecutions) && sessionId == old(sessionId)
    {
      errors := errors + [error];
    }

    /** `generate_summary`, with its line-building loops. */
    method GenerateSummary() returns (summary: string)
      ensures summary == Summary(toolExecutions, errors)
    {
      if toolExecutions == [] && errors == [] {
        return "";
      }
      var lines := SummaryHead;
      var i := 0;
      while i < |toolExecutions|
        invariant 0 <= i <= |toolExecutions|
        invariant lines == SummaryHead + ExecLines(toolExecutions[..i])
      {
        assert toolExecutions[..i + 1] == toolExecutions[..i] + [toolExecutions[i]];
        ExecLinesSnoc(toolExecutions[..i], toolExecutions[i]);
        lines := lines + [ExecLine(toolExecutions[i])];
        i := i + 1;
      }
      assert toolExecutions[..i] == toolExecutions;
      if errors != [] {
        lines := lines + ["", "⚠️ **錯誤訊息**"];
        ghost var before := lines;
        var j := 0;
        while j < |errors|
          invariant 0 <= j <= |errors|
          invariant lines == before + ErrorLines(errors[..j])
        {
          assert errors[..j + 1] == errors[..j] + [errors[j]];
          lines := lines + ["- " + errors[j]];
          j := j + 1;
        }
        assert errors[..j] == errors;
      }
      assert lines == SummaryLines(toolExecutions, errors);
      summary := Text.Join(lines, "\n");
    }
  }

  lemma {:induction false} LatestPendingIs(execs: seq<ToolExecution>, name: string, k: nat)
    requires k < |execs| && Open(execs[k], name)
    requires forall j | k < j < |execs| :: !Open(execs[j], name)
    ensures LatestPending(execs, name) == Some(k)
  {
    if k < |execs| - 1 {
      LatestPendingIs(execs[..|execs| - 1], name, k);
    }
  }

  lemma {:induction false} LatestPendingNone(execs: seq<ToolExecution>, name: string)
    requires forall j | 0 <= j < |execs| :: !Open(execs[j], name)
    ensures LatestPending(execs, name) == None
  {
    if execs != [] {
      LatestPendingNone(execs[..|execs| - 1], name);
    }
  }

  // ---- the marking rules ----

  /**
   * Marking success settles exactly the most recent open entry for the name (nothing if there
   * is none): it becomes a success with the summary; every other entry, and the length, stay.
   */
  lemma MarkSuccessSettlesLatest(execs: seq<ToolExecution>, name: string, summary: string)
    ensures var r := MarkSuccess(execs, name, summary);
      && |r| == |execs|
      && ((forall j | 0 <= j < |execs| :: !Open(execs[j], name)) ==> r == execs)
      && (forall k | 0 <= k < |execs| && Open(execs[k], name) && (forall j | k < j < |execs| :: !Open(execs[j], name)) ::
            r[k] == execs[k].(status := Succeeded, resultSummary := summary)
            && forall j | 0 <= j < |execs| && j != k :: r[j] == execs[j])
  {
    forall k | 0 <= k < |execs| && Open(execs[k], name) && (forall j | k < j < |execs| :: !Open(execs[j], name)) {
      LatestPendingIs(execs, name, k);
    }
    if forall j | 0 <= j < |execs| :: !Open(execs[j], name) {
      LatestPendingNone(execs, name);
    }
  }

  /** The same rule for marking an error. */
  lemma MarkErrorSettlesLatest(execs: seq<ToolExecution>, name: string, error: string)
    ensures var r := MarkError(execs, name, error);
      && |r| == |execs|
      && ((forall j | 0 <= j < |execs| :: !Open(execs[j], name)) ==> r == execs)
      && (forall k | 0 <= k < |execs| && Open(execs[k], name) && (forall j | k < j < |execs| :: !Open(execs[j], name)) ::
            r[k] == execs[k].(status := Failed, error := error)
            && forall j | 0 <= j < |execs| && j != k :: r[j] == execs[j])
  {
    forall k | 0 <= k < |execs| && Open(execs[k], name) && (forall j | k < j < |execs| :: !Open(execs[j], name)) {
      LatestPendingIs(execs, name, k);
    }
    if forall j | 0 <= j < |execs| :: !Open(execs[j], name) {
      LatestPendingNone(execs, name);
    }
  }

  /** Settled entries are never touched again, and a status only ever leaves "pending". */
  lemma SettledEntriesStay(execs: seq<ToolExecution>, name: string, text: string)
    ensures var s := MarkSuccess(execs, name, text);
      var e := MarkError(execs, name, text);
      && (forall j | 0 <= j < |execs| && execs[j].status != Pending :: s[j] == execs[j] && e[j] == execs[j])
      && (forall j | 0 <= j < |execs| && s[j].status != execs[j].status :: execs[j].status == Pending)
      && (forall j | 0 <= j < |execs| && e[j].status != execs[j].status :: execs[j].status == Pending)
  {
  }

  // ---- the summary ----

  const SummaryHead: seq<string> := ["\n\n---", "📊 **執行摘要**"]

  /** One execution's line: icon, name in backticks, and the summary or error. */
  function ExecLine(e: ToolExecution): string {
    match e.status
    case Succeeded => "- ✅ `" + e.name + "`" + (if e.resultSummary != "" then " (" + e.resultSummary + ")" else "")
    case Failed => "- ❌ `" + e.name + "`" + " - " + e.error
    case Pending => "- ⏳ `" + e.name + "`"
  }

  function ExecLines(execs: seq<ToolExecution>): (r: seq<string>)
    ensures |r| == |execs|
    ensures forall i | 0 <= i < |execs| :: r[i] == ExecLine(execs[i])
  {
    seq(|execs|, i requires 0 <= i < |execs| => ExecLine(execs[i]))
  }

  lemma ExecLinesSnoc(execs: seq<ToolExecution>, e: ToolExecution)
    ensures ExecLines(execs + [e]) == ExecLines(execs) + [ExecLine(e)]
  {
  }

  function ErrorLines(errors: seq<string>): (r: seq<string>)
    ensures |r| == |errors|
    ensures forall i | 0 <= i < |errors| :: r[i] == "- " + errors[i]
  {
    seq(|errors|, i requires 0 <= i < |errors| => "- " + errors[i])
  }

  /** The lines of a non-empty summary. */
  function SummaryLines(execs: seq<ToolExecution>, errors: seq<string>): seq<string> {
    SummaryHead + ExecLines(execs) + (if errors != [] then ["", "⚠️ **錯誤訊息**"] + ErrorLines(errors) else [])
  }

  /** The summary text: empty when nothing was recorded. */
  function Summary(execs: seq<ToolExecution>, errors: seq<string>): string {
    if execs == [] && errors == [] then "" else Text.Join(SummaryLines(execs, errors), "\n")
  }

  /**
   * The summary is empty iff nothing was recorded; otherwise its lines are the heading, one line
   * per execution in order, then (if any) the error block.
   */
  lemma SummaryShape(execs: seq<ToolExecution>, errors: seq<string>)
    ensures Summary(execs, errors) == "" <==> execs == [] && errors == []
    ensures var lines := SummaryLines(execs, errors);
      && lines[..2] == SummaryHead
      && (forall i | 0 <= i < |execs| :: lines[2 + i] == ExecLine(execs[i]))
      && (errors == [] ==> |lines| == 2 + |execs|)
      && (errors != [] ==> |lines| == 4 + |execs| + |errors|)
      && (errors != [] ==> lines[2 + |execs|] == "" && lines[3 + |execs|] == "⚠️ **錯誤訊息**")
      && (errors != [] ==> forall i | 0 <= i < |errors| :: lines[4 + |execs| + i] == "- " + errors[i])
  {
    var lines := SummaryLines(execs, errors);
    if execs != [] || errors != [] {
      Text.JoinStartsWithFirst(lines, "\n");
      assert lines[0] == "\n\n---";
    }
  }

  // ---- answers and prompts ----

  /** A chat message in OpenAI form. */
  datatype Message = Message(role: string, content: string)

  /**
   * What `chat` starts from: with no messages, the reply it returns at once (an answer and its
   * citations); otherwise the prompt sent to the agent.
   */
  datatype ChatStart = NoMessages(answer: string, citations: seq<Value>) | Prompt(fullContent: string)

  const NoMessagesAnswer: string := "No messages provided."

  function RoleLabel(role: string): string {
    if role == "user" then "User" else if role == "assistant" then "Assistant" else "System"
  }

  function HistoryParts(messages: seq<Message>): (r: seq<string>)
    ensures |r| == |messages|
  {
    seq(|messages|, i requires 0 <= i < |messages| => RoleLabel(messages[i].role) + ": " + messages[i].content)
  }

  /** The prompt for a chat: the history labelled by role, then the current message. */
  function PromptOf(messages: seq<Message>): ChatStart {
    if messages == [] then NoMessages(NoMessagesAnswer, [])
    else
      var parts := HistoryParts(messages[..|messages| - 1]);
      var last := messages[|messages| - 1];
      if parts != [] then
        Prompt("[Conversation History]\n" + Text.Join(parts, "\n") + "\n\n[Current Message]\n" + last.content)
      else Prompt(last.content)
  }

  /** The context-building part of `chat`. */
  method BuildFullContent(messages: seq<Message>) returns (start: ChatStart)
    ensures start == PromptOf(messages)
  {
    if messages == [] {
      return NoMessages("No messages provided.", []);
    }
    var contextParts: seq<string> := [];
    var i := 0;
    while i < |messages| - 1
      invariant 0 <= i <= |messages| - 1
      invariant contextParts == HistoryParts(messages[..i])
    {
      var msg := messages[i];
      var roleLabel := if msg.role == "user" then "User" else if msg.role == "assistant" then "Assistant" else "System";
      contextParts := contextParts + [roleLabel + ": " + msg.content];
      i := i + 1;
    }
    var lastMsg := messages[|messages| - 1];
    if contextParts != [] {
      var contextStr := Text.Join(contextParts, "\n");
      start := Prompt("[Conversation History]\n" + contextStr + "\n\n[Current Message]\n" + lastMsg.content);
    } else {
      start := Prompt(lastMsg.content);
    }
  }

  /**
   * No messages: answered at once with "No messages provided." and no citations. One message: its content verbatim. More: the earlier
   * messages, each labelled User, Assistant or System, then the last one under its own heading.
   */
  lemma PromptShape(messages: seq<Message>)
    ensures messages == [] <==> PromptOf(messages).NoMessages?
    ensures messages == [] ==> PromptOf(messages).answer == "No messages provided." && PromptOf(messages).citations == []
    ensures |messages| == 1 ==> PromptOf(messages) == Prompt(messages[0].content)
    ensures |messages| > 1 ==> exists parts: seq<string> ::
      && |parts| == |messages| - 1
      && (forall i | 0 <= i < |parts| :: parts[i] == RoleLabel(messages[i].role) + ": " + messages[i].content)
      && PromptOf(messages) == Prompt("[Conversation History]\n" + Text.Join(parts, "\n")
                                      + "\n\n[Current Message]\n" + messages[|messages| - 1].content)
  {
    if |messages| > 1 {
      var parts := HistoryParts(messages[..|messages| - 1]);
      assert parts != [] && |parts| == |messages| - 1;
    }
  }

  /** Any role other than user or assistant is labelled System. */
  lemma OtherRolesAreSystem(role: string)
    requires role != "user" && role != "assistant"
    ensures RoleLabel(role) == "System"
  {
  }

  /** The answer returned without streaming: the stripped text, or a notice when it is blank, then the summary. */
  function FinalAnswer(answer: string, summary: string): (r: string)
    ensures Text.Strip(answer) != "" ==> r == Text.Strip(answer) + summary
    ensures Text.Strip(answer) == "" ==> r == "Agent produced no text response." + summary
  {
    var stripped := Text.Strip(answer);
    (if stripped != "" then stripped else "Agent produced no text response.") + summary
  }

  // ---- tool results ----

  /** The summary recorded for a successful tool result: total_found, then count, then added_count. */
  function ResultSummary(result: Dict): string {
    if "total_found" in result then "找到 " + Show(result["total_found"]) + " 筆"
    else if "count" in result then Show(result["count"]) + " 筆結果"
    else if "added_count" in result then "新增 " + Show(result["added_count"]) + " 筆"
    else ""
  }

  /** The precedence of the result summary's fields. */
  lemma ResultSummaryPrecedence(result: Dict)
    ensures "total_found" in result ==> ResultSummary(result) == "找到 " + Show(result["total_found"]) + " 筆"
    ensures "total_found" !in result && "count" in result ==> ResultSummary(result) == Show(result["count"]) + " 筆結果"
    ensures "total_found" !in result && "count" !in result && "added_count" in result ==>
      ResultSummary(result) == "新增 " + Show(result["added_count"]) + " 筆"
    ensures ResultSummary(result) == "" <==> "total_found" !in result && "count" !in result && "added_count" !in result
  {
  }

  /**
   * The function-response branch of `_process_event`: a dictionary result with status "error"
   * marks the tool failed with its error text; any other dictionary marks it successful with
   * the chosen summary; a non-dictionary result is ignored.
   */
  method ProcessFunctionResponse(ctx: ExecutionContext, toolName: string, result: Value)
    modifies ctx
    ensures !result.Obj? ==> ctx.toolExecutions == old(ctx.toolExecutions) && ctx.errors == old(ctx.errors)
    ensures result.Obj? && Get(result.d, "status", Str("unknown")) == Str("error") ==>
      var msg := Show(Get(result.d, "error", Str("Unknown error")));
      ctx.toolExecutions == MarkError(old(ctx.toolExecutions), toolName, msg)
      && ctx.errors == old(ctx.errors) + (if LatestPending(old(ctx.toolExecutions), toolName).Some? then [toolName + ": " + msg] else [])
    ensures result.Obj? && Get(result.d, "status", Str("unknown")) != Str("error") ==>
      ctx.toolExecutions == MarkSuccess(old(ctx.toolExecutions), toolName, ResultSummary(result.d))
      && ctx.errors == old(ctx.errors)
    ensures ctx.sessionId == old(ctx.sessionId)
  {
    if result.Obj? {
      var status := Get(result.d, "status", Str("unknown"));
      if status == Str("error") {
        var errorMsg := Show(Get(result.d, "error", Str("Unknown error")));
        ctx.MarkToolError(toolName, errorMsg);
      } else {
        var summary := "";
        if "total_found" in result.d {
          summary := "找到 " + Show(result.d["total_found"]) + " 筆";
        } else if "count" in result.d {
          summary := Show(result.d["count"]) + " 筆結果";
        } else if "added_count" in result.d {
          summary := "新增 " + Show(result.d["added_count"]) + " 筆";
        }
        ctx.MarkToolSuccess(toolName, summary);
      }
    }
  }
}
