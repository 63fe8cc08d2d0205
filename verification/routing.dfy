/**
 * The graph's routing decision and the input shaping the chat node does
 * before calling the model (agent/agent.py:711-719, 767-771, 827-829,
 * 854-865): a response goes to the tool node only when one of its tool calls
 * names a backend tool; the document snapshot is cut to 8000 characters; only
 * the last six prior messages are kept; and the group id falls back through
 * two state keys to a fixed label.
 */
module Routing {
  import opened Wrappers
  import opened Text

  /** A tool call requested by the model; its name may be missing. */
  datatype ToolCall = ToolCall(name: Option<string>)

  /** The tools the agent runs itself, in the order they are registered. */
  const BackendToolNames: seq<string> :=
    ["research_destination", "create_itinerary_template", "suggest_improvements", "add_planning_section"]

  /** A call names a backend tool. */
  predicate IsBackendCall(call: ToolCall) {
    call.name.Some? && call.name.value in BackendToolNames
  }

  /** Whether some call from index `i` on names a backend tool, scanning in order. */
  function AnyBackendCall(calls: seq<ToolCall>, i: nat): (r: bool)
    requires i <= |calls|
    ensures r <==> exists j :: i <= j < |calls| && IsBackendCall(calls[j])
    decreases |calls| - i
  {
    if i == |calls| then false
    else if IsBackendCall(calls[i]) then true
    else AnyBackendCall(calls, i + 1)
  }

  /**
   * `route_to_tool_node`: false when the response carries no tool calls or an
   * empty list, otherwise whether some call names a backend tool.
   */
  function RouteToToolNode(toolCalls: Option<seq<ToolCall>>): (r: bool)
    ensures r <==> toolCalls.Some? && exists j :: 0 <= j < |toolCalls.value| && IsBackendCall(toolCalls.value[j])
  {
    match toolCalls
    case None => false
    case Some(calls) => calls != [] && AnyBackendCall(calls, 0)
  }

  /** The calls of two batches route exactly when either batch would. */
  lemma {:induction false} RouteAppend(a: seq<ToolCall>, b: seq<ToolCall>)
    ensures RouteToToolNode(Some(a + b)) == (RouteToToolNode(Some(a)) || RouteToToolNode(Some(b)))
  {
    var ab := a + b;
    if RouteToToolNode(Some(ab)) {
      var j :| 0 <= j < |ab| && IsBackendCall(ab[j]);
      if j < |a| {
        assert IsBackendCall(a[j]);
      } else {
        assert IsBackendCall(b[j - |a|]);
      }
    }
    if RouteToToolNode(Some(a)) {
      var j :| 0 <= j < |a| && IsBackendCall(a[j]);
      assert ab[j] == a[j];
    }
    if RouteToToolNode(Some(b)) {
      var j :| 0 <= j < |b| && IsBackendCall(b[j]);
      assert ab[|a| + j] == b[j];
    }
  }

  /**
   * Frontend actions are not backend tools, so a response whose calls are
   * only `updateDocument` and `addSection` (or unnamed) ends the turn.
   */
  lemma FrontendActionsNeverRoute(calls: seq<ToolCall>)
    requires forall j :: 0 <= j < |calls| ==>
      calls[j].name.None? || calls[j].name.value in {"updateDocument", "addSection"}
    ensures !RouteToToolNode(Some(calls))
  {
    forall j | 0 <= j < |calls|
      ensures !IsBackendCall(calls[j])
    {
      if calls[j].name.Some? {
        var n := calls[j].name.value;
        NotBackendByLength(n);
      }
    }
  }

  /** The two frontend action names are shorter than every backend tool name. */
  lemma NotBackendByLength(n: string)
    requires n in {"updateDocument", "addSection"}
    ensures n !in BackendToolNames
  {
    assert |n| <= 14;
    forall k | 0 <= k < |BackendToolNames|
      ensures |BackendToolNames[k]| > 14
    {
    }
  }

  /** Every backend tool, called by name, routes to the tool node. */
  lemma BackendCallRoutes(k: nat)
    requires k < |BackendToolNames|
    ensures RouteToToolNode(Some([ToolCall(Some(BackendToolNames[k]))]))
  {
    assert IsBackendCall(ToolCall(Some(BackendToolNames[k])));
  }

  /** How much of the document the prompt carries. */
  const MaxChars: nat := 8000

  /**
   * The document snapshot: the first 8000 characters of the state's content,
   * the whole content when shorter, and empty when the state has none.
   */
  function Snapshot(content: Option<string>): (r: string)
    ensures |r| <= MaxChars
    ensures content.None? ==> r == ""
    ensures content.Some? ==> IsPrefix(r, content.value)
    ensures content.Some? && |content.value| <= MaxChars ==> r == content.value
    ensures content.Some? && |content.value| > MaxChars ==> |r| == MaxChars
  {
    var text := if content.Some? then content.value else "";
    if |text| <= MaxChars then text else text[..MaxChars]
  }

  /** How many prior messages the model sees. */
  const HistoryLimit: nat := 6

  /** The history passed to the model: the last six messages, or all of them when there are fewer. */
  function RecentHistory<T>(messages: seq<T>): (r: seq<T>)
    ensures |r| == if |messages| > HistoryLimit then HistoryLimit else |messages|
    ensures r == messages[|messages| - |r|..]
  {
    if |messages| > HistoryLimit then messages[|messages| - HistoryLimit..] else messages
  }

  /** Keeping the recent history of the recent history changes nothing. */
  lemma RecentHistoryIdempotent<T>(messages: seq<T>)
    ensures RecentHistory(RecentHistory(messages)) == RecentHistory(messages)
  {
  }

  /** A state value the chat node reads; missing and empty both count as unset. */
  function Given(v: Option<string>): bool {
    v.Some? && v.value != ""
  }

  const SoloSession: string := "Solo planning session"

  /** The group id: `group_id` when set, else `groupId` when set, else the solo label. */
  function GroupId(groupIdSnake: Option<string>, groupIdCamel: Option<string>): (r: string)
    ensures r != ""
    ensures Given(groupIdSnake) ==> r == groupIdSnake.value
    ensures !Given(groupIdSnake) && Given(groupIdCamel) ==> r == groupIdCamel.value
    ensures !Given(groupIdSnake) && !Given(groupIdCamel) ==> r == SoloSession
  {
    if Given(groupIdSnake) then groupIdSnake.value
    else if Given(groupIdCamel) then groupIdCamel.value
    else SoloSession
  }
}
