/** Conversion of structured log events into progress events, and the one-line
    display of a progress event (`event_progress.py`). */
module EventProgress {
  import opened Base
  import Text

  /** `ProgressAction`: the eleven display actions. */
  datatype ProgressAction =
    | Starting | Loaded | Initialized | Chatting | Ready | CallingTool
    | Finished | Shutdown | AggregatorInitialized | Routing | FatalError

  /** The string value of each member. */
  function ActionValue(a: ProgressAction): string {
    match a
    case Starting => "Starting"
    case Loaded => "Loaded"
    case Initialized => "Initialized"
    case Chatting => "Chatting"
    case Ready => "Ready"
    case CallingTool => "Calling Tool"
    case Finished => "Finished"
    case Shutdown => "Shutdown"
    case AggregatorInitialized => "Running"
    case Routing => "Routing"
    case FatalError => "Error"
  }

  /** `ProgressAction(s)`: the member whose value is `s`, if any. */
  function ParseAction(s: string): (r: Option<ProgressAction>)
    ensures r.Some? ==> ActionValue(r.value) == s
    ensures r.None? ==> forall a :: ActionValue(a) != s
  {
    if s == "Starting" then Some(Starting)
    else if s == "Loaded" then Some(Loaded)
    else if s == "Initialized" then Some(Initialized)
    else if s == "Chatting" then Some(Chatting)
    else if s == "Ready" then Some(Ready)
    else if s == "Calling Tool" then Some(CallingTool)
    else if s == "Finished" then Some(Finished)
    else if s == "Shutdown" then Some(Shutdown)
    else if s == "Running" then Some(AggregatorInitialized)
    else if s == "Routing" then Some(Routing)
    else if s == "Error" then Some(FatalError)
    else None
  }

  /** Every member is found again from its value, so values are distinct. */
  lemma ParseActionValue(a: ProgressAction)
    ensures ParseAction(ActionValue(a)) == Some(a)
  {
  }

  /** A value stored in a log event's data: `None`, an `int`, a `str`, or any
      other object, carried as its `str()` and its truth value. A `str`-valued
      enum member is its string value. */
  datatype Value = Null | Int(i: int) | Str(s: string) | Other(shown: string, truthy: bool)

  /** Python's `bool(v)`. */
  function Truthy(v: Value): bool {
    match v
    case Null => false
    case Int(i) => i != 0
    case Str(s) => s != ""
    case Other(_, t) => t
  }

  /** Python's `str(v)`, as used by f-strings. */
  function Show(v: Value): string {
    match v
    case Null => "None"
    case Int(i) => Text.IntToString(i)
    case Str(s) => s
    case Other(shown, _) => shown
  }

  /** An entry of `event.data`: a dict, or anything else. */
  datatype Entry = Dict(fields: map<string, Value>) | NonDict(value: Value)

  /** The parts of a logging `Event` the conversion reads. */
  datatype LogEvent = LogEvent(namespace: string, data: map<string, Entry>)

  datatype ProgressEvent = ProgressEvent(action: ProgressAction, target: Value, details: Value, agentName: Value)

  /** The outcome of `convert_log_event`: `None`, a progress event, or the
      `ValueError` of `ProgressAction(progress_action)`. */
  datatype Conversion = Skipped | Converted(event: ProgressEvent) | InvalidAction(value: Value)

  /** `d.get(k, default)`. */
  function GetOr(d: map<string, Value>, k: string, default: Value): Value {
    if k in d then d[k] else default
  }

  /** `d.get(k)`. */
  function Get(d: map<string, Value>, k: string): Value {
    GetOr(d, k, Null)
  }

  /** `ProgressAction(v)` for any value: only strings can name a member. */
  function ActionOf(v: Value): Option<ProgressAction> {
    if v.Str? then ParseAction(v.s) else None
  }

  /** The details rule for the aggregator namespace. */
  function ToolDetails(eventData: map<string, Value>): string {
    var server := GetOr(eventData, "server_name", Str(""));
    var tool := Get(eventData, "tool_name");
    if Truthy(tool) then Show(server) + " (" + Show(tool) + ")" else Show(server)
  }

  /** The details rule for the LLM namespace. */
  function ModelDetails(eventData: map<string, Value>): string {
    var model := GetOr(eventData, "model", Str(""));
    var turn := Get(eventData, "chat_turn");
    if turn != Null then Show(model) + " turn " + Show(turn) else Show(model)
  }

  /** The `details` that `convert_log_event` computes. */
  function Details(namespace: string, eventData: map<string, Value>, progressAction: Value): Value {
    if progressAction == Str(ActionValue(FatalError)) then GetOr(eventData, "error_message", Str("An error occurred"))
    else if Text.Contains(namespace, "mcp_aggregator") then Str(ToolDetails(eventData))
    else if Text.Contains(namespace, "augmented_llm") then Str(ModelDetails(eventData))
    else Str("")
  }

  /** `event.data.get("data")` when it is a dict. */
  function EventData(e: LogEvent): Option<map<string, Value>> {
    if "data" in e.data && e.data["data"].Dict? then Some(e.data["data"].fields) else None
  }

  /** `event_data.get("progress_action")`, or `None` when there is no event data. */
  function RawAction(e: LogEvent): Value {
    if EventData(e).Some? then Get(EventData(e).value, "progress_action") else Null
  }

  /** `convert_log_event`. */
  function ConvertLogEvent(e: LogEvent): (r: Conversion)
    ensures r == Skipped <==> |e.data| == 0 || EventData(e).None? || !Truthy(RawAction(e))
    ensures r.InvalidAction? <==>
      && r != Skipped
      && forall a :: RawAction(e) != Str(ActionValue(a))
    ensures r.InvalidAction? ==> r.value == RawAction(e)
    ensures r.Converted? ==>
      && EventData(e).Some?
      && RawAction(e) == Str(ActionValue(r.event.action))
      && r.event.target == Get(EventData(e).value, "agent_name")
      && r.event.agentName == Get(EventData(e).value, "agent_name")
    ensures r.Converted? && r.event.action == FatalError ==>
      var ed := EventData(e).value;
      r.event.details == (if "error_message" in ed then ed["error_message"] else Str("An error occurred"))
    ensures r.Converted? && r.event.action != FatalError && Text.Contains(e.namespace, "mcp_aggregator") ==>
      var ed := EventData(e).value;
      var server := if "server_name" in ed then Show(ed["server_name"]) else "";
      && (Truthy(Get(ed, "tool_name")) ==> r.event.details == Str(server + " (" + Show(ed["tool_name"]) + ")"))
      && (!Truthy(Get(ed, "tool_name")) ==> r.event.details == Str(server))
    ensures (&& r.Converted? && r.event.action != FatalError && !Text.Contains(e.namespace, "mcp_aggregator")
             && Text.Contains(e.namespace, "augmented_llm")) ==>
      var ed := EventData(e).value;
      var model := if "model" in ed then Show(ed["model"]) else "";
      && (Get(ed, "chat_turn") == Null ==> r.event.details == Str(model))
      && (Get(ed, "chat_turn") != Null ==> r.event.details == Str(model + " turn " + Show(ed["chat_turn"])))
    ensures (&& r.Converted? && r.event.action != FatalError && !Text.Contains(e.namespace, "mcp_aggregator")
             && !Text.Contains(e.namespace, "augmented_llm")) ==>
      r.event.details == Str("")
  {
    if |e.data| == 0 then Skipped
    else if "data" !in e.data || !e.data["data"].Dict? then Skipped
    else
      var eventData := e.data["data"].fields;
      var progressAction := Get(eventData, "progress_action");
      if !Truthy(progressAction) then Skipped
      else
        var agentName := Get(eventData, "agent_name");
        var details := Details(e.namespace, eventData, progressAction);
        match ActionOf(progressAction)
        case None => InvalidAction(progressAction)
        case Some(action) => Converted(ProgressEvent(action, agentName, details, agentName))
  }

  /** A fatal error's details do not depend on the namespace: the error rule
      comes before every namespace rule. */
  lemma FatalDetailsIgnoreNamespace(e: LogEvent, otherNamespace: string)
    requires ConvertLogEvent(e).Converted? && ConvertLogEvent(e).event.action == FatalError
    ensures ConvertLogEvent(e.(namespace := otherNamespace)) == ConvertLogEvent(e)
  {
  }

  /** Any truthy action that is not a member's string value, a number for
      instance, makes the conversion raise rather than return `None`. */
  lemma UnknownActionRaises(namespace: string, fields: map<string, Value>)
    requires "progress_action" in fields && Truthy(fields["progress_action"])
    requires ActionOf(fields["progress_action"]).None?
    ensures ConvertLogEvent(LogEvent(namespace, map["data" := Dict(fields)])) == InvalidAction(fields["progress_action"])
  {
  }

  // ----- display ---------------------------------------------------------

  /** `"[agent] "` when the agent name is truthy, otherwise nothing. */
  function AgentPrefix(e: ProgressEvent): string {
    if Truthy(e.agentName) then "[" + Show(e.agentName) + "] " else ""
  }

  /** The width `ljust(11)` gives the action column. */
  function ActionWidth(a: ProgressAction): nat {
    if |ActionValue(a)| < 11 then 11 else |ActionValue(a)|
  }

  /** `ProgressEvent.__str__`: the padded action, `". "` and the target; then
      `" - details"` when details are truthy; all behind `"[agent] "` when the
      agent name is truthy. */
  function Format(e: ProgressEvent): (r: string)
    ensures var p := |AgentPrefix(e)|;
      && |r| == p + ActionWidth(e.action) + 2 + |Show(e.target)| + (if Truthy(e.details) then 3 + |Show(e.details)| else 0)
      && r[..p] == AgentPrefix(e)
      && Text.PadRight(ActionValue(e.action), 11) + ". " + Show(e.target) <= r[p..]
      && (!Truthy(e.details) ==> r[p..] == Text.PadRight(ActionValue(e.action), 11) + ". " + Show(e.target))
      && (Truthy(e.details) ==> r[|r| - (3 + |Show(e.details)|)..] == " - " + Show(e.details))
    ensures Truthy(e.agentName) <==> r[0] == '['
  {
    var head := Text.PadRight(ActionValue(e.action), 11) + ". " + Show(e.target);
    var tail := if Truthy(e.details) then " - " + Show(e.details) else "";
    var r := AgentPrefix(e) + (head + tail);
    assert r[..|AgentPrefix(e)|] == AgentPrefix(e);
    assert r[|AgentPrefix(e)|..] == head + tail;
    assert (head + tail)[..|head|] == head;
    assert r[|r| - |tail|..] == tail;
    assert !Truthy(e.agentName) ==> r[0] == ActionValue(e.action)[0] by {
      if !Truthy(e.agentName) {
        assert r[0] == head[0];
        assert Text.PadRight(ActionValue(e.action), 11)[..|ActionValue(e.action)|] == ActionValue(e.action);
      }
    }
    r
  }

  /** Read the action back from a display line without its agent prefix: the
      text before the first `.`, with the padding stripped. */
  function DisplayedAction(line: string): Option<ProgressAction> {
    ParseAction(Text.TrimRight(line[..Text.IndexOf(line, '.')]))
  }

  /** No action value contains a dot or ends with a space. */
  lemma ActionValueShape(a: ProgressAction)
    ensures forall i :: 0 <= i < |ActionValue(a)| ==> ActionValue(a)[i] != '.'
    ensures |ActionValue(a)| > 0 && ActionValue(a)[|ActionValue(a)| - 1] != ' '
  {
  }

  /** Once the event's own agent prefix is removed, the action can be read
      back from the padded column of its display line. */
  lemma FormatShowsAction(e: ProgressEvent)
    ensures DisplayedAction(Format(e)[|AgentPrefix(e)|..]) == Some(e.action)
  {
    var r := Format(e);
    var p := |AgentPrefix(e)|;
    var line := r[p..];
    var v := ActionValue(e.action);
    var padded := Text.PadRight(v, 11);
    var w := |padded|;
    ActionValueShape(e.action);
    assert line[..w] == padded;
    assert line[w] == '.';
    forall i | 0 <= i < w
      ensures line[i] != '.'
    {
      assert line[i] == padded[i];
      if i < |v| {
        assert padded[..|v|][i] == v[i];
      }
    }
    var dot := Text.IndexOf(line, '.');
    assert dot == w;
    Text.TrimRightPadRight(v, 11);
    ParseActionValue(e.action);
  }
}
