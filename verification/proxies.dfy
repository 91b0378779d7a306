/** The agent proxies (`core/proxies.py`): how `__call__` and `send` dispatch,
    how a router's result is turned into text, and how a chain passes a prompt
    through its agents. Agents are functions from the messages they are given
    to the message they answer with. */
module Proxies {
  import opened Base
  import Text

  datatype Role = User | Assistant

  /** A `PromptMessageMultipart`, reduced to its role and its `all_text()`. */
  datatype Message = Message(role: Role, text: string)

  /** `Prompt.user(text)`. */
  function UserPrompt(text: string): Message {
    Message(User, text)
  }

  /** An agent behind a proxy: `generate_x(messages)`. */
  type Agent = seq<Message> -> Message

  // ----- BaseAgentProxy.__call__ / send --------------------------------

  /** What `send` may be given besides `None`. */
  datatype Payload = PlainText(text: string) | Multipart(message: Message)

  /** Where a call ends up: the interactive `prompt()`, or `send_prompt(m)`. */
  datatype Dispatch = InteractivePrompt | SendPrompt(prompt: Message)

  /** `BaseAgentProxy.send`: no message opens the interactive prompt, a
      multipart message is sent as it is, a string is wrapped as a user message. */
  function Send(message: Option<Payload>): (d: Dispatch)
    ensures d == InteractivePrompt <==> message.None?
    ensures message.Some? && message.value.Multipart? ==> d == SendPrompt(message.value.message)
    ensures message.Some? && message.value.PlainText? ==>
      d.SendPrompt? && d.prompt.role == User && d.prompt.text == message.value.text
  {
    match message
    case None => InteractivePrompt
    case Some(Multipart(m)) => SendPrompt(m)
    case Some(PlainText(s)) => SendPrompt(UserPrompt(s))
  }

  /** `BaseAgentProxy.__call__`: `None` opens the interactive prompt, anything
      else goes through `send`; so it always agrees with `send`. */
  function Call(message: Option<Payload>): (d: Dispatch)
    ensures d == Send(message)
  {
    if message.None? then InteractivePrompt else Send(message)
  }

  // ----- RouterProxy.generate_str --------------------------------------

  /** What a route points at: an `Agent`, a server name (a `str`), or anything
      else, carried as its `str()`. */
  datatype RouteTarget = RoutedAgent(agent: string) | RoutedServer(server: string) | RoutedOther(shown: string)

  /** One router result; `confidence` is carried as its `str()`. */
  datatype RouteResult = RouteResult(result: RouteTarget, confidence: string, reasoning: string)

  /** A literal reply, or the message forwarded to an agent's `generate_str`. */
  datatype RouterReply = Reply(text: string) | DelegateToAgent(agent: string, message: string)

  const NoRouteMessage := "No appropriate route found for the request."
  const ServerRouteMessage := "Tool call requested by router - not yet supported"

  /** `RouterProxy.generate_str` once `route(message)` returned `results`. */
  function RouterGenerateStr(results: seq<RouteResult>, message: string): (r: RouterReply)
    ensures |results| == 0 <==> r == Reply(NoRouteMessage)
    ensures |results| > 0 && results[0].result.RoutedAgent? ==> r == DelegateToAgent(results[0].result.agent, message)
    ensures |results| > 0 && results[0].result.RoutedServer? ==> r == Reply(ServerRouteMessage)
    ensures |results| > 0 && results[0].result.RoutedOther? ==>
      r == Reply("Routed to: " + results[0].result.shown + " (" + results[0].confidence + "): " + results[0].reasoning)
  {
    if |results| == 0 then Reply(NoRouteMessage)
    else
      var top := results[0];
      match top.result
      case RoutedAgent(a) => DelegateToAgent(a, message)
      case RoutedServer(_) => Reply(ServerRouteMessage)
      case RoutedOther(shown) =>
        var text := "Routed to: " + shown + " (" + top.confidence + "): " + top.reasoning;
        assert text[0] != NoRouteMessage[0];
        Reply(text)
  }

  /** Only the top result decides the reply. */
  lemma RouterUsesTopResultOnly(top: RouteResult, rest1: seq<RouteResult>, rest2: seq<RouteResult>, message: string)
    ensures RouterGenerateStr([top] + rest1, message) == RouterGenerateStr([top] + rest2, message)
  {
  }

  // ----- ChainProxy.send_prompt ------------------------------------------

  /** Why a chain raises: a name with no proxy (`KeyError`), or a sequential
      chain with no agents, where `current_result` is still `None`. */
  datatype ChainError = UnknownAgent(name: string) | NoResult

  /** The attributed form of one agent's answer. */
  function Attribution(name: string, text: string): string {
    "<fastagent:response agent='" + name + "'>" + text + "</fastagent:response>"
  }

  /** The user message the chain carries forward from an agent's reply. */
  function Forwarded(cumulative: bool, name: string, reply: Message): Message {
    UserPrompt(if cumulative then Attribution(name, reply.text) else reply.text)
  }

  /** Each agent of the chain was looked up by its name and answered its input. */
  predicate Answered(sequence: seq<string>, agents: map<string, Agent>, inputs: seq<seq<Message>>, replies: seq<Message>)
    requires |inputs| == |replies| <= |sequence|
  {
    forall i :: 0 <= i < |replies| ==> sequence[i] in agents && replies[i] == agents[sequence[i]](inputs[i])
  }

  /** In a cumulative chain agent `i` sees the prompt followed by the attributed
      answers of the `i` agents before it. */
  predicate CumulativeInputs(sequence: seq<string>, prompt: Message, inputs: seq<seq<Message>>, replies: seq<Message>)
    requires |inputs| == |replies| <= |sequence|
  {
    forall i :: 0 <= i < |inputs| ==>
      && |inputs[i]| == i + 1
      && inputs[i][0] == prompt
      && forall j :: 1 <= j <= i ==> inputs[i][j] == UserPrompt(Attribution(sequence[j - 1], replies[j - 1].text))
  }

  /** In a sequential chain agent `i` sees one message: the prompt for the
      first agent, the previous agent's bare answer for the others. */
  predicate SequentialInputs(prompt: Message, inputs: seq<seq<Message>>, replies: seq<Message>)
    requires |inputs| == |replies|
  {
    forall i :: 0 <= i < |inputs| ==> inputs[i] == [if i == 0 then prompt else UserPrompt(replies[i - 1].text)]
  }

  /** The message chain: the prompt, then one forwarded answer per agent. */
  predicate ChainOf(cumulative: bool, sequence: seq<string>, prompt: Message, replies: seq<Message>, chain: seq<Message>)
    requires |chain| <= |replies| + 1 && |replies| <= |sequence|
  {
    && 0 < |chain|
    && chain[0] == prompt
    && forall j :: 1 <= j < |chain| ==> chain[j] == Forwarded(cumulative, sequence[j - 1], replies[j - 1])
  }

  /** One more answer keeps `Answered`. */
  lemma AnsweredStep(sequence: seq<string>, agents: map<string, Agent>,
                     inputs: seq<seq<Message>>, replies: seq<Message>, input: seq<Message>, reply: Message)
    requires |inputs| == |replies| < |sequence|
    requires sequence[|replies|] in agents && reply == agents[sequence[|replies|]](input)
    requires Answered(sequence, agents, inputs, replies)
    ensures Answered(sequence, agents, inputs + [input], replies + [reply])
  {
  }

  /** Agent `n` of a cumulative chain is given the whole chain so far. */
  lemma CumulativeStep(sequence: seq<string>, prompt: Message,
                       inputs: seq<seq<Message>>, replies: seq<Message>, chain: seq<Message>, reply: Message)
    requires |inputs| == |replies| < |sequence| && |chain| == |replies| + 1
    requires ChainOf(true, sequence, prompt, replies, chain)
    requires CumulativeInputs(sequence, prompt, inputs, replies)
    ensures CumulativeInputs(sequence, prompt, inputs + [chain], replies + [reply])
  {
  }

  /** Agent `n` of a sequential chain is given the last message of the chain. */
  lemma SequentialStep(sequence: seq<string>, prompt: Message,
                       inputs: seq<seq<Message>>, replies: seq<Message>, chain: seq<Message>, reply: Message)
    requires |inputs| == |replies| < |sequence| && |chain| == |replies| + 1
    requires ChainOf(false, sequence, prompt, replies, chain)
    requires SequentialInputs(prompt, inputs, replies)
    ensures SequentialInputs(prompt, inputs + [[chain[|chain| - 1]]], replies + [reply])
  {
  }

  /** The chain keeps its description when an answer is added, and when the
      answer is forwarded along it. */
  lemma ChainOfStep(cumulative: bool, sequence: seq<string>, prompt: Message,
                    replies: seq<Message>, chain: seq<Message>, reply: Message)
    requires |replies| < |sequence| && |chain| == |replies| + 1
    requires ChainOf(cumulative, sequence, prompt, replies, chain)
    ensures ChainOf(cumulative, sequence, prompt, replies + [reply], chain)
    ensures ChainOf(cumulative, sequence, prompt, replies + [reply],
                    chain + [Forwarded(cumulative, sequence[|replies|], reply)])
  {
  }

  /** The loop of `ChainProxy.send_prompt`: each named agent in turn is given
      the whole chain (cumulative) or its last message (sequential), and its
      answer is forwarded along the chain unless it is the last agent. It stops
      at the first name with no agent. Besides what each agent was given
      (`inputs`) and answered (`replies`) it returns the attributed answers
      (`finalResults`) and the message chain as the loop left it. */
  method ChainLoop(sequence: seq<string>, agents: map<string, Agent>, cumulative: bool, prompt: Message)
    returns (inputs: seq<seq<Message>>, replies: seq<Message>, finalResults: seq<string>, chain: seq<Message>)
    ensures |inputs| == |replies| == |finalResults| <= |sequence|
    ensures Answered(sequence, agents, inputs, replies)
    ensures forall i :: 0 <= i < |finalResults| ==> finalResults[i] == Attribution(sequence[i], replies[i].text)
    ensures cumulative ==> CumulativeInputs(sequence, prompt, inputs, replies)
    ensures !cumulative ==> SequentialInputs(prompt, inputs, replies)
    ensures |replies| < |sequence| ==> sequence[|replies|] !in agents
    ensures |chain| == (if |replies| == |sequence| && |sequence| > 0 then |sequence| else |replies| + 1)
    ensures ChainOf(cumulative, sequence, prompt, replies, chain)
  {
    chain := [prompt];
    inputs, replies, finalResults := [], [], [];
    var i := 0;
    while i < |sequence|
      invariant 0 <= i <= |sequence|
      invariant |inputs| == |replies| == |finalResults| == i
      invariant Answered(sequence, agents, inputs, replies)
      invariant forall k :: 0 <= k < i ==> finalResults[k] == Attribution(sequence[k], replies[k].text)
      invariant cumulative ==> CumulativeInputs(sequence, prompt, inputs, replies)
      invariant !cumulative ==> SequentialInputs(prompt, inputs, replies)
      invariant |chain| == (if i == |sequence| && i > 0 then i else i + 1)
      invariant ChainOf(cumulative, sequence, prompt, replies, chain)
    {
      var name := sequence[i];
      if name !in agents {
        return;
      }
      var agentPrompt := if cumulative then chain else [chain[|chain| - 1]];
      var reply := agents[name](agentPrompt);
      AnsweredStep(sequence, agents, inputs, replies, agentPrompt, reply);
      if cumulative {
        CumulativeStep(sequence, prompt, inputs, replies, chain, reply);
      } else {
        SequentialStep(sequence, prompt, inputs, replies, chain, reply);
      }
      ChainOfStep(cumulative, sequence, prompt, replies, chain, reply);
      inputs := inputs + [agentPrompt];
      replies := replies + [reply];
      finalResults := finalResults + [Attribution(name, reply.text)];
      if i < |sequence| - 1 {
        chain := chain + [Forwarded(cumulative, name, reply)];
      }
      i := i + 1;
    }
  }

  /** `ChainProxy.send_prompt(prompt)` over the names in `sequence`: it raises
      at the first name with no agent; otherwise a cumulative chain answers with
      all attributed answers joined by blank lines, and a sequential chain with
      the prompt's text and the last agent's answer on the next line (an empty
      sequential chain has no answer to give). */
  method ChainSendPrompt(sequence: seq<string>, agents: map<string, Agent>, cumulative: bool, prompt: Message)
    returns (answer: Result<string, ChainError>, inputs: seq<seq<Message>>, replies: seq<Message>,
             finalResults: seq<string>, chain: seq<Message>)
    ensures |inputs| == |replies| == |finalResults| <= |sequence|
    ensures Answered(sequence, agents, inputs, replies)
    ensures forall i :: 0 <= i < |finalResults| ==> finalResults[i] == Attribution(sequence[i], replies[i].text)
    ensures cumulative ==> CumulativeInputs(sequence, prompt, inputs, replies)
    ensures !cumulative ==> SequentialInputs(prompt, inputs, replies)
    ensures (forall k :: 0 <= k < |sequence| ==> sequence[k] in agents) <==> |replies| == |sequence|
    ensures |replies| < |sequence| ==> sequence[|replies|] !in agents && answer == Err(UnknownAgent(sequence[|replies|]))
    ensures |replies| == |sequence| && cumulative ==> answer == Ok(Text.JoinWith("\n\n", finalResults))
    ensures |replies| == |sequence| && !cumulative && |sequence| == 0 ==> answer == Err(NoResult)
    ensures |replies| == |sequence| && !cumulative && |sequence| > 0 ==>
      answer == Ok(prompt.text + "\n" + replies[|replies| - 1].text)
    ensures |chain| == (if |replies| == |sequence| && |sequence| > 0 then |sequence| else |replies| + 1)
    ensures ChainOf(cumulative, sequence, prompt, replies, chain)
  {
    inputs, replies, finalResults, chain := ChainLoop(sequence, agents, cumulative, prompt);
    if |replies| < |sequence| {
      answer := Err(UnknownAgent(sequence[|replies|]));
    } else if cumulative {
      answer := Ok(Text.JoinWith("\n\n", finalResults));
    } else if |replies| == 0 {
      answer := Err(NoResult);
    } else {
      answer := Ok(prompt.text + "\n" + replies[|replies| - 1].text);
    }
  }
}
