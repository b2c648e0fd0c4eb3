/** The GraphQL resolvers of the backend: the process-wide session store, the
    `chat` mutation, `resetSession`, the `agentInfo` table, and the two
    subscriptions (`chatStream` and `weatherUpdates`). The language-model
    agent is a parameter: `generate` and `stream` are functions from the
    persona and the history handed to them to what the agent returned. */
module Resolvers {
  import opened Wrappers
  import opened Text
  import WeatherTool

  // ---------------------------------------------------------------------
  // Messages, sessions, personas
  // ---------------------------------------------------------------------

  datatype Role = User | Assistant

  /** One entry of a session's history, as handed to the agent. */
  datatype Message = Message(role: Role, content: string)

  const DefaultSessionKey := "default"

  /** `sessionId || 'default'`: an absent or empty id selects the default session. */
  function SessionKey(sessionId: Option<string>): (key: string)
    ensures sessionId.None? || sessionId == Some("") ==> key == DefaultSessionKey
    ensures sessionId.Some? && sessionId.value != "" ==> key == sessionId.value
  {
    match sessionId
    case None => DefaultSessionKey
    case Some(id) => if id == "" then DefaultSessionKey else id
  }

  /** The history stored under `key`, or the empty history when there is none
      (`sessions.get(key) || []`). */
  function HistoryOf(sessions: map<string, seq<Message>>, key: string): (h: seq<Message>)
    ensures key in sessions ==> h == sessions[key]
    ensures key !in sessions ==> h == []
  {
    if key in sessions then sessions[key] else []
  }

  /** The two agents: the professional one and the chatty one. */
  datatype Persona = WeatherAgent | WeatherChatAgent

  /** `agentType === 'CHAT'` selects the chat agent; every other value the
      professional one. */
  function SelectAgent(agentType: string): (agent: Persona)
    ensures agent == WeatherChatAgent <==> agentType == "CHAT"
  {
    if agentType == "CHAT" then WeatherChatAgent else WeatherAgent
  }

  const WeatherAgentName := "天气AI助手"
  const ChatAgentName := "天气聊天助手"

  /** The name each agent is created with. */
  function PersonaName(agent: Persona): string {
    match agent
    case WeatherAgent => WeatherAgentName
    case WeatherChatAgent => ChatAgentName
  }

  // ---------------------------------------------------------------------
  // agentInfo
  // ---------------------------------------------------------------------

  datatype AgentInfo = AgentInfo(name: string, description: string, capabilities: seq<string>, model: string, version: string)

  /** The name of the language model both agents use. */
  const ModelName := "DeepSeek Chat"

  /** The two entries `agentInfo` knows. */
  function AgentInfoTable(): map<string, AgentInfo> {
    map[
      "weather" := AgentInfo(WeatherAgentName, "专业的天气信息查询助手，提供准确的天气数据和生活建议",
                             ["实时天气查询", "天气预报", "生活建议", "多语言支持", "智能对话"], ModelName, "1.0.0"),
      "chat" := AgentInfo(ChatAgentName, "友好的天气聊天助手，用自然对话方式提供天气信息",
                          ["自然对话", "天气查询", "生活建议", "情感交流", "emoji表达"], ModelName, "1.0.0")
    ]
  }

  /** `Query.agentInfo`: the entry named by `agentName`, with the `weather`
      entry for an absent, empty or unknown name. */
  function AgentInfoFor(agentName: Option<string>): (info: AgentInfo)
    ensures info == AgentInfoTable()["chat"] <==> agentName == Some("chat")
    ensures agentName != Some("chat") ==> info == AgentInfoTable()["weather"]
    ensures info.model == ModelName && info.version == "1.0.0"
  {
    var key := match agentName case None => "weather" case Some(n) => if n == "" then "weather" else n;
    var table := AgentInfoTable();
    if key in table then table[key] else table["weather"]
  }

  /** The `agent` label of a chat response: the name of the selected agent,
      which is also the name `agentInfo` lists for it. */
  function AgentLabel(agentType: string): (name: string)
    ensures name == PersonaName(SelectAgent(agentType))
    ensures name == AgentInfoFor(Some(if agentType == "CHAT" then "chat" else "weather")).name
  {
    if agentType == "CHAT" then ChatAgentName else WeatherAgentName
  }

  // ---------------------------------------------------------------------
  // Tool calls
  // ---------------------------------------------------------------------

  /** One tool invocation reported by the agent; `result` is absent when the
      tool produced none. */
  datatype ToolCall<P> = ToolCall(toolName: string, result: Option<P>)

  const CurrentWeatherToolName := "getCurrentWeatherTool"
  const ForecastToolName := "getWeatherForecastTool"

  /** The result of the last call named `name`, or `None` when there is none:
      each match overwrites what an earlier one left. */
  function LastResult<P>(calls: seq<ToolCall<P>>, name: string): (r: Option<P>)
    ensures r.Some? ==> exists j :: 0 <= j < |calls| && calls[j].toolName == name && calls[j].result == r
    decreases |calls|
  {
    if calls == [] then None
    else if calls[|calls| - 1].toolName == name then calls[|calls| - 1].result
    else LastResult(calls[..|calls| - 1], name)
  }

  /** When `j` is the last call named `name`, its result is the one kept. */
  lemma {:induction false} LastResultIsLastMatch<P>(calls: seq<ToolCall<P>>, name: string, j: int)
    requires 0 <= j < |calls| && calls[j].toolName == name
    requires forall i :: j < i < |calls| ==> calls[i].toolName != name
    ensures LastResult(calls, name) == calls[j].result
    decreases |calls|
  {
    if j < |calls| - 1 {
      LastResultIsLastMatch(calls[..|calls| - 1], name, j);
    }
  }

  /** When no call is named `name`, nothing is kept. */
  lemma {:induction false} LastResultNoMatch<P>(calls: seq<ToolCall<P>>, name: string)
    requires forall i :: 0 <= i < |calls| ==> calls[i].toolName != name
    ensures LastResult(calls, name) == None
    decreases |calls|
  {
    if calls != [] {
      LastResultNoMatch(calls[..|calls| - 1], name);
    }
  }

  /** Calls with other names never change what is kept. */
  lemma {:induction false} LastResultIgnoresOthers<P>(calls: seq<ToolCall<P>>, others: seq<ToolCall<P>>, name: string)
    requires forall i :: 0 <= i < |others| ==> others[i].toolName != name
    ensures LastResult(calls + others, name) == LastResult(calls, name)
    decreases |others|
  {
    if others != [] {
      var shorter := others[..|others| - 1];
      assert (calls + others)[..|calls + others| - 1] == calls + shorter;
      LastResultIgnoresOthers(calls, shorter, name);
    } else {
      assert calls + others == calls;
    }
  }

  /** The tool data of a reply whose `toolCalls` may be absent. */
  function ToolData<P>(toolCalls: Option<seq<ToolCall<P>>>, name: string): (r: Option<P>)
    ensures toolCalls.None? ==> r.None?
  {
    match toolCalls
    case None => None
    case Some(calls) => LastResult(calls, name)
  }

  /** The loop of `chat` that scans the tool calls for weather and forecast data. */
  method ExtractToolData<P>(toolCalls: Option<seq<ToolCall<P>>>) returns (weatherData: Option<P>, forecastData: Option<P>)
    ensures weatherData == ToolData(toolCalls, CurrentWeatherToolName)
    ensures forecastData == ToolData(toolCalls, ForecastToolName)
  {
    weatherData, forecastData := None, None;
    if toolCalls.Some? && |toolCalls.value| > 0 {
      var calls := toolCalls.value;
      var i := 0;
      while i < |calls|
        invariant 0 <= i <= |calls|
        invariant weatherData == LastResult(calls[..i], CurrentWeatherToolName)
        invariant forecastData == LastResult(calls[..i], ForecastToolName)
      {
        assert calls[..i + 1][..i] == calls[..i];
        if calls[i].toolName == CurrentWeatherToolName {
          weatherData := calls[i].result;
        } else if calls[i].toolName == ForecastToolName {
          forecastData := calls[i].result;
        }
        i := i + 1;
      }
      assert calls[..|calls|] == calls;
    }
  }

  // ---------------------------------------------------------------------
  // The chat mutation, as a function of the store
  // ---------------------------------------------------------------------

  /** What `generate` returned: the reply text and its tool calls (absent or
      a list), or the message of what it threw. */
  datatype AgentReply<P> = Reply(text: string, toolCalls: Option<seq<ToolCall<P>>>) | Raised(message: Option<string>)

  /** The `chat` mutation's payload (its timestamp is not modelled). */
  datatype ChatResponse<P> = ChatResponse(message: string, weatherData: Option<P>, forecastData: Option<P>, agent: string)

  /** The store after a turn and what the mutation returned or threw. */
  datatype Turn<P> = Turn(sessions: map<string, seq<Message>>, response: Result<ChatResponse<P>, string>)

  const ChatFailedPrefix := "AI对话失败: "

  /** One `chat` turn. The user message is pushed onto the history; when a
      history was stored under the key, that stored array is the one pushed
      to, so the push stays even if the agent then throws. A new key is
      stored only after the agent has replied. */
  function ChatTurn<P>(sessions: map<string, seq<Message>>, message: string, agentType: string,
                       sessionId: Option<string>, generate: (Persona, seq<Message>) -> AgentReply<P>): (t: Turn<P>)
    ensures var key := SessionKey(sessionId);
      && (forall k :: k != key ==> (k in t.sessions <==> k in sessions))
      && (forall k :: k != key && k in sessions ==> t.sessions[k] == sessions[k])
    ensures var key := SessionKey(sessionId);
      var sent := HistoryOf(sessions, key) + [Message(User, message)];
      match generate(SelectAgent(agentType), sent)
      case Reply(text, calls) =>
        && key in t.sessions
        && t.sessions[key] == HistoryOf(sessions, key) + [Message(User, message), Message(Assistant, text)]
        && t.response == Success(ChatResponse(text, ToolData(calls, CurrentWeatherToolName),
                                              ToolData(calls, ForecastToolName), PersonaName(SelectAgent(agentType))))
      case Raised(m) =>
        && (key in t.sessions <==> key in sessions)
        && HistoryOf(t.sessions, key) == (if key in sessions then sent else [])
        && t.response == Failure(ChatFailedPrefix + ThrownMessage(m))
  {
    var key := SessionKey(sessionId);
    var history := HistoryOf(sessions, key) + [Message(User, message)];
    var stored := if key in sessions then sessions[key := history] else sessions;
    match generate(SelectAgent(agentType), history)
    case Raised(m) => Turn(stored, Failure(ChatFailedPrefix + ThrownMessage(m)))
    case Reply(text, calls) =>
      Turn(stored[key := history + [Message(Assistant, text)]],
           Success(ChatResponse(text, ToolData(calls, CurrentWeatherToolName), ToolData(calls, ForecastToolName), AgentLabel(agentType))))
  }

  /** Several `chat` turns on one session, one per message, in order. */
  function ChatTurns<P>(sessions: map<string, seq<Message>>, messages: seq<string>, agentType: string,
                        sessionId: Option<string>, generate: (Persona, seq<Message>) -> AgentReply<P>): map<string, seq<Message>>
    decreases |messages|
  {
    if messages == [] then sessions
    else ChatTurns(ChatTurn(sessions, messages[0], agentType, sessionId, generate).sessions,
                   messages[1..], agentType, sessionId, generate)
  }

  /** A history that alternates user and assistant messages, starting with
      the user. */
  predicate Alternating(h: seq<Message>) {
    forall i :: 0 <= i < |h| ==> h[i].role == (if i % 2 == 0 then User else Assistant)
  }

  /** `after` is `before` followed by one user/reply pair per message, the
      user halves carrying the messages in order. */
  predicate AppendsUserTurns(before: seq<Message>, after: seq<Message>, messages: seq<string>) {
    && |after| == |before| + 2 * |messages|
    && after[..|before|] == before
    && forall n :: 0 <= n < |messages| ==> after[|before| + 2 * n] == Message(User, messages[n])
  }

  lemma AlternatingExtend(h: seq<Message>, u: Message, a: Message)
    requires Alternating(h) && |h| % 2 == 0 && u.role == User && a.role == Assistant
    ensures Alternating(h + [u, a])
  {
    var h' := h + [u, a];
    forall i | 0 <= i < |h'| ensures h'[i].role == (if i % 2 == 0 then User else Assistant) {
      if i < |h| { assert h'[i] == h[i]; }
    }
  }

  lemma AppendsCompose(before: seq<Message>, reply: string, after: seq<Message>, messages: seq<string>)
    requires messages != []
    requires AppendsUserTurns(before + [Message(User, messages[0]), Message(Assistant, reply)], after, messages[1..])
    ensures AppendsUserTurns(before, after, messages)
  {
    var mid := before + [Message(User, messages[0]), Message(Assistant, reply)];
    assert after[..|before|] == after[..|mid|][..|before|];
    forall n | 0 <= n < |messages| ensures after[|before| + 2 * n] == Message(User, messages[n]) {
      if n == 0 {
        assert after[..|mid|][|before|] == mid[|before|];
      } else {
        assert after[|mid| + 2 * (n - 1)] == Message(User, messages[1..][n - 1]);
      }
    }
  }

  /** When the agent always replies, N turns on a session whose history is an
      even-length alternation add exactly 2N messages, keep the alternation,
      and put the N user messages in order at the even positions. */
  lemma {:induction false} SuccessfulTurnsAlternate<P>(sessions: map<string, seq<Message>>, messages: seq<string>,
                                                       agentType: string, sessionId: Option<string>,
                                                       generate: (Persona, seq<Message>) -> AgentReply<P>)
    requires forall h :: generate(SelectAgent(agentType), h).Reply?
    requires Alternating(HistoryOf(sessions, SessionKey(sessionId)))
    requires |HistoryOf(sessions, SessionKey(sessionId))| % 2 == 0
    ensures var after := HistoryOf(ChatTurns(sessions, messages, agentType, sessionId, generate), SessionKey(sessionId));
      && AppendsUserTurns(HistoryOf(sessions, SessionKey(sessionId)), after, messages)
      && Alternating(after)
    decreases |messages|
  {
    var key := SessionKey(sessionId);
    var before := HistoryOf(sessions, key);
    if messages == [] {
      assert before[..|before|] == before;
    } else {
      var sent := before + [Message(User, messages[0])];
      var reply := generate(SelectAgent(agentType), sent);
      assert reply.Reply?;
      var next := ChatTurn(sessions, messages[0], agentType, sessionId, generate).sessions;
      assert HistoryOf(next, key) == before + [Message(User, messages[0]), Message(Assistant, reply.text)];
      AlternatingExtend(before, Message(User, messages[0]), Message(Assistant, reply.text));
      SuccessfulTurnsAlternate(next, messages[1..], agentType, sessionId, generate);
      AppendsCompose(before, reply.text, HistoryOf(ChatTurns(next, messages[1..], agentType, sessionId, generate), key), messages);
    }
  }

  /** A failed turn on a stored session leaves the user message without a
      reply: a history of 2(K-1) messages grows to 2K-1. On a key never stored
      the failed turn creates no entry at all. */
  lemma FailedTurnKeepsUserMessage<P>(sessions: map<string, seq<Message>>, message: string, agentType: string,
                                      sessionId: Option<string>, generate: (Persona, seq<Message>) -> AgentReply<P>)
    requires generate(SelectAgent(agentType), HistoryOf(sessions, SessionKey(sessionId)) + [Message(User, message)]).Raised?
    ensures var key := SessionKey(sessionId);
      var after := ChatTurn(sessions, message, agentType, sessionId, generate).sessions;
      && (key in sessions ==> |after[key]| == |sessions[key]| + 1 && after[key][|sessions[key]|] == Message(User, message))
      && (key !in sessions ==> after == sessions)
  {
    var after := ChatTurn(sessions, message, agentType, sessionId, generate).sessions;
    assert after.Keys == sessions.Keys;
  }

  /** After `resetSession(id)`, a successful turn on the same session starts
      from an empty history: the session then holds exactly the new user
      message and the reply. */
  lemma ChatAfterReset<P>(sessions: map<string, seq<Message>>, message: string, agentType: string,
                          id: string, generate: (Persona, seq<Message>) -> AgentReply<P>)
    requires id != ""
    requires generate(SelectAgent(agentType), [Message(User, message)]).Reply?
    ensures HistoryOf(ChatTurn(sessions - {id}, message, agentType, Some(id), generate).sessions, id)
            == [Message(User, message), Message(Assistant, generate(SelectAgent(agentType), [Message(User, message)]).text)]
  {
    assert HistoryOf(sessions - {id}, id) + [Message(User, message)] == [Message(User, message)];
  }

  /** `resetSession` deletes its argument verbatim, without the `default`
      fallback `chat` applies, so resetting the empty id does not reset the
      session that `chat` with the empty id keeps using: the next answered
      turn there still extends the old default history. */
  lemma ResetOfEmptyIdKeepsDefault<P>(sessions: map<string, seq<Message>>, message: string, agentType: string,
                                      generate: (Persona, seq<Message>) -> AgentReply<P>)
    requires generate(SelectAgent(agentType), HistoryOf(sessions, DefaultSessionKey) + [Message(User, message)]).Reply?
    ensures var reply := generate(SelectAgent(agentType), HistoryOf(sessions, DefaultSessionKey) + [Message(User, message)]);
      HistoryOf(ChatTurn(sessions - {""}, message, agentType, Some(""), generate).sessions, DefaultSessionKey)
      == HistoryOf(sessions, DefaultSessionKey) + [Message(User, message), Message(Assistant, reply.text)]
  {
    assert HistoryOf(sessions - {""}, DefaultSessionKey) == HistoryOf(sessions, DefaultSessionKey);
  }

  // ---------------------------------------------------------------------
  // chatStream
  // ---------------------------------------------------------------------

  /** A chunk of the agent's stream: text, a tool call with its result, or
      anything else (ignored). */
  datatype Chunk<P> = TextChunk(content: string) | ToolCallChunk(toolName: string, result: Option<P>) | OtherChunk

  /** What `stream` delivered: the chunks produced, and then either a normal
      end (`None`) or what was thrown (`Some`), carrying the message when it
      was an `Error`. A stream that could not be opened delivers no chunks
      and a failure. */
  datatype StreamRun<P> = StreamRun(chunks: seq<Chunk<P>>, failure: Option<Option<string>>)

  /** One `chatStream` payload. */
  datatype StreamEvent<P> = StreamEvent(content: string, done: bool, weatherData: Option<P>)

  const StreamFailedPrefix := "流式对话失败: "

  /** The events emitted for the chunks: one per text chunk. */
  function TextEvents<P>(chunks: seq<Chunk<P>>): (events: seq<StreamEvent<P>>)
    ensures |events| <= |chunks|
    ensures forall k :: 0 <= k < |events| ==> !events[k].done && events[k].weatherData.None?
    decreases |chunks|
  {
    if chunks == [] then []
    else
      var prev := TextEvents(chunks[..|chunks| - 1]);
      match chunks[|chunks| - 1]
      case TextChunk(c) => prev + [StreamEvent(c, false, None)]
      case _ => prev
  }

  /** The text accumulated from the chunks. */
  function FullText<P>(chunks: seq<Chunk<P>>): (text: string)
    ensures (forall k :: 0 <= k < |chunks| ==> !chunks[k].TextChunk?) ==> text == ""
    decreases |chunks|
  {
    if chunks == [] then ""
    else
      var prev := FullText(chunks[..|chunks| - 1]);
      match chunks[|chunks| - 1]
      case TextChunk(c) => prev + c
      case _ => prev
  }

  /** The result of the last current-weather tool call among the chunks. */
  function StreamWeather<P>(chunks: seq<Chunk<P>>): (r: Option<P>)
    ensures r.Some? ==> exists j :: WeatherCallAt(chunks, j) && chunks[j].result == r
    decreases |chunks|
  {
    if chunks == [] then None
    else
      match chunks[|chunks| - 1]
      case ToolCallChunk(name, result) =>
        if name == CurrentWeatherToolName then result else StreamWeather(chunks[..|chunks| - 1])
      case _ => StreamWeather(chunks[..|chunks| - 1])
  }

  /** Chunk `j` is a tool call of the current-weather tool. */
  predicate WeatherCallAt<P>(chunks: seq<Chunk<P>>, j: int) {
    0 <= j < |chunks| && chunks[j].ToolCallChunk? && chunks[j].toolName == CurrentWeatherToolName
  }

  /** When chunk `j` is the last current-weather tool call, its result is the
      weather of the final event. */
  lemma {:induction false} StreamWeatherLast<P>(chunks: seq<Chunk<P>>, j: int)
    requires WeatherCallAt(chunks, j)
    requires forall i :: j < i < |chunks| ==> !WeatherCallAt(chunks, i)
    ensures StreamWeather(chunks) == chunks[j].result
    decreases |chunks|
  {
    if j < |chunks| - 1 {
      var prefix := chunks[..|chunks| - 1];
      assert !WeatherCallAt(chunks, |chunks| - 1);
      forall i | j < i < |prefix| ensures !WeatherCallAt(prefix, i) {
        assert !WeatherCallAt(chunks, i);
      }
      StreamWeatherLast(prefix, j);
    }
  }

  /** Without a current-weather tool call the final event carries no weather. */
  lemma {:induction false} StreamWeatherNone<P>(chunks: seq<Chunk<P>>)
    requires forall i :: 0 <= i < |chunks| ==> !WeatherCallAt(chunks, i)
    ensures StreamWeather(chunks) == None
    decreases |chunks|
  {
    if chunks != [] {
      var prefix := chunks[..|chunks| - 1];
      assert !WeatherCallAt(chunks, |chunks| - 1);
      forall i | 0 <= i < |prefix| ensures !WeatherCallAt(prefix, i) {
        assert !WeatherCallAt(chunks, i);
      }
      StreamWeatherNone(prefix);
    }
  }

  /** The texts of the text chunks, in order. */
  function Texts<P>(chunks: seq<Chunk<P>>): seq<string>
    decreases |chunks|
  {
    if chunks == [] then []
    else if chunks[0].TextChunk? then [chunks[0].content] + Texts(chunks[1..])
    else Texts(chunks[1..])
  }

  /** The concatenation of a list of strings. */
  function Concat(parts: seq<string>): string
    decreases |parts|
  {
    if parts == [] then "" else parts[0] + Concat(parts[1..])
  }

  lemma {:induction false} ConcatAppend(parts: seq<string>, s: string)
    ensures Concat(parts + [s]) == Concat(parts) + s
    decreases |parts|
  {
    if parts == [] {
      assert [s][1..] == [];
    } else {
      assert (parts + [s])[1..] == parts[1..] + [s];
      ConcatAppend(parts[1..], s);
    }
  }

  lemma {:induction false} TextsAppend<P>(chunks: seq<Chunk<P>>, c: Chunk<P>)
    ensures Texts(chunks + [c]) == Texts(chunks) + (if c.TextChunk? then [c.content] else [])
    decreases |chunks|
  {
    if chunks == [] {
      assert [c][1..] == [];
    } else {
      assert (chunks + [c])[1..] == chunks[1..] + [c];
      TextsAppend(chunks[1..], c);
    }
  }

  /** The text events carry the text chunks one for one, in order, none of
      them final and none with weather data; and what the consumer sees
      concatenated is exactly the text stored as the assistant's message. */
  lemma {:induction false} TextEventsMatchChunks<P>(chunks: seq<Chunk<P>>)
    ensures |TextEvents(chunks)| == |Texts(chunks)|
    ensures forall k :: 0 <= k < |TextEvents(chunks)| ==>
      TextEvents(chunks)[k] == StreamEvent(Texts(chunks)[k], false, None)
    ensures FullText(chunks) == Concat(Texts(chunks))
    decreases |chunks|
  {
    if chunks != [] {
      var prefix := chunks[..|chunks| - 1];
      var c := chunks[|chunks| - 1];
      TextEventsMatchChunks(prefix);
      assert chunks == prefix + [c];
      assert chunks[..|chunks| - 1] == prefix;
      TextsAppend(prefix, c);
      if c.TextChunk? {
        ConcatAppend(Texts(prefix), c.content);
      } else {
        assert Texts(chunks) == Texts(prefix);
      }
    }
  }

  /** The loop of `chatStream` over the chunks: it emits the text events,
      accumulates the text and captures weather data. */
  method ConsumeStream<P>(chunks: seq<Chunk<P>>) returns (events: seq<StreamEvent<P>>, fullContent: string, weatherData: Option<P>)
    ensures events == TextEvents(chunks)
    ensures fullContent == FullText(chunks)
    ensures weatherData == StreamWeather(chunks)
  {
    events, fullContent, weatherData := [], "", None;
    var i := 0;
    while i < |chunks|
      invariant 0 <= i <= |chunks|
      invariant events == TextEvents(chunks[..i])
      invariant fullContent == FullText(chunks[..i])
      invariant weatherData == StreamWeather(chunks[..i])
    {
      assert chunks[..i + 1][..i] == chunks[..i];
      match chunks[i] {
        case TextChunk(c) =>
          fullContent := fullContent + c;
          events := events + [StreamEvent(c, false, None)];
        case ToolCallChunk(name, result) =>
          if name == CurrentWeatherToolName {
            weatherData := result;
          }
        case OtherChunk =>
      }
      i := i + 1;
    }
    assert chunks[..|chunks|] == chunks;
  }

  // ---------------------------------------------------------------------
  // weatherUpdates
  // ---------------------------------------------------------------------

  /** One `weatherUpdates` payload: a reading, or the error that ends the stream. */
  datatype Update = Reading(weather: WeatherTool.WeatherData) | UpdateError(error: string)

  const UpdateFailedPrefix := "获取天气更新失败: "

  /** The payloads for a run of polls, each poll being what the
      current-weather tool returned or threw: every reading in order, up to
      the first failure, which yields one error payload and ends the stream. */
  function Updates(polls: seq<Result<WeatherTool.WeatherData, string>>): (payloads: seq<Update>)
    ensures |payloads| <= |polls|
    ensures forall k :: 0 <= k < |payloads| - 1 ==> payloads[k].Reading?
    decreases |polls|
  {
    if polls == [] then []
    else
      match polls[0]
      case Success(w) => [Reading(w)] + Updates(polls[1..])
      case Failure(e) => [UpdateError(UpdateFailedPrefix + e)]
  }

  /** Polls that all succeed yield one reading each, in order. */
  lemma {:induction false} UpdatesWithoutFailure(polls: seq<Result<WeatherTool.WeatherData, string>>)
    requires forall i :: 0 <= i < |polls| ==> polls[i].Success?
    ensures |Updates(polls)| == |polls|
    ensures forall i :: 0 <= i < |polls| ==> Updates(polls)[i] == Reading(polls[i].value)
    decreases |polls|
  {
    if polls != [] {
      UpdatesWithoutFailure(polls[1..]);
    }
  }

  /** At the first failed poll the stream yields one error payload and stops:
      nothing after that poll is looked at. */
  lemma {:induction false} UpdatesStopAtFirstFailure(polls: seq<Result<WeatherTool.WeatherData, string>>, f: int)
    requires 0 <= f < |polls| && polls[f].Failure?
    requires forall i :: 0 <= i < f ==> polls[i].Success?
    ensures |Updates(polls)| == f + 1
    ensures forall i :: 0 <= i < f ==> Updates(polls)[i] == Reading(polls[i].value)
    ensures Updates(polls)[f] == UpdateError(UpdateFailedPrefix + polls[f].error)
    decreases f
  {
    if f > 0 {
      UpdatesStopAtFirstFailure(polls[1..], f - 1);
    }
  }

  /** The polling loop of `weatherUpdates` over the outcomes of successive polls. */
  method WeatherUpdates(polls: seq<Result<WeatherTool.WeatherData, string>>) returns (payloads: seq<Update>)
    ensures payloads == Updates(polls)
  {
    payloads := [];
    var i := 0;
    while i < |polls|
      invariant 0 <= i <= |polls|
      invariant payloads + Updates(polls[i..]) == Updates(polls)
    {
      match polls[i] {
        case Success(w) =>
          assert polls[i..][1..] == polls[i + 1..];
          payloads := payloads + [Reading(w)];
        case Failure(e) =>
          payloads := payloads + [UpdateError(UpdateFailedPrefix + e)];
          return;
      }
      i := i + 1;
    }
  }

  // ---------------------------------------------------------------------
  // The session store
  // ---------------------------------------------------------------------

  /** The process-wide map from session key to history, with the operations
      that update it. */
  class SessionStore {
    var sessions: map<string, seq<Message>>

    constructor ()
      ensures sessions == map[]
    {
      sessions := map[];
    }

    /** `Mutation.chat`. */
    method Chat<P>(message: string, agentType: string, sessionId: Option<string>,
                   generate: (Persona, seq<Message>) -> AgentReply<P>)
      returns (r: Result<ChatResponse<P>, string>)
      modifies this
      ensures Turn(sessions, r) == ChatTurn(old(sessions), message, agentType, sessionId, generate)
    {
      var agent := SelectAgent(agentType);
      var sessionKey := SessionKey(sessionId);
      var history := if sessionKey in sessions then sessions[sessionKey] else [];
      history := history + [Message(User, message)];
      if sessionKey in sessions {
        // the pushed array is the one the map holds
        sessions := sessions[sessionKey := history];
      }
      var reply := generate(agent, history);
      match reply
      case Raised(m) =>
        r := Failure(ChatFailedPrefix + ThrownMessage(m));
      case Reply(text, toolCalls) =>
        history := history + [Message(Assistant, text)];
        sessions := sessions[sessionKey := history];
        var weatherData, forecastData := ExtractToolData(toolCalls);
        r := Success(ChatResponse(text, weatherData, forecastData, AgentLabel(agentType)));
    }

    /** `Mutation.resetSession`: removes the key (whether or not it was
      there) and reports success. */
    method ResetSession(sessionId: string) returns (ok: bool)
      modifies this
      ensures ok
      ensures sessions == old(sessions) - {sessionId}
      ensures sessionId !in sessions && HistoryOf(sessions, sessionId) == []
      ensures forall k :: k != sessionId ==> HistoryOf(sessions, k) == HistoryOf(old(sessions), k)
    {
      sessions := sessions - {sessionId};
      ok := true;
    }

    /** `Subscription.chatStream`, consumed to the end. */
    method ChatStream<P>(message: string, agentType: string, sessionId: Option<string>,
                         stream: (Persona, seq<Message>) -> StreamRun<P>)
      returns (events: seq<StreamEvent<P>>)
      modifies this
      ensures var key := SessionKey(sessionId);
        var sent := HistoryOf(old(sessions), key) + [Message(User, message)];
        var run := stream(SelectAgent(agentType), sent);
        && (run.failure.None? ==>
              && events == TextEvents(run.chunks) + [StreamEvent("", true, StreamWeather(run.chunks))]
              && sessions == old(sessions)[key := sent + [Message(Assistant, FullText(run.chunks))]])
        && (run.failure.Some? ==>
              && events == TextEvents(run.chunks) + [StreamEvent(StreamFailedPrefix + ThrownMessage(run.failure.value), true, None)]
              && sessions == if key in old(sessions) then old(sessions)[key := sent] else old(sessions))
    {
      var agent := SelectAgent(agentType);
      var sessionKey := SessionKey(sessionId);
      var history := if sessionKey in sessions then sessions[sessionKey] else [];
      history := history + [Message(User, message)];
      if sessionKey in sessions {
        sessions := sessions[sessionKey := history];
      }
      var run := stream(agent, history);
      var fullContent, weatherData;
      events, fullContent, weatherData := ConsumeStream(run.chunks);
      match run.failure
      case Some(m) =>
        events := events + [StreamEvent(StreamFailedPrefix + ThrownMessage(m), true, None)];
      case None =>
        events := events + [StreamEvent("", true, weatherData)];
        history := history + [Message(Assistant, fullContent)];
        sessions := sessions[sessionKey := history];
    }
  }

  /** A `chatStream` that ends normally emits exactly one final event, and it
      is the last one. */
  lemma StreamEndsOnce<P>(chunks: seq<Chunk<P>>, last: StreamEvent<P>)
    requires last.done
    ensures forall k :: 0 <= k < |TextEvents(chunks) + [last]| ==>
      ((TextEvents(chunks) + [last])[k].done <==> k == |TextEvents(chunks)|)
  {
    TextEventsMatchChunks(chunks);
  }
}
