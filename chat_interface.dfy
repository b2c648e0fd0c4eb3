/** The message list of the chat panel and the two handlers that change it:
    sending a message (before and after the request resolves) and resetting
    the session. The GraphQL requests are parameters: what the `chat`
    mutation resolved to or threw, and whether the reset mutation threw.
    Message ids, which the panel derives from the clock, are parameters too. */
module ChatInterface {
  import opened Wrappers
  import opened Text

  // ---------------------------------------------------------------------
  // Trimming
  // ---------------------------------------------------------------------

  /** The code points `String.prototype.trim` removes: the ECMAScript
      WhiteSpace (tab, vertical tab, form feed, no-break space, byte-order
      mark and the space separators) and LineTerminator characters. */
  predicate IsJsSpace(c: char) {
    || c == '\t' || c == '\n' || c == '\U{000B}' || c == '\U{000C}' || c == '\r' || c == ' '
    || c == '\U{00A0}' || c == '\U{1680}' || ('\U{2000}' <= c <= '\U{200A}')
    || c == '\U{2028}' || c == '\U{2029}' || c == '\U{202F}' || c == '\U{205F}'
    || c == '\U{3000}' || c == '\U{FEFF}'
  }

  /** `s` without its leading white space. */
  function TrimStart(s: string): (r: string)
    ensures |r| <= |s| && r == s[|s| - |r|..]
    ensures forall k :: 0 <= k < |s| - |r| ==> IsJsSpace(s[k])
    ensures r != [] ==> !IsJsSpace(r[0])
    decreases |s|
  {
    if s != [] && IsJsSpace(s[0]) then TrimStart(s[1..]) else s
  }

  /** `s` without its trailing white space. */
  function TrimEnd(s: string): (r: string)
    ensures |r| <= |s| && r == s[..|r|]
    ensures forall k :: |r| <= k < |s| ==> IsJsSpace(s[k])
    ensures r != [] ==> !IsJsSpace(r[|r| - 1])
    decreases |s|
  {
    if s != [] && IsJsSpace(s[|s| - 1]) then TrimEnd(s[..|s| - 1]) else s
  }

  /** `s.trim()`. */
  function Trim(s: string): (r: string)
    ensures r != [] ==> !IsJsSpace(r[0]) && !IsJsSpace(r[|r| - 1])
  {
    TrimEnd(TrimStart(s))
  }

  /** The trimmed input is empty exactly when every character is white space;
      otherwise it is the input with only white space cut from both ends. */
  lemma TrimBlank(s: string)
    ensures Trim(s) == "" <==> forall k :: 0 <= k < |s| ==> IsJsSpace(s[k])
    ensures exists i :: && OccursAt(s, Trim(s), i)
                        && (forall k :: 0 <= k < i ==> IsJsSpace(s[k]))
                        && (forall k :: i + |Trim(s)| <= k < |s| ==> IsJsSpace(s[k]))
  {
    var t := TrimStart(s);
    var r := TrimEnd(t);
    var i := |s| - |t|;
    assert OccursAt(s, r, i) by {
      assert t == s[i..];
      assert r == t[..|r|];
    }
    forall k | i + |r| <= k < |s| ensures IsJsSpace(s[k]) {
      assert s[k] == t[k - i];
    }
  }

  // ---------------------------------------------------------------------
  // Messages
  // ---------------------------------------------------------------------

  datatype Kind = UserKind | AssistantKind | SystemKind

  /** One message of the panel (its timestamp is not modelled); `loading`
      marks the placeholder shown while a reply is awaited. */
  datatype UiMessage<W> = UiMessage(id: string, kind: Kind, content: string, weatherData: Option<W>, loading: bool)

  const WelcomeText := "\U{1F324}\U{FE0F} **欢迎使用天气AI助手！**\n\n我是你的专业天气顾问，可以帮你：\n- 查询任意城市的实时天气\n- 获取未来几天的天气预报\n- 提供生活和出行建议\n\n请告诉我你想查询哪个城市的天气吧！"
  const ResetText := "\U{1F504} **会话已重置**\n\n你好！我是天气AI助手，有什么可以帮你的吗？"
  const ErrorPrefix := "\U{274C} 抱歉，发生了错误："

  /** `prev.filter(msg => msg.id !== id)`. */
  function Without<W>(msgs: seq<UiMessage<W>>, id: string): (r: seq<UiMessage<W>>)
    ensures |r| <= |msgs|
    ensures forall k :: 0 <= k < |r| ==> r[k].id != id && r[k] in msgs
    decreases |msgs|
  {
    if msgs == [] then []
    else if msgs[0].id == id then Without(msgs[1..], id)
    else [msgs[0]] + Without(msgs[1..], id)
  }

  /** Filtering out an id nobody carries changes nothing. */
  lemma {:induction false} WithoutAbsent<W>(msgs: seq<UiMessage<W>>, id: string)
    requires forall k :: 0 <= k < |msgs| ==> msgs[k].id != id
    ensures Without(msgs, id) == msgs
    decreases |msgs|
  {
    if msgs != [] {
      WithoutAbsent(msgs[1..], id);
    }
  }

  /** Filtering out the id of exactly one message removes that message and
      keeps every other one, in order. */
  lemma {:induction false} WithoutUnique<W>(before: seq<UiMessage<W>>, m: UiMessage<W>, after: seq<UiMessage<W>>)
    requires forall k :: 0 <= k < |before| ==> before[k].id != m.id
    requires forall k :: 0 <= k < |after| ==> after[k].id != m.id
    ensures Without(before + [m] + after, m.id) == before + after
    decreases |before|
  {
    var msgs := before + [m] + after;
    if before == [] {
      assert msgs[1..] == after;
      WithoutAbsent(after, m.id);
    } else {
      var rest := before[1..];
      assert msgs[0] == before[0] && msgs[1..] == rest + [m] + after;
      WithoutUnique(rest, m, after);
      assert before + after == [before[0]] + (rest + after);
    }
  }

  /** What the `chat` mutation's payload carries to the panel. */
  datatype ChatPayload<W, F> = ChatPayload(message: string, weatherData: Option<W>, forecastData: Option<F>)

  /** How the `chat` mutation settled: resolved, with or without a `chat`
      payload, or rejected with the message of what it threw. */
  datatype MutationOutcome<W, F> = Resolved(chat: Option<ChatPayload<W, F>>) | Rejected(message: Option<string>)

  /** The list a send leaves once the request has settled: the placeholder is
      filtered out and the reply or error message appended, or, when the
      mutation resolved without a payload, the list is left as it is. */
  function Settle<W, F>(msgs: seq<UiMessage<W>>, loadingId: string, replyId: string, outcome: MutationOutcome<W, F>)
    : (r: seq<UiMessage<W>>)
    ensures outcome == Resolved(None) ==> r == msgs
    ensures outcome != Resolved(None) ==>
      && 0 < |r| <= |msgs| + 1
      && (forall k :: 0 <= k < |r| - 1 ==> r[k].id != loadingId && r[k] in msgs)
      && r[|r| - 1].id == replyId && !r[|r| - 1].loading
    ensures outcome.Resolved? && outcome.chat.Some? ==>
      r[|r| - 1] == UiMessage(replyId, AssistantKind, outcome.chat.value.message, outcome.chat.value.weatherData, false)
    ensures outcome.Rejected? ==>
      r[|r| - 1] == UiMessage(replyId, SystemKind, ErrorPrefix + ThrownMessage(outcome.message), None, false)
  {
    match outcome
    case Resolved(None) => msgs
    case Resolved(Some(chat)) => Without(msgs, loadingId) + [UiMessage(replyId, AssistantKind, chat.message, chat.weatherData, false)]
    case Rejected(m) => Without(msgs, loadingId) + [UiMessage(replyId, SystemKind, ErrorPrefix + ThrownMessage(m), None, false)]
  }

  /** A whole send on an undisturbed list: when the placeholder's id is new,
      the reply replaces exactly the placeholder and every earlier message,
      the user's included, stays as it was. */
  lemma SendThenSettle<W, F>(prev: seq<UiMessage<W>>, user: UiMessage<W>, placeholder: UiMessage<W>,
                             replyId: string, outcome: MutationOutcome<W, F>)
    requires forall k :: 0 <= k < |prev| ==> prev[k].id != placeholder.id
    requires user.id != placeholder.id
    ensures outcome.Resolved? && outcome.chat.None? ==>
      Settle(prev + [user, placeholder], placeholder.id, replyId, outcome) == prev + [user, placeholder]
    ensures !(outcome.Resolved? && outcome.chat.None?) ==>
      var s := Settle(prev + [user, placeholder], placeholder.id, replyId, outcome);
      && |s| == |prev| + 2
      && s[..|prev| + 1] == prev + [user]
      && s[|prev| + 1].id == replyId && !s[|prev| + 1].loading
  {
    var msgs := prev + [user, placeholder];
    WithoutUnique(prev + [user], placeholder, []);
    assert msgs == prev + [user] + [placeholder] + [];
  }

  // ---------------------------------------------------------------------
  // The panel
  // ---------------------------------------------------------------------

  /** The panel's state: its message list, the text in the input box, and
      whether a `chat` request is in flight. */
  class ChatPanel<W, F> {
    var messages: seq<UiMessage<W>>
    var inputValue: string
    var chatLoading: bool

    /** The panel opens with one system welcome message. */
    constructor ()
      ensures messages == [UiMessage("1", SystemKind, WelcomeText, None, false)]
      ensures inputValue == "" && !chatLoading
    {
      messages := [UiMessage("1", SystemKind, WelcomeText, None, false)];
      inputValue := "";
      chatLoading := false;
    }

    /** The first half of `handleSendMessage`, up to the request. Nothing
      happens when the trimmed input is empty or a request is in flight;
      otherwise the user message and a loading placeholder are appended, the
      input is cleared and the trimmed text is sent. */
    method SendMessage(userId: string, loadingId: string) returns (sent: Option<string>)
      modifies this
      ensures Trim(old(inputValue)) == "" || old(chatLoading) ==>
        sent == None && messages == old(messages) && inputValue == old(inputValue) && chatLoading == old(chatLoading)
      ensures Trim(old(inputValue)) != "" && !old(chatLoading) ==>
        && sent == Some(Trim(old(inputValue)))
        && messages == old(messages) + [UiMessage(userId, UserKind, Trim(old(inputValue)), None, false),
                                        UiMessage(loadingId, AssistantKind, "", None, true)]
        && inputValue == "" && chatLoading
    {
      var content := Trim(inputValue);
      if content == "" || chatLoading {
        return None;
      }
      messages := messages + [UiMessage(userId, UserKind, content, None, false)];
      inputValue := "";
      messages := messages + [UiMessage(loadingId, AssistantKind, "", None, true)];
      chatLoading := true;
      sent := Some(content);
    }

    /** The second half of `handleSendMessage`, once the request has settled.
      Returns the arguments `onWeatherData` is called with, when it is called:
      only for a payload with weather or forecast data. */
    method ReceiveReply(loadingId: string, replyId: string, outcome: MutationOutcome<W, F>)
      returns (notify: Option<(Option<W>, Option<F>)>)
      modifies this
      ensures messages == Settle(old(messages), loadingId, replyId, outcome)
      ensures inputValue == old(inputValue) && !chatLoading
      ensures notify.Some? <==> outcome.Resolved? && outcome.chat.Some? &&
                                (outcome.chat.value.weatherData.Some? || outcome.chat.value.forecastData.Some?)
      ensures notify.Some? ==> notify.value == (outcome.chat.value.weatherData, outcome.chat.value.forecastData)
    {
      chatLoading := false;
      notify := None;
      match outcome
      case Resolved(chat) =>
        if chat.Some? {
          var response := chat.value;
          messages := Without(messages, loadingId) + [UiMessage(replyId, AssistantKind, response.message, response.weatherData, false)];
          if response.weatherData.Some? || response.forecastData.Some? {
            notify := Some((response.weatherData, response.forecastData));
          }
        }
      case Rejected(m) =>
        messages := Without(messages, loadingId) + [UiMessage(replyId, SystemKind, ErrorPrefix + ThrownMessage(m), None, false)];
    }

    /** `handleResetSession`: when the reset mutation succeeds the whole list
      becomes one system message; when it throws, nothing changes. */
    method ResetSession(resetId: string, resetThrew: bool)
      modifies this
      ensures resetThrew ==> messages == old(messages)
      ensures !resetThrew ==> messages == [UiMessage(resetId, SystemKind, ResetText, None, false)]
      ensures inputValue == old(inputValue) && chatLoading == old(chatLoading)
    {
      if !resetThrew {
        messages := [UiMessage(resetId, SystemKind, ResetText, None, false)];
      }
    }
  }
}
