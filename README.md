# Weather AI assistant — a Dafny model of its stateful core

The system is a GraphQL backend in front of a language-model agent and the
OpenWeatherMap API, with a React front end. This project models the parts of
it that hold logic of their own, with the agent and the HTTP calls turned
into parameters:

- **Resolvers** (`resolvers.dfy`, backend/src/graphql/resolvers.ts): the
  process-wide session store, a class holding `sessions: map<string,
  seq<Message>>`; the `chat` mutation (push the user message, call the agent,
  push the reply, pick the tool results out of the tool calls);
  `resetSession`; the `agentInfo` table; the `chatStream` subscription run to
  the end over a finite list of chunks; and the `weatherUpdates` polling loop
  over a finite list of poll outcomes.
- **Weather tool** (`weather_tool.dfy`, backend/src/tools/weather-tool.ts):
  the current-weather record built from the provider's answer (rounding,
  visibility in km), the forecast loop that keeps the first time-series item
  of each UTC day up to `days` entries, the `days` bounds of the input
  schema, and the mapping of caught errors to messages.
- **Weather card** (`weather_card.dfy`, frontend/src/components/WeatherCard.tsx):
  which of the four views is shown, the temperature colour class and the
  weather icon.
- **Chat panel** (`chat_interface.dfy`, frontend/src/components/ChatInterface.tsx):
  the message list, input box and in-flight flag, changed by sending a
  message (before and after the request settles) and by resetting the
  session.
- `wrappers.dfy` (Option and Result) and `text.dfy` (`startsWith`,
  `includes`, ASCII `toLowerCase`, and the text a `catch` block reports) are
  shared helpers.

The agent's `generate` and `stream` are functions from the selected persona
and the history handed over to what the agent produced, so the contracts can
say that the agent sees the whole history, user message included. The
provider request is a `Provider` value: what it answered, or what it threw
(an HTTP-client error with or without a status, or anything else).

Behaviour of the resolvers that the model keeps as the code has it:

- `chat` keeps the result of the last tool call of each tool: the loop at
  resolvers.ts lines 109-115 overwrites `weatherData`/`forecastData` on every
  match. `chatStream` does the same for the weather of its final event.
- Tool calls are matched on the names `getCurrentWeatherTool` and
  `getWeatherForecastTool`.
- `resetSession` returns `true` for every argument.
- The map is written only after the agent replied, so a failed turn on an
  unknown key leaves no entry; on a stored key the user message stays,
  because the stored array itself was pushed to.
- `resetSession` deletes its argument as given, with no `default` fallback,
  so resetting the empty id leaves alone the `default` session that `chat`
  with the empty id uses.

## Model

| member | source | states |
|---|---|---|
| `Resolvers.SessionKey` | backend/src/graphql/resolvers.ts:90 | an absent or empty session id selects `default`; any other id is the key itself |
| `Resolvers.HistoryOf` | backend/src/graphql/resolvers.ts:91 | the stored history of a key, and the empty history for a key with no entry |
| `Resolvers.SelectAgent` | backend/src/graphql/resolvers.ts:87 | the chat agent is chosen exactly when `agentType` is `CHAT` |
| `Resolvers.AgentInfoFor` | backend/src/graphql/resolvers.ts:48-78 | the `chat` entry is returned exactly for the name `chat`; absent, empty and unknown names get the `weather` entry; both carry the DeepSeek model name and version 1.0.0 |
| `Resolvers.AgentLabel` | backend/src/graphql/resolvers.ts:123 | the response's agent label is the name of the agent selected at line 87, and the name `agentInfo` lists for it |
| `Resolvers.LastResult` | backend/src/graphql/resolvers.ts:108-116 | a kept result is the result of some call with the tool's name |
| `Resolvers.LastResultIsLastMatch` | backend/src/graphql/resolvers.ts:108-116 | the kept result is that of the last call with the tool's name |
| `Resolvers.LastResultNoMatch` | backend/src/graphql/resolvers.ts:108-116 | with no call of that name, nothing is kept |
| `Resolvers.LastResultIgnoresOthers` | backend/src/graphql/resolvers.ts:109-115 | calls with other names never change what is kept |
| `Resolvers.ToolData` | backend/src/graphql/resolvers.ts:104-108 | an absent `toolCalls` leaves both tool results null |
| `Resolvers.ExtractToolData` | backend/src/graphql/resolvers.ts:104-116 | the loop leaves in `weatherData`/`forecastData` the last current-weather/forecast result (null for an absent or empty list) |
| `Resolvers.ChatTurn` | backend/src/graphql/resolvers.ts:84-128 | a reply appends exactly the user message and the reply text under the key and returns text, tool results and label; a failure returns the wrapped error, keeps the user message only on an existing key and creates no entry for a new one; no other key changes |
| `Resolvers.SuccessfulTurnsAlternate` | backend/src/graphql/resolvers.ts:90-101 | N answered turns on an even alternating history add exactly 2N messages, keep user/assistant alternation, and place the N user messages in order |
| `Resolvers.FailedTurnKeepsUserMessage` | backend/src/graphql/resolvers.ts:91-101 | a failed turn grows a stored history by exactly the user message and leaves the store unchanged for an unknown key |
| `Resolvers.TextEvents` | backend/src/graphql/resolvers.ts:179-188 | at most one event per chunk, none of them final and none carrying weather |
| `Resolvers.FullText` | backend/src/graphql/resolvers.ts:179-188 | a stream without text chunks accumulates the empty text |
| `Resolvers.StreamWeather` | backend/src/graphql/resolvers.ts:179-191 | a weather value kept is the result of some current-weather tool call chunk |
| `Resolvers.StreamWeatherLast` | backend/src/graphql/resolvers.ts:179-201 | the final event carries the result of the last current-weather tool call chunk |
| `Resolvers.StreamWeatherNone` | backend/src/graphql/resolvers.ts:177-201 | without a current-weather tool call chunk the final event carries no weather |
| `Resolvers.ChatAfterReset` | backend/src/graphql/resolvers.ts:131-138 | after a reset, an answered turn on that session leaves exactly the user message and the reply |
| `Resolvers.ResetOfEmptyIdKeepsDefault` | backend/src/graphql/resolvers.ts:133 | resetting the empty id does not reset the `default` session: the next answered `chat` with the empty id extends the old default history |
| `Resolvers.TextEventsMatchChunks` | backend/src/graphql/resolvers.ts:176-205 | one non-final event per text chunk, carrying its content in order, and the concatenation of the streamed texts is the text stored as the reply |
| `Resolvers.StreamEndsOnce` | backend/src/graphql/resolvers.ts:194-201 | a finished stream has exactly one `done` event, the last |
| `Resolvers.ConsumeStream` | backend/src/graphql/resolvers.ts:176-192 | the chunk loop emits the text events, accumulates the full text and keeps the last current-weather tool result |
| `Resolvers.Updates` | backend/src/graphql/resolvers.ts:146-158 | at most one payload per poll, and every payload but the last is a reading |
| `Resolvers.UpdatesWithoutFailure` | backend/src/graphql/resolvers.ts:146-150 | polls that all succeed yield one reading each, in order |
| `Resolvers.UpdatesStopAtFirstFailure` | backend/src/graphql/resolvers.ts:146-158 | at the first failed poll one error payload is yielded and the stream ends; readings before it come in order |
| `Resolvers.WeatherUpdates` | backend/src/graphql/resolvers.ts:144-160 | the polling loop yields exactly the payloads `Updates` describes |
| `Resolvers.SessionStore.constructor` | backend/src/graphql/resolvers.ts:6 | the store starts empty |
| `Resolvers.SessionStore.Chat` | backend/src/graphql/resolvers.ts:84-128 | the mutation's new store and its result are those of `ChatTurn` on the old store |
| `Resolvers.SessionStore.ResetSession` | backend/src/graphql/resolvers.ts:131-138 | removes only the given key, returns true, and every other history is unchanged |
| `Resolvers.SessionStore.ChatStream` | backend/src/graphql/resolvers.ts:165-216 | on a normal end: the text events, one final event with empty content and the last weather result, and the reply appended; on a failure: the text events so far, one final error event with no weather, no reply, the user message kept only on an existing key |
| `WeatherTool.JsRound` | backend/src/tools/weather-tool.ts:85 | the rounded value is the nearest integer, halves rounded up |
| `WeatherTool.DayOf` | backend/src/tools/weather-tool.ts:156 | the date key is the 86400-second UTC day containing `dt` |
| `WeatherTool.VisibilityKm` | backend/src/tools/weather-tool.ts:91 | 0 for an absent or zero value; otherwise metres/1000 rounded half-up |
| `WeatherTool.FormatCurrent` | backend/src/tools/weather-tool.ts:82-92 | the record copies name, country, description, humidity, wind and pressure, and rounds temperature, feels-like and visibility |
| `WeatherTool.CurrentErrorMessage` | backend/src/tools/weather-tool.ts:95-106 | a 404 message names the location; a 401 gives the fixed invalid-key message |
| `WeatherTool.CurrentMessageClassified` | backend/src/tools/weather-tool.ts:95-106 | not-found, invalid-key, fetch-failure and unexpected-error messages are told apart: the kind of error is recovered from the message |
| `WeatherTool.GetCurrentWeather` | backend/src/tools/weather-tool.ts:60-107 | a missing or empty key fails with the wrapped configuration error before any request; an answer is formatted; a thrown error gives a message of its kind |
| `WeatherTool.ForecastErrorMessage` | backend/src/tools/weather-tool.ts:175-183 | a 404 message names the location |
| `WeatherTool.ForecastMessageClassified` | backend/src/tools/weather-tool.ts:175-183 | forecast error kinds are recovered from the message, and status 401 counts as a plain fetch failure |
| `WeatherTool.ForecastDays` | backend/src/tools/weather-tool.ts:117 | 3 when absent, any value in 1..5 as given, rejected otherwise |
| `WeatherTool.EntryOf` | backend/src/tools/weather-tool.ts:159-165 | an entry carries the item's UTC day, its rounded temperature and its description, humidity and wind |
| `WeatherTool.Daily` | backend/src/tools/weather-tool.ts:152-168 | the forecast has at most `days` entries and no more than the series has items |
| `WeatherTool.DailyForecasts` | backend/src/tools/weather-tool.ts:152-168 | the loop with its set of processed dates builds exactly `Daily` |
| `WeatherTool.DistinctDaysSound` | backend/src/tools/weather-tool.ts:155-167 | the reference list of first-occurring days lists each day of the series exactly once |
| `WeatherTool.DailyDatesArePrefix` | backend/src/tools/weather-tool.ts:155-168 | the forecast's dates are the first `days` distinct days in order of first occurrence |
| `WeatherTool.DailyDatesDistinct` | backend/src/tools/weather-tool.ts:153-166 | no date appears twice |
| `WeatherTool.DailyCount` | backend/src/tools/weather-tool.ts:155-168 | `days` entries when the series spans at least `days` dates, one per date otherwise |
| `WeatherTool.DailyEntriesAreFirst` | backend/src/tools/weather-tool.ts:155-167 | every entry is built from the first item of its date |
| `WeatherTool.GetForecast` | backend/src/tools/weather-tool.ts:130-184 | a missing key fails before any request; an answer yields city, country and the de-duplicated forecast; a thrown error gives a message of its kind |
| `WeatherCard.SelectView` | frontend/src/components/WeatherCard.tsx:32-84 | loading first, then a non-empty error, then the placeholder when neither weather nor forecast is present, then the cards for what is present |
| `WeatherCard.TemperatureColor` | frontend/src/components/WeatherCard.tsx:97-104 | the colour is one of the six palette classes |
| `WeatherCard.TemperatureColorByThresholds` | frontend/src/components/WeatherCard.tsx:97-104 | ≥30 red, [25,30) orange, [20,25) yellow, [15,20) green, [10,15) blue-500, below 10 blue-700 |
| `WeatherCard.TemperatureColorMonotone` | frontend/src/components/WeatherCard.tsx:97-104 | a higher temperature never lands in a colder band |
| `WeatherCard.WeatherIcon` | frontend/src/components/WeatherCard.tsx:86-95 | the icon is one of the six keyword icons or the default icon |
| `WeatherCard.WeatherIconFirstMatch` | frontend/src/components/WeatherCard.tsx:86-95 | the icon is that of the first keyword pair found in the lower-cased description, and the default icon when none is |
| `WeatherCard.WeatherIconIgnoresCase` | frontend/src/components/WeatherCard.tsx:87 | the icon does not depend on the case of ASCII letters |
| `WeatherCard.ThunderShowerShowsRain` | frontend/src/components/WeatherCard.tsx:90-93 | a thunder shower, which has both the rain and the thunder keyword, gets the rain icon |
| `ChatInterface.Trim` | frontend/src/components/ChatInterface.tsx:76 | the trimmed text neither starts nor ends with white space |
| `ChatInterface.TrimBlank` | frontend/src/components/ChatInterface.tsx:76 | the trimmed input is empty exactly when the input is all white space, and it is the input with only white space cut from both ends |
| `ChatInterface.Without` | frontend/src/components/ChatInterface.tsx:112 | the filter keeps only messages of the list, none with the removed id |
| `ChatInterface.WithoutAbsent` | frontend/src/components/ChatInterface.tsx:112 | filtering an id nobody carries changes nothing |
| `ChatInterface.WithoutUnique` | frontend/src/components/ChatInterface.tsx:112 | filtering the id of exactly one message removes that one and keeps the others in order |
| `ChatInterface.SendThenSettle` | frontend/src/components/ChatInterface.tsx:78-123 | after a send and its reply or error, the earlier messages and the user message are unchanged and only the placeholder was replaced; without a payload the placeholder stays |
| `ChatInterface.Settle` | frontend/src/components/ChatInterface.tsx:111-145 | without a payload the list stays; otherwise the placeholder's id is gone, the other messages come from the list, and last comes the assistant reply with the response's message and weather data, or the system message with the error prefix, the thrown message and no weather |
| `ChatInterface.ChatPanel.constructor` | frontend/src/components/ChatInterface.tsx:47-55 | the list starts as the single system welcome message, with an empty input |
| `ChatInterface.ChatPanel.SendMessage` | frontend/src/components/ChatInterface.tsx:75-96 | nothing changes for a blank input or while a request is in flight; otherwise the trimmed user message and a loading placeholder are appended and the input cleared |
| `ChatInterface.ChatPanel.ReceiveReply` | frontend/src/components/ChatInterface.tsx:98-146 | the list becomes the settled list; `onWeatherData` is called exactly for a payload with weather or forecast data |
| `ChatInterface.ChatPanel.ResetSession` | frontend/src/components/ChatInterface.tsx:150-164 | a successful reset replaces the list by one system message; a failed one changes nothing |

## Left out

- The language-model agent (`generate`, `stream`, its instructions and tools) is not modelled; its outcome is a parameter of the turn.
- The HTTP requests to OpenWeatherMap, their 10-second timeout and the reading of the API key from the environment are not modelled; the key and what the request answered or threw are parameters.
- Provider answers are taken as well-formed; a missing field makes the source throw a `TypeError`, which would land in the unexpected-error branch with an engine-defined message.
- Temperatures, wind speed and visibility are `real`: JavaScript's floating-point rounding of `v / 1000`, `NaN` and infinities are not modelled.
- Dates are day numbers counted from 1970-01-01 rather than ISO strings (one to one), and the JavaScript `Date` range limit, outside which `toISOString` throws, is not modelled.
- `uvIndex` is never filled in by the tool, so it is not part of the record.
- Timestamps, the `health` query and the clock-derived message ids are not modelled; ids are parameters.
- `Query.weather` and `Query.forecast` only re-wrap the tools' errors with a fixed prefix; they are not modelled separately.
- Concurrency: two turns on one session can interleave at the agent call; each turn is modelled as one atomic step.
- `chatStream` is modelled consumed to the end: the reply is stored after the final event only when the consumer resumes the generator, which the model assumes.
- The 5-minute wait between polls of `weatherUpdates` is a timer; the model takes the finite list of poll outcomes.
- `agentInfo` looks names up in a plain object, so names of `Object.prototype` members (such as `constructor`) would find those members; the model looks up only the two own entries.
- `toLowerCase` is modelled on ASCII letters only; other scripts' case mappings are not.
- Markup, animations, scrolling, Markdown rendering, the agent-type selector and the creation of the client's session id are UI and are not modelled.
- React's state updates are modelled as applied at once in program order; the updater functions of lines 111-122 and 134-144 are modelled on the list current when they run.
- `WeatherCard.TemperatureColor`: its own contract only says the colour is in the palette; the band-by-band statement and monotonicity are the lemmas `TemperatureColorByThresholds` and `TemperatureColorMonotone`.
- `WeatherTool.ForecastDays`: day counts are modelled as integers. The schema's `z.number().min(1).max(5)` also accepts fractional counts such as 2.5, for which the loop keeps entries while fewer than 2.5 exist, that is 3; `ForecastDays`, `Daily` and `GetForecast` do not cover such counts.
- `Resolvers.ChatAfterReset`: stated for a non-empty id only, because `resetSession("")` deletes the key `""` while `chat` with the empty id uses `default`; that case is stated by `ResetOfEmptyIdKeepsDefault`.
- `WeatherCard.WeatherIcon`: its own contract only bounds the icon to the seven icons; which icon is chosen is stated by `WeatherIconFirstMatch`.
