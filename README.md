# GeoMind chat-over-map: a Dafny model

GeoMind is a browser app that puts a chat panel next to an interactive map. A
weather overlay shows the weather at the map centre. An AI backend (Gemini)
answers questions and can ground its answers in Google Maps and Google Search
citations. This project models the application logic around those services.

- **Types** (`types.dfy`): coordinates, the two modes and their model ids,
  grounding chunks and transcript messages. A role is exactly `User` or `Model`.
  In a `GroundingChunk`, both `web` and `maps` are optional. Only a maps entry
  has a `placeId`, and it is optional too. On a message, `isError` and
  `groundingChunks` are optional.
- **GeminiService** (`gemini_service.dfy`): shapes the request from the prompt,
  the history, the mode and an optional location. It then maps the provider's
  answer, or the error it threw, to text and citations. The provider is a
  parameter: the outcome it returns.
- **Weather** (`weather_widget.dfy`): the WMO weather-code table (labels and
  icons), the `loading`/`error`/`weather` state of the widget as a class, and
  which panel is shown.
- **Chat** (`chat_interface.dfy`): the submit guard, with JavaScript's
  `trim` written out, plus the disabled and visible conditions of the input,
  the send button, the suggestion chips, the welcome prompts and the "Enable
  Location" button. The text field is a class.
- **ChatMessage** (`chat_message.dfy`): which source chips appear under a
  message, with which uri and title. Also whether the text is shown plain or
  as markdown.
- **App** (`app.dfy`): the orchestrator as a class over `messages`,
  `isLoading`, `userLocation`, `currentMapCenter` and the mode. A send is split
  at its `await`. `StartTurn` appends the user message and sets loading.
  `CompleteTurn` calls the service and appends exactly one reply.
  `HandleSendMessage` runs both with nothing in between. The UI starts a turn
  in three ways: the form submit (`Submit`), and a welcome button or a
  suggestion chip (`ClickShortcut`). The object invariant `Valid()`
  says the map centre is always set and the transcript alternates user and
  model messages. It also says the transcript ends on an unanswered user
  message exactly while loading. Every entry point keeps `Valid()`.

Two behaviours of the code that the model keeps as they are:

- Citations are not narrowed at the service boundary. The client passes the
  first candidate's chunk list on unchanged. A chunk with neither a `web` nor a
  `maps` entry stays in the message, and the chip row just renders nothing for
  it.
- A chunk declares `web` and `maps` both optional (types.ts:11-21), so it can
  carry both entries; the chip row then shows the web entry.

## Model

| member | source | states |
|---|---|---|
| Types.ModelId | types.ts:6-9 | there are exactly two modes; location search sends `gemini-2.5-flash` and deep chat sends `gemini-3-pro-preview` |
| GeminiService.HistoryToContents | services/geminiService.ts:18-21 | one provider turn per history message, in order, each with that message's role and its text as the single part |
| GeminiService.BuildRequest | services/geminiService.ts:17-61 | the request meets `RequestFor`: the model id is the mode's string; the contents are the history turns followed by one user turn carrying the prompt; location search sends tools `[googleMaps, googleSearch]`; deep chat sends no tools and no tool config, whatever the location; the lat/lng hint is present iff the mode is location search and a location was given, and then copies it |
| GeminiService.RequestForDeterminesRequest | services/geminiService.ts:17-61 | `RequestFor` fixes the request completely: two requests meeting it for the same inputs are equal |
| GeminiService.ResponseText | services/geminiService.ts:63 | the text is never empty; a non-empty response text is kept; an absent or empty one becomes "I couldn't generate a text response." |
| GeminiService.ResponseChunks | services/geminiService.ts:67 | the first candidate's chunk list, passed through unchanged; absent iff the candidate list, its first entry, its metadata or the chunk list is missing |
| GeminiService.ErrorMessage | services/geminiService.ts:74-77 | the rethrown message is the provider's message when it has a non-empty one, else "Failed to connect to Gemini." |
| GeminiService.Receive | services/geminiService.ts:63-77 | a response resolves with its text and chunks; a thrown error rejects with its message |
| GeminiService.SendMessageToGemini | services/geminiService.ts:9-78 | one call sends a request meeting `RequestFor`, then resolves or rejects according to the provider's outcome, with no retry |
| Weather.WeatherLabel | components/WeatherWidget.tsx:79-88 | the table stated order-free, each direction: Clear iff 0, Fog iff 45 or 48, Rain iff 51..67, Showers iff 80..82, Snow iff 71..77, Storm iff >= 95, Cloudy for every other code (1..3, negatives, 4, 50, 90, ...) |
| Weather.WeatherIcon | components/WeatherWidget.tsx:68-77 | the icon agrees with the label for every code: Sun iff Clear, Cloud iff Cloudy, CloudRain iff Rain or Showers, and so on |
| Weather.PanelFor | components/WeatherWidget.tsx:93-127 | display precedence: spinner iff loading with no record; else the error text iff error; else the record (with the small spinner iff loading); else "Locating..." |
| Weather.Render | components/WeatherWidget.tsx:66 | nothing is rendered iff there is no location |
| Weather.WeatherWidget.BeginFetch | components/WeatherWidget.tsx:35-36 | loading on, error off, record kept; the large spinner shows only when there is no record yet |
| Weather.WeatherWidget.EndFetch | components/WeatherWidget.tsx:46-57 | a success replaces the whole record; a failure sets error and keeps the old record; loading is off after either |
| Weather.WeatherWidget.constructor | components/WeatherWidget.tsx:27-29 | no record, not loading, no error; the panel reads "Locating..." |
| Weather.WeatherWidget.OverlappingFetches | components/WeatherWidget.tsx:31-63 | two overlapping fetches: the first to finish already clears loading while the second runs; when the second succeeds its record is kept but the first one's failure still raises the error flag, so "Weather unavailable" hides the newer record; when the second fails the error shows over the first one's record |
| Weather.WeatherWidget.FetchWeather | components/WeatherWidget.tsx:34-58 | after a whole fetch the new record shows on success and "Weather unavailable" shows on failure |
| Weather.WeatherWidget.OnLocationSettled | components/WeatherWidget.tsx:31-64 | without a location no fetch happens and the state is unchanged; with one, the fetch runs |
| Chat.TrimStart | components/ChatInterface.tsx:38 | leading white space removed: the rest is a suffix that is empty or starts with a non-white character, and all removed characters are white |
| Chat.TrimEnd | components/ChatInterface.tsx:38 | trailing white space removed: the rest is a prefix that is empty or ends with a non-white character, and all removed characters are white |
| Chat.BlankIffAllWhitespace | components/ChatInterface.tsx:38 | `!input.trim()` holds iff every character of the input is white space |
| Chat.SendButtonMatchesGuard | components/ChatInterface.tsx:194 | the send button is disabled iff loading or the input is blank, which is exactly when a submit is rejected |
| Chat.AffordancesFollowLoading | components/ChatInterface.tsx:140-194 | while loading, the field and the send button are disabled, the chips are hidden and "Thinking..." shows; while idle, the chips show iff the mode is location search |
| Chat.ShortcutText | components/ChatInterface.tsx:113-173 | a welcome button or chip index names a prompt iff it is in range, and the prompt is one of the fixed texts |
| Chat.EnableLocationVisible | components/ChatInterface.tsx:54-61 | "Enable Location" is shown iff no user location is known; the app starts with it shown (`App.AppState.constructor`), only a location fix hides it (`App.AppState.RequestLocation`) and a map pan never touches the user location (`App.AppState.OnLocationUpdate`) |
| Chat.ChatInterface.constructor | components/ChatInterface.tsx:25 | the field starts empty |
| Chat.ChatInterface.SetInput | components/ChatInterface.tsx:184-191 | while idle a keystroke sets the field to the typed text; while loading the field is disabled and keeps its text |
| Chat.ChatInterface.HandleSubmit | components/ChatInterface.tsx:36-41 | a submit is accepted iff the trimmed input is non-empty and nothing is loading; an accepted submit sends the untrimmed input and clears the field; a rejected one leaves the field unchanged |
| ChatMessage.BodyOf | components/ChatMessage.tsx:31-37 | the text is shown as plain text iff the message is flagged as an error, else as markdown |
| ChatMessage.ChunkLink | components/ChatMessage.tsx:44-72 | a chunk with `web` gives a web link with the web uri and title, even if `maps` is present; a chunk with only `maps` gives a maps link with its uri and title; a chunk with neither gives nothing |
| ChatMessage.SourceLinks | components/ChatMessage.tsx:43-73 | never more chips than chunks, and every chip is the link of some chunk |
| ChatMessage.SourceLinksAppend | components/ChatMessage.tsx:43 | chips follow chunk order: the chips of `a + b` are those of `a` then those of `b` |
| ChatMessage.SourceLinksOnePerChunk | components/ChatMessage.tsx:43-70 | when every chunk carries a citation there is one chip per chunk, and chip i comes from chunk i |
| ChatMessage.SourceLinksSkipEmpty | components/ChatMessage.tsx:72 | a chunk with neither citation adds no chip wherever it stands |
| ChatMessage.Sources | components/ChatMessage.tsx:41 | chips appear only under non-user messages with a non-empty chunk list |
| App.UserMessage | App.tsx:46-51 | the first message of a send has role user and the given text, id and time, with no error flag and no citations |
| App.ReplyMessage | App.tsx:67-84 | the reply is a model message; it is flagged as an error iff the call failed; on success it carries the response text and chunks; on failure it carries the fixed apology and no chunks |
| App.LocationContext | App.tsx:58 | the map centre if set, else the user location; absent only when both are absent |
| App.RepliesMatchPrompts | App.tsx:45-88 | in a transcript that keeps the invariant, the user messages number the model messages plus one while loading, and equal them otherwise |
| App.AppendKeepsTranscript | App.tsx:53-84 | a user message appended while idle starts loading, and a model reply appended while loading ends it, both keeping the alternation |
| App.WelcomeOnlyWhenIdle | components/ChatInterface.tsx:99 | the welcome prompts (which skip the submit guard) are only visible on an empty transcript, when nothing is loading |
| App.AppState.constructor | App.tsx:10-15 | no user location, the map centre at the San Francisco default, an empty transcript, not loading, location search mode; so "Enable Location" and the welcome prompts are shown |
| App.AppState.RequestLocation | App.tsx:24-43 | a fix writes the same coordinates to both slots and hides "Enable Location"; no support or an error changes nothing |
| App.AppState.OnLocationUpdate | App.tsx:99 | a map pan sets only the map centre, never the user location |
| App.AppState.SetModelType | App.tsx:15 | only the mode changes |
| App.AppState.StartTurn | App.tsx:46-65 | appends one user message with the text and sets loading; hands on the transcript as it was before, the mode and the location context, which is the map centre in every valid state |
| App.AppState.FinishTurn | App.tsx:67-87 | appends exactly one reply and clears loading; the user message stays |
| App.AppState.CompleteTurn | App.tsx:60-87 | the request sent meets `RequestFor` for the pending turn; exactly one reply is appended for the provider's outcome; loading ends |
| App.AppState.HandleSendMessage | App.tsx:45-88 | a whole send appends the user message and then exactly one reply; loading is false afterwards; the request carries the earlier transcript, the mode and the location context |
| App.AppState.Submit | components/ChatInterface.tsx:36-41 | while loading or on blank input nothing changes; otherwise the untrimmed input starts a turn and the field is cleared; the invariant is kept |
| App.AppState.ClickShortcut | components/ChatInterface.tsx:99-173 | a visible welcome button or chip starts a turn with its fixed prompt and keeps the invariant |

## Left out

- The network calls: `generateContent` (services/geminiService.ts:54-61) and the Open-Meteo `fetch` (components/WeatherWidget.tsx:39-45). Each is a parameter giving its outcome. The weather URL is not modelled. A weather fetch fails on a non-2xx status, on a body that is not JSON, and on a body without a `current` object.
- The platform geolocation query is a parameter, `GeoOutcome`. The console warnings and errors are not modelled.
- The one-second debounce, the `setTimeout`/`clearTimeout` cancellation and React's effect scheduling and batching, because they are timers and concurrency. `OnLocationSettled` is the effect once the timer fires. The cleanup cancels only a pending timer, so two started fetches can overlap; `OverlappingFetches` replays that case with `BeginFetch`/`EndFetch`.
- Message ids and timestamps (`Date.now()`) are parameters.
- Floats: coordinates, temperature and wind speed are `real` values that are only copied. The rounding of the temperature for display is not modelled. Weather codes are integers, as Open-Meteo sends them.
- MapComponent (Leaflet glue) is not part of this model. A pan is the abstract `OnLocationUpdate` event.
- Markdown rendering, time formatting, scrolling, the sidebar toggle, CSS classes and the icon components. Icons are kept only as a category enum.
- The API-key configuration and the provider SDK's own types are not modelled. The provider's `Content` and `Tool` shapes are written as small datatypes.
- Weather.WeatherWidget.EndFetch: a `current` object with missing fields does not fail in the code; the widget stores `undefined` values and shows "NaN°" with the label "Cloudy". `WeatherData` holds only numbers, so a success here always carries all four values.
- GeminiService.ErrorMessage: `ProviderError` stands only for a thrown object. If the provider rejects with `null` or `undefined`, reading `error.message` (services/geminiService.ts:76) itself throws a TypeError. The call then rejects with that TypeError's message, not with "Failed to connect to Gemini.". The app drops the message either way (App.tsx:76).
- App.AppState.StartTurn, FinishTurn, CompleteTurn and HandleSendMessage promise `Valid()` only when started from a valid state with the right loading flag. `handleSendMessage` has no guard of its own: the guard lives in its callers (`Submit`, `ClickShortcut`).
