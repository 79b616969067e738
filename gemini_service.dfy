/** The AI chat client: shapes one generate-content request from the prompt, the
    transcript, the mode and an optional location, and maps the provider's answer
    (or its failure) to the text and citations the application uses. The network
    call itself is a parameter: the provider's outcome. */
module GeminiService {
  import opened Types

  datatype Part = Part(text: string)

  /** One conversational turn in the provider's format. */
  datatype Content = Content(role: Role, parts: seq<Part>)

  /** The two grounding capabilities a request can declare. */
  datatype Tool = GoogleMaps | GoogleSearch

  datatype LatLng = LatLng(latitude: real, longitude: real)
  datatype RetrievalConfig = RetrievalConfig(latLng: LatLng)
  datatype ToolConfig = ToolConfig(retrievalConfig: RetrievalConfig)

  /** What is sent: the model id, the turns, and the optional tools and tool config. */
  datatype Request = Request(
    model: string,
    contents: seq<Content>,
    tools: Option<seq<Tool>>,
    toolConfig: Option<ToolConfig>)

  /** The parts of a provider response the client reads; every link of the path
      to the citations may be missing. */
  datatype GroundingMetadata = GroundingMetadata(groundingChunks: Option<seq<GroundingChunk>>)
  datatype Candidate = Candidate(groundingMetadata: Option<GroundingMetadata>)
  datatype ProviderResponse = ProviderResponse(text: Option<string>, candidates: Option<seq<Candidate>>)

  /** A thrown error object, whose `message` may be absent or empty. */
  datatype ProviderError = ProviderError(message: Option<string>)

  /** What the provider does with a request: answer it, or throw. */
  datatype ProviderOutcome = Responded(response: ProviderResponse) | Threw(error: ProviderError)

  /** The value the client resolves with. */
  datatype ServiceResponse = ServiceResponse(text: string, groundingChunks: Option<seq<GroundingChunk>>)

  const NoTextFallback: string := "I couldn't generate a text response."
  const ConnectFallback: string := "Failed to connect to Gemini."

  function ToContent(msg: Message): Content
  {
    Content(msg.role, [Part(msg.text)])
  }

  /** The transcript in the provider's turn format, entry by entry and in order. */
  function HistoryToContents(history: seq<Message>): (contents: seq<Content>)
    ensures |contents| == |history|
    ensures forall i :: 0 <= i < |history| ==>
      contents[i].role == history[i].role && contents[i].parts == [Part(history[i].text)]
  {
    if history == [] then [] else [ToContent(history[0])] + HistoryToContents(history[1..])
  }

  /** Everything the client promises about the request it sends. */
  ghost predicate RequestFor(req: Request, prompt: string, history: seq<Message>,
                             mode: ModelType, location: Option<Coordinates>)
  {
    // the model id is the mode's own string value
    req.model == ModelId(mode) &&
    // one turn per transcript entry, same role and text, same order, then the prompt
    |req.contents| == |history| + 1 &&
    (forall i :: 0 <= i < |history| ==>
      req.contents[i] == Content(history[i].role, [Part(history[i].text)])) &&
    req.contents[|history|] == Content(User, [Part(prompt)]) &&
    // location search declares maps then search grounding; deep chat declares nothing
    (mode == LocationSearch ==> req.tools == Some([GoogleMaps, GoogleSearch])) &&
    (mode == DeepChat ==> req.tools == None && req.toolConfig == None) &&
    // the location hint is present exactly in location search with a location, and copies it
    (req.toolConfig.Some? <==> mode == LocationSearch && location.Some?) &&
    (req.toolConfig.Some? ==>
      req.toolConfig.value.retrievalConfig.latLng == LatLng(location.value.lat, location.value.lng))
  }

  /** Two requests that both meet RequestFor for the same inputs are equal:
      the promises above leave nothing about the request open. */
  lemma RequestForDeterminesRequest(r1: Request, r2: Request, prompt: string, history: seq<Message>,
                                    mode: ModelType, location: Option<Coordinates>)
    requires RequestFor(r1, prompt, history, mode, location)
    requires RequestFor(r2, prompt, history, mode, location)
    ensures r1 == r2
  {
  }

  /** Builds the request: the transcript turns, the prompt turn, and the mode's tools. */
  method BuildRequest(prompt: string, history: seq<Message>, mode: ModelType,
                      location: Option<Coordinates>) returns (req: Request)
    ensures RequestFor(req, prompt, history, mode, location)
  {
    var contents := HistoryToContents(history);
    contents := contents + [Content(User, [Part(prompt)])];

    var tools: seq<Tool> := [];
    var toolConfig: Option<ToolConfig> := None;
    if mode == LocationSearch {
      tools := tools + [GoogleMaps];
      tools := tools + [GoogleSearch];
      assert tools == [GoogleMaps, GoogleSearch];
      if location.Some? {
        toolConfig := Some(ToolConfig(RetrievalConfig(LatLng(location.value.lat, location.value.lng))));
      }
    }

    req := Request(ModelId(mode), contents, if |tools| > 0 then Some(tools) else None, toolConfig);
  }

  /** The response text, or the fixed placeholder when the text is absent or empty. */
  function ResponseText(resp: ProviderResponse): (text: string)
    ensures text != ""
    ensures resp.text.Some? && resp.text.value != "" ==> text == resp.text.value
    ensures resp.text.None? || resp.text.value == "" ==> text == NoTextFallback
  {
    if resp.text.Some? && resp.text.value != "" then resp.text.value else NoTextFallback
  }

  /** The first candidate's citation list, unchanged; absent when any link of the path is missing. */
  function ResponseChunks(resp: ProviderResponse): (chunks: Option<seq<GroundingChunk>>)
    ensures chunks.Some? <==>
      resp.candidates.Some? && |resp.candidates.value| > 0 &&
      resp.candidates.value[0].groundingMetadata.Some? &&
      resp.candidates.value[0].groundingMetadata.value.groundingChunks.Some?
    ensures chunks.Some? ==> chunks == resp.candidates.value[0].groundingMetadata.value.groundingChunks
  {
    match resp.candidates
    case None => None
    case Some(cs) =>
      if |cs| == 0 then None
      else match cs[0].groundingMetadata
        case None => None
        case Some(meta) => meta.groundingChunks
  }

  /** The message of the rethrown error: the provider's message, or the fallback when it has none. */
  function ErrorMessage(e: ProviderError): (msg: string)
    ensures msg != ""
    ensures e.message.Some? && e.message.value != "" ==> msg == e.message.value
    ensures e.message.None? || e.message.value == "" ==> msg == ConnectFallback
  {
    if e.message.Some? && e.message.value != "" then e.message.value else ConnectFallback
  }

  /** Maps the provider's outcome to what the client resolves with or rejects with. */
  function Receive(outcome: ProviderOutcome): (r: Result<ServiceResponse, string>)
    ensures r.Success? <==> outcome.Responded?
    ensures r.Success? ==>
      r.value.text == ResponseText(outcome.response) && r.value.groundingChunks == ResponseChunks(outcome.response)
    ensures r.Failure? ==> r.error == ErrorMessage(outcome.error)
  {
    match outcome
    case Responded(resp) => Success(ServiceResponse(ResponseText(resp), ResponseChunks(resp)))
    case Threw(e) => Failure(ErrorMessage(e))
  }

  /** One call of the client: the request it sends, and what it resolves or rejects with,
      given what the provider does. A single attempt; nothing is retried. */
  method SendMessageToGemini(prompt: string, history: seq<Message>, mode: ModelType,
                             location: Option<Coordinates>, outcome: ProviderOutcome)
    returns (req: Request, result: Result<ServiceResponse, string>)
    ensures RequestFor(req, prompt, history, mode, location)
    ensures result == Receive(outcome)
  {
    req := BuildRequest(prompt, history, mode, location);
    result := Receive(outcome);
  }
}
