/** The shared value types of the chat-over-map application: coordinates,
    the two AI modes, grounding citations and transcript messages. */
module Types {

  datatype Option<T> = None | Some(value: T)

  /** Success value or error value; stands for a promise that resolves or throws. */
  datatype Result<T, E> = Success(value: T) | Failure(error: E)

  /** A latitude/longitude pair. Coordinates are only ever copied, never computed on. */
  datatype Coordinates = Coordinates(lat: real, lng: real)

  /** The two AI modes; each is identified by the model id it sends. */
  datatype ModelType = LocationSearch | DeepChat

  /** The string value of a mode, which is also the model id sent to the provider. */
  function ModelId(m: ModelType): (id: string)
    ensures id == "gemini-2.5-flash" <==> m == LocationSearch
    ensures id == "gemini-3-pro-preview" <==> m == DeepChat
  {
    match m
    case LocationSearch => "gemini-2.5-flash"
    case DeepChat => "gemini-3-pro-preview"
  }

  /** A message author is exactly one of the user or the model. */
  datatype Role = User | Model

  datatype WebSource = WebSource(uri: string, title: string)

  /** Only a maps citation carries a place id, and it may be absent. */
  datatype MapsSource = MapsSource(uri: string, title: string, placeId: Option<string>)

  /** Both parts are optional: a chunk may carry a web citation, a maps citation, both or neither. */
  datatype GroundingChunk = GroundingChunk(web: Option<WebSource>, maps: Option<MapsSource>)

  /** One transcript entry; the error flag and the citation list are optional. */
  datatype Message = Message(
    id: string,
    role: Role,
    text: string,
    timestamp: int,
    isError: Option<bool>,
    groundingChunks: Option<seq<GroundingChunk>>)
}
