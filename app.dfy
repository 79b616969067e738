/** The composition root: the transcript, the loading flag, the two coordinate
    slots and the selected mode, and the handlers that change them. A chat turn
    is split at its one await: StartTurn runs before the AI call and CompleteTurn
    after it, so that other events (map pans, location fixes) can fall between. */
module App {
  import opened Types
  import GeminiService
  import Chat

  /** The initial map centre, so that weather works before any location fix. */
  const DefaultCenter: Coordinates := Coordinates(37.7749, -122.4194)

  /** The fixed text of the reply that stands in for a failed AI call. */
  const Apology: string := "Sorry, I encountered an error connecting to the AI service. Please try again."

  /** What one geolocation query delivers: no support, an error, or a position. */
  datatype GeoOutcome = Unsupported | GeoError | Position(latitude: real, longitude: real)

  /** What a turn hands to the AI client: the prompt, the transcript as it stood
      before the prompt was appended, the mode and the location context. */
  datatype PendingTurn = PendingTurn(prompt: string, history: seq<Message>, mode: ModelType,
                                     location: Option<Coordinates>)

  /** The message a send appends first: the user's own text, never flagged as an
      error and never carrying citations. */
  function UserMessage(text: string, id: string, now: int): (m: Message)
    ensures m.role == User && m.text == text && m.id == id && m.timestamp == now
    ensures m.isError.None? && m.groundingChunks.None?
  {
    Message(id, User, text, now, None, None)
  }

  /** The one reply a turn appends: the service's text and citations on success,
      the fixed apology flagged as an error on failure (the error's own text is dropped). */
  function ReplyMessage(result: Result<GeminiService.ServiceResponse, string>, id: string, now: int): (m: Message)
    ensures m.role == Model && m.id == id && m.timestamp == now
    ensures m.isError == Some(true) <==> result.Failure?
    ensures result.Success? ==>
      m.text == result.value.text && m.groundingChunks == result.value.groundingChunks && m.isError.None?
    ensures result.Failure? ==> m.text == Apology && m.groundingChunks.None?
  {
    match result
    case Success(resp) => Message(id, Model, resp.text, now, None, resp.groundingChunks)
    case Failure(_) => Message(id, Model, Apology, now, Some(true), None)
  }

  /** The location sent with a prompt: the map centre if set, else the user location, else none. */
  function LocationContext(mapCenter: Option<Coordinates>, userLocation: Option<Coordinates>)
    : (ctx: Option<Coordinates>)
    ensures mapCenter.Some? ==> ctx == mapCenter
    ensures mapCenter.None? ==> ctx == userLocation
    ensures ctx.None? <==> mapCenter.None? && userLocation.None?
  {
    if mapCenter.Some? then mapCenter else userLocation
  }

  /** The transcript alternates user and model messages, starting with the user;
      it ends on an unanswered user message exactly while a reply is awaited. */
  ghost predicate Transcript(ms: seq<Message>, loading: bool)
  {
    (forall i :: 0 <= i < |ms| ==> (ms[i].role == User <==> i % 2 == 0)) &&
    (loading <==> |ms| % 2 == 1)
  }

  /** The number of messages with a given role. */
  function CountRole(ms: seq<Message>, r: Role): nat
  {
    if ms == [] then 0 else CountRole(ms[..|ms| - 1], r) + (if ms[|ms| - 1].role == r then 1 else 0)
  }

  /** Every user message has exactly one reply, except the one awaiting its reply. */
  lemma {:induction false} RepliesMatchPrompts(ms: seq<Message>, loading: bool)
    requires Transcript(ms, loading)
    ensures CountRole(ms, User) == CountRole(ms, Model) + (if loading then 1 else 0)
  {
    if ms != [] {
      var init := ms[..|ms| - 1];
      assert forall i :: 0 <= i < |init| ==> init[i] == ms[i];
      RepliesMatchPrompts(init, !loading);
    }
  }

  /** Appending a user message to an idle transcript starts awaiting a reply;
      appending a model reply to an awaiting transcript makes it idle again. */
  lemma AppendKeepsTranscript(ms: seq<Message>, loading: bool, m: Message)
    requires Transcript(ms, loading) && (m.role == User <==> !loading)
    ensures Transcript(ms + [m], !loading)
  {
  }

  /** On an empty transcript no reply is awaited, so the welcome buttons, which
      bypass the submit guard, can only start a turn while idle. */
  lemma WelcomeOnlyWhenIdle(ms: seq<Message>, loading: bool)
    requires Transcript(ms, loading) && Chat.WelcomeVisible(ms)
    ensures !loading
  {
  }

  class AppState {
    var userLocation: Option<Coordinates>
    var currentMapCenter: Option<Coordinates>
    var messages: seq<Message>
    var isLoading: bool
    var modelType: ModelType

    /** The map centre is always set, and the transcript keeps its turn structure. */
    ghost predicate Valid()
      reads this
    {
      currentMapCenter.Some? && Transcript(messages, isLoading)
    }

    constructor ()
      ensures Valid()
      ensures userLocation == None && currentMapCenter == Some(DefaultCenter)
      ensures messages == [] && !isLoading && modelType == LocationSearch
      ensures Chat.EnableLocationVisible(userLocation) && Chat.WelcomeVisible(messages)
    {
      userLocation := None;
      currentMapCenter := Some(DefaultCenter);
      messages := [];
      isLoading := false;
      modelType := LocationSearch;
    }

    /** A location fix writes both coordinate slots with the same coordinates;
        no support or an error changes nothing. */
    method RequestLocation(geo: GeoOutcome)
      requires Valid()
      modifies this
      ensures Valid()
      ensures geo.Position? ==>
        userLocation == Some(Coordinates(geo.latitude, geo.longitude)) && currentMapCenter == userLocation &&
        !Chat.EnableLocationVisible(userLocation)
      ensures !geo.Position? ==> userLocation == old(userLocation) && currentMapCenter == old(currentMapCenter)
      ensures messages == old(messages) && isLoading == old(isLoading) && modelType == old(modelType)
    {
      match geo {
        case Position(lat, lng) =>
          var coords := Coordinates(lat, lng);
          userLocation := Some(coords);
          currentMapCenter := Some(coords);
        case Unsupported =>
        case GeoError =>
      }
    }

    /** A finished map pan moves only the map centre. */
    method OnLocationUpdate(coords: Coordinates)
      requires Valid()
      modifies this
      ensures Valid()
      ensures currentMapCenter == Some(coords) && userLocation == old(userLocation)
      ensures messages == old(messages) && isLoading == old(isLoading) && modelType == old(modelType)
    {
      currentMapCenter := Some(coords);
    }

    method SetModelType(m: ModelType)
      requires Valid()
      modifies this
      ensures Valid()
      ensures modelType == m
      ensures messages == old(messages) && isLoading == old(isLoading)
      ensures userLocation == old(userLocation) && currentMapCenter == old(currentMapCenter)
    {
      modelType := m;
    }

    /** The part of a send before the AI call: the user message is appended and
        loading starts; the history handed on is the transcript before the append. */
    method StartTurn(text: string, id: string, now: int) returns (pending: PendingTurn)
      modifies this
      ensures messages == old(messages) + [UserMessage(text, id, now)] && isLoading
      ensures pending == PendingTurn(text, old(messages), modelType, LocationContext(currentMapCenter, userLocation))
      ensures userLocation == old(userLocation) && currentMapCenter == old(currentMapCenter)
      ensures modelType == old(modelType)
      ensures old(Valid()) && !old(isLoading) ==> Valid() && pending.location == currentMapCenter
    {
      var history := messages;
      messages := messages + [UserMessage(text, id, now)];
      isLoading := true;
      var locationContext := LocationContext(currentMapCenter, userLocation);
      pending := PendingTurn(text, history, modelType, locationContext);
      if old(Valid()) && !old(isLoading) {
        AppendKeepsTranscript(history, false, UserMessage(text, id, now));
      }
    }

    /** The part of a send after the AI call: exactly one reply is appended and loading ends. */
    method FinishTurn(result: Result<GeminiService.ServiceResponse, string>, id: string, now: int)
      modifies this
      ensures messages == old(messages) + [ReplyMessage(result, id, now)] && !isLoading
      ensures userLocation == old(userLocation) && currentMapCenter == old(currentMapCenter)
      ensures modelType == old(modelType)
      ensures old(Valid()) && old(isLoading) ==> Valid()
    {
      if old(Valid()) && old(isLoading) {
        AppendKeepsTranscript(messages, true, ReplyMessage(result, id, now));
      }
      messages := messages + [ReplyMessage(result, id, now)];
      isLoading := false;
    }

    /** The AI call of a pending turn and its reply, given what the provider does. */
    method CompleteTurn(pending: PendingTurn, outcome: GeminiService.ProviderOutcome, id: string, now: int)
      returns (req: GeminiService.Request)
      modifies this
      ensures GeminiService.RequestFor(req, pending.prompt, pending.history, pending.mode, pending.location)
      ensures messages == old(messages) + [ReplyMessage(GeminiService.Receive(outcome), id, now)] && !isLoading
      ensures userLocation == old(userLocation) && currentMapCenter == old(currentMapCenter)
      ensures modelType == old(modelType)
      ensures old(Valid()) && old(isLoading) ==> Valid()
    {
      var result;
      req, result := GeminiService.SendMessageToGemini(
        pending.prompt, pending.history, pending.mode, pending.location, outcome);
      FinishTurn(result, id, now);
    }

    /** A whole send with no other event in between: one user message, then exactly
        one reply, loading off at the end; the request carries the earlier transcript. */
    method HandleSendMessage(text: string, userId: string, userTime: int,
                             outcome: GeminiService.ProviderOutcome, botId: string, botTime: int)
      returns (req: GeminiService.Request)
      modifies this
      ensures messages == old(messages) + [UserMessage(text, userId, userTime),
                                           ReplyMessage(GeminiService.Receive(outcome), botId, botTime)]
      ensures !isLoading
      ensures GeminiService.RequestFor(req, text, old(messages), old(modelType),
                                       LocationContext(old(currentMapCenter), old(userLocation)))
      ensures userLocation == old(userLocation) && currentMapCenter == old(currentMapCenter)
      ensures modelType == old(modelType)
      ensures old(Valid()) && !old(isLoading) ==> Valid()
    {
      var pending := StartTurn(text, userId, userTime);
      req := CompleteTurn(pending, outcome, botId, botTime);
    }

    /** A form submit in the chat panel: while loading or on blank input nothing
        happens; otherwise the untrimmed text starts a turn and the field is cleared. */
    method Submit(ui: Chat.ChatInterface, id: string, now: int) returns (pending: Option<PendingTurn>)
      requires Valid()
      modifies this, ui
      ensures Valid()
      ensures pending.Some? <==> Chat.SubmitAccepted(old(ui.input), old(isLoading))
      ensures old(isLoading) ==> pending.None?
      ensures pending.None? ==>
        messages == old(messages) && isLoading == old(isLoading) && ui.input == old(ui.input)
      ensures pending.Some? ==>
        messages == old(messages) + [UserMessage(old(ui.input), id, now)] && isLoading && ui.input == "" &&
        pending.value == PendingTurn(old(ui.input), old(messages), modelType, currentMapCenter)
      ensures userLocation == old(userLocation) && currentMapCenter == old(currentMapCenter)
      ensures modelType == old(modelType)
    {
      ghost var accepted := Chat.SubmitAccepted(ui.input, isLoading);
      var sent := ui.HandleSubmit(isLoading);
      assert sent.Some? == accepted;
      if sent.None? {
        return None;
      }
      var p := StartTurn(sent.value, id, now);
      pending := Some(p);
    }

    /** A click on a welcome button or a suggestion chip, which sends its fixed
        prompt without the submit guard; it is only on screen while idle. */
    method ClickShortcut(s: Chat.Shortcut, id: string, now: int) returns (pending: PendingTurn)
      requires Valid() && Chat.ShortcutVisible(s, messages, modelType, isLoading)
      modifies this
      ensures Valid()
      ensures messages == old(messages) + [UserMessage(Chat.ShortcutText(s).value, id, now)] && isLoading
      ensures pending == PendingTurn(Chat.ShortcutText(s).value, old(messages), modelType, currentMapCenter)
      ensures userLocation == old(userLocation) && currentMapCenter == old(currentMapCenter)
      ensures modelType == old(modelType)
    {
      if s.Welcome? {
        WelcomeOnlyWhenIdle(messages, isLoading);
      }
      pending := StartTurn(Chat.ShortcutText(s).value, id, now);
    }
  }
}
