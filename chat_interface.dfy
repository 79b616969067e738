/** The chat panel's own rules: the submit guard on the text field, and which
    affordances are shown or disabled. The field's text is the panel's only state. */
module Chat {
  import opened Types

  /** The characters a JavaScript string trim removes: white space and line terminators. */
  predicate IsWhitespace(c: char)
  {
    c == ' ' || c == '\t' || c == '\n' || c == '\r' || c == '\U{000B}' || c == '\U{000C}' ||
    c == '\U{00A0}' || c == '\U{1680}' || ('\U{2000}' <= c <= '\U{200A}') ||
    c == '\U{2028}' || c == '\U{2029}' || c == '\U{202F}' || c == '\U{205F}' ||
    c == '\U{3000}' || c == '\U{FEFF}'
  }

  /** Drops leading white space: what is left is a suffix of the input that is empty
      or starts with a non-white character, and everything dropped is white. */
  function TrimStart(s: string): (r: string)
    ensures |r| <= |s| && r == s[|s| - |r|..]
    ensures r == [] || !IsWhitespace(r[0])
    ensures forall i :: 0 <= i < |s| - |r| ==> IsWhitespace(s[i])
  {
    if s != [] && IsWhitespace(s[0]) then TrimStart(s[1..]) else s
  }

  /** Drops trailing white space: what is left is a prefix of the input that is empty
      or ends with a non-white character, and everything dropped is white. */
  function TrimEnd(s: string): (r: string)
    ensures |r| <= |s| && r == s[..|r|]
    ensures r == [] || !IsWhitespace(r[|r| - 1])
    ensures forall i :: |r| <= i < |s| ==> IsWhitespace(s[i])
  {
    if s != [] && IsWhitespace(s[|s| - 1]) then TrimEnd(s[..|s| - 1]) else s
  }

  function Trim(s: string): string
  {
    TrimEnd(TrimStart(s))
  }

  /** `!input.trim()`: the input is blank. */
  predicate IsBlank(input: string)
  {
    Trim(input) == ""
  }

  /** A string trims to nothing exactly when every character of it is white space. */
  lemma BlankIffAllWhitespace(s: string)
    ensures IsBlank(s) <==> forall i :: 0 <= i < |s| ==> IsWhitespace(s[i])
  {
  }

  /** The guard of a form submit: a non-blank input while no reply is awaited. */
  predicate SubmitAccepted(input: string, isLoading: bool)
  {
    !IsBlank(input) && !isLoading
  }

  /** The send button's disabled state. */
  predicate SendDisabled(input: string, isLoading: bool)
  {
    isLoading || IsBlank(input)
  }

  /** The send button is disabled exactly when a submit would be rejected. */
  lemma SendButtonMatchesGuard(input: string, isLoading: bool)
    ensures SendDisabled(input, isLoading) <==> !SubmitAccepted(input, isLoading)
  {
  }

  /** The text field is disabled while a reply is awaited. */
  predicate InputDisabled(isLoading: bool)
  {
    isLoading
  }

  /** The "Thinking..." indicator is shown while a reply is awaited. */
  predicate ThinkingVisible(isLoading: bool)
  {
    isLoading
  }

  /** Suggestion chips are shown only in location search and only while idle. */
  predicate ChipsVisible(mode: ModelType, isLoading: bool)
  {
    mode == LocationSearch && !isLoading
  }

  /** The welcome screen with its example prompts is shown only on an empty transcript. */
  predicate WelcomeVisible(messages: seq<Message>)
  {
    |messages| == 0
  }

  /** The "Enable Location" button is shown only while no user location is known. */
  predicate EnableLocationVisible(userLocation: Option<Coordinates>)
  {
    userLocation.None?
  }

  /** The prompts behind the welcome screen's three buttons. */
  const CoffeePrompt: string := "Find the best coffee shops within walking distance"
  const WeatherPrompt: string := "What is the weather like at this location right now?"
  const TokyoPrompt: string := "Plan a 3-day itinerary for a cultural trip to Tokyo"
  const WelcomePrompts: seq<string> := [CoffeePrompt, WeatherPrompt, TokyoPrompt]

  /** The prompts behind the four suggestion chips. */
  const ExplorePrompt: string := "What are the most interesting landmarks or attractions in this area?"
  const RestaurantsPrompt: string := "Recommend some highly rated restaurants nearby."
  const NearbyCoffeePrompt: string := "Where can I find good coffee nearby?"
  const LandmarksPrompt: string := "What are some historical landmarks nearby?"
  const SuggestionPrompts: seq<string> := [ExplorePrompt, RestaurantsPrompt, NearbyCoffeePrompt, LandmarksPrompt]

  /** While a reply is awaited every way to send is closed: the field and the send
      button are disabled, the chips are hidden and the indicator is shown. While
      idle the field is enabled, the button follows the input alone and the chips
      follow the mode alone. */
  lemma AffordancesFollowLoading(input: string, mode: ModelType, isLoading: bool)
    ensures isLoading ==>
      InputDisabled(isLoading) && SendDisabled(input, isLoading) &&
      !ChipsVisible(mode, isLoading) && ThinkingVisible(isLoading)
    ensures !isLoading ==>
      !InputDisabled(isLoading) && !ThinkingVisible(isLoading) &&
      (SendDisabled(input, isLoading) <==> forall i :: 0 <= i < |input| ==> IsWhitespace(input[i])) &&
      (ChipsVisible(mode, isLoading) <==> mode == LocationSearch)
  {
  }

  /** A one-click prompt: a welcome button or a suggestion chip, by position. */
  datatype Shortcut = Welcome(index: nat) | Suggestion(index: nat)

  /** The prompt text of a shortcut, when the index names a button. */
  function ShortcutText(s: Shortcut): (text: Option<string>)
    ensures text.Some? <==> (s.Welcome? && s.index < |WelcomePrompts|) ||
                            (s.Suggestion? && s.index < |SuggestionPrompts|)
    ensures s.Welcome? && text.Some? ==> text.value in WelcomePrompts
    ensures s.Suggestion? && text.Some? ==> text.value in SuggestionPrompts
  {
    match s
    case Welcome(i) => if i < |WelcomePrompts| then Some(WelcomePrompts[i]) else None
    case Suggestion(i) => if i < |SuggestionPrompts| then Some(SuggestionPrompts[i]) else None
  }

  /** A shortcut button is on screen: welcome buttons on the empty transcript,
      suggestion chips in location search while idle. */
  predicate ShortcutVisible(s: Shortcut, messages: seq<Message>, mode: ModelType, isLoading: bool)
  {
    ShortcutText(s).Some? &&
    match s
    case Welcome(_) => WelcomeVisible(messages)
    case Suggestion(_) => ChipsVisible(mode, isLoading)
  }

  /** The chat panel's state: the text typed so far. */
  class ChatInterface {
    var input: string

    constructor ()
      ensures input == ""
    {
      input := "";
    }

    /** Typing into the field; the field is disabled while a reply is awaited, so
        no edit reaches it then. */
    method SetInput(text: string, isLoading: bool)
      modifies this
      ensures !InputDisabled(isLoading) ==> input == text
      ensures InputDisabled(isLoading) ==> input == old(input)
    {
      if !InputDisabled(isLoading) {
        input := text;
      }
    }

    /** A form submit: when the guard accepts, the untrimmed input is sent and the
        field is cleared; otherwise nothing is sent and the field keeps its text. */
    method HandleSubmit(isLoading: bool) returns (sent: Option<string>)
      modifies this
      ensures sent.Some? <==> SubmitAccepted(old(input), isLoading)
      ensures sent.Some? ==> sent.value == old(input) && input == ""
      ensures sent.None? ==> input == old(input)
    {
      if IsBlank(input) || isLoading {
        return None;
      }
      sent := Some(input);
      input := "";
    }
  }
}
