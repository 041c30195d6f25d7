/** The command-handling session of the NIFAD assistant: its state, the
    effect of every event on that state as a function (`After...`), and the
    class `Assistant` whose methods update their fields in place and are
    proved to have exactly those effects.

    The browser is abstracted: what the assistant says is appended to the
    `spoken` log, the pages it opens to `openedUrls`, and the start and stop
    requests the speech-recognition engine accepted to `recognitionCalls`.
    The clock, the random joke choice, the auto-listen checkbox and whether
    `recognition.start()` throws are parameters of the events that use them. */
module Session {
  import opened Text
  import opened Commands

  /** The `type` argument of `addToHistory`. */
  datatype Speaker = User | Nifad | System

  /** One line of the conversation history. */
  datatype Entry = Entry(speaker: Speaker, text: string)

  /** `pendingCommand`: null, or the one kind of follow-up the code asks for. */
  datatype Pending = NoPending | PendingSearch

  /** `currentCommandSource`: null until set, then 'voice' or 'text'. */
  datatype Source = NoSource | Voice | Typed

  /** A page passed to `window.open`. `GoogleSearch(q)` stands for the
      Google search URL built from `encodeURIComponent(q)`. */
  datatype Url = GoogleHome | YouTubeHome | WikipediaHome | GoogleSearch(query: string)

  /** A request the speech-recognition engine accepted. */
  datatype RecognitionCall = Start | Stop

  /** `Math.floor(Math.random() * jokes.length)` for the four jokes. */
  type JokeIndex = i: int | 0 <= i < 4

  /** What the environment supplies to a command: the locale time and date
      strings and the random joke index. */
  datatype Env = Env(time: string, date: string, joke: JokeIndex)

  /** Everything the session changes. */
  datatype State = State(
    isListening: bool,
    isAwake: bool,
    pending: Pending,
    source: Source,
    history: seq<Entry>,
    spoken: seq<string>,
    openedUrls: seq<Url>,
    recognitionCalls: seq<RecognitionCall>)

  const ActivationKeyword: string := "hey nifad"
  const Acknowledgement: string := "Yes, Sir. How may I assist you?"
  const SearchPrompt: string := "What would you like me to search for?"
  const Reprompt: string := "I didn't catch that. Please repeat."
  const SleepNotice: string := "Going to sleep. Say 'Hey Nifad' to wake me up."
  const SleepEntry: string := "Going to sleep"
  const WeatherReply: string := "Checking weather forecast"
  const HelloReply: string := "Hello Sir. How may I assist you today?"
  const WelcomeReply: string := "You're welcome, Sir. Is there anything else I can help with?"
  const IdentityReply: string := "I am NIFAD, your personal virtual assistant."
  const FallbackReply: string := "I'm sorry, I don't understand that command yet."
  const ClearedEntry: string := "HISTORY CLEARED"
  const ClearedNotice: string := "History cleared, Sir."
  const RecognitionUnavailable: string := "Speech recognition is not available in your browser."
  const MicrophoneTrouble: string := "I'm having trouble accessing the microphone. Please check your permissions."
  const NotAllowed: string := "not-allowed"
  const MicrophoneDeniedEntry: string := "Microphone access denied. Please allow microphone permissions."
  const MicrophoneBlockedNotice: string := "Microphone access is blocked. Please allow permissions to use voice commands."
  const NotSupportedEntry: string := "Speech recognition is not supported in this browser."
  const InitializedEntry: string := "N.I.F.A.D. INITIALIZED"
  const ReadyNotice: string := "All systems operational. Ready for your command, Sir."

  const Jokes: seq<string> := [
    "Why don't scientists trust atoms? Because they make up everything!",
    "Why did the scarecrow win an award? Because he was outstanding in his field!",
    "What do you call a fake noodle? An impasta!",
    "Why couldn't the bicycle stand up by itself? It was two tired!"
  ]

  function TimeReply(time: string): string { "The current time is " + time }
  function DateReply(date: string): string { "Today's date is " + date }
  function SearchReply(query: string): string { "Searching for " + query }

  // ---------------------------------------------------------------------
  // Effects of the output operations on the state.

  /** `speak(text)`. */
  function Say(s: State, text: string): State
  {
    s.(spoken := s.spoken + [text])
  }

  /** `addToHistory(speaker, text)`. */
  function Record(s: State, speaker: Speaker, text: string): State
  {
    s.(history := s.history + [Entry(speaker, text)])
  }

  /** `window.open(url, '_blank')`. */
  function Open(s: State, url: Url): State
  {
    s.(openedUrls := s.openedUrls + [url])
  }

  /** The usual answer: say `text` and record it as NIFAD's line. */
  function Reply(s: State, text: string): State
  {
    Record(Say(s, text), Nifad, text)
  }

  // ---------------------------------------------------------------------
  // Effects of the session's operations and events.

  /** The state right after construction. */
  function Initial(hasRecognition: bool): State
  {
    State(false, true, NoPending, NoSource,
          if hasRecognition then [] else [Entry(System, NotSupportedEntry)],
          [], [], [])
  }

  /** The start-up timer: records the initialisation and announces readiness. */
  function AfterStartupTimer(s: State): State
  {
    Say(Record(s, System, InitializedEntry), ReadyNotice)
  }

  /** `clearHistory`: the list becomes the single "HISTORY CLEARED" line. */
  function AfterClear(s: State): State
  {
    Say(s.(history := [Entry(System, ClearedEntry)]), ClearedNotice)
  }

  /** The query of a "search for" command: the command with its first
      "search for", in any letter case, removed and then trimmed. */
  function SearchQuery(command: string): string
  {
    Trim(RemoveFirstIgnoringCase(command, SearchPrefix))
  }

  /** The search branch with its `query`: search for a non-empty query,
      otherwise ask for one and leave the search pending. */
  function AfterSearch(t: State, query: string): State
  {
    if query != [] then Reply(Open(t, GoogleSearch(query)), SearchReply(query))
    else Say(t, SearchPrompt).(pending := PendingSearch)
  }

  /** The rules whose branch answers with one sentence, spoken and recorded
      as NIFAD's line (and possibly a page opened): all but the search,
      "clear history" and "go to sleep". */
  predicate Answers(rule: Rule)
  {
    rule != SearchFor && rule != ClearHistory && rule != GoToSleep
  }

  /** That sentence. */
  function AnswerText(rule: Rule, env: Env): string
    requires Answers(rule)
  {
    match rule
    case Time => TimeReply(env.time)
    case Date => DateReply(env.date)
    case OpenGoogle => "Opening Google"
    case OpenYouTube => "Opening YouTube"
    case OpenWikipedia => "Opening Wikipedia"
    case Joke => Jokes[env.joke]
    case Weather => WeatherReply
    case Greeting => HelloReply
    case Thanks => WelcomeReply
    case Identity => IdentityReply
    case Fallback => FallbackReply
  }

  /** The pages passed to `window.open` with that sentence: none or one. */
  function AnswerPages(rule: Rule): (pages: seq<Url>)
    ensures |pages| <= 1
  {
    match rule
    case OpenGoogle => [GoogleHome]
    case OpenYouTube => [YouTubeHome]
    case OpenWikipedia => [WikipediaHome]
    case Weather => [GoogleSearch("weather")]
    case _ => []
  }

  /** What the branch `rule` of `handleCommand` does once the command has
      been recorded. */
  function AfterRule(t: State, rule: Rule, command: string, env: Env): State
  {
    match rule
    case SearchFor => AfterSearch(t, SearchQuery(command))
    case ClearHistory => AfterClear(t)
    case GoToSleep => Record(Say(t, SleepNotice), Nifad, SleepEntry).(isAwake := false)
    case _ => Reply(t.(openedUrls := t.openedUrls + AnswerPages(rule)), AnswerText(rule, env))
  }

  /** `handleCommand(command)`: a command that is empty once trimmed (that
      is, blank: see `Text.Trim`) is dropped; any other is recorded as the
      user's line and handled by the first matching rule. */
  function AfterCommand(s: State, command: string, env: Env): State
  {
    if IsBlank(command) then s
    else AfterRule(Record(s, User, command), SelectRule(ToLower(command)), command, env)
  }

  /** `handleFollowUp(response)`; as in `AfterCommand`, "empty once trimmed"
      is "blank". */
  function AfterFollowUp(s: State, response: string): State
  {
    if IsBlank(response) then Say(s, Reprompt)
    else
      var t := Record(s, User, response);
      var u := if s.pending == PendingSearch
               then Reply(Open(t, GoogleSearch(response)), SearchReply(response))
               else t;
      u.(pending := NoPending)
  }

  /** `recognition.onresult` with the recognised `transcript`. */
  function AfterVoiceResult(s: State, transcript: string, env: Env): State
  {
    var heard := ToLower(transcript);
    if s.pending != NoPending then AfterFollowUp(s, heard)
    else if Contains(heard, ActivationKeyword) || s.isAwake then
      var command := Trim(RemoveFirst(heard, ActivationKeyword));
      if command != [] then AfterCommand(s.(source := Voice), command, env)
      else if Contains(heard, ActivationKeyword) then Say(s, Acknowledgement)
      else s
    else s
  }

  /** Enter in the command field with `value` typed. */
  function AfterTypedCommand(s: State, value: string, env: Env): State
  {
    AfterCommand(s.(source := Typed), value, env)
  }

  /** `toggleListening`; `startThrows` says whether `recognition.start()` throws. */
  function AfterToggle(s: State, hasRecognition: bool, startThrows: bool): State
  {
    if !hasRecognition then Say(s, RecognitionUnavailable)
    else if s.isListening then s.(recognitionCalls := s.recognitionCalls + [Stop])
    else if startThrows then Say(s, MicrophoneTrouble)
    else s.(recognitionCalls := s.recognitionCalls + [Start], isAwake := true, source := Voice)
  }

  /** A click on the talk button. */
  function AfterTalkClick(s: State, hasRecognition: bool, startThrows: bool): State
  {
    AfterToggle(s.(source := Voice), hasRecognition, startThrows)
  }

  /** `recognition.onstart`. */
  function AfterRecognitionStart(s: State): State
  {
    s.(isListening := true)
  }

  /** `recognition.onend`. */
  function AfterRecognitionEnd(s: State): State
  {
    s.(isListening := false)
  }

  /** `recognition.onerror` with the engine's `error` code. */
  function AfterRecognitionError(s: State, error: string): State
  {
    var t := s.(isListening := false);
    if error == NotAllowed then Say(Record(t, System, MicrophoneDeniedEntry), MicrophoneBlockedNotice)
    else t
  }

  /** The guard of `recognition.onend` under which listening is restarted. */
  predicate RestartsAfterRecognitionEnd(s: State, autoListen: bool)
  {
    s.source == Voice && autoListen && s.isAwake && s.pending == NoPending
  }

  /** The guard of an utterance's `onend` under which listening is restarted. */
  predicate RestartsAfterSpeech(s: State, autoListen: bool, hasRecognition: bool)
  {
    s.source == Voice && autoListen && s.isAwake && hasRecognition && s.pending == NoPending
  }

  // ---------------------------------------------------------------------
  // The assistant object.

  class Assistant {
    var isListening: bool
    var isAwake: bool
    var pendingCommand: Pending
    var currentCommandSource: Source
    var history: seq<Entry>
    var spoken: seq<string>
    var openedUrls: seq<Url>
    var recognitionCalls: seq<RecognitionCall>
    /** Whether the browser provides speech recognition (`this.recognition` is set). */
    const hasRecognition: bool

    /** The fields the session changes, as one value. */
    function Snapshot(): State
      reads this
    {
      State(isListening, isAwake, pendingCommand, currentCommandSource,
            history, spoken, openedUrls, recognitionCalls)
    }

    constructor (hasRecognition: bool)
      ensures this.hasRecognition == hasRecognition
      ensures Snapshot() == Initial(hasRecognition)
    {
      this.hasRecognition := hasRecognition;
      isListening, isAwake := false, true;
      pendingCommand, currentCommandSource := NoPending, NoSource;
      history, spoken, openedUrls, recognitionCalls := [], [], [], [];
      new;
      if !hasRecognition {
        AddToHistory(System, NotSupportedEntry);
      }
    }

    method Speak(text: string)
      modifies this
      ensures Snapshot() == Say(old(Snapshot()), text)
    {
      spoken := spoken + [text];
    }

    method AddToHistory(speaker: Speaker, text: string)
      modifies this
      ensures Snapshot() == Record(old(Snapshot()), speaker, text)
    {
      history := history + [Entry(speaker, text)];
    }

    method OpenWindow(url: Url)
      modifies this
      ensures Snapshot() == Open(old(Snapshot()), url)
    {
      openedUrls := openedUrls + [url];
    }

    method OnStartupTimer()
      modifies this
      ensures Snapshot() == AfterStartupTimer(old(Snapshot()))
    {
      AddToHistory(System, InitializedEntry);
      Speak(ReadyNotice);
    }

    method ClearHistory()
      modifies this
      ensures Snapshot() == AfterClear(old(Snapshot()))
    {
      history := [Entry(System, ClearedEntry)];
      Speak(ClearedNotice);
    }

    method HandleCommand(command: string, env: Env)
      modifies this
      ensures Snapshot() == AfterCommand(old(Snapshot()), command, env)
    {
      if Trim(command) == [] {
        return;
      }
      AddToHistory(User, command);
      var lowerCommand := ToLower(command);
      RunRule(SelectRule(lowerCommand), command, env);
    }

    /** The branch `rule` of `handleCommand`. */
    method RunRule(rule: Rule, command: string, env: Env)
      modifies this
      ensures Snapshot() == AfterRule(old(Snapshot()), rule, command, env)
    {
      match rule
      case SearchFor =>
        var query := SearchQuery(command);
        Search(query);
      case ClearHistory =>
        ClearHistory();
      case GoToSleep =>
        Speak(SleepNotice);
        isAwake := false;
        AddToHistory(Nifad, SleepEntry);
      case _ =>
        Answer(AnswerText(rule, env), AnswerPages(rule));
    }

    /** The shape shared by the other branches: speak `text`, open the page
        if there is one, and record `text` as NIFAD's line. */
    method Answer(text: string, pages: seq<Url>)
      requires |pages| <= 1
      modifies this
      ensures Snapshot() == Reply(old(Snapshot()).(openedUrls := old(openedUrls) + pages), text)
    {
      Speak(text);
      if pages != [] {
        OpenWindow(pages[0]);
      }
      AddToHistory(Nifad, text);
    }

    /** The search branch of `handleCommand`, once the query is extracted. */
    method Search(query: string)
      modifies this
      ensures Snapshot() == AfterSearch(old(Snapshot()), query)
    {
      if query != [] {
        Speak(SearchReply(query));
        OpenWindow(GoogleSearch(query));
        AddToHistory(Nifad, SearchReply(query));
      } else {
        Speak(SearchPrompt);
        pendingCommand := PendingSearch;
      }
    }

    method HandleFollowUp(response: string)
      modifies this
      ensures Snapshot() == AfterFollowUp(old(Snapshot()), response)
    {
      if Trim(response) == [] {
        Speak(Reprompt);
        return;
      }
      ghost var t := Record(Snapshot(), User, response);
      AddToHistory(User, response);
      if pendingCommand == PendingSearch {
        Speak(SearchReply(response));
        OpenWindow(GoogleSearch(response));
        AddToHistory(Nifad, SearchReply(response));
        assert Snapshot() == Reply(Open(t, GoogleSearch(response)), SearchReply(response));
      }
      pendingCommand := NoPending;
    }

    method OnResult(transcript: string, env: Env)
      modifies this
      ensures Snapshot() == AfterVoiceResult(old(Snapshot()), transcript, env)
    {
      ghost var s := Snapshot();
      var heard := ToLower(transcript);
      if pendingCommand != NoPending {
        HandleFollowUp(heard);
      } else if Contains(heard, ActivationKeyword) || isAwake {
        var command := Trim(RemoveFirst(heard, ActivationKeyword));
        if command != [] {
          currentCommandSource := Voice;
          assert Snapshot() == s.(source := Voice);
          assert AfterVoiceResult(s, transcript, env) == AfterCommand(Snapshot(), command, env);
          HandleCommand(command, env);
        } else if Contains(heard, ActivationKeyword) {
          Speak(Acknowledgement);
        }
      }
    }

    method SubmitText(value: string, env: Env)
      modifies this
      ensures Snapshot() == AfterTypedCommand(old(Snapshot()), value, env)
    {
      currentCommandSource := Typed;
      HandleCommand(value, env);
    }

    method ToggleListening(startThrows: bool)
      modifies this
      ensures Snapshot() == AfterToggle(old(Snapshot()), hasRecognition, startThrows)
    {
      if !hasRecognition {
        Speak(RecognitionUnavailable);
        return;
      }
      if isListening {
        recognitionCalls := recognitionCalls + [Stop];
      } else if startThrows {
        Speak(MicrophoneTrouble);
      } else {
        recognitionCalls := recognitionCalls + [Start];
        isAwake := true;
        currentCommandSource := Voice;
      }
    }

    method ClickTalk(startThrows: bool)
      modifies this
      ensures Snapshot() == AfterTalkClick(old(Snapshot()), hasRecognition, startThrows)
    {
      currentCommandSource := Voice;
      ToggleListening(startThrows);
    }

    method OnStart()
      modifies this
      ensures Snapshot() == AfterRecognitionStart(old(Snapshot()))
    {
      isListening := true;
    }

    /** `autoListen` is the state of the auto-listen checkbox at that moment. */
    method OnEnd(autoListen: bool) returns (restart: bool)
      modifies this
      ensures Snapshot() == AfterRecognitionEnd(old(Snapshot()))
      ensures restart == RestartsAfterRecognitionEnd(Snapshot(), autoListen)
    {
      isListening := false;
      restart := currentCommandSource == Voice && autoListen && isAwake && pendingCommand == NoPending;
    }

    method OnError(error: string)
      modifies this
      ensures Snapshot() == AfterRecognitionError(old(Snapshot()), error)
    {
      isListening := false;
      if error == NotAllowed {
        AddToHistory(System, MicrophoneDeniedEntry);
        Speak(MicrophoneBlockedNotice);
      }
    }

    /** The end of an utterance; it changes no field. */
    method OnSpeechEnd(autoListen: bool) returns (restart: bool)
      ensures restart == RestartsAfterSpeech(Snapshot(), autoListen, hasRecognition)
    {
      restart := currentCommandSource == Voice && autoListen && isAwake && hasRecognition
                 && pendingCommand == NoPending;
    }
  }
}
