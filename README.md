# NIFAD assistant: the command-handling session

This project is a Dafny model of the command-handling session of the NIFAD
browser voice assistant (`NIFADAssistant` in `script.js`). It proves
properties of that model.

The session takes input in two ways:

- A voice transcript arrives through `recognition.onresult`. It passes a
  wake gate first ("hey nifad", or the assistant already being awake). A
  pending follow-up question takes it before that gate.
- A typed line goes straight to `handleCommand`.

`handleCommand` drops a blank command. Any other command is recorded as the
user's line and handled by the first of fourteen fixed rules whose test
passes on the lower-cased command:

- time, date
- open google, open youtube, open wikipedia
- search for
- clear history, go to sleep
- joke, weather
- hello/hi, thank, who are you
- the fallback

The "search for" rule with nothing after it asks a question and leaves a
search pending. `handleFollowUp` answers it. Listening is started and
stopped by `toggleListening`. The recognition engine's start, end and
error events update the listening flag. Two guards decide whether
listening restarts by itself.

## Layout

- `text.dfy`, module `Text`: the JavaScript string operations the session
  uses.
  - `trim`, over the full JavaScript white-space and line-terminator set.
  - `toLowerCase`, for ASCII letters.
  - `includes`, `indexOf` and `startsWith`.
  - `replace` of the first occurrence, exactly (`replace("hey nifad", '')`)
    and ignoring case (`replace(/search for/i, '')`).
  - Each is a function whose contract characterises its result: for
    example, the first occurrence, or the string padded by white space.
- `commands.dfy`, module `Commands`:
  - the rule chain as a `Rule` datatype;
  - each rule's own test (`Matches`) and its place in the chain (`Rank`);
  - `SelectRule`, proved to return the first rule that matches.
- `session.dfy`, module `Session`:
  - The session's state as a value (`State`).
  - The effect of every operation and event as a function on that value
    (`AfterCommand`, `AfterVoiceResult`, `AfterFollowUp`, `AfterToggle`, …).
  - The class `Assistant`. Its fields are the object's fields. Its methods
    update them in place in the source's statement order, and each method's
    postcondition is `Snapshot() == After…(old(Snapshot()), …)`.
- `properties.dfy`, module `SessionProperties`: lemmas over the effect
  functions, so they hold of the object's methods too. They cover:
  - blank input, one spoken answer per command, and first match wins;
  - the search rule and the pending slot;
  - the wake gate, clearing the history, the restart guards and the joke.

The browser is abstracted away:

- What is spoken is appended to a `spoken` log.
- The pages given to `window.open` are appended to `openedUrls` as `Url`
  values. `GoogleSearch(q)` stands for the search URL built from
  `encodeURIComponent(q)`.
- The start and stop requests the recognition engine accepted are appended
  to `recognitionCalls`.
- Values the environment supplies are parameters:
  - the locale time and date strings and the random joke index (`Env`);
  - whether `recognition.start()` throws (`startThrows`);
  - the auto-listen checkbox (`autoListen`);
  - whether the browser offers speech recognition (`hasRecognition`).

The model follows the code as written; in particular:

- Hearing "hey nifad" does not set `isAwake`. Nothing in the result handler
  assigns it, so an asleep assistant stays asleep until listening is started
  again with the talk button.
- A blank follow-up answer only speaks the reprompt. It returns before
  `pendingCommand = null`, so the slot stays pending.
- Typed input bypasses both the wake gate and the pending slot.
- The only slot kind is `'search'`.
- The fallback answer apologises that the command is not understood yet.

## Model

| member | source | states |
|---|---|---|
| Text.SkipSpaces | script.js:177 | The first index at or after `k` that is not white space: everything skipped is white space, and the index is the end or a non-space character |
| Text.SkipSpacesBack | script.js:177 | The end of the text once its trailing white space is dropped: everything dropped is white space, and the character before it is not |
| Text.Trim | script.js:116 | `trim()` returns the part of the string that is padded only by white space on both sides, begins and ends with a non-space character, and is empty exactly when the input is blank |
| Text.ToLower | script.js:110 | `toLowerCase()` keeps the length, lower-cases each character, and leaves no capital letter |
| Text.IndexFrom | script.js:183 | The first occurrence of the pattern at or after `k`, or -1 when there is none at or after `k` |
| Text.IndexOf | script.js:116 | -1 exactly when the pattern occurs nowhere; otherwise the first index where it occurs |
| Text.Contains | script.js:183-257 | `includes` is true exactly when the pattern occurs at some index |
| Text.StartsWith | script.js:211 | `startsWith` holds exactly when the pattern occurs at index 0 |
| Text.RemoveFirst | script.js:116 | `replace` with a string removes the first occurrence of the pattern, and leaves a string without one unchanged |
| Text.RemoveFirstIgnoringCase | script.js:212 | `replace(/search for/i, '')` removes the first case-insensitive occurrence, and leaves a string without one unchanged |
| Text.LowerKeepsBlank | script.js:110 | A string is blank exactly when its lower-cased form is, so lower-casing a transcript does not change whether it is blank |
| Text.LowerOfLowerCase | script.js:110 | Lower-casing a string with no capital letter returns it unchanged |
| Text.PrefixIsFirstOccurrence | script.js:211-212 | A pattern the string starts with is found first at index 0 |
| Text.RemoveIgnoringCaseAtStart | script.js:211-212 | When the lower-cased string starts with the pattern, the case-insensitive `replace` removes exactly that prefix |
| Commands.Matches | script.js:183-257 | Each rule's own test on the lower-cased command, with the source's strings: `includes` for every rule except the search rule, which uses `startsWith("search for")`; the greeting accepts "hello" or "hi"; the fallback accepts every command |
| Commands.SelectRule | script.js:183-265 | The rule chosen passes its own test, and every rule tested before it fails |
| Commands.FirstMatchIsUnique | script.js:183-265 | A rule is chosen if and only if it matches and no earlier rule matches, so exactly one branch runs |
| Commands.TimeShadowsEveryOtherRule | script.js:183 | Any lower-cased command containing "time" is handled by the time rule, whatever else it contains |
| Commands.ClearHistoryIsNeverAGreeting | script.js:223-252 | A command containing "clear history" is never answered by the greeting rule |
| Commands.ClearHistoryContainsHi | script.js:223-252 | "clear history" passes the greeting's "hi" test on its own, so the order of the two rules decides the outcome |
| Session.SearchQuery | script.js:212 | The query is the command with its first "search for", in any letter case, removed and the rest trimmed; `SessionProperties.SearchQueryIsRestOfCommand` shows this is the text after the leading prefix |
| Session.AnswerPages | script.js:195-247 | A rule that answers with one sentence opens at most one page |
| Session.Assistant.constructor | script.js:5-96 | The initial state: not listening, awake, no slot and no source; the history holds only the "not supported" line when speech recognition is missing |
| Session.Assistant.Speak | script.js:285 | `speak(text)` appends `text` to the spoken log and changes nothing else |
| Session.Assistant.AddToHistory | script.js:327-348 | `addToHistory` appends one entry with its speaker and text |
| Session.Assistant.OpenWindow | script.js:197 | `window.open` appends the page to the opened log |
| Session.Assistant.OnStartupTimer | script.js:20-23 | The start-up timer records "N.I.F.A.D. INITIALIZED" and speaks the ready notice |
| Session.Assistant.ClearHistory | script.js:350-357 | `clearHistory` replaces the whole history with the single SYSTEM "HISTORY CLEARED" line and speaks the notice |
| Session.Assistant.HandleCommand | script.js:176-180 | `handleCommand` drops a blank command; otherwise it records the USER line and runs the rule `SelectRule` picks on the lower-cased command |
| Session.Assistant.RunRule | script.js:183-265 | Each branch has the effect `AfterRule` gives it: the answer spoken, the page opened, NIFAD's line recorded, the search, the clear, or going to sleep |
| Session.Assistant.Answer | script.js:183-265 | The shared shape of the answering branches: speak the sentence, open its page if any, record the sentence as NIFAD's |
| Session.Assistant.Search | script.js:212-220 | A non-empty query is searched for and recorded; an empty one speaks the prompt and leaves a search pending |
| Session.Assistant.HandleFollowUp | script.js:268-283 | A blank answer only speaks the reprompt; any other is recorded, searched for when the slot is a search, and clears the slot |
| Session.Assistant.OnResult | script.js:109-124 | The voice result: slot first, then the gate; the rest after the keyword, when not blank, is a voice command; the keyword alone is acknowledged |
| Session.Assistant.SubmitText | script.js:55-59 | Enter in the command field sets the source to text and hands the line to `handleCommand` |
| Session.Assistant.ToggleListening | script.js:156-174 | Without recognition it speaks the notice; while listening it stops; otherwise a start that does not throw wakes the assistant and sets the source to voice, and one that throws speaks the microphone notice |
| Session.Assistant.ClickTalk | script.js:49-52 | The talk button sets the source to voice and toggles listening |
| Session.Assistant.OnStart | script.js:103-107 | `onstart` sets `isListening` |
| Session.Assistant.OnEnd | script.js:126-141 | `onend` clears `isListening` and restarts exactly when the source is voice, auto-listen is on, the assistant is awake and no slot is pending |
| Session.Assistant.OnError | script.js:143-153 | `onerror` clears `isListening`; "not-allowed" also records the denial and speaks the notice |
| Session.Assistant.OnSpeechEnd | script.js:307-317 | The end of an utterance restarts exactly when the source is voice, auto-listen is on, the assistant is awake, recognition exists and no slot is pending; it changes nothing |
| SessionProperties.BlankCommandChangesNothing | script.js:177 | A blank command leaves the whole state unchanged: no history, no speech, no page |
| SessionProperties.CommandRunsSelectedRule | script.js:177-180 | A non-blank command is recorded as the user's line and handled by the selected rule |
| SessionProperties.RuleSpeaksOnce | script.js:183-265 | Every branch calls `speak` exactly once and keeps what was already spoken |
| SessionProperties.RuleAddsAtMostOneNifadLine | script.js:183-265 | Every branch except "clear history" leaves the history alone or appends exactly one NIFAD line |
| SessionProperties.RuleFrame | script.js:183-265 | No branch changes the source; only "go to sleep" changes `isAwake`; only a search with an empty query sets the slot |
| SessionProperties.CommandSpeaksExactlyOnce | script.js:177-265 | A non-blank command causes exactly one `speak` call |
| SessionProperties.CommandRecordsUserLineFirst | script.js:179-265 | Except for "clear history", a non-blank command appends the USER line first, then at most one NIFAD line |
| SessionProperties.FoundPatternIsNotBlank | script.js:177-183 | A command in which a rule's pattern is found is not blank, so the blank test never hides a match |
| SessionProperties.TimeQuestionGetsTimeAnswer | script.js:183-187 | Any command whose lower-cased form contains "time" gets exactly the time answer, even when it also names a date, a search or a joke |
| SessionProperties.SearchQueryIsRestOfCommand | script.js:211-212 | For a command the search rule handles, the query is the original text after "search for", trimmed |
| SessionProperties.SearchCommandIsNotBlank | script.js:177-211 | A command starting with "search for" is never blank |
| SessionProperties.SearchWithQuery | script.js:211-216 | With a non-empty query, exactly one search page is opened for it, its answer is spoken and recorded after the USER line, and the slot is unchanged |
| SessionProperties.SearchWithoutQuery | script.js:211-220 | With an empty query, no page is opened, no NIFAD line is added, the prompt is spoken and a search becomes pending |
| SessionProperties.CommandKeepsSlotUnlessItAsks | script.js:176-265 | A command changes the slot only when it is a search with an empty query, which makes it pending |
| SessionProperties.PendingSlotTakesEveryTranscript | script.js:113-114 | While a slot is pending, every transcript goes to `handleFollowUp`, whatever the wake state and whatever it says, so it cannot change `isAwake` |
| SessionProperties.FollowUpAnswerResolvesSlot | script.js:274-282 | A non-blank answer appends one USER line, searches when the slot is a search, and always clears the slot |
| SessionProperties.BlankFollowUpKeepsSlot | script.js:269-272 | A blank answer only speaks the reprompt; the slot stays as it was |
| SessionProperties.SearchPromptThenSpokenAnswer | script.js:113-282 | "search for" alone, then a spoken answer: the lower-cased answer is searched for and the slot is cleared |
| SessionProperties.TypedInputBypassesSlot | script.js:55-59 | While a search is pending, a typed line goes through the command rules and the search stays pending |
| SessionProperties.AsleepIgnoresTranscriptWithoutKeyword | script.js:115 | Asleep with no slot pending, a transcript without "hey nifad" changes nothing |
| SessionProperties.KeywordAloneIsAcknowledged | script.js:116-122 | A transcript that is only the keyword is acknowledged: no history line and no command |
| SessionProperties.GateRoutesTheRest | script.js:115-119 | Past the gate, the trimmed rest after the first keyword is handled as a voice command |
| SessionProperties.VoiceCommandIsAlreadyLowerCase | script.js:110-119 | The command the gate passes on is already lower-case, so the second lower-casing in `handleCommand` (line 180) changes nothing and the rule is chosen on the command as heard |
| SessionProperties.VoiceResultNeverWakes | script.js:109-124 | A voice result never sets `isAwake`; it can only keep it or clear it |
| SessionProperties.OnlySleepCommandPutsToSleep | script.js:226-230 | A command clears `isAwake` exactly when it is "go to sleep", and never sets it |
| SessionProperties.OnlySuccessfulStartWakes | script.js:156-174 | `toggleListening` sets `isAwake` exactly when recognition exists, it is not listening, and the start does not throw |
| SessionProperties.ClearLeavesOneEntry | script.js:350-357 | After a clear the history is the single "HISTORY CLEARED" line, and clearing again leaves the same history |
| SessionProperties.ClearCommandErasesItsOwnLine | script.js:179-225 | The "clear history" command erases the USER line it has just recorded |
| SessionProperties.TypedCommandNeverRestartsListening | script.js:55-309 | After a typed command neither restart guard holds |
| SessionProperties.RestartNeedsVoiceAwakeAndNoSlot | script.js:132-309 | The speech-end guard implies the recognition-end guard, and both need the voice source, the assistant awake and no slot pending |
| SessionProperties.JokeComesFromTheList | script.js:232-241 | The joke spoken is one of the four fixed jokes, and the same joke is recorded as NIFAD's line |

## Left out

- DOM wiring and rendering are not modelled. This covers element lookup,
  listeners other than the talk button, the Enter key and the
  clear-history button (which calls `clearHistory`, modelled as
  `Assistant.ClearHistory`), the HTML of
  history items, scrolling, the listening animation and the settings panel.
  `addToHistory` is modelled as an append of `(speaker, text)`.
- The Web Speech engines are not modelled: utterance creation,
  `cancel`, voice choice, rate and pitch.
- `speak` is always recorded in the spoken log, including when
  `speechSynthesis` is missing and nothing is said. In that case no
  `utterance.onend` handler exists either, and its guard is
  `Assistant.OnSpeechEnd`.
- Timers and asynchronous delivery are not modelled:
  - `setTimeout` and `setInterval` delays;
  - when `onstart`, `onend`, `onerror` and `onresult` arrive relative to
    each other.
  Each event is a method, and the two auto-restarts are modelled only as
  their guards (`OnEnd` and `OnSpeechEnd` return whether a restart
  happens). The delayed `recognition.start()` itself is not modelled.
- The clock is not modelled. `toLocaleTimeString` and `toLocaleDateString`
  are the opaque strings `Env.time` and `Env.date`. `updateDateTime` only
  writes the clock display.
- `Math.random` is the parameter `Env.joke`, an index below 4.
- `encodeURIComponent` and the URL text are not modelled. A search page is
  the value `GoogleSearch(query)`, and the fixed pages are named values.
- Settings are not modelled: `localStorage` save, load and reset, and
  `populateVoices`. The saved `autoListen` and `saveHistory` values are
  always true because of `|| true` in `saveSettings`. The auto-listen
  checkbox is a parameter of the guards.
- `toLowerCase` is modelled for ASCII letters only. Other characters are
  kept as they are.
- `Text.RemoveFirstIgnoringCase` requires a pattern written in lower case.
  This holds for the only case-insensitive pattern the assistant uses,
  "search for".
- The model keeps one log per kind of output. The order between a spoken
  text, an opened page and a history line produced by the same branch is
  therefore not recorded. Within each log the order is exact.
- `console.log` and `console.error` output is not modelled.
