/** What the session promises, stated over the effect functions of module
    `Session`; the methods of `Session.Assistant` are proved equal to those
    functions, so every lemma here holds of the object as well. */
module SessionProperties {
  import opened Text
  import opened Commands
  import opened Session

  // ---------------------------------------------------------------------
  // Blank input, and one spoken answer per command.

  /** A command that is blank after trimming changes nothing at all. */
  lemma BlankCommandChangesNothing(s: State, command: string, env: Env)
    requires IsBlank(command)
    ensures AfterCommand(s, command, env) == s
  {
  }

  /** A command that is not blank is recorded and handed to the first
      matching rule. */
  lemma CommandRunsSelectedRule(s: State, command: string, env: Env)
    requires !IsBlank(command)
    ensures AfterCommand(s, command, env)
            == AfterRule(Record(s, User, command), SelectRule(ToLower(command)), command, env)
  {
  }

  /** Every rule speaks exactly once. */
  lemma RuleSpeaksOnce(t: State, rule: Rule, command: string, env: Env)
    ensures var u := AfterRule(t, rule, command, env);
      |u.spoken| == |t.spoken| + 1 && u.spoken[..|t.spoken|] == t.spoken
  {
  }

  /** `after` is `before` with one line of NIFAD's appended. */
  predicate AddsNifadLine(before: seq<Entry>, after: seq<Entry>)
  {
    |after| == |before| + 1 && after[..|before|] == before && after[|before|].speaker == Nifad
  }

  /** Every rule but "clear history" adds at most one line, and only NIFAD's. */
  lemma RuleAddsAtMostOneNifadLine(t: State, rule: Rule, command: string, env: Env)
    requires rule != ClearHistory
    ensures var u := AfterRule(t, rule, command, env);
      u.history == t.history || AddsNifadLine(t.history, u.history)
  {
  }

  /** No rule changes the command source; only "go to sleep" changes
      `isAwake`, and only the search rule the pending slot. */
  lemma RuleFrame(t: State, rule: Rule, command: string, env: Env)
    ensures var u := AfterRule(t, rule, command, env);
      u.source == t.source
      && u.isAwake == (t.isAwake && rule != GoToSleep)
      && u.pending == (if rule == SearchFor && SearchQuery(command) == [] then PendingSearch else t.pending)
  {
  }

  /** A command that contains a non-blank character leads to exactly one
      call of `speak`, whichever rule handles it. */
  lemma CommandSpeaksExactlyOnce(s: State, command: string, env: Env)
    requires !IsBlank(command)
    ensures var t := AfterCommand(s, command, env);
      |t.spoken| == |s.spoken| + 1 && t.spoken[..|s.spoken|] == s.spoken
  {
    CommandRunsSelectedRule(s, command, env);
    RuleSpeaksOnce(Record(s, User, command), SelectRule(ToLower(command)), command, env);
  }

  /** Except for "clear history", a command first appends the user's line
      and then at most one line of NIFAD's, and no other line. */
  lemma CommandRecordsUserLineFirst(s: State, command: string, env: Env)
    requires !IsBlank(command)
    requires SelectRule(ToLower(command)) != ClearHistory
    ensures var h := s.history + [Entry(User, command)];
      var t := AfterCommand(s, command, env);
      t.history == h || AddsNifadLine(h, t.history)
  {
    CommandRunsSelectedRule(s, command, env);
    RuleAddsAtMostOneNifadLine(Record(s, User, command), SelectRule(ToLower(command)), command, env);
  }

  /** A pattern found in a string shows the string is not blank, provided
      the pattern starts with a character that is not white space. */
  lemma FoundPatternIsNotBlank(command: string, p: string)
    requires p != [] && !IsSpace(p[0])
    requires Contains(ToLower(command), p)
    ensures !IsBlank(command)
  {
    var lower := ToLower(command);
    var i :| OccursAt(lower, p, i);
    assert lower[i] == lower[i..i + |p|][0] == p[0];
    LowerKeepsBlank(command);
  }

  // ---------------------------------------------------------------------
  // First match wins.

  /** Any command whose lower-cased form contains "time" is answered with
      the time, even when it also names a date, a search or a joke. */
  lemma TimeQuestionGetsTimeAnswer(s: State, command: string, env: Env)
    requires Contains(ToLower(command), "time")
    ensures AfterCommand(s, command, env) == Reply(Record(s, User, command), TimeReply(env.time))
  {
    FoundPatternIsNotBlank(command, "time");
    TimeShadowsEveryOtherRule(ToLower(command));
  }

  // ---------------------------------------------------------------------
  // The search rule.

  /** The query is the text after the leading "search for", trimmed. */
  lemma SearchQueryIsRestOfCommand(command: string)
    requires StartsWith(ToLower(command), SearchPrefix)
    ensures SearchQuery(command) == Trim(command[|SearchPrefix|..])
  {
    RemoveIgnoringCaseAtStart(command, SearchPrefix);
  }

  /** A command the search rule handles is never blank. */
  lemma SearchCommandIsNotBlank(command: string)
    requires StartsWith(ToLower(command), SearchPrefix)
    ensures !IsBlank(command)
  {
    var lower := ToLower(command);
    assert lower[0] == lower[..|SearchPrefix|][0] == 's';
    LowerKeepsBlank(command);
  }

  /** "search for <query>": exactly one search page is opened, for the
      query, and the pending slot is left as it was. */
  lemma SearchWithQuery(s: State, command: string, env: Env)
    requires SelectRule(ToLower(command)) == SearchFor
    requires !IsBlank(command[|SearchPrefix|..])
    ensures var q := Trim(command[|SearchPrefix|..]);
      var t := AfterCommand(s, command, env);
      t.openedUrls == s.openedUrls + [GoogleSearch(q)]
      && t.pending == s.pending
      && t.history == s.history + [Entry(User, command)] + [Entry(Nifad, SearchReply(q))]
      && t.spoken == s.spoken + [SearchReply(q)]
  {
    SearchCommandIsNotBlank(command);
    SearchQueryIsRestOfCommand(command);
    var q := Trim(command[|SearchPrefix|..]);
    assert q != [];
    var r := Record(s, User, command);
    assert AfterCommand(s, command, env) == AfterSearch(r, q);
    assert AfterSearch(r, q) == Reply(Open(r, GoogleSearch(q)), SearchReply(q));
  }

  /** "search for" with nothing after it: no page is opened, no NIFAD line
      is recorded, the prompt is spoken and a search becomes pending. */
  lemma SearchWithoutQuery(s: State, command: string, env: Env)
    requires SelectRule(ToLower(command)) == SearchFor
    requires IsBlank(command[|SearchPrefix|..])
    ensures var t := AfterCommand(s, command, env);
      t.openedUrls == s.openedUrls
      && t.pending == PendingSearch
      && t.history == s.history + [Entry(User, command)]
      && t.spoken == s.spoken + [SearchPrompt]
  {
    SearchCommandIsNotBlank(command);
    SearchQueryIsRestOfCommand(command);
    CommandRunsSelectedRule(s, command, env);
  }

  /** Only the search rule, with an empty query, changes the pending slot. */
  lemma CommandKeepsSlotUnlessItAsks(s: State, command: string, env: Env)
    ensures var t := AfterCommand(s, command, env);
      t.pending == (if !IsBlank(command) && SelectRule(ToLower(command)) == SearchFor && SearchQuery(command) == []
                    then PendingSearch else s.pending)
  {
    if !IsBlank(command) {
      CommandRunsSelectedRule(s, command, env);
      RuleFrame(Record(s, User, command), SelectRule(ToLower(command)), command, env);
    }
  }

  // ---------------------------------------------------------------------
  // The pending slot and the follow-up answer.

  /** While a slot is pending, every voice transcript is its answer, whatever
      the wake state and whatever it says ("go to sleep" included): it never
      reaches the command rules, so it cannot change `isAwake`. */
  lemma PendingSlotTakesEveryTranscript(s: State, transcript: string, env: Env)
    requires s.pending != NoPending
    ensures AfterVoiceResult(s, transcript, env) == AfterFollowUp(s, ToLower(transcript))
    ensures AfterVoiceResult(s, transcript, env).isAwake == s.isAwake
  {
  }

  /** A non-blank answer is recorded, searched for when the slot is a
      search, and always empties the slot. */
  lemma FollowUpAnswerResolvesSlot(s: State, response: string)
    requires !IsBlank(response)
    ensures var t := AfterFollowUp(s, response);
      t.pending == NoPending
      && t.history == s.history + [Entry(User, response)]
                      + (if s.pending == PendingSearch then [Entry(Nifad, SearchReply(response))] else [])
      && t.openedUrls == s.openedUrls + (if s.pending == PendingSearch then [GoogleSearch(response)] else [])
  {
  }

  /** A blank answer only speaks the reprompt: the slot survives it. */
  lemma BlankFollowUpKeepsSlot(s: State, response: string)
    requires IsBlank(response)
    ensures AfterFollowUp(s, response) == Say(s, Reprompt)
    ensures AfterFollowUp(s, response).pending == s.pending
  {
  }

  /** "search for" and then a spoken answer: the answer, lower-cased, is
      searched for and the slot is emptied. */
  lemma SearchPromptThenSpokenAnswer(s: State, command: string, answer: string, env: Env)
    requires SelectRule(ToLower(command)) == SearchFor
    requires IsBlank(command[|SearchPrefix|..])
    requires !IsBlank(answer)
    ensures var t := AfterVoiceResult(AfterCommand(s, command, env), answer, env);
      t.pending == NoPending && t.openedUrls == s.openedUrls + [GoogleSearch(ToLower(answer))]
  {
    SearchWithoutQuery(s, command, env);
    LowerKeepsBlank(answer);
  }

  /** Typed input skips the slot: while a search is pending, a typed line
      goes through the command rules and leaves the search pending. */
  lemma TypedInputBypassesSlot(s: State, value: string, env: Env)
    requires s.pending == PendingSearch
    ensures AfterTypedCommand(s, value, env).pending == PendingSearch
  {
    CommandKeepsSlotUnlessItAsks(s.(source := Typed), value, env);
  }

  // ---------------------------------------------------------------------
  // The wake gate.

  /** Asleep, with no slot pending, a transcript without "hey nifad" is
      ignored: no history, no speech, no change of state. */
  lemma AsleepIgnoresTranscriptWithoutKeyword(s: State, transcript: string, env: Env)
    requires s.pending == NoPending && !s.isAwake
    requires !Contains(ToLower(transcript), ActivationKeyword)
    ensures AfterVoiceResult(s, transcript, env) == s
  {
  }

  /** A transcript that is only the keyword is acknowledged and nothing
      else happens: no history line and no command. */
  lemma KeywordAloneIsAcknowledged(s: State, transcript: string, env: Env)
    requires s.pending == NoPending
    requires ToLower(transcript) == ActivationKeyword
    ensures AfterVoiceResult(s, transcript, env) == Say(s, Acknowledgement)
  {
    assert OccursAt(ActivationKeyword, ActivationKeyword, 0);
    assert FirstAt(ActivationKeyword, ActivationKeyword, 0);
    assert RemoveFirst(ActivationKeyword, ActivationKeyword) == [];
  }

  /** A transcript with the keyword, or any transcript while awake, has the
      keyword's first occurrence removed and the trimmed rest handled as a
      voice command. */
  lemma GateRoutesTheRest(s: State, transcript: string, env: Env)
    requires s.pending == NoPending
    requires s.isAwake || Contains(ToLower(transcript), ActivationKeyword)
    requires !IsBlank(RemoveFirst(ToLower(transcript), ActivationKeyword))
    ensures var rest := Trim(RemoveFirst(ToLower(transcript), ActivationKeyword));
      AfterVoiceResult(s, transcript, env) == AfterCommand(s.(source := Voice), rest, env)
  {
  }

  /** The voice command is already lower-case, so lower-casing it again in
      `handleCommand` changes nothing: its rule is chosen on the command as
      it was heard. */
  lemma VoiceCommandIsAlreadyLowerCase(transcript: string)
    ensures var rest := Trim(RemoveFirst(ToLower(transcript), ActivationKeyword));
      ToLower(rest) == rest && SelectRule(ToLower(rest)) == SelectRule(rest)
  {
    var heard := ToLower(transcript);
    RemoveFirstKeepsLowerCase(heard, ActivationKeyword);
    TrimKeepsLowerCase(RemoveFirst(heard, ActivationKeyword));
    LowerOfLowerCase(Trim(RemoveFirst(heard, ActivationKeyword)));
  }

  /** The gate never wakes the assistant: a voice result can only keep
      `isAwake` or clear it. */
  lemma VoiceResultNeverWakes(s: State, transcript: string, env: Env)
    ensures AfterVoiceResult(s, transcript, env).isAwake ==> s.isAwake
  {
    var heard := ToLower(transcript);
    if s.pending == NoPending && (Contains(heard, ActivationKeyword) || s.isAwake) {
      var rest := Trim(RemoveFirst(heard, ActivationKeyword));
      if rest != [] {
        OnlySleepCommandPutsToSleep(s.(source := Voice), rest, env);
        assert AfterVoiceResult(s, transcript, env) == AfterCommand(s.(source := Voice), rest, env);
      }
    }
  }

  /** A command clears `isAwake` exactly when it is "go to sleep", and never
      sets it. */
  lemma OnlySleepCommandPutsToSleep(s: State, command: string, env: Env)
    ensures AfterCommand(s, command, env).isAwake
            == (s.isAwake && (IsBlank(command) || SelectRule(ToLower(command)) != GoToSleep))
  {
    if !IsBlank(command) {
      CommandRunsSelectedRule(s, command, env);
      RuleFrame(Record(s, User, command), SelectRule(ToLower(command)), command, env);
    }
  }

  /** `isAwake` becomes true only through a successful start of listening. */
  lemma OnlySuccessfulStartWakes(s: State, hasRecognition: bool, startThrows: bool)
    ensures AfterToggle(s, hasRecognition, startThrows).isAwake
            == (s.isAwake || (hasRecognition && !s.isListening && !startThrows))
  {
  }

  // ---------------------------------------------------------------------
  // Clearing the history.

  /** After a clear the history is the single "HISTORY CLEARED" line, so a
      second clear leaves the same history. */
  lemma ClearLeavesOneEntry(s: State)
    ensures AfterClear(s).history == [Entry(System, ClearedEntry)]
    ensures AfterClear(AfterClear(s)).history == AfterClear(s).history
  {
  }

  /** The "clear history" command erases the user line it has just added. */
  lemma ClearCommandErasesItsOwnLine(s: State, command: string, env: Env)
    requires !IsBlank(command)
    requires SelectRule(ToLower(command)) == ClearHistory
    ensures AfterCommand(s, command, env).history == [Entry(System, ClearedEntry)]
  {
  }

  // ---------------------------------------------------------------------
  // Restarting listening, and the joke.

  /** A typed command never makes listening restart, after recognition ends
      or after the answer is spoken. */
  lemma TypedCommandNeverRestartsListening(s: State, value: string, env: Env, autoListen: bool, hasRecognition: bool)
    ensures !RestartsAfterRecognitionEnd(AfterTypedCommand(s, value, env), autoListen)
    ensures !RestartsAfterSpeech(AfterTypedCommand(s, value, env), autoListen, hasRecognition)
  {
    if !IsBlank(value) {
      var t := s.(source := Typed);
      CommandRunsSelectedRule(t, value, env);
      RuleFrame(Record(t, User, value), SelectRule(ToLower(value)), value, env);
    }
  }

  /** Listening restarts after speech only when it would also restart after
      recognition ends, and never while a slot is pending or while asleep. */
  lemma RestartNeedsVoiceAwakeAndNoSlot(s: State, autoListen: bool, hasRecognition: bool)
    ensures RestartsAfterSpeech(s, autoListen, hasRecognition) ==> RestartsAfterRecognitionEnd(s, autoListen)
    ensures RestartsAfterRecognitionEnd(s, autoListen) ==> s.source == Voice && s.isAwake && s.pending == NoPending
  {
  }

  /** The joke told is one of the four fixed jokes, and it is what is recorded. */
  lemma JokeComesFromTheList(s: State, command: string, env: Env)
    requires !IsBlank(command)
    requires SelectRule(ToLower(command)) == Joke
    ensures var t := AfterCommand(s, command, env);
      |t.spoken| > 0 && t.spoken[|t.spoken| - 1] in Jokes
      && t.history == s.history + [Entry(User, command), Entry(Nifad, t.spoken[|t.spoken| - 1])]
  {
    CommandRunsSelectedRule(s, command, env);
  }
}
