/**
 * What CLIManager's state machine guarantees: the invariant every event keeps,
 * the agreement gate, the order in which a chat line is examined, the handling
 * of staged commands and #choose answers, stale replies, rollback on failure,
 * the tool dispatch and the timeout sweep.
 */
module CliProperties {
  import opened Wrappers
  import opened Text
  import opened Dialogue
  import opened Directive
  import opened Tools
  import opened CliState

  // ---------------------------------------------------------------------
  // The invariant
  // ---------------------------------------------------------------------

  lemma AddTurnKeepsInv(st: State, u: UserId, role: string, content: string, now: int)
    requires Inv(st) && u in st.sessions
    ensures Inv(AddTurn(st, u, role, content, now))
    ensures AddTurn(st, u, role, content, now).sessions.Keys == st.sessions.Keys
  {
  }

  lemma FeedbackKeepsInv(st: State, u: UserId, text: string, now: int)
    requires Inv(st)
    ensures Inv(Feedback(st, u, text, now).state)
  {
    if u in st.sessions {
      AddTurnKeepsInv(st, u, "user", text, now);
    }
  }

  lemma ActKeepsInv(st: State, u: UserId, action: ToolAction, now: int, presets: Presets)
    requires Inv(st)
    ensures Inv(Act(st, u, action, now, presets).state)
  {
    match action
    case RunMissingArgs => FeedbackKeepsInv(st, u, RunArgsFeedback, now);
    case Get(file) => FeedbackKeepsInv(st, u, GetFeedback(PresetLookup(presets, file)), now);
    case Unknown(name) => FeedbackKeepsInv(st, u, UnknownToolFeedback(name), now);
    case _ =>
  }

  lemma ToolKeepsInv(st: State, u: UserId, call: string, now: int, presets: Presets)
    requires Inv(st)
    ensures Inv(Tool(st, u, call, now, presets).state)
  {
    ActKeepsInv(st, u, Dispatch(SplitTool(call)), now, presets);
  }

  lemma ReplyKeepsInv(st: State, u: UserId, response: string, now: int, threshold: int, presets: Presets)
    requires Inv(st)
    ensures Inv(AIReply(st, u, response, now, threshold, presets).state)
  {
    if u in st.sessions && Generating(st, u) {
      AddTurnKeepsInv(st, u, "assistant", response, now);
      var st1 := AddTurn(st, u, "assistant", response, now);
      var r := Extract(CleanReply(response));
      if r.toolCall != "" {
        ToolKeepsInv(st1, u, r.toolCall, now, presets);
      }
    }
  }

  lemma ChatKeepsInv(st: State, u: UserId, message: string, now: int)
    requires Inv(st)
    ensures Inv(Chat(st, u, message, now).step.state)
  {
    if u in st.pendingAgreement {
      AgreeKeepsInv(st, u, message, now);
    } else if u in st.active && !EqualsIgnoreCase(message, "exit") && !EqualsIgnoreCase(message, "stop") {
      if u in st.pendingCommands {
        AnswerPendingKeepsInv(st, u, message, now);
      } else if !Generating(st, u) {
        ProcessKeepsInv(st, u, message, now);
      }
    }
  }

  lemma AgreeKeepsInv(st: State, u: UserId, message: string, now: int)
    requires Inv(st) && u in st.pendingAgreement
    ensures Inv(Chat(st, u, message, now).step.state)
  {
  }

  lemma AnswerPendingKeepsInv(st: State, u: UserId, message: string, now: int)
    requires Inv(st) && u in st.pendingCommands
    ensures Inv(AnswerPending(st, u, message, now).state)
  {
    if st.pendingCommands[u] == Choosing {
      FeedbackKeepsInv(st.(pendingCommands := st.pendingCommands - {u}), u, ChooseFeedback(message), now);
    }
  }

  lemma ProcessKeepsInv(st: State, u: UserId, message: string, now: int)
    requires Inv(st)
    ensures Inv(Process(st, u, message, now).state)
  {
    if u in st.sessions {
      AddTurnKeepsInv(st, u, "user", message, now);
    }
  }

  lemma SweepKeepsInv(st: State, now: int, timeoutMs: int, online: set<UserId>)
    requires Inv(st)
    ensures Inv(Sweep(st, now, timeoutMs, online))
  {
  }

  /** Every event keeps the invariant. */
  lemma ApplyKeepsInv(st: State, e: Event)
    requires Inv(st)
    ensures Inv(Apply(st, e))
  {
    match e
    case ChatEvent(u, message, now) => ChatKeepsInv(st, u, message, now);
    case ReplyEvent(u, response, now, threshold, presets) => ReplyKeepsInv(st, u, response, now, threshold, presets);
    case CommandEvent(u, command, captured, success, names, now) =>
      FeedbackKeepsInv(st, u, RunFeedback(command, captured, success, names), now);
    case SearchEvent(u, query, wiki, web, now) =>
      FeedbackKeepsInv(st, u, SearchFeedback(RunSearch(query, wiki, web).result), now);
    case SweepEvent(now, minutes, online) => SweepKeepsInv(st, now, TimeoutMs(minutes), online);
    case _ => LifecycleKeepsInv(st, e);
  }

  /** Entering, leaving, confirming, cancelling, failing and shutting down keep the invariant. */
  lemma LifecycleKeepsInv(st: State, e: Event)
    requires Inv(st)
    requires !e.ChatEvent? && !e.ReplyEvent? && !e.CommandEvent? && !e.SearchEvent? && !e.SweepEvent?
    ensures Inv(Apply(st, e))
  {
  }

  /**
   * From the state the constructor leaves, every run of events keeps the
   * active set equal to the sessions' keys and inside the agreed set, keeps
   * pending agreement apart from agreement, and keeps every history at 20
   * entries or fewer.
   */
  lemma {:induction false} RunKeepsInv(agreed: set<UserId>, events: seq<Event>)
    ensures Inv(RunEvents(Initial(agreed), events))
    decreases |events|
  {
    if events != [] {
      RunKeepsInv(agreed, events[..|events| - 1]);
      ApplyKeepsInv(RunEvents(Initial(agreed), events[..|events| - 1]), events[|events| - 1]);
    }
  }

  // ---------------------------------------------------------------------
  // Entering, the agreement gate and exit
  // ---------------------------------------------------------------------

  /** A player who has not agreed and is not active is only marked as pending agreement by a toggle. */
  lemma ToggleWithoutAgreement(st: State, u: UserId, now: int)
    requires Inv(st) && u !in st.agreed
    ensures ToggleCli(st, u, now) == Step(st.(pendingAgreement := st.pendingAgreement + {u}), [Say(u, AgreementTerms)])
  {
  }

  /**
   * While agreement is pending every line is consumed. Exactly a
   * case-insensitive "agree" records the player, activates them with a fresh
   * empty session and clears the pending mark; anything else, "exit" included,
   * changes nothing and re-prompts.
   */
  lemma AgreementGate(st: State, u: UserId, message: string, now: int)
    requires Inv(st) && u in st.pendingAgreement
    ensures var c := Chat(st, u, message, now); var st' := c.step.state;
      && c.consumed
      && (EqualsIgnoreCase(message, "agree") ==>
            && u in st'.agreed && u in st'.active && u !in st'.pendingAgreement
            && u in st'.sessions && st'.sessions[u] == Session([], now)
            && c.step.effects == [PersistAgreement(u), Say(u, Entered)])
      && (!EqualsIgnoreCase(message, "agree") ==> c.step == Step(st, [Say(u, AgreeReprompt)]))
  {
  }

  /** exitCLI removes the player everywhere but pendingCommands, and touches no other player. */
  lemma ExitLeavesPendingCommand(st: State, u: UserId)
    ensures var st' := ExitCli(st, u).state;
      && u !in st'.active && u !in st'.pendingAgreement && u !in st'.sessions && u !in st'.generating
      && st'.pendingCommands == st.pendingCommands && st'.agreed == st.agreed
      && (forall v :: v != u ==> (v in st'.active <==> v in st.active) && (v in st'.sessions <==> v in st.sessions))
      && (forall v :: v != u && v in st.sessions ==> st'.sessions[v] == st.sessions[v])
  {
  }

  /** Toggling an agreed player in and out again restores everything except a stale generating entry. */
  lemma ToggleTwice(st: State, u: UserId, now: int)
    requires Inv(st) && u in st.agreed && u !in st.active
    ensures ToggleCli(ToggleCli(st, u, now).state, u, now).state == st.(generating := st.generating - {u})
  {
    var st1 := ToggleCli(st, u, now).state;
    assert st1.sessions - {u} == st.sessions;
    assert st1.active - {u} == st.active;
  }

  // ---------------------------------------------------------------------
  // Chat ordering and pending actions
  // ---------------------------------------------------------------------

  /** handleChat reports "not consumed" exactly for players neither pending agreement nor active. */
  lemma ChatConsumedIff(st: State, u: UserId, message: string, now: int)
    ensures Chat(st, u, message, now).consumed <==> u in st.pendingAgreement || u in st.active
    ensures !Chat(st, u, message, now).consumed ==> Chat(st, u, message, now).step == Step(st, [])
  {
  }

  /** "exit" and "stop" are examined before any pending action, whatever is pending. */
  lemma ExitAndStopFirst(st: State, u: UserId, message: string, now: int)
    requires u !in st.pendingAgreement && u in st.active
    ensures EqualsIgnoreCase(message, "exit") ==> Chat(st, u, message, now).step == ExitCli(st, u)
    ensures !EqualsIgnoreCase(message, "exit") && EqualsIgnoreCase(message, "stop") ==>
              Chat(st, u, message, now).step == Stop(st, u)
  {
  }

  /**
   * "stop" leaves the player neither generating nor with anything pending,
   * changes nothing else, and says there was nothing to stop exactly when
   * neither was the case.
   */
  lemma StopClears(st: State, u: UserId)
    ensures var s := Stop(st, u); var st' := s.state;
      && !Generating(st', u) && u !in st'.pendingCommands
      && st'.sessions == st.sessions && st'.active == st.active
      && (Say(u, NothingToStop) in s.effects <==> !Generating(st, u) && u !in st.pendingCommands)
      && (Generating(st, u) ==> s.effects[0] == Say(u, Interrupted))
  {
  }

  /**
   * With a command staged: a confirm word runs it once and unstages it; a
   * cancel word unstages it and ends generation; any other line re-prompts
   * and changes nothing.
   */
  lemma StagedCommandAnswers(st: State, u: UserId, message: string, now: int)
    requires u in st.pendingCommands && st.pendingCommands[u] != Choosing
    ensures var s := AnswerPending(st, u, message, now);
      && (IsConfirmWord(message) ==>
            s == Step(st.(pendingCommands := st.pendingCommands - {u}), [RunCommand(u, st.pendingCommands[u])]))
      && (!IsConfirmWord(message) && IsCancelWord(message) ==>
            u !in s.state.pendingCommands && !Generating(s.state, u) && s.effects == [Say(u, CommandCancelled)])
      && (!IsConfirmWord(message) && !IsCancelWord(message) ==> s == Step(st, [Say(u, ConfirmReprompt)]))
  {
  }

  /** While a #choose waits, any line is the answer: it is unstaged and the line goes back to the model verbatim. */
  lemma ChoiceAnswer(st: State, u: UserId, message: string, now: int)
    requires u in st.pendingCommands && st.pendingCommands[u] == Choosing && u in st.sessions
    ensures var s := AnswerPending(st, u, message, now);
      && u !in s.state.pendingCommands && Generating(s.state, u)
      && s.state.sessions[u].history == Appended(st.sessions[u].history, Message("user", "#choose_result: " + message))
      && s.effects == [CallAI(u, true)]
  {
  }

  /** The confirm command runs a staged command once: a second confirm finds nothing. */
  lemma ConfirmRunsOnce(st: State, u: UserId)
    requires u in st.pendingCommands && st.pendingCommands[u] != Choosing
    ensures Confirm(st, u).effects == [RunCommand(u, st.pendingCommands[u])]
    ensures Confirm(Confirm(st, u).state, u) == Step(Confirm(st, u).state, [])
  {
  }

  /** The confirm command leaves a waiting #choose alone. */
  lemma ConfirmIgnoresChoice(st: State, u: UserId)
    requires u in st.pendingCommands && st.pendingCommands[u] == Choosing
    ensures Confirm(st, u) == Step(st, [])
  {
  }

  /** While the model is generating and nothing is pending, a plain line is refused and nothing changes. */
  lemma BusyRefuses(st: State, u: UserId, message: string, now: int)
    requires u !in st.pendingAgreement && u in st.active && u !in st.pendingCommands && Generating(st, u)
    requires !EqualsIgnoreCase(message, "exit") && !EqualsIgnoreCase(message, "stop")
    ensures Chat(st, u, message, now) == ChatStep(true, Step(st, [Say(u, BusyRejected)]))
  {
  }

  /** Otherwise the line becomes a user turn and the model is asked. */
  lemma PlainLineAsks(st: State, u: UserId, message: string, now: int)
    requires Inv(st) && u !in st.pendingAgreement && u in st.active && u !in st.pendingCommands && !Generating(st, u)
    requires !EqualsIgnoreCase(message, "exit") && !EqualsIgnoreCase(message, "stop")
    ensures var s := Chat(st, u, message, now).step;
      && s.state.sessions[u].history == Appended(st.sessions[u].history, Message("user", message))
      && s.state.sessions[u].lastActivity == now
      && Generating(s.state, u)
      && s.effects == [Say(u, Echo(message)), CallAI(u, false)]
  {
  }

  // ---------------------------------------------------------------------
  // Replies and failures
  // ---------------------------------------------------------------------

  /** A reply arriving after generation stopped (or without a session) is dropped without a trace. */
  lemma StaleReplyDropped(st: State, u: UserId, response: string, now: int, threshold: int, presets: Presets)
    requires u !in st.sessions || !Generating(st, u)
    ensures AIReply(st, u, response, now, threshold, presets) == Step(st, [])
  {
  }

  /**
   * A reply without a directive is recorded as an assistant turn, ends
   * generation, and warns exactly when the token estimate of the new history
   * leaves less than the threshold.
   */
  lemma PlainReply(st: State, u: UserId, response: string, now: int, threshold: int, presets: Presets)
    requires u in st.sessions && Generating(st, u)
    requires Extract(CleanReply(response)).toolCall == ""
    ensures var s := AIReply(st, u, response, now, threshold, presets);
      var h := Appended(st.sessions[u].history, Message("assistant", response));
      && s.state.sessions[u].history == h
      && !Generating(s.state, u)
      && (exists k :: 0 <= k < |s.effects| && s.effects[k].Say? && s.effects[k].notice.TokenLow?)
         == (MaxTokens - EstimatedTokens(h) < threshold)
  {
    var st1 := AddTurn(st, u, "assistant", response, now);
    RespondWithoutDirective(st1, u, Extract(CleanReply(response)), now, threshold, presets);
  }

  lemma RespondWithoutDirective(st: State, u: UserId, r: Reply, now: int, threshold: int, presets: Presets)
    requires u in st.sessions && r.toolCall == ""
    ensures var s := Respond(st, u, r, now, threshold, presets);
      && s.state == st.(generating := st.generating[u := false])
      && (exists k :: 0 <= k < |s.effects| && s.effects[k].Say? && s.effects[k].notice.TokenLow?)
         == (MaxTokens - EstimatedTokens(st.sessions[u].history) < threshold)
  {
    var s := Respond(st, u, r, now, threshold, presets);
    var shown := if r.content != "" then [Say(u, AgentContent(r.content))] else [];
    var warning := TokenWarning(EstimatedTokens(st.sessions[u].history), threshold);
    assert s.effects == shown + (if warning.Some? then [Say(u, TokenLow(warning.value))] else []);
    if warning.Some? {
      assert s.effects[|s.effects| - 1].notice.TokenLow?;
    }
  }

  /** A tool action adds at most one user turn to the player's history, and removes the session only on #exit. */
  lemma ActHistory(st: State, u: UserId, action: ToolAction, now: int, presets: Presets)
    requires u in st.sessions
    ensures var st' := Act(st, u, action, now, presets).state;
      && (u !in st'.sessions <==> action == Exit)
      && (u in st'.sessions ==>
            (st'.sessions[u].history == st.sessions[u].history
             || exists f :: st'.sessions[u].history == Appended(st.sessions[u].history, Message("user", f))))
  {
    var h := st.sessions[u].history;
    match action
    case RunMissingArgs =>
      assert Feedback(st, u, RunArgsFeedback, now).state.sessions[u].history == Appended(h, Message("user", RunArgsFeedback));
    case Get(file) =>
      var f := GetFeedback(PresetLookup(presets, file));
      assert Feedback(st, u, f, now).state.sessions[u].history == Appended(h, Message("user", f));
    case Unknown(name) =>
      var f := UnknownToolFeedback(name);
      assert Feedback(st, u, f, now).state.sessions[u].history == Appended(h, Message("user", f));
    case _ =>
  }

  /**
   * Whatever the directive, the raw reply is recorded before parsing: if the
   * player still has a session afterwards, its history is the assistant turn
   * appended, possibly followed by one feedback turn.
   */
  lemma ReplyRecordedFirst(st: State, u: UserId, response: string, now: int, threshold: int, presets: Presets)
    requires u in st.sessions && Generating(st, u)
    ensures var s := AIReply(st, u, response, now, threshold, presets);
      var h := Appended(st.sessions[u].history, Message("assistant", response));
      u in s.state.sessions ==>
        (s.state.sessions[u].history == h
         || exists f :: s.state.sessions[u].history == Appended(h, Message("user", f)))
  {
    var st1 := AddTurn(st, u, "assistant", response, now);
    var r := Extract(CleanReply(response));
    if r.toolCall != "" {
      ActHistory(st1, u, Dispatch(SplitTool(r.toolCall)), now, presets);
    }
  }

  /**
   * A failed call always ends generation. Only a failure of the player's own
   * turn, on the session still in place, removes the last history entry; a
   * failed feedback call leaves every history as it was.
   */
  lemma FailureRollback(st: State, u: UserId, current: bool, fromFeedback: bool, message: string)
    ensures var st' := AIFailed(st, u, current, fromFeedback, message).state;
      && !Generating(st', u)
      && st'.sessions.Keys == st.sessions.Keys
      && (fromFeedback || !current ==> st'.sessions == st.sessions)
      && (!fromFeedback && current && u in st.sessions ==>
            st'.sessions[u] == Session(DropLast(st.sessions[u].history), st.sessions[u].lastActivity))
      && (forall v :: v in st.sessions && v != u ==> st'.sessions[v] == st.sessions[v])
  {
  }

  // ---------------------------------------------------------------------
  // Tool dispatch
  // ---------------------------------------------------------------------

  /**
   * #over ends generation and nothing else; a staged #run keeps generating;
   * #choose stages the CHOOSING marker; #run without arguments and unknown
   * names send an #error feedback turn; #search changes nothing yet and
   * starts the search.
   */
  lemma ActOutcomes(st: State, u: UserId, action: ToolAction, now: int, presets: Presets)
    requires u in st.sessions
    ensures var s := Act(st, u, action, now, presets);
      && (action == Over ==> s.state == st.(generating := st.generating[u := false]))
      && (action.Run? ==> s.state == st.(pendingCommands := st.pendingCommands[u := action.command]))
      && (action.Choose? ==> s.state == st.(pendingCommands := st.pendingCommands[u := Choosing]))
      && (action == RunMissingArgs ==>
            s.state.sessions[u].history == Appended(st.sessions[u].history, Message("user", RunArgsFeedback))
            && Generating(s.state, u))
      && (action.Unknown? ==>
            s.state.sessions[u].history == Appended(st.sessions[u].history, Message("user", UnknownToolFeedback(action.name)))
            && Generating(s.state, u))
      && (action.Search? ==> s.state == st && StartSearch(u, action.query) in s.effects)
  {
    match action
    case RunMissingArgs =>
      assert Feedback(st, u, RunArgsFeedback, now).state.sessions[u].history
          == Appended(st.sessions[u].history, Message("user", RunArgsFeedback));
    case Unknown(name) =>
      assert Feedback(st, u, UnknownToolFeedback(name), now).state.sessions[u].history
          == Appended(st.sessions[u].history, Message("user", UnknownToolFeedback(name)));
    case _ =>
  }

  /**
   * The same outcomes for a whole tool call: #run with arguments stages the
   * command without its leading '/', an unknown name is fed back as written,
   * and #search searches for the arguments.
   */
  lemma ToolOutcomes(st: State, u: UserId, call: string, now: int, presets: Presets)
    requires u in st.sessions
    ensures var t := SplitTool(call); var s := Tool(st, u, call, now, presets);
      && (Dispatch(t) == Over ==> s.state == st.(generating := st.generating[u := false]))
      && (Dispatch(t).Run? ==> s.state == st.(pendingCommands := st.pendingCommands[u := StripSlash(t.args)]))
      && (Dispatch(t).Choose? ==> s.state == st.(pendingCommands := st.pendingCommands[u := Choosing]))
      && (Dispatch(t) == RunMissingArgs ==>
            s.state.sessions[u].history == Appended(st.sessions[u].history, Message("user", RunArgsFeedback))
            && Generating(s.state, u))
      && (Dispatch(t).Unknown? ==>
            s.state.sessions[u].history == Appended(st.sessions[u].history, Message("user", UnknownToolFeedback(t.name)))
            && Generating(s.state, u))
      && (Dispatch(t).Search? ==> s.state == st && StartSearch(u, t.args) in s.effects)
  {
    var t := SplitTool(call);
    ActOutcomes(st, u, Dispatch(t), now, presets);
    DispatchArgs(t);
  }

  // ---------------------------------------------------------------------
  // Timeout sweep
  // ---------------------------------------------------------------------

  /**
   * After a sweep an active player is still active exactly when they have no
   * session or have been idle for no longer than the timeout (the comparison
   * is strict); expired players who are offline keep their generating entry.
   */
  lemma SweepExact(st: State, now: int, timeoutMs: int, online: set<UserId>, u: UserId)
    requires u in st.active && u in st.sessions
    ensures var st' := Sweep(st, now, timeoutMs, online);
      && (u in st'.active <==> now - st.sessions[u].lastActivity <= timeoutMs)
      && (u in st'.active <==> u in st'.sessions)
      && (u !in online ==> (u in st'.generating <==> u in st.generating))
      && st'.pendingCommands == st.pendingCommands
  {
  }

  /** With the usual ten minutes, a player idle for exactly 600000 ms stays; one millisecond more and they go. */
  lemma SweepTenMinutes(st: State, online: set<UserId>, u: UserId, last: int)
    requires u in st.active && u in st.sessions && st.sessions[u].lastActivity == last
    ensures u in Sweep(st, last + 600000, TimeoutMs(10), online).active
    ensures u !in Sweep(st, last + 600001, TimeoutMs(10), online).active
  {
    TimeoutMsExact(10);
  }
}
