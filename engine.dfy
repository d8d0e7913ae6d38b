/**
 * CLIManager: the per-player sets and maps the plugin updates in place, with
 * one method per event. Each method is proved to move the abstract state
 * exactly as the matching CliState transition does and to produce the same
 * effects, and to keep the manager valid.
 */
module Engine {
  import opened Wrappers
  import opened Text
  import opened Dialogue
  import opened Directive
  import opened Tools
  import opened CliState
  import CliProperties

  /** The manager's own fields, without the session objects' contents. */
  datatype Fields = Fields(active: set<UserId>, pendingAgreement: set<UserId>, agreed: set<UserId>,
                           sessions: map<UserId, DialogueSession>, generating: map<UserId, bool>,
                           pendingCommands: map<UserId, string>)

  /** The fields once the players in `gone` have timed out: all their state goes, the exit part only for those online. */
  function Swept(f: Fields, gone: set<UserId>, online: set<UserId>): Fields {
    f.(active := f.active - gone, pendingAgreement := f.pendingAgreement - gone * online,
       sessions := f.sessions - gone, generating := f.generating - gone * online)
  }

  /** Nobody timed out: nothing changes. */
  lemma SweptNone(f: Fields, online: set<UserId>)
    ensures Swept(f, {}, online) == f
  {
    assert f.active - {} == f.active;
    assert f.pendingAgreement - {} * online == f.pendingAgreement;
    assert f.sessions - {} == f.sessions;
    assert f.generating - {} * online == f.generating;
  }

  /** Two rounds of the timeout task's removals are one round for both sets of players. */
  lemma SweptTwice(f: Fields, a: set<UserId>, b: set<UserId>, online: set<UserId>)
    ensures Swept(Swept(f, a, online), b, online) == Swept(f, a + b, online)
  {
    assert (a + b) * online == a * online + b * online;
    assert f.active - a - b == f.active - (a + b);
    assert f.pendingAgreement - a * online - b * online == f.pendingAgreement - (a + b) * online;
    assert f.sessions - a - b == f.sessions - (a + b);
    assert f.generating - a * online - b * online == f.generating - (a + b) * online;
  }

  /** The online part of "this player, if idle". */
  lemma GoneOnline<K>(u: K, idle: bool, online: set<K>, left: set<K>)
    requires u !in left
    ensures var extra := (if idle then {u} else {}) * online;
      && (extra == {} || (extra == {u} && u !in left * online))
      && (u in extra <==> idle && u in online)
      && (left + (if idle then {u} else {})) * online == left * online + extra
  {
  }

  /** One more player processed by the sweep: the expired ones processed so far grow by that player or not at all. */
  lemma ProcessedStep(expired: set<UserId>, remaining: set<UserId>, u: UserId, gone: set<UserId>)
    requires u in remaining && gone == (if u in expired then {u} else {})
    ensures (expired - remaining) + gone == expired - (remaining - {u})
  {
  }

  class CLIManager {
    var active: set<UserId>
    var pendingAgreement: set<UserId>
    var agreed: set<UserId>
    var sessions: map<UserId, DialogueSession>
    var generating: map<UserId, bool>
    var pendingCommands: map<UserId, string>

    /** The values of the session objects, keyed by player. */
    ghost function Histories(): map<UserId, Session>
      reads this`sessions, sessions.Values
    {
      map u | u in sessions :: Session(sessions[u].history, sessions[u].lastActivityTime)
    }

    ghost function Abs(): State
      reads this, sessions.Values
    {
      State(active, pendingAgreement, agreed, Histories(), generating, pendingCommands)
    }

    /** Every player has a session object of their own, and the abstract state keeps its invariant. */
    ghost predicate Valid()
      reads this, sessions.Values
    {
      && (forall u, v :: u in sessions && v in sessions && u != v ==> sessions[u] != sessions[v])
      && Inv(Abs())
    }

    /** The session object a player's AI turn may change. */
    ghost function SessionOf(u: UserId): set<object>
      reads this
    {
      if u in sessions then {sessions[u]} else {}
    }

    /** The agreement record is loaded from disk by the caller; nobody is active yet. */
    constructor (agreedRecord: set<UserId>)
      ensures Valid()
      ensures Abs() == Initial(agreedRecord)
    {
      active := {};
      pendingAgreement := {};
      agreed := agreedRecord;
      sessions := map[];
      generating := map[];
      pendingCommands := map[];
    }

    /** session.addMessage on the player's own session object. */
    method AddTurnTo(u: UserId, role: string, content: string, now: int)
      requires Valid() && u in sessions
      modifies sessions[u]
      ensures Valid()
      ensures Abs() == AddTurn(old(Abs()), u, role, content, now)
    {
      var s := sessions[u];
      s.AddMessage(role, content, now);
      assert forall v :: v in sessions && v != u ==> sessions[v] != s;
      assert Histories() == old(Histories())[u := Session(s.history, s.lastActivityTime)];
    }

    method EnterCLI(u: UserId, now: int) returns (effects: seq<Effect>)
      requires Valid()
      modifies this
      ensures Valid()
      ensures Abs() == EnterCli(old(Abs()), u, now).state && effects == EnterCli(old(Abs()), u, now).effects
    {
      if u !in agreed {
        effects := [Say(u, AgreementTerms)];
        pendingAgreement := pendingAgreement + {u};
        return;
      }
      active := active + {u};
      var s := new DialogueSession(now);
      ghost var before := sessions;
      sessions := sessions[u := s];
      assert forall v :: v in before ==> before[v] != s;
      assert Histories() == old(Histories())[u := Session([], now)];
      effects := [Say(u, Entered)];
    }

    /** Needs no precondition: the timeout sweep calls it part-way through its loop. */
    method ExitCLI(u: UserId) returns (effects: seq<Effect>)
      modifies this
      ensures active == old(active) - {u} && pendingAgreement == old(pendingAgreement) - {u}
      ensures sessions == old(sessions) - {u} && generating == old(generating) - {u}
      ensures agreed == old(agreed) && pendingCommands == old(pendingCommands)
      ensures Abs() == ExitCli(old(Abs()), u).state && effects == ExitCli(old(Abs()), u).effects
      ensures effects == [Say(u, Exited)]
      ensures old(Valid()) ==> Valid()
    {
      active := active - {u};
      pendingAgreement := pendingAgreement - {u};
      sessions := sessions - {u};
      generating := generating - {u};
      assert Histories() == old(Histories()) - {u};
      effects := [Say(u, Exited)];
    }

    method ToggleCLI(u: UserId, now: int) returns (effects: seq<Effect>)
      requires Valid()
      modifies this
      ensures Valid()
      ensures Abs() == ToggleCli(old(Abs()), u, now).state && effects == ToggleCli(old(Abs()), u, now).effects
    {
      if u in active {
        effects := ExitCLI(u);
      } else {
        effects := EnterCLI(u, now);
      }
    }

    method HandleConfirm(u: UserId) returns (effects: seq<Effect>)
      requires Valid()
      modifies this
      ensures Valid()
      ensures Abs() == Confirm(old(Abs()), u).state && effects == Confirm(old(Abs()), u).effects
    {
      effects := [];
      if u in pendingCommands {
        var command := pendingCommands[u];
        if command != Choosing {
          pendingCommands := pendingCommands - {u};
          effects := [RunCommand(u, command)];
        }
      }
    }

    method HandleCancel(u: UserId) returns (effects: seq<Effect>)
      requires Valid()
      modifies this
      ensures Valid()
      ensures Abs() == Cancel(old(Abs()), u).state && effects == Cancel(old(Abs()), u).effects
    {
      effects := [];
      if u in pendingCommands {
        pendingCommands := pendingCommands - {u};
        effects := [Say(u, CommandCancelled)];
        generating := generating[u := false];
      }
    }

    method ProcessAIMessage(u: UserId, message: string, now: int) returns (effects: seq<Effect>)
      requires Valid()
      modifies this, SessionOf(u)
      ensures Valid()
      ensures Abs() == Process(old(Abs()), u, message, now).state
      ensures effects == Process(old(Abs()), u, message, now).effects
    {
      if u !in sessions {
        effects := [];
        return;
      }
      AddTurnTo(u, "user", message, now);
      generating := generating[u := true];
      effects := [Say(u, Echo(message)), CallAI(u, false)];
    }

    method FeedbackToAI(u: UserId, text: string, now: int) returns (effects: seq<Effect>)
      requires Valid()
      modifies this, SessionOf(u)
      ensures Valid()
      ensures Abs() == Feedback(old(Abs()), u, text, now).state
      ensures effects == Feedback(old(Abs()), u, text, now).effects
    {
      if u !in sessions {
        effects := [];
        return;
      }
      AddTurnTo(u, "user", text, now);
      generating := generating[u := true];
      effects := [CallAI(u, true)];
    }

    /** The "stop" line of handleChat. */
    method StopGenerating(u: UserId) returns (effects: seq<Effect>)
      requires Valid()
      modifies this
      ensures Valid()
      ensures Abs() == Stop(old(Abs()), u).state && effects == Stop(old(Abs()), u).effects
    {
      var interrupted := false;
      effects := [];
      if u in generating && generating[u] {
        generating := generating[u := false];
        effects := effects + [Say(u, Interrupted)];
        interrupted := true;
      }
      if u in pendingCommands {
        pendingCommands := pendingCommands - {u};
        effects := effects + [Say(u, PendingDiscarded)];
        generating := generating[u := false];
        interrupted := true;
      }
      if !interrupted {
        effects := effects + [Say(u, NothingToStop)];
      }
    }

    /** A line typed while a command or a #choose is pending. */
    method AnswerPendingAction(u: UserId, message: string, now: int) returns (effects: seq<Effect>)
      requires Valid() && u in pendingCommands
      modifies this, SessionOf(u)
      ensures Valid()
      ensures Abs() == AnswerPending(old(Abs()), u, message, now).state
      ensures effects == AnswerPending(old(Abs()), u, message, now).effects
    {
      var pending := pendingCommands[u];
      if pending == Choosing {
        pendingCommands := pendingCommands - {u};
        effects := FeedbackToAI(u, ChooseFeedback(message), now);
        return;
      }
      if IsConfirmWord(message) {
        pendingCommands := pendingCommands - {u};
        effects := [RunCommand(u, pending)];
      } else if IsCancelWord(message) {
        pendingCommands := pendingCommands - {u};
        effects := [Say(u, CommandCancelled)];
        generating := generating[u := false];
      } else {
        effects := [Say(u, ConfirmReprompt)];
      }
    }

    method HandleChat(u: UserId, message: string, now: int) returns (consumed: bool, effects: seq<Effect>)
      requires Valid()
      modifies this, SessionOf(u)
      ensures Valid()
      ensures consumed == Chat(old(Abs()), u, message, now).consumed
      ensures Abs() == Chat(old(Abs()), u, message, now).step.state
      ensures effects == Chat(old(Abs()), u, message, now).step.effects
    {
      if u in pendingAgreement {
        if EqualsIgnoreCase(message, "agree") {
          pendingAgreement := pendingAgreement - {u};
          agreed := agreed + {u};
          var entered := EnterCLI(u, now);
          effects := [PersistAgreement(u)] + entered;
        } else {
          effects := [Say(u, AgreeReprompt)];
        }
        return true, effects;
      }
      if u in active {
        if EqualsIgnoreCase(message, "exit") {
          effects := ExitCLI(u);
        } else if EqualsIgnoreCase(message, "stop") {
          effects := StopGenerating(u);
        } else if u in pendingCommands {
          effects := AnswerPendingAction(u, message, now);
        } else if u in generating && generating[u] {
          effects := [Say(u, BusyRejected)];
        } else {
          effects := ProcessAIMessage(u, message, now);
        }
        return true, effects;
      }
      return false, [];
    }

    /** The switch of executeTool, with handleRunTool, handleGetTool, handleChooseTool and the start of handleSearchTool. */
    method ActOn(u: UserId, action: ToolAction, now: int, presets: Presets) returns (effects: seq<Effect>)
      requires Valid()
      modifies this, SessionOf(u)
      ensures Valid()
      ensures Abs() == Act(old(Abs()), u, action, now, presets).state
      ensures effects == Act(old(Abs()), u, action, now, presets).effects
    {
      match action
      case Over =>
        generating := generating[u := false];
        effects := [];
      case Exit =>
        effects := ExitCLI(u);
      case RunMissingArgs =>
        var f := FeedbackToAI(u, RunArgsFeedback, now);
        effects := [Say(u, RunArgsMissing)] + f;
      case Run(command) =>
        pendingCommands := pendingCommands[u := command];
        effects := [Say(u, ConfirmPrompt(command))];
      case Get(file) =>
        effects := FeedbackToAI(u, GetFeedback(PresetLookup(presets, file)), now);
      case Choose(options) =>
        effects := [Say(u, Choices(options))];
        pendingCommands := pendingCommands[u := Choosing];
      case Search(query) =>
        effects := [Say(u, SearchShown(query)), StartSearch(u, query)];
      case Unknown(name) =>
        var f := FeedbackToAI(u, UnknownToolFeedback(name), now);
        effects := [Say(u, UnknownTool(name))] + f;
    }

    /** executeTool: split the call, show its name unless it is #search or #run, and dispatch it. */
    method ExecuteTool(u: UserId, call: string, now: int, presets: Presets) returns (effects: seq<Effect>)
      requires Valid()
      modifies this, SessionOf(u)
      ensures Valid()
      ensures Abs() == Tool(old(Abs()), u, call, now, presets).state
      ensures effects == Tool(old(Abs()), u, call, now, presets).effects
    {
      var t := SplitTool(call);
      var shown := ShownCall(u, t);
      var acted := ActOn(u, Dispatch(t), now, presets);
      effects := shown + acted;
    }

    /** The end of handleAIResponse, with checkTokenWarning; the token budget comes from the configuration. */
    method ShowAndAct(u: UserId, r: Reply, now: int, threshold: int, presets: Presets) returns (effects: seq<Effect>)
      requires Valid() && u in sessions
      modifies this, SessionOf(u)
      ensures Valid()
      ensures Abs() == Respond(old(Abs()), u, r, now, threshold, presets).state
      ensures effects == Respond(old(Abs()), u, r, now, threshold, presets).effects
    {
      var shown := if r.content != "" then [Say(u, AgentContent(r.content))] else [];
      if r.toolCall != "" {
        var e := ExecuteTool(u, r.toolCall, now, presets);
        effects := shown + e;
      } else {
        var session := sessions[u];
        generating := generating[u := false];
        var tokens := session.GetEstimatedTokens();
        var warning := TokenWarning(tokens, threshold);
        effects := shown + if warning.Some? then [Say(u, TokenLow(warning.value))] else [];
      }
    }

    /** handleAIResponse: stale replies are dropped; the raw reply is recorded before it is parsed. */
    method OnChatReply(u: UserId, response: string, now: int, threshold: int, presets: Presets)
      returns (effects: seq<Effect>)
      requires Valid()
      modifies this, SessionOf(u)
      ensures Valid()
      ensures Abs() == AIReply(old(Abs()), u, response, now, threshold, presets).state
      ensures effects == AIReply(old(Abs()), u, response, now, threshold, presets).effects
    {
      if u !in sessions {
        effects := [];
        return;
      }
      if !(u in generating && generating[u]) {
        effects := [];
        return;
      }
      effects := RecordAndRespond(u, response, now, threshold, presets);
    }

    /** The part of handleAIResponse past the stale-reply check: record the raw reply, parse it, act on it. */
    method RecordAndRespond(u: UserId, response: string, now: int, threshold: int, presets: Presets)
      returns (effects: seq<Effect>)
      requires Valid() && u in sessions
      modifies this, SessionOf(u)
      ensures Valid()
      ensures Abs() == Respond(AddTurn(old(Abs()), u, "assistant", response, now), u, Extract(CleanReply(response)), now, threshold, presets).state
      ensures effects == Respond(AddTurn(old(Abs()), u, "assistant", response, now), u, Extract(CleanReply(response)), now, threshold, presets).effects
    {
      AddTurnTo(u, "assistant", response, now);
      // The cleaning and the scan are SplitReply's; they change no state.
      var r := Extract(CleanReply(response));
      effects := ShowAndAct(u, r, now, threshold, presets);
    }

    /**
     * The failure handlers of processAIMessage and feedbackToAI. `session` is
     * the object the failed call was made on; it belongs to no other player.
     */
    method OnChatFailed(u: UserId, session: DialogueSession, fromFeedback: bool, message: string)
      returns (effects: seq<Effect>)
      requires Valid()
      requires forall v :: v in sessions && v != u ==> sessions[v] != session
      modifies this, session
      ensures Valid()
      ensures Abs() == AIFailed(old(Abs()), u, old(u in sessions && sessions[u] == session), fromFeedback, message).state
      ensures effects == AIFailed(old(Abs()), u, old(u in sessions && sessions[u] == session), fromFeedback, message).effects
    {
      effects := [Say(u, AIError(message))];
      generating := generating[u := false];
      if !fromFeedback {
        session.RemoveLastMessage();
        if u in sessions && sessions[u] == session {
          assert Histories() == old(Histories())[u := Session(session.history, session.lastActivityTime)];
        } else {
          assert Histories() == old(Histories());
        }
      }
    }

    /** The delayed part of executeCommand, once the captured output and the success flag are known. */
    method OnCommandFinished(u: UserId, command: string, captured: string, success: bool,
                             online: seq<string>, now: int) returns (effects: seq<Effect>)
      requires Valid()
      modifies this, SessionOf(u)
      ensures Valid()
      ensures Abs() == CommandFinished(old(Abs()), u, command, captured, success, online, now).state
      ensures effects == CommandFinished(old(Abs()), u, command, captured, success, online, now).effects
    {
      var f := FeedbackToAI(u, RunFeedback(command, captured, success, online), now);
      effects := [Say(u, CommandSent), Say(u, FeedbackSent)] + f;
    }

    /** The background part of handleSearchTool, with the two searches as oracles. */
    method OnSearchFinished(u: UserId, query: string, wiki: string -> string, web: string -> string, now: int)
      returns (effects: seq<Effect>)
      requires Valid()
      modifies this, SessionOf(u)
      ensures Valid()
      ensures Abs() == SearchFinished(old(Abs()), u, query, wiki, web, now).state
      ensures effects == SearchFinished(old(Abs()), u, query, wiki, web, now).effects
    {
      var outcome := RunSearch(query, wiki, web);
      var notice := if outcome.fellBack then [Say(u, WikiFallback)] else [];
      var f := FeedbackToAI(u, SearchFeedback(outcome.result), now);
      effects := notice + f;
    }

    /** The active players whose session has been idle for longer than `timeoutMs`. */
    ghost function IdleSet(now: int, timeoutMs: int): set<UserId>
      reads this, sessions.Values
    {
      set u | u in active && u in sessions && IdleTooLong(now, sessions[u].lastActivityTime, timeoutMs)
    }

    ghost function CurrentFields(): Fields
      reads this
    {
      Fields(active, pendingAgreement, agreed, sessions, generating, pendingCommands)
    }

    /** One player of the timeout task's loop: if idle for too long, told and exited when online, dropped otherwise. */
    method ExpireOne(u: UserId, now: int, timeoutMs: int, online: set<UserId>) returns (effects: seq<Effect>)
      modifies this
      ensures var gone := if old(u in sessions && IdleTooLong(now, sessions[u].lastActivityTime, timeoutMs)) then {u} else {};
        && CurrentFields() == Swept(old(CurrentFields()), gone, online)
        && effects == if u in gone * online then [Say(u, TimedOut), Say(u, Exited)] else []
    {
      effects := [];
      if u in sessions && IdleTooLong(now, sessions[u].lastActivityTime, timeoutMs) {
        if u in online {
          var exited := ExitCLI(u);
          effects := [Say(u, TimedOut)] + exited;
        } else {
          active := active - {u};
          sessions := sessions - {u};
        }
      }
    }

    /**
     * One iteration of the timeout task's loop, with the loop's bookkeeping:
     * `left` are the expired players processed so far and `order` the online
     * ones among them, in the order they were exited.
     */
    method ExpireNext(u: UserId, now: int, timeoutMs: int, online: set<UserId>, ghost f0: Fields,
                      ghost expired: set<UserId>, ghost remaining: set<UserId>,
                      ghost left: set<UserId>, ghost order: seq<UserId>)
      returns (e: seq<Effect>, ghost left': set<UserId>, ghost order': seq<UserId>)
      requires u in remaining && left == expired - remaining
      requires CurrentFields() == Swept(f0, left, online)
      requires Enumerates(order, left * online)
      requires (u in sessions && IdleTooLong(now, sessions[u].lastActivityTime, timeoutMs)) <==> u in expired
      modifies this
      ensures left' == expired - (remaining - {u})
      ensures CurrentFields() == Swept(f0, left', online)
      ensures Enumerates(order', left' * online)
      ensures SweepEffects(order') == SweepEffects(order) + e
    {
      ghost var idle := u in expired;
      ghost var gone: set<UserId> := if idle then {u} else {};
      e := ExpireOne(u, now, timeoutMs, online);
      SweptTwice(f0, left, gone, online);
      GoneOnline(u, idle, online, left);
      ghost var extra := gone * online;
      EnumeratesStep(order, left * online, extra, u);
      if u in extra {
        SweepEffectsAppend(order, u);
        order' := order + [u];
      } else {
        order' := order;
      }
      ProcessedStep(expired, remaining, u, gone);
      left' := left + gone;
    }

    /**
     * The loop of the timeout task over a copy of the active set. `order` is
     * the order in which online players were exited.
     */
    method ExpireIdle(now: int, timeoutMs: int, online: set<UserId>)
      returns (effects: seq<Effect>, ghost order: seq<UserId>)
      modifies this
      ensures CurrentFields() == Swept(old(CurrentFields()), old(IdleSet(now, timeoutMs)), online)
      ensures Enumerates(order, old(IdleSet(now, timeoutMs)) * online)
      ensures effects == SweepEffects(order)
    {
      ghost var times := map v | v in sessions :: sessions[v].lastActivityTime;
      ghost var expired := set v | v in active && v in times && IdleTooLong(now, times[v], timeoutMs);
      assert expired == IdleSet(now, timeoutMs);
      ghost var f0 := CurrentFields();
      ghost var left: set<UserId> := {};
      var remaining := active;
      effects := [];
      order := [];
      SweptNone(f0, online);
      while remaining != {}
        invariant remaining <= f0.active
        invariant left == expired - remaining
        invariant CurrentFields() == Swept(f0, left, online)
        invariant Enumerates(order, left * online)
        invariant effects == SweepEffects(order)
        decreases |remaining|
      {
        var u :| u in remaining;
        assert u in sessions <==> u in f0.sessions;
        assert u in sessions ==> sessions[u].lastActivityTime == times[u];
        var e;
        e, left, order := ExpireNext(u, now, timeoutMs, online, f0, expired, remaining, left, order);
        effects := effects + e;
        remaining := remaining - {u};
      }
      assert left == expired;
    }

    /** The timeout task's run for a timeout already in milliseconds. */
    method SweepIdle(now: int, timeoutMs: int, online: set<UserId>)
      returns (effects: seq<Effect>, ghost order: seq<UserId>)
      requires Valid()
      modifies this
      ensures Valid()
      ensures Abs() == Sweep(old(Abs()), now, timeoutMs, online)
      ensures effects == SweepEffects(order)
      ensures Enumerates(order, Expired(old(Abs()), now, timeoutMs) * online)
    {
      ghost var st0 := Abs();
      ghost var expired := IdleSet(now, timeoutMs);
      assert expired == Expired(st0, now, timeoutMs);
      effects, order := ExpireIdle(now, timeoutMs, online);
      assert Histories() == st0.sessions - expired;
      assert Abs() == State(st0.active - expired, st0.pendingAgreement - expired * online, st0.agreed,
                            st0.sessions - expired, st0.generating - expired * online, st0.pendingCommands);
      CliProperties.SweepKeepsInv(st0, now, timeoutMs, online);
    }

    /** The timeout task's run: the timeout in milliseconds is computed as the plugin does, in 32-bit int. */
    method TimeoutSweep(now: int, minutes: Int32, online: set<UserId>)
      returns (effects: seq<Effect>, ghost order: seq<UserId>)
      requires Valid()
      modifies this
      ensures Valid()
      ensures Abs() == Sweep(old(Abs()), now, TimeoutMs(minutes), online)
      ensures effects == SweepEffects(order)
      ensures Enumerates(order, Expired(old(Abs()), now, TimeoutMs(minutes)) * online)
    {
      var timeoutMs := TimeoutMs(minutes);
      effects, order := SweepIdle(now, timeoutMs, online);
    }

    /** shutdown: sessions and the active set are cleared; the AI client's own shutdown is not modelled. */
    method Shutdown()
      requires Valid()
      modifies this
      ensures Valid()
      ensures Abs() == CliState.Shutdown(old(Abs()))
    {
      sessions := map[];
      active := {};
      assert Histories() == map[];
    }
  }
}
