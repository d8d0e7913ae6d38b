/**
 * CLIManager's per-player state machine, as transitions over a value. Each
 * event the plugin reacts to (a toggle, a chat line, a confirm or cancel, an
 * AI reply or failure arriving, a command or search finishing, the timeout
 * sweep) is a function from the state before to the state after, together
 * with the effects it produces in order. The CLIManager class is proved to
 * implement exactly these transitions.
 */
module CliState {
  import opened Wrappers
  import opened Text
  import opened Dialogue
  import opened Directive
  import opened Tools

  /** A player's UUID. */
  type UserId(==)

  /** The value pendingCommands holds while a #choose waits for its answer. */
  const Choosing := "CHOOSING"

  /** One player's conversation: DialogueSession's two fields. */
  datatype Session = Session(history: seq<Message>, lastActivity: int)

  datatype State = State(
    active: set<UserId>,
    pendingAgreement: set<UserId>,
    agreed: set<UserId>,
    sessions: map<UserId, Session>,
    generating: map<UserId, bool>,
    pendingCommands: map<UserId, string>)

  /** What the player is shown; the texts and their colours are not modelled. */
  datatype Notice =
    | AgreementTerms | Entered | Exited | AgreeReprompt
    | Interrupted | PendingDiscarded | NothingToStop
    | CommandCancelled | ConfirmReprompt | BusyRejected
    | Echo(message: string) | AgentContent(text: string) | TokenLow(remaining: int)
    | ToolShown(name: string) | RunArgsMissing | UnknownTool(name: string)
    | ConfirmPrompt(command: string) | Choices(options: string) | SearchShown(query: string)
    | WikiFallback | CommandSent | FeedbackSent | AIError(message: string) | TimedOut

  /** What an event asks of the world outside the state. */
  datatype Effect =
    | Say(user: UserId, notice: Notice)
    | CallAI(user: UserId, fromFeedback: bool)
    | RunCommand(user: UserId, command: string)
    | StartSearch(user: UserId, query: string)
    | PersistAgreement(user: UserId)

  datatype Step = Step(state: State, effects: seq<Effect>)

  /** isGenerating.getOrDefault(uuid, false). */
  function Generating(st: State, u: UserId): bool {
    if u in st.generating then st.generating[u] else false
  }

  /** What holds in every reachable state. */
  ghost predicate Inv(st: State) {
    && st.active == st.sessions.Keys
    && st.active <= st.agreed
    && st.pendingAgreement !! st.agreed
    && forall u :: u in st.sessions ==> |st.sessions[u].history| <= MaxHistory
  }

  // ---------------------------------------------------------------------
  // Entering and leaving
  // ---------------------------------------------------------------------

  /** enterCLI: a player who has not agreed is asked to; one who has gets a fresh session. */
  function EnterCli(st: State, u: UserId, now: int): Step {
    if u !in st.agreed then
      Step(st.(pendingAgreement := st.pendingAgreement + {u}), [Say(u, AgreementTerms)])
    else
      Step(st.(active := st.active + {u}, sessions := st.sessions[u := Session([], now)]), [Say(u, Entered)])
  }

  /** exitCLI: the player leaves every per-player collection except pendingCommands. */
  function ExitCli(st: State, u: UserId): Step {
    Step(st.(active := st.active - {u},
             pendingAgreement := st.pendingAgreement - {u},
             sessions := st.sessions - {u},
             generating := st.generating - {u}),
         [Say(u, Exited)])
  }

  /** toggleCLI: only membership of the active set decides. */
  function ToggleCli(st: State, u: UserId, now: int): Step {
    if u in st.active then ExitCli(st, u) else EnterCli(st, u, now)
  }

  /** shutdown: every session goes, and with them the active set. */
  function Shutdown(st: State): State {
    st.(sessions := map[], active := {})
  }

  // ---------------------------------------------------------------------
  // Staged commands
  // ---------------------------------------------------------------------

  /** handleConfirm: a staged command is removed and run; the #choose marker is left alone. */
  function Confirm(st: State, u: UserId): Step {
    if u in st.pendingCommands && st.pendingCommands[u] != Choosing then
      Step(st.(pendingCommands := st.pendingCommands - {u}), [RunCommand(u, st.pendingCommands[u])])
    else Step(st, [])
  }

  /** handleCancel: whatever is pending is dropped and generation stops. */
  function Cancel(st: State, u: UserId): Step {
    if u in st.pendingCommands then
      Step(st.(pendingCommands := st.pendingCommands - {u}, generating := st.generating[u := false]),
           [Say(u, CommandCancelled)])
    else Step(st, [])
  }

  // ---------------------------------------------------------------------
  // Turns of the conversation
  // ---------------------------------------------------------------------

  /** A turn added to u's session, which must exist. */
  function AddTurn(st: State, u: UserId, role: string, content: string, now: int): State
    requires u in st.sessions
  {
    st.(sessions := st.sessions[u := Session(Appended(st.sessions[u].history, Message(role, content)), now)])
  }

  /** feedbackToAI: a tool result goes into the history as a user turn and the model is asked again. */
  function Feedback(st: State, u: UserId, text: string, now: int): Step {
    if u !in st.sessions then Step(st, [])
    else
      var st1 := AddTurn(st, u, "user", text, now);
      Step(st1.(generating := st1.generating[u := true]), [CallAI(u, true)])
  }

  /** processAIMessage: the player's line goes into the history and the model is asked. */
  function Process(st: State, u: UserId, message: string, now: int): Step {
    if u !in st.sessions then Step(st, [])
    else
      var st1 := AddTurn(st, u, "user", message, now);
      Step(st1.(generating := st1.generating[u := true]), [Say(u, Echo(message)), CallAI(u, false)])
  }

  datatype ChatStep = ChatStep(consumed: bool, step: Step)

  /** The "stop" line: interrupts generation and drops the pending action, in that order. */
  function Stop(st: State, u: UserId): Step {
    var wasGenerating := Generating(st, u);
    var hadPending := u in st.pendingCommands;
    var st1 := if wasGenerating then st.(generating := st.generating[u := false]) else st;
    var st2 := if hadPending then st1.(pendingCommands := st1.pendingCommands - {u}, generating := st1.generating[u := false]) else st1;
    var effects := (if wasGenerating then [Say(u, Interrupted)] else [])
                   + (if hadPending then [Say(u, PendingDiscarded)] else [])
                   + (if !wasGenerating && !hadPending then [Say(u, NothingToStop)] else []);
    Step(st2, effects)
  }

  predicate IsConfirmWord(message: string) {
    EqualsIgnoreCase(message, "y") || EqualsIgnoreCase(message, "/mineagent confirm")
  }

  predicate IsCancelWord(message: string) {
    EqualsIgnoreCase(message, "n") || EqualsIgnoreCase(message, "/mineagent cancel")
  }

  /** A line typed while something is pending: the answer to a #choose, or Y/N for a staged command. */
  function AnswerPending(st: State, u: UserId, message: string, now: int): Step
    requires u in st.pendingCommands
  {
    var pending := st.pendingCommands[u];
    var st1 := st.(pendingCommands := st.pendingCommands - {u});
    if pending == Choosing then Feedback(st1, u, ChooseFeedback(message), now)
    else if IsConfirmWord(message) then Step(st1, [RunCommand(u, pending)])
    else if IsCancelWord(message) then Step(st1.(generating := st1.generating[u := false]), [Say(u, CommandCancelled)])
    else Step(st, [Say(u, ConfirmReprompt)])
  }

  /** handleChat: the agreement gate first, then exit, stop, the pending action, the busy check and the model. */
  function Chat(st: State, u: UserId, message: string, now: int): ChatStep {
    if u in st.pendingAgreement then
      if EqualsIgnoreCase(message, "agree") then
        var st1 := st.(pendingAgreement := st.pendingAgreement - {u}, agreed := st.agreed + {u});
        var entered := EnterCli(st1, u, now);
        ChatStep(true, Step(entered.state, [PersistAgreement(u)] + entered.effects))
      else ChatStep(true, Step(st, [Say(u, AgreeReprompt)]))
    else if u in st.active then
      if EqualsIgnoreCase(message, "exit") then ChatStep(true, ExitCli(st, u))
      else if EqualsIgnoreCase(message, "stop") then ChatStep(true, Stop(st, u))
      else if u in st.pendingCommands then ChatStep(true, AnswerPending(st, u, message, now))
      else if Generating(st, u) then ChatStep(true, Step(st, [Say(u, BusyRejected)]))
      else ChatStep(true, Process(st, u, message, now))
    else ChatStep(false, Step(st, []))
  }

  // ---------------------------------------------------------------------
  // The model's reply and the tools it calls
  // ---------------------------------------------------------------------

  /** The contents of the preset/ folder: for each file, its lines or the message of the read error. */
  type Presets = map<string, Result<seq<string>, string>>

  function PresetLookup(presets: Presets, file: string): Option<Result<seq<string>, string>> {
    if file in presets then Some(presets[file]) else None
  }

  /** The state change and effects of one dispatched tool action. */
  function Act(st: State, u: UserId, action: ToolAction, now: int, presets: Presets): Step {
    match action
    case Over => Step(st.(generating := st.generating[u := false]), [])
    case Exit => ExitCli(st, u)
    case RunMissingArgs =>
      var f := Feedback(st, u, RunArgsFeedback, now);
      Step(f.state, [Say(u, RunArgsMissing)] + f.effects)
    case Run(command) => Step(st.(pendingCommands := st.pendingCommands[u := command]), [Say(u, ConfirmPrompt(command))])
    case Get(file) => Feedback(st, u, GetFeedback(PresetLookup(presets, file)), now)
    case Choose(options) => Step(st.(pendingCommands := st.pendingCommands[u := Choosing]), [Say(u, Choices(options))])
    case Search(query) => Step(st, [Say(u, SearchShown(query)), StartSearch(u, query)])
    case Unknown(name) =>
      var f := Feedback(st, u, UnknownToolFeedback(name), now);
      Step(f.state, [Say(u, UnknownTool(name))] + f.effects)
  }

  /** executeTool: the tool call is split, shown unless it is #search or #run, and dispatched. */
  function Tool(st: State, u: UserId, call: string, now: int, presets: Presets): Step {
    var t := SplitTool(call);
    var step := Act(st, u, Dispatch(t), now, presets);
    Step(step.state, ShownCall(u, t) + step.effects)
  }

  /** The tool line executeTool shows before dispatching; #search and #run show their own. */
  function ShownCall(u: UserId, t: ToolCall): seq<Effect> {
    var lowered := Lower(t.name);
    if lowered != "#search" && lowered != "#run" then [Say(u, ToolShown(t.name))] else []
  }

  /**
   * The rest of handleAIResponse once the raw reply is recorded: the cleaned
   * text before the directive is shown and the directive runs; with no
   * directive generation ends and the token budget is checked.
   */
  function Respond(st: State, u: UserId, r: Reply, now: int, threshold: int, presets: Presets): Step
    requires u in st.sessions
  {
    var shown := if r.content != "" then [Say(u, AgentContent(r.content))] else [];
    if r.toolCall != "" then
      var t := Tool(st, u, r.toolCall, now, presets);
      Step(t.state, shown + t.effects)
    else
      var warning := TokenWarning(EstimatedTokens(st.sessions[u].history), threshold);
      Step(st.(generating := st.generating[u := false]),
           shown + (if warning.Some? then [Say(u, TokenLow(warning.value))] else []))
  }

  /**
   * handleAIResponse: a reply for a player without a session, or one that
   * arrives after generation was stopped, is dropped. Otherwise the raw reply
   * becomes an assistant turn before it is parsed.
   */
  function AIReply(st: State, u: UserId, response: string, now: int, threshold: int, presets: Presets): Step {
    if u !in st.sessions || !Generating(st, u) then Step(st, [])
    else Respond(AddTurn(st, u, "assistant", response, now), u, Extract(CleanReply(response)), now, threshold, presets)
  }

  /**
   * The failure path of an AI call. `current` says whether the session the
   * call was made on is still the player's session: the history entry is
   * removed from that session object, which may no longer be in the map.
   */
  function AIFailed(st: State, u: UserId, current: bool, fromFeedback: bool, message: string): Step {
    var st1 := st.(generating := st.generating[u := false]);
    var st2 := if !fromFeedback && current && u in st1.sessions
               then st1.(sessions := st1.sessions[u := st1.sessions[u].(history := DropLast(st1.sessions[u].history))])
               else st1;
    Step(st2, [Say(u, AIError(message))])
  }

  /** The delayed part of executeCommand: the result text goes back to the model. */
  function CommandFinished(st: State, u: UserId, command: string, captured: string, success: bool,
                           online: seq<string>, now: int): Step {
    var f := Feedback(st, u, RunFeedback(command, captured, success, online), now);
    Step(f.state, [Say(u, CommandSent), Say(u, FeedbackSent)] + f.effects)
  }

  /** The end of handleSearchTool's background task. */
  function SearchFinished(st: State, u: UserId, query: string, wiki: string -> string, web: string -> string,
                          now: int): Step {
    var outcome := RunSearch(query, wiki, web);
    var f := Feedback(st, u, SearchFeedback(outcome.result), now);
    Step(f.state, (if outcome.fellBack then [Say(u, WikiFallback)] else []) + f.effects)
  }

  // ---------------------------------------------------------------------
  // The timeout sweep
  // ---------------------------------------------------------------------

  /** The active players whose session has been idle for longer than the timeout. */
  ghost function Expired(st: State, now: int, timeoutMs: int): set<UserId> {
    set u | u in st.active && u in st.sessions && IdleTooLong(now, st.sessions[u].lastActivity, timeoutMs)
  }

  /**
   * The state after one sweep: expired players who are online leave as by
   * exitCLI; expired players who are offline lose only their active mark and
   * their session.
   */
  ghost function Sweep(st: State, now: int, timeoutMs: int, online: set<UserId>): State {
    var expired := Expired(st, now, timeoutMs);
    var leaving := expired * online;
    st.(active := st.active - expired,
        pendingAgreement := st.pendingAgreement - leaving,
        sessions := st.sessions - expired,
        generating := st.generating - leaving)
  }

  /** The notices of a sweep, for the online players in the order they were exited. */
  function SweepEffects(order: seq<UserId>): seq<Effect>
    decreases |order|
  {
    if order == [] then []
    else SweepEffects(order[..|order| - 1]) + [Say(order[|order| - 1], TimedOut), Say(order[|order| - 1], Exited)]
  }

  /** One more exited player adds their two notices at the end. */
  lemma SweepEffectsAppend(order: seq<UserId>, u: UserId)
    ensures SweepEffects(order + [u]) == SweepEffects(order) + [Say(u, TimedOut), Say(u, Exited)]
  {
    assert (order + [u])[..|order|] == order;
  }

  /** `order` lists the members of `s`, each exactly once: its last entry is in `s`, and the rest list the others. */
  ghost predicate Enumerates(order: seq<UserId>, s: set<UserId>)
    decreases |order|
  {
    if order == [] then s == {}
    else order[|order| - 1] in s && Enumerates(order[..|order| - 1], s - {order[|order| - 1]})
  }

  /** What an enumeration is: only members, every member, no repeats. */
  lemma {:induction false} EnumeratesMeaning(order: seq<UserId>, s: set<UserId>)
    requires Enumerates(order, s)
    ensures forall i :: 0 <= i < |order| ==> order[i] in s
    ensures forall v :: v in s ==> v in order
    ensures forall i, j :: 0 <= i < j < |order| ==> order[i] != order[j]
    ensures |order| == |s|
    decreases |order|
  {
    if order != [] {
      var n := |order|;
      var last := order[n - 1];
      var init := order[..n - 1];
      EnumeratesMeaning(init, s - {last});
      assert order == init + [last];
      forall v | v in s
        ensures v in order
      {
        if v != last {
          assert v in init;
        }
      }
    }
  }

  /** Listing a new member at the end keeps the enumeration exact. */
  lemma EnumeratesStep(order: seq<UserId>, s: set<UserId>, extra: set<UserId>, u: UserId)
    requires Enumerates(order, s)
    requires extra == {} || (extra == {u} && u !in s)
    ensures Enumerates(if extra == {} then order else order + [u], s + extra)
  {
    if extra != {} {
      assert (order + [u])[..|order|] == order;
      assert (s + extra) - {u} == s;
    } else {
      assert s + extra == s;
    }
  }

  // ---------------------------------------------------------------------
  // Runs of events
  // ---------------------------------------------------------------------

  /** The events the plugin reacts to. */
  datatype Event =
    | ToggleEvent(u: UserId, now: int)
    | EnterEvent(u: UserId, now: int)
    | ExitEvent(u: UserId)
    | ChatEvent(u: UserId, message: string, now: int)
    | ConfirmEvent(u: UserId)
    | CancelEvent(u: UserId)
    | ReplyEvent(u: UserId, response: string, now: int, threshold: int, presets: Presets)
    | FailedEvent(u: UserId, current: bool, fromFeedback: bool, message: string)
    | CommandEvent(u: UserId, command: string, captured: string, success: bool, names: seq<string>, now: int)
    | SearchEvent(u: UserId, query: string, wiki: string -> string, web: string -> string, now: int)
    | SweepEvent(now: int, minutes: Int32, online: set<UserId>)
    | ShutdownEvent

  ghost function Apply(st: State, e: Event): State {
    match e
    case ToggleEvent(u, now) => ToggleCli(st, u, now).state
    case EnterEvent(u, now) => EnterCli(st, u, now).state
    case ExitEvent(u) => ExitCli(st, u).state
    case ChatEvent(u, message, now) => Chat(st, u, message, now).step.state
    case ConfirmEvent(u) => Confirm(st, u).state
    case CancelEvent(u) => Cancel(st, u).state
    case ReplyEvent(u, response, now, threshold, presets) => AIReply(st, u, response, now, threshold, presets).state
    case FailedEvent(u, current, fromFeedback, message) => AIFailed(st, u, current, fromFeedback, message).state
    case CommandEvent(u, command, captured, success, names, now) => CommandFinished(st, u, command, captured, success, names, now).state
    case SearchEvent(u, query, wiki, web, now) => SearchFinished(st, u, query, wiki, web, now).state
    case SweepEvent(now, minutes, online) => Sweep(st, now, TimeoutMs(minutes), online)
    case ShutdownEvent => Shutdown(st)
  }

  /** The state after a run of events, in order. */
  ghost function RunEvents(st: State, events: seq<Event>): State
    decreases |events|
  {
    if events == [] then st else Apply(RunEvents(st, events[..|events| - 1]), events[|events| - 1])
  }

  /** The state the constructor leaves: only the agreement record loaded from disk. */
  function Initial(agreed: set<UserId>): State {
    State({}, {}, agreed, map[], map[], map[])
  }
}
