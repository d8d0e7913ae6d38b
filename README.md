# MineAgent core, modelled in Dafny

MineAgent is a Bukkit/Spigot plugin. It gives a player an "AI CLI mode" in chat.

After the player accepts a user agreement, `/cli` switches them into CLI mode. Each chat line goes to a CloudFlare Workers AI model, together with the dialogue so far. The model answers in text and may end its answer with a tool directive:

- `#over` ends the turn;
- `#exit` leaves CLI mode;
- `#run: <command>` proposes a server command, which the player must confirm with Y/N;
- `#get: <file>` reads a preset file;
- `#choose: a,b,c` offers choices;
- `#search: <query>` searches the Minecraft wiki or the web.

The result of each tool goes back to the model as a new user turn. The loop continues until the model stops calling tools. Idle players are moved out of CLI mode by a once-a-minute sweep.

The project models this core:

| module | file | what it models |
|---|---|---|
| `Wrappers` | wrappers.dfy | `Option` / `Result` |
| `Text` | text.dfy | the `java.lang.String` operations the plugin uses: `trim`, ASCII `toLowerCase`/`toUpperCase`, `startsWith`, `endsWith`, `indexOf`, `lastIndexOf`, `contains`, `replace`, `String.join` |
| `Dialogue` | dialogue.dfy | `DialogueSession`, a class with the bounded history (two oldest entries dropped past 20) and the token estimate |
| `Directive` | directive.dfy | the reply post-processing of `handleAIResponse`: stripping thoughts, trimming, extracting the tool directive after the last `#`; then `executeTool`'s name/argument split and dispatch |
| `Tools` | tools.dfy | the token warning, the timeout in milliseconds (32-bit `int` arithmetic), and the feedback texts of `#run`, `#get`, `#choose` and `#search`; also search routing and DuckDuckGo related-topics collection (`handleRelatedTopics`, a recursive loop with a shared counter) |
| `CliState` | cli_state.dfy | the CLI manager as a pure state machine: every handler is a function from the state to the new state plus the outward effects (messages, AI calls, command runs, searches, agreement persistence) |
| `CliProperties` | cli_properties.dfy | what the handlers promise, and the state invariant every event preserves |
| `Engine` | engine.dfy | `CLIManager`, a class with the source's maps and sets as fields and `DialogueSession` objects as values; every method is proved to implement its `CliState` function |
| `CloudFlare` | cloudflare.dfy | `CloudFlareAI`: the account id lookup and its cache, the request payload (message array, or the flattened prompt for `gpt-oss` models), and the extraction of the reply text from the JSON result |
| `Command` | command.dfy | `CLICommand`: `/cli` routing, permissions, reload sub-commands and tab completion |
| `Config` | config.dfy | `ConfigManager`: the getters with their defaults and the version migration that keeps old values |
| `Workspace` | workspace.dfy | `WorkspaceIndexer`: the base-command and preset indexes |
| `Resources` | resource.dfy | `ResourceUtil`: releasing resources out of the plugin jar, and Bukkit's `saveResource` rule |

Inputs the plugin gets from the outside world are parameters of the model:

- the clock (`now`);
- HTTP replies, as status plus parsed JSON;
- the wiki and web searches, as functions;
- the set of online players;
- the jar's entries;
- the configuration on disk.

Outward actions are returned as values: `Effect`s for the CLI, and the list of sent `Request`s for the AI client.

## Model

| member | source | states |
|---|---|---|
| Text.TrimIsSlice | src/main/java/org/YanPl/manager/CLIManager.java:299 | `trim()` returns a slice of its input, cutting only characters `<= ' '` from either end |
| Text.TrimBounds | src/main/java/org/YanPl/manager/CLIManager.java:299 | the trimmed string is no longer than the input, and is empty or starts and ends with a character above `' '` |
| Text.TrimIdempotent | src/main/java/org/YanPl/manager/CLIManager.java:299 | trimming twice is trimming once |
| Text.LowerIdempotent | src/main/java/org/YanPl/command/CLICommand.java:35 | lower-casing twice is lower-casing once, so sub-command matching is case-insensitive |
| Text.ContainsIff | src/main/java/org/YanPl/api/CloudFlareAI.java:113 | `contains(t)` holds iff `t` occurs at some position |
| Text.LastIndexOfUnique | src/main/java/org/YanPl/manager/CLIManager.java:310 | the last index of a character is the one position holding it with none after it |
| Text.RemoveAllAbsent | src/main/java/org/YanPl/manager/CLIManager.java:649 | `replace(t, "")` leaves a string without `t` unchanged |
| Dialogue.Appended | src/main/java/org/YanPl/model/DialogueSession.java:17-26 | the new message is always last, and a history of at most 20 entries stays at most 20 |
| Dialogue.AppendedShape | src/main/java/org/YanPl/model/DialogueSession.java:17-26 | adding to fewer than 20 entries appends; adding to 20 entries drops the two oldest; the result is always a suffix of history plus the message |
| Dialogue.AppendedSize | src/main/java/org/YanPl/model/DialogueSession.java:22-25 | the size after one addition is the old size + 1 below 20, and 19 at 20 |
| Dialogue.AddAllSize | src/main/java/org/YanPl/model/DialogueSession.java:17-26 | from a fresh session, n additions leave n entries up to 20, then alternate between 19 and 20; entries are always dropped in pairs |
| Dialogue.AddAllSuffix | src/main/java/org/YanPl/model/DialogueSession.java:17-26 | the history is always the most recent suffix of everything ever added |
| Dialogue.DropLast | src/main/java/org/YanPl/model/DialogueSession.java:52-56 | removes exactly the last entry, and does nothing on an empty history |
| Dialogue.SumLengthsAppend | src/main/java/org/YanPl/model/DialogueSession.java:32-38 | the character count grows by the new message's length |
| Dialogue.DialogueSession.constructor | src/main/java/org/YanPl/model/DialogueSession.java:13-15 | a new session has an empty history and the current time as last activity |
| Dialogue.DialogueSession.AddMessage | src/main/java/org/YanPl/model/DialogueSession.java:17-26 | the history becomes `Appended(old history, message)`, activity is refreshed, and the 20-entry bound is kept |
| Dialogue.DialogueSession.GetEstimatedTokens | src/main/java/org/YanPl/model/DialogueSession.java:32-38 | the loop's result is the total content length divided by 4 |
| Dialogue.DialogueSession.UpdateActivity | src/main/java/org/YanPl/model/DialogueSession.java:44-46 | only the last-activity time changes |
| Dialogue.DialogueSession.ClearHistory | src/main/java/org/YanPl/model/DialogueSession.java:48-50 | only the history changes, to empty |
| Dialogue.DialogueSession.RemoveLastMessage | src/main/java/org/YanPl/model/DialogueSession.java:52-56 | the history loses its last entry, when it has one |
| Directive.StripThoughtTags | src/main/java/org/YanPl/manager/CLIManager.java:295 | removing `<thought>…</thought>` blocks never lengthens the text, and a text without `<thought>` is unchanged |
| Directive.FirstLineTerminator | src/main/java/org/YanPl/manager/CLIManager.java:297-298 | finds the first Java line terminator (the characters `.` does not match) at or after a position, or reports that there is none |
| Directive.StripLeadingLine | src/main/java/org/YanPl/manager/CLIManager.java:297-298 | the result is the text unchanged, or the rest of the text after a `'\n'` that lies beyond the prefix, so only a leading line is ever removed |
| Directive.CleanReply | src/main/java/org/YanPl/manager/CLIManager.java:295-299 | the cleaned reply is trimmed |
| Directive.Extract | src/main/java/org/YanPl/manager/CLIManager.java:303-320 | a tool call found starts with `#`, holds no further `#` and names a known tool; when none is found, all of the cleaned text is shown |
| Directive.ExtractMeaning | src/main/java/org/YanPl/manager/CLIManager.java:303-320 | the tool call is the trimmed text from the last `#` and the content is the trimmed text before it; the tool call is empty iff that text names no known tool (both directions) |
| Directive.ExtractAtLastHash | src/main/java/org/YanPl/manager/CLIManager.java:310-319 | when the text from the last `#` names a known tool, that text and the trimmed text before it are the reply |
| Directive.ScanTools | src/main/java/org/YanPl/manager/CLIManager.java:313-319 | the loop over the known tools finds one iff the lower-cased part starts with one of them |
| Directive.SplitReply | src/main/java/org/YanPl/manager/CLIManager.java:303-320 | the imperative extraction computes exactly `Extract` |
| Directive.FirstSeparator | src/main/java/org/YanPl/manager/CLIManager.java:355-365 | reference definition: the first `:` or space at or after a position, or none |
| Directive.SplitPointIsFirstSeparator | src/main/java/org/YanPl/manager/CLIManager.java:355-365 | the source's min of `indexOf(":")` and `indexOf(" ")` is the first separator |
| Directive.SplitAtFirstSeparator | src/main/java/org/YanPl/manager/CLIManager.java:367-372 | the name is the trimmed text before the first separator and the arguments the trimmed text after it; with no separator the whole call is the name |
| Directive.SplitRunCommand | src/main/java/org/YanPl/manager/CLIManager.java:355-372 | `#run: c` splits into name `#run` and arguments `c`, for any already-trimmed `c` |
| Directive.StripSlash | src/main/java/org/YanPl/manager/CLIManager.java:419 | exactly one leading `/` is removed, and a command without one is unchanged |
| Directive.StripSlashOnce | src/main/java/org/YanPl/manager/CLIManager.java:419 | `//say hi` keeps one slash |
| Directive.DispatchCases | src/main/java/org/YanPl/manager/CLIManager.java:377-412 | a tool is unknown iff its lower-cased name is not a known tool; `#run` with no arguments is its own error case; a run keeps the arguments up to one leading slash |
| Directive.DispatchArgs | src/main/java/org/YanPl/manager/CLIManager.java:384-412 | run, unknown and search actions carry the stripped command, the original name and the query |
| Directive.KnownToolsArePlain | src/main/java/org/YanPl/manager/CLIManager.java:307 | no known tool name holds a separator or a trimmable character |
| Directive.NameKeepsPrefix | src/main/java/org/YanPl/manager/CLIManager.java:355-372 | the split name of a call that starts with a known tool still starts, lower-cased, with that tool |
| Directive.UnknownExtendsKnown | src/main/java/org/YanPl/manager/CLIManager.java:310-411 | an extracted call that is dispatched as unknown has a name that strictly extends a known tool (e.g. `#overx`) |
| Directive.RunCallIsDirective | src/main/java/org/YanPl/manager/CLIManager.java:307-316 | `#run: c` ending a reply is always recognised as a tool call |
| Tools.TokenWarningOnHistory | src/main/java/org/YanPl/manager/CLIManager.java:336-345 | the warning shows iff the history's characters reach `4 * (4001 - threshold)`, and it reports `4000 - chars / 4` |
| Tools.QuarterAtLeast | src/main/java/org/YanPl/model/DialogueSession.java:37 | integer division by 4 compares as multiplication does |
| Tools.Wrap32 | src/main/java/org/YanPl/manager/CLIManager.java:76 | the Java `int` result lies in the 32-bit range, is congruent to the exact value, and equals it when no overflow occurs |
| Tools.TimeoutMsExact | src/main/java/org/YanPl/manager/CLIManager.java:76 | for minutes that do not overflow `minutes * 60`, the timeout is `minutes * 60000` ms |
| Tools.TimeoutMsWraps | src/main/java/org/YanPl/manager/CLIManager.java:76 | 35791395 minutes overflows `int` and gives a negative timeout |
| Tools.FinalOutput | src/main/java/org/YanPl/manager/CLIManager.java:573-577 | the captured output is kept as a prefix; the online-player list is appended iff the command starts with `list` and at most 30 characters were captured |
| Tools.RunFeedback | src/main/java/org/YanPl/manager/CLIManager.java:599 | the feedback always carries the `#run_result: ` prefix |
| Tools.RunResultCases | src/main/java/org/YanPl/manager/CLIManager.java:579-594 | a non-empty capture is reported as captured; an empty one reports failure iff the command failed, and otherwise one of the three silent-success texts |
| Tools.GetFeedback | src/main/java/org/YanPl/manager/CLIManager.java:604-618 | a missing preset, its lines joined by newlines, or the read error, each behind `#get_result: ` |
| Tools.ChooseFeedback | src/main/java/org/YanPl/manager/CLIManager.java:219 | the answer follows the `#choose_result: ` prefix unchanged |
| Tools.SearchFeedback | src/main/java/org/YanPl/manager/CLIManager.java:662 | the result follows the `#search_result: ` prefix unchanged |
| Tools.SearchRouting | src/main/java/org/YanPl/manager/CLIManager.java:646-659 | a query containing `widely` in any case goes to the web only, and never asks the wiki; other queries ask the wiki, and fall back to the web iff the wiki reports no hits |
| Tools.KeywordCaseKept | src/main/java/org/YanPl/manager/CLIManager.java:648-649 | when `widely` appears only in another case, the case-sensitive `replace` removes nothing and the trimmed query is sent as is |
| Tools.First | src/main/java/org/YanPl/manager/CLIManager.java:704 | a prefix of length `min(n, size)` |
| Tools.FirstConcat | src/main/java/org/YanPl/manager/CLIManager.java:704-713 | taking n from a concatenation takes from the first part, then the rest of the budget from the second |
| Tools.LinesConcat | src/main/java/org/YanPl/manager/CLIManager.java:710 | the `- text` lines of a concatenation are the lines of each part |
| Tools.FlatGrows | src/main/java/org/YanPl/manager/CLIManager.java:704-713 | the texts met after i items are a prefix of those met after j >= i items |
| Tools.CollectTopics | src/main/java/org/YanPl/manager/CLIManager.java:703-714 | the recursive walk appends exactly the first `3 - count` texts in depth-first order, and advances the counter by their number |
| Tools.CollectItem | src/main/java/org/YanPl/manager/CLIManager.java:705-712 | one item adds its nested texts, its own text, or nothing, within the remaining budget |
| Tools.PublicSearchTopics | src/main/java/org/YanPl/manager/CLIManager.java:732-748 | with no abstract, the result is the no-hits text iff the related topics hold no text; otherwise the header and the first three texts |
| CliState.SweepEffectsAppend | src/main/java/org/YanPl/manager/CLIManager.java:83-84 | each timed-out online player gets the timeout notice and then the exit notice |
| CliState.EnumeratesMeaning | src/main/java/org/YanPl/manager/CLIManager.java:78 | a ghost iteration order lists every expired player exactly once |
| CliState.EnumeratesStep | src/main/java/org/YanPl/manager/CLIManager.java:78-90 | each loop step extends the enumeration by at most the one player just processed |
| CliProperties.AddTurnKeepsInv | src/main/java/org/YanPl/manager/CLIManager.java:253 | adding a turn keeps the invariant and the set of sessions |
| CliProperties.FeedbackKeepsInv | src/main/java/org/YanPl/manager/CLIManager.java:751-778 | feeding a tool result back keeps the invariant |
| CliProperties.ActKeepsInv | src/main/java/org/YanPl/manager/CLIManager.java:384-412 | every dispatched tool action keeps the invariant |
| CliProperties.ToolKeepsInv | src/main/java/org/YanPl/manager/CLIManager.java:347-413 | `executeTool` keeps the invariant |
| CliProperties.ReplyKeepsInv | src/main/java/org/YanPl/manager/CLIManager.java:277-334 | handling an AI reply keeps the invariant |
| CliProperties.ChatKeepsInv | src/main/java/org/YanPl/manager/CLIManager.java:172-246 | handling a chat line keeps the invariant |
| CliProperties.AgreeKeepsInv | src/main/java/org/YanPl/manager/CLIManager.java:176-186 | answering the agreement keeps the invariant |
| CliProperties.AnswerPendingKeepsInv | src/main/java/org/YanPl/manager/CLIManager.java:215-234 | answering a staged command or a choice keeps the invariant |
| CliProperties.ProcessKeepsInv | src/main/java/org/YanPl/manager/CLIManager.java:248-256 | sending a line to the model keeps the invariant |
| CliProperties.SweepKeepsInv | src/main/java/org/YanPl/manager/CLIManager.java:71-93 | the timeout sweep keeps the invariant |
| CliProperties.ApplyKeepsInv | src/main/java/org/YanPl/manager/CLIManager.java:98-246 | every event the manager can receive keeps the invariant |
| CliProperties.LifecycleKeepsInv | src/main/java/org/YanPl/manager/CLIManager.java:98-167 | toggle, enter, exit, confirm, cancel, failures and shutdown keep the invariant |
| CliProperties.RunKeepsInv | src/main/java/org/YanPl/manager/CLIManager.java:36-43 | from the loaded agreement record, every sequence of events keeps the invariant: active players have sessions and have agreed, and nobody is both agreed and pending |
| CliProperties.ToggleWithoutAgreement | src/main/java/org/YanPl/manager/CLIManager.java:119-129 | a player who has not agreed gets the agreement and becomes pending; nothing else changes |
| CliProperties.AgreementGate | src/main/java/org/YanPl/manager/CLIManager.java:176-186 | a pending player's line is always consumed; `agree` in any case records the agreement and enters with an empty session; anything else only re-prompts |
| CliProperties.ExitLeavesPendingCommand | src/main/java/org/YanPl/manager/CLIManager.java:139-147 | exit removes the player from active, pending-agreement, sessions and generating, leaves other players alone, and keeps a staged command |
| CliProperties.ToggleTwice | src/main/java/org/YanPl/manager/CLIManager.java:98-105 | for an agreed player outside CLI mode, toggling twice restores the state, except that the generating flag is cleared |
| CliProperties.ChatConsumedIff | src/main/java/org/YanPl/manager/CLIManager.java:172-246 | a line is consumed iff the player is pending agreement or in CLI mode; otherwise nothing changes |
| CliProperties.ExitAndStopFirst | src/main/java/org/YanPl/manager/CLIManager.java:191-212 | `exit` and then `stop` are matched before anything else |
| CliProperties.StopClears | src/main/java/org/YanPl/manager/CLIManager.java:195-212 | stop clears generation and the staged action; "nothing to stop" shows iff there was neither; an interruption is reported first |
| CliProperties.StagedCommandAnswers | src/main/java/org/YanPl/manager/CLIManager.java:223-233 | `y` runs the staged command once; `n` cancels it and ends generation; anything else re-prompts and changes nothing |
| CliProperties.ChoiceAnswer | src/main/java/org/YanPl/manager/CLIManager.java:215-221 | any line answering a choice is sent back as `#choose_result:` and starts a new AI call |
| CliProperties.ConfirmRunsOnce | src/main/java/org/YanPl/manager/CLIManager.java:149-158 | confirming runs the staged command, and a second confirm does nothing |
| CliProperties.ConfirmIgnoresChoice | src/main/java/org/YanPl/manager/CLIManager.java:153 | confirming does nothing while a choice is pending |
| CliProperties.BusyRefuses | src/main/java/org/YanPl/manager/CLIManager.java:236-239 | while the model is generating, a plain line is refused and nothing changes |
| CliProperties.PlainLineAsks | src/main/java/org/YanPl/manager/CLIManager.java:248-262 | an idle player's line is added to the history, echoed, and starts an AI call |
| CliProperties.StaleReplyDropped | src/main/java/org/YanPl/manager/CLIManager.java:279-286 | a reply for a player without a session, or one who is no longer generating, changes nothing |
| CliProperties.PlainReply | src/main/java/org/YanPl/manager/CLIManager.java:290-333 | a reply without a directive is recorded, ends generation, and warns iff `4000 − tokens` is below the threshold |
| CliProperties.RespondWithoutDirective | src/main/java/org/YanPl/manager/CLIManager.java:322-333 | without a tool call, only the generating flag changes, and the token warning shows exactly as the threshold says |
| CliProperties.ActHistory | src/main/java/org/YanPl/manager/CLIManager.java:384-412 | a tool action removes the session iff it is `#exit`; otherwise it leaves the history alone or appends one user feedback turn |
| CliProperties.ReplyRecordedFirst | src/main/java/org/YanPl/manager/CLIManager.java:290-291 | the assistant's reply enters the history before any tool feedback |
| CliProperties.FailureRollback | src/main/java/org/YanPl/manager/CLIManager.java:262-272 | a failed call ends generation (here and in `feedbackToAI`); a failed first call removes its user line from the session it was sent for; a failed feedback call keeps the history; other players are untouched |
| CliProperties.ActOutcomes | src/main/java/org/YanPl/manager/CLIManager.java:384-412 | the new state for each action: `#over` ends generation, `#run` stages the command, `#choose` stages a choice, errors feed back and keep generating, `#search` starts a search |
| CliProperties.ToolOutcomes | src/main/java/org/YanPl/manager/CLIManager.java:347-413 | the same outcomes stated on the raw tool-call text, through the name/argument split |
| CliProperties.SweepExact | src/main/java/org/YanPl/manager/CLIManager.java:75-90 | a player stays active iff idle for no more than the timeout; they keep a session iff they stay active; offline players keep their generating flag; staged commands are untouched |
| CliProperties.SweepTenMinutes | src/main/java/org/YanPl/manager/CLIManager.java:76-80 | with the default of 10 minutes, a player idle for exactly 600000 ms stays, and one idle for 600001 ms is removed |
| Engine.SweptTwice | src/main/java/org/YanPl/manager/CLIManager.java:78-90 | removing two groups one after the other is removing their union |
| Engine.CLIManager.constructor | src/main/java/org/YanPl/manager/CLIManager.java:36-43 | starts in the initial state, with the loaded agreement record |
| Engine.CLIManager.AddTurnTo | src/main/java/org/YanPl/manager/CLIManager.java:253 | implements `AddTurn` on the player's session object |
| Engine.CLIManager.EnterCLI | src/main/java/org/YanPl/manager/CLIManager.java:119-134 | implements `EnterCli` and keeps `Valid()` |
| Engine.CLIManager.ExitCLI | src/main/java/org/YanPl/manager/CLIManager.java:139-147 | removes the player from the four collections and keeps agreed players and staged commands |
| Engine.CLIManager.ToggleCLI | src/main/java/org/YanPl/manager/CLIManager.java:98-105 | implements `ToggleCli` |
| Engine.CLIManager.HandleConfirm | src/main/java/org/YanPl/manager/CLIManager.java:149-158 | implements `Confirm` |
| Engine.CLIManager.HandleCancel | src/main/java/org/YanPl/manager/CLIManager.java:160-167 | implements `Cancel` |
| Engine.CLIManager.ProcessAIMessage | src/main/java/org/YanPl/manager/CLIManager.java:248-275 | implements `Process` |
| Engine.CLIManager.FeedbackToAI | src/main/java/org/YanPl/manager/CLIManager.java:751-778 | implements `Feedback` |
| Engine.CLIManager.StopGenerating | src/main/java/org/YanPl/manager/CLIManager.java:195-212 | implements `Stop` |
| Engine.CLIManager.AnswerPendingAction | src/main/java/org/YanPl/manager/CLIManager.java:215-234 | implements `AnswerPending` |
| Engine.CLIManager.HandleChat | src/main/java/org/YanPl/manager/CLIManager.java:172-246 | implements `Chat`, including its consumed flag |
| Engine.CLIManager.ActOn | src/main/java/org/YanPl/manager/CLIManager.java:384-412 | implements `Act` |
| Engine.CLIManager.ExecuteTool | src/main/java/org/YanPl/manager/CLIManager.java:347-413 | implements `Tool` |
| Engine.CLIManager.ShowAndAct | src/main/java/org/YanPl/manager/CLIManager.java:322-333 | implements `Respond` |
| Engine.CLIManager.OnChatReply | src/main/java/org/YanPl/manager/CLIManager.java:277-334 | implements `AIReply`, using the imperative `SplitReply` |
| Engine.CLIManager.RecordAndRespond | src/main/java/org/YanPl/manager/CLIManager.java:290-333 | records the reply, then responds to its extraction |
| Engine.CLIManager.OnChatFailed | src/main/java/org/YanPl/manager/CLIManager.java:262-272 | implements `AIFailed`, for a first call or a `feedbackToAI` call, on the session object the call captured |
| Engine.CLIManager.OnCommandFinished | src/main/java/org/YanPl/manager/CLIManager.java:571-600 | implements `CommandFinished` |
| Engine.CLIManager.OnSearchFinished | src/main/java/org/YanPl/manager/CLIManager.java:643-665 | implements `SearchFinished` |
| Engine.CLIManager.ExpireOne | src/main/java/org/YanPl/manager/CLIManager.java:79-89 | one sweep step removes the player iff they have a session idle past the timeout, notifying them only when online |
| Engine.CLIManager.ExpireIdle | src/main/java/org/YanPl/manager/CLIManager.java:78-90 | the loop over a snapshot of the active players removes exactly the expired ones, in some order, and notifies each online one once |
| Engine.CLIManager.SweepIdle | src/main/java/org/YanPl/manager/CLIManager.java:74-91 | implements `Sweep` and keeps `Valid()` |
| Engine.CLIManager.TimeoutSweep | src/main/java/org/YanPl/manager/CLIManager.java:71-93 | the periodic task, with the configured minutes turned into a 32-bit timeout |
| Engine.CLIManager.Shutdown | src/main/java/org/YanPl/manager/CLIManager.java:110-114 | clears sessions and active players, and keeps everything else |
| CloudFlare.AsString | src/main/java/org/YanPl/api/CloudFlareAI.java:162-185 | Gson's `getAsString`: defined on every primitive, and it throws on null and on objects |
| CloudFlare.AccountLookup | src/main/java/org/YanPl/api/CloudFlareAI.java:40-69 | a cached id is returned without a request |
| CloudFlare.AccountCache | src/main/java/org/YanPl/api/CloudFlareAI.java:40-69 | a request is sent iff nothing is cached and a key is set; only a success is cached; a fresh id comes from a successful reply |
| CloudFlare.AccountErrors | src/main/java/org/YanPl/api/CloudFlareAI.java:55-67 | a failed status, a missing `result` and an empty `result` are each their own error |
| CloudFlare.CachedForever | src/main/java/org/YanPl/api/CloudFlareAI.java:40-64 | once found, the id is reused for every later call, whatever the key |
| CloudFlare.MessagesInOrder | src/main/java/org/YanPl/api/CloudFlareAI.java:94-108 | the message array is the system prompt followed by every history entry, in order |
| CloudFlare.BuildMessages | src/main/java/org/YanPl/api/CloudFlareAI.java:94-108 | the loop builds exactly that array |
| CloudFlare.Capitalised | src/main/java/org/YanPl/api/CloudFlareAI.java:119 | only the first character of the role changes |
| CloudFlare.RoleNames | src/main/java/org/YanPl/api/CloudFlareAI.java:119 | `user` becomes `User` and `assistant` becomes `Assistant` |
| CloudFlare.TranscriptConcat | src/main/java/org/YanPl/api/CloudFlareAI.java:118-121 | the transcript of two histories is the concatenation of their transcripts |
| CloudFlare.OneTurnPrompt | src/main/java/org/YanPl/api/CloudFlareAI.java:116-123 | a one-message prompt is the system line, a blank line, the message line and `Assistant: ` |
| CloudFlare.BuildPrompt | src/main/java/org/YanPl/api/CloudFlareAI.java:116-122 | the loop builds exactly the flattened prompt |
| CloudFlare.ScanOutput | src/main/java/org/YanPl/api/CloudFlareAI.java:176-190 | the nested loops with early returns compute the reference scan of the output array |
| CloudFlare.OutputScanConcat | src/main/java/org/YanPl/api/CloudFlareAI.java:178-189 | the first output item with an `output_text` part wins; later items are consulted only when earlier ones yield nothing |
| CloudFlare.OtherTypesSkipped | src/main/java/org/YanPl/api/CloudFlareAI.java:180 | output items whose type is not `message` are skipped |
| CloudFlare.PrimitiveFirst | src/main/java/org/YanPl/api/CloudFlareAI.java:163-165 | a primitive `result` is returned as its string |
| CloudFlare.ResponseBeforeOutput | src/main/java/org/YanPl/api/CloudFlareAI.java:171-173 | `result.response` takes priority over `result.output` |
| CloudFlare.ReplyErrors | src/main/java/org/YanPl/api/CloudFlareAI.java:153-193 | a failed status is an error carrying code and body; a successful outcome comes from a successful reply whose `result` yields the text |
| CloudFlare.NoKeyNoRequest | src/main/java/org/YanPl/api/CloudFlareAI.java:78-80 | with no key, the call returns the fixed error text as its reply, sends nothing and leaves the cache alone |
| CloudFlare.ChatRequests | src/main/java/org/YanPl/api/CloudFlareAI.java:74-195 | the requests sent: an account lookup when nothing is cached, then the chat request to the account's URL with the payload; a lookup failure is the result and no chat request is sent |
| CloudFlare.CloudFlareAI.constructor | src/main/java/org/YanPl/api/CloudFlareAI.java:22-31 | starts with no cached id and nothing sent |
| CloudFlare.CloudFlareAI.FetchAccountId | src/main/java/org/YanPl/api/CloudFlareAI.java:40-69 | implements `AccountLookup` on the cache field, logging the request it sends |
| CloudFlare.CloudFlareAI.Chat | src/main/java/org/YanPl/api/CloudFlareAI.java:74-195 | implements `ChatOutcome` on the cache and the sent requests |
| Command.OnCommand | src/main/java/org/YanPl/command/CLICommand.java:27-69 | every `/cli` invocation is handled, and its action is the routing function's |
| Command.ConsoleRefused | src/main/java/org/YanPl/command/CLICommand.java:28-31 | the console is told the command is for players, whatever the arguments |
| Command.ToggleIff | src/main/java/org/YanPl/command/CLICommand.java:35-43 | bare `/cli` toggles iff the sender is a player with `mineagent.cli`; without it they are refused |
| Command.SubcommandCaseInsensitive | src/main/java/org/YanPl/command/CLICommand.java:45 | the sub-command is matched case-insensitively |
| Command.ConfirmCancelUnguarded | src/main/java/org/YanPl/command/CLICommand.java:45-66 | `confirm` and `cancel` need no permission, and are routed iff the sub-command names them |
| Command.ReloadRouting | src/main/java/org/YanPl/command/CLICommand.java:81-98 | reload needs `mineagent.reload`; no argument reloads both, `workspace`/`config` reload one, another word gets the usage; three or more arguments do nothing |
| Command.ReloadNeedsPermission | src/main/java/org/YanPl/command/CLICommand.java:81-98 | any reload comes from a player with the reload permission |
| Command.UnknownGetsUsage | src/main/java/org/YanPl/command/CLICommand.java:45-66 | a player gets the unknown-sub-command text iff the word is none of reload/status/confirm/cancel |
| Command.MatchingMembers | src/main/java/org/YanPl/command/CLICommand.java:113-124 | the completions are exactly the options starting with the typed prefix |
| Command.TabCompleteMembers | src/main/java/org/YanPl/command/CLICommand.java:113-124 | first argument: reload/status; second argument after reload: workspace/config; otherwise nothing |
| Command.TabCompleteExamples | src/main/java/org/YanPl/command/CLICommand.java:113-124 | empty input offers both words in order; `RE` offers `reload` |
| Config.Digits | src/main/java/org/YanPl/manager/ConfigManager.java:32 | a natural number's decimal text is non-empty and all digits |
| Config.DigitsRoundTrip | src/main/java/org/YanPl/manager/ConfigManager.java:32 | reading back a natural number's decimal text gives the number |
| Config.DecimalRoundTrip | src/main/java/org/YanPl/manager/ConfigManager.java:32 | reading back any integer's decimal text, sign included, gives the integer |
| Config.GetterDefaults | src/main/java/org/YanPl/manager/ConfigManager.java:106-129 | each getter gives its default (`""`, the gpt-oss model, 10, 500) when the key is missing or, for numbers, not a number; a stored key string or stored number of minutes is returned as stored |
| Config.NumericVersion | src/main/java/org/YanPl/manager/ConfigManager.java:32 | a numeric `version` is read as its decimal text |
| Config.MergeRule | src/main/java/org/YanPl/manager/ConfigManager.java:43-69 | the migrated configuration has exactly the new keys, keeps every old value except `version`, and takes the new `version` |
| Config.MigrationSettlesVersion | src/main/java/org/YanPl/manager/ConfigManager.java:29-78 | after migration the version matches the plugin's, so a second check does nothing; no file appears and none disappears |
| Config.ConfigManager.constructor | src/main/java/org/YanPl/manager/ConfigManager.java:20-24 | migrates, then loads (writing the defaults when no file exists) |
| Config.ConfigManager.LoadConfig | src/main/java/org/YanPl/manager/ConfigManager.java:97-101 | writes the defaults when no file exists, then reads what is on disk |
| Config.ConfigManager.CheckAndUpdateConfig | src/main/java/org/YanPl/manager/ConfigManager.java:29-78 | the file becomes the migrated file, and the loaded configuration is not touched |
| Config.ConfigManager.CollectOld | src/main/java/org/YanPl/manager/ConfigManager.java:43-48 | the loop collects every old value except `version` |
| Config.ConfigManager.Overlay | src/main/java/org/YanPl/manager/ConfigManager.java:62-69 | every new key takes its old value when one was collected |
| Workspace.BaseCommandsExact | src/main/java/org/YanPl/manager/WorkspaceIndexer.java:41-58 | a name is indexed iff it is known and has no namespace `:`; distinct names stay distinct |
| Workspace.PresetNamesExact | src/main/java/org/YanPl/manager/WorkspaceIndexer.java:65-81 | a name is indexed iff some regular `.txt` file in the preset folder has it |
| Workspace.WorkspaceIndexer.constructor | src/main/java/org/YanPl/manager/WorkspaceIndexer.java:21-27 | both indexes start empty |
| Workspace.WorkspaceIndexer.IndexCommands | src/main/java/org/YanPl/manager/WorkspaceIndexer.java:40-62 | the command index becomes the base commands, or empty without a command map; the preset index is kept |
| Workspace.WorkspaceIndexer.IndexPresets | src/main/java/org/YanPl/manager/WorkspaceIndexer.java:64-83 | the preset index becomes the preset names, or empty without a listing; the command index is kept |
| Workspace.WorkspaceIndexer.IndexAll | src/main/java/org/YanPl/manager/WorkspaceIndexer.java:31-34 | both indexes are rebuilt |
| Resources.NormaliseDir | src/main/java/org/YanPl/util/ResourceUtil.java:27-29 | the directory ends with exactly the slash it needs |
| Resources.NormaliseIdempotent | src/main/java/org/YanPl/util/ResourceUtil.java:27-29 | normalising twice is normalising once |
| Resources.NoReplaceKeepsFiles | src/main/java/org/YanPl/util/ResourceUtil.java:26-52 | without replace, no existing file changes |
| Resources.OnlySelectedWritten | src/main/java/org/YanPl/util/ResourceUtil.java:42-51 | every file afterwards is either untouched or a copy of a selected jar entry |
| Resources.SelectedPresent | src/main/java/org/YanPl/util/ResourceUtil.java:42-51 | every selected jar entry is present afterwards, and is the jar's copy when replace is set or it did not exist |
| Resources.DataFolder.SaveResource | src/main/java/org/YanPl/util/ResourceUtil.java:61-70 | the folder changes as `saveResource` would: a file is written iff it is in the jar and either replace is set or it does not exist |
| Resources.DataFolder.ReleaseResources | src/main/java/org/YanPl/util/ResourceUtil.java:26-52 | the loop over the jar's entries copies exactly the selected ones; an unreadable jar changes nothing |

## Left out

- Network I/O is not modelled: HTTP calls to CloudFlare, the Minecraft wiki and DuckDuckGo. Their replies are inputs: a status, a body and the parsed JSON for CloudFlare, and a function from query to result text for the searches.
- The Gson and YAML parsers are not modelled. The model works on the parsed value. A reply whose JSON does not have the shape the client reads (a Gson cast or `getAsString` that would throw) is the single error `CloudFlare.Malformed`.
- Scheduling is not modelled: the asynchronous tasks, the main-thread hand-offs and the one-second delay before `#run` feedback. Each completion is a separate event (`OnChatReply`, `OnChatFailed`, `OnCommandFinished`, `OnSearchFinished`), so interleavings are modelled as event orders.
- The output-capturing proxy of `executeCommand` is not modelled. The captured text and the success flag are inputs, and so are the `execute as` and `performCommand` fallbacks.
- Rendering is not modelled: colours, clickable Y/N and choice buttons, `displayAgentContent` code and bold splitting, and the banners. These become opaque notices. The `#choose` option splitting only affects buttons, so it is left out too.
- File I/O is not modelled: `agreed_players.txt` (its loaded content is an input, and saving is an effect), `deleteDirectory` of the preset folder during migration, reading preset files (a map from name to lines or an error), and the physical reading of the jar.
- The wiki result formatting (`fetchWikiResult`, its HTML stripping) is not modelled: it is part of the search function input. So are the text of a search exception, and the abstract branch of the public search, beyond its priority over related topics.
- Config: keys are flat dotted paths in a single map. YAML sections are not modelled, so setting a section key would not overwrite its nested keys here. `getInt` on doubles or longs is not modelled, and neither is the log output.
- Java `toLowerCase`/`toUpperCase` is modelled on ASCII letters only, not locale-dependent Unicode case mapping. String lengths count code points, not UTF-16 units.
- `Dialogue.DialogueSession.GetEstimatedTokens`: does not model the `int` overflow of the character sum, which would need more than 2^31 characters of history.
- `Directive.StripThoughtTags` models the lazy `(?s)<thought>.*?</thought>` removal. `StripLeadingLine` models only the anchored first-line `Thought:` and `思考过程:` removal, as `^` without MULTILINE does.
- `handleStatus` and `getActivePlayersCount` throw `UnsupportedOperationException`. `Command.Route` returns the `ShowStatus` action for `/cli status` but does not model the exception.
- `ai.shutdown()` is not modelled: closing the HTTP client's pool has no observable state here.
- The host glue is not part of this model: `MineAgent.java`, `ChatListener.java` and `PromptManager.java`. The system prompt is an input.
- The JSON member order of the payload is not modelled, because objects are maps.
- The order in which the timeout sweep visits players is unspecified, since it is a snapshot of a `HashSet`. `ExpireIdle` returns it as a ghost sequence, proved to list each expired player once, so the effects are stated up to that order.
- `CloudFlare.BuildPrompt`, `CloudFlare.CloudFlareAI.Chat`: require non-empty roles for `gpt-oss` models. Java's `substring(0, 1)` would throw on an empty role, and the plugin only ever writes `user` and `assistant`.
- `Workspace.WorkspaceIndexer.IndexPresets`: the preset listing is an input, not derived from `Resources.DataFolder`. `IndexCommands` takes the command map's key order as an input.
- Bukkit's `saveResource` is modelled by the rule it follows (`Resources.DataFolder.SaveResource`), not by its internals.
