/**
 * CLICommand: the /cli command. Routing is a function from the sender and
 * the arguments to the one action the command takes; the action is what
 * the plugin then does (toggle CLI mode, reload, confirm, cancel) or the one
 * message it sends.
 */
module Command {
  import opened Text

  /** A command sender: the console, or a player holding some permissions. */
  datatype Sender = Console | Player(permissions: set<string>)

  const CliPermission := "mineagent.cli"
  const ReloadPermission := "mineagent.reload"

  const PlayersOnly := "该命令仅限玩家使用。"
  const NoCliPermission := "你没有权限使用此命令。"
  const NoReloadPermission := "你没有权限执行重载。"
  const UnknownSubcommand := "未知子命令。用法: /cli [reload|status]"
  const ReloadUsage := "用法: /cli reload [workspace|config]"
  const ReloadedBoth := "配置与工作区已重新加载。"
  const ReloadedWorkspace := "工作区索引已重新加载。"
  const ReloadedConfig := "配置文件已重新加载。"

  /**
   * What a /cli invocation does. `Reload` reloads the configuration and/or
   * re-indexes the workspace, then sends its notice.
   */
  datatype CommandAction =
    | Tell(text: string)
    | Toggle
    | Reload(config: bool, workspace: bool, notice: string)
    | ShowStatus
    | Confirm
    | Cancel
    | Nothing

  /** onCommand's result paired with its action; the command always reports itself handled. */
  datatype Routed = Routed(action: CommandAction, handled: bool)

  function HandleReload(args: seq<string>): CommandAction
    requires |args| >= 1
  {
    if |args| == 1 then Reload(true, true, ReloadedBoth)
    else if |args| == 2 then
      var target := Lower(args[1]);
      if target == "workspace" then Reload(false, true, ReloadedWorkspace)
      else if target == "config" then Reload(true, false, ReloadedConfig)
      else Tell(ReloadUsage)
    else Nothing
  }

  function Route(sender: Sender, args: seq<string>): CommandAction {
    match sender
    case Console => Tell(PlayersOnly)
    case Player(perms) =>
      if args == [] then (if CliPermission in perms then Toggle else Tell(NoCliPermission))
      else
        var sub := Lower(args[0]);
        if sub == "reload" then (if ReloadPermission in perms then HandleReload(args) else Tell(NoReloadPermission))
        else if sub == "status" then ShowStatus
        else if sub == "confirm" then Confirm
        else if sub == "cancel" then Cancel
        else Tell(UnknownSubcommand)
  }

  /** onCommand: every path returns true. */
  function OnCommand(sender: Sender, args: seq<string>): (r: Routed)
    ensures r.handled
    ensures r.action == Route(sender, args)
  {
    Routed(Route(sender, args), true)
  }

  /** The console only ever gets the players-only message, whatever it types. */
  lemma ConsoleRefused(args: seq<string>)
    ensures Route(Console, args) == Tell(PlayersOnly)
  {
  }

  /** CLI mode is toggled exactly for a bare /cli from a player holding mineagent.cli. */
  lemma ToggleIff(sender: Sender, args: seq<string>)
    ensures Route(sender, args) == Toggle <==> sender.Player? && args == [] && CliPermission in sender.permissions
    ensures sender.Player? && args == [] && CliPermission !in sender.permissions ==> Route(sender, args) == Tell(NoCliPermission)
  {
    if sender.Player? && args != [] {
      var sub := Lower(args[0]);
      if sub == "reload" && ReloadPermission in sender.permissions {
        assert Route(sender, args) == HandleReload(args);
      }
    }
  }

  /** The subcommand is matched lower-cased: a player typing it in any case gets the same action. */
  lemma SubcommandCaseInsensitive(sender: Sender, args: seq<string>)
    requires |args| >= 1
    ensures Route(sender, args) == Route(sender, [Lower(args[0])] + args[1..])
  {
    var args' := [Lower(args[0])] + args[1..];
    LowerIdempotent(args[0]);
    assert args'[0] == Lower(args[0]);
    assert |args'| == |args|;
    if |args| == 2 {
      assert args'[1] == args[1];
    }
  }

  /** confirm and cancel reach the CLI manager for every player, with no permission check. */
  lemma ConfirmCancelUnguarded(perms: set<string>, args: seq<string>)
    requires |args| >= 1
    ensures Route(Player(perms), args) == Confirm <==> Lower(args[0]) == "confirm"
    ensures Route(Player(perms), args) == Cancel <==> Lower(args[0]) == "cancel"
  {
  }

  /**
   * Reloading needs mineagent.reload; one argument reloads both, a second
   * argument picks one part or shows usage, and more arguments do nothing.
   */
  lemma ReloadRouting(perms: set<string>, args: seq<string>)
    requires |args| >= 1 && Lower(args[0]) == "reload"
    ensures ReloadPermission !in perms ==> Route(Player(perms), args) == Tell(NoReloadPermission)
    ensures ReloadPermission in perms && |args| == 1 ==> Route(Player(perms), args) == Reload(true, true, ReloadedBoth)
    ensures ReloadPermission in perms && |args| == 2 ==>
              Route(Player(perms), args) ==
                (if Lower(args[1]) == "workspace" then Reload(false, true, ReloadedWorkspace)
                 else if Lower(args[1]) == "config" then Reload(true, false, ReloadedConfig)
                 else Tell(ReloadUsage))
    ensures ReloadPermission in perms && |args| >= 3 ==> Route(Player(perms), args) == Nothing
  {
  }

  /** A reload happens only for a player holding mineagent.reload whose first argument is reload. */
  lemma ReloadNeedsPermission(sender: Sender, args: seq<string>)
    ensures Route(sender, args).Reload? ==>
              sender.Player? && ReloadPermission in sender.permissions && |args| in {1, 2} && Lower(args[0]) == "reload"
  {
  }

  /** Any other subcommand gets the usage message. */
  lemma UnknownGetsUsage(perms: set<string>, args: seq<string>)
    requires |args| >= 1
    ensures Route(Player(perms), args) == Tell(UnknownSubcommand) <==>
              Lower(args[0]) !in {"reload", "status", "confirm", "cancel"}
  {
  }

  // ---------------------------------------------------------------------
  // Tab completion
  // ---------------------------------------------------------------------

  /** The options that start with `prefix`, in their order. */
  function Matching(options: seq<string>, prefix: string): (r: seq<string>)
    ensures |r| <= |options|
    decreases |options|
  {
    if options == [] then []
    else
      var rest := Matching(options[1..], prefix);
      if StartsWith(options[0], prefix) then [options[0]] + rest else rest
  }

  /** The filter keeps exactly the options with the prefix. */
  lemma {:induction false} MatchingMembers(options: seq<string>, prefix: string)
    ensures forall x :: x in Matching(options, prefix) <==> x in options && StartsWith(x, prefix)
    decreases |options|
  {
    if options != [] {
      MatchingMembers(options[1..], prefix);
      assert forall x :: x in options <==> x == options[0] || x in options[1..];
    }
  }

  function TabComplete(args: seq<string>): seq<string> {
    if |args| == 1 then Matching(["reload", "status"], Lower(args[0]))
    else if |args| == 2 && EqualsIgnoreCase(args[0], "reload") then Matching(["workspace", "config"], Lower(args[1]))
    else []
  }

  /** One argument completes the subcommands; two after reload complete its targets; nothing else completes. */
  lemma TabCompleteMembers(args: seq<string>, x: string)
    ensures |args| == 1 ==> (x in TabComplete(args) <==> x in ["reload", "status"] && StartsWith(x, Lower(args[0])))
    ensures |args| == 2 && Lower(args[0]) == "reload" ==>
              (x in TabComplete(args) <==> x in ["workspace", "config"] && StartsWith(x, Lower(args[1])))
    ensures |args| == 0 || |args| > 2 || (|args| == 2 && Lower(args[0]) != "reload") ==> TabComplete(args) == []
  {
    MatchingMembers(["reload", "status"], if |args| >= 1 then Lower(args[0]) else "");
    MatchingMembers(["workspace", "config"], if |args| >= 2 then Lower(args[1]) else "");
    if |args| == 2 {
      assert Lower("reload") == "reload";
    }
  }

  /** An empty argument offers both subcommands; "re" offers only reload. */
  lemma TabCompleteExamples()
    ensures TabComplete([""]) == ["reload", "status"]
    ensures TabComplete(["RE"]) == ["reload"]
  {
    assert Lower("") == "";
    assert Lower("RE") == "re";
    assert "status"[..2][0] == 's';
    assert StartsWith("reload", "re") && !StartsWith("status", "re");
  }
}
