/**
 * The reply-parsing half of CLIManager: cleaning the model's reply of its
 * "thought" markup, finding the single trailing tool directive, splitting it
 * into a tool name and its arguments, and deciding what the tool call asks for.
 */
module Directive {
  import opened Wrappers
  import opened Text

  // ---------------------------------------------------------------------
  // Cleaning (handleAIResponse, the three replaceAll calls and the trim)
  // ---------------------------------------------------------------------

  const OpenThought := "<thought>"
  const CloseThought := "</thought>"

  /**
   * replaceAll("(?s)<thought>.*?</thought>", ""): each "<thought>" is removed
   * together with everything up to the nearest "</thought>" after it; scanning
   * resumes after that closing tag. An opening tag with no closing tag after it
   * stays, and so does everything after it.
   */
  function StripThoughtTags(s: string): (r: string)
    ensures |r| <= |s|
    ensures !Contains(s, OpenThought) ==> r == s
    decreases |s|
  {
    match FindFrom(s, OpenThought, 0)
    case None => s
    case Some(i) =>
      match FindFrom(s, CloseThought, i + |OpenThought|)
      case None => s
      case Some(j) => s[..i] + StripThoughtTags(s[j + |CloseThought|..])
  }

  /** The characters Java's `.` does not match (no DOTALL, no UNIX_LINES). */
  predicate IsLineTerminator(c: char) {
    c == '\n' || c == '\r' || c == '\U{0085}' || c == '\U{2028}' || c == '\U{2029}'
  }

  function FirstLineTerminator(s: string, from: nat): (r: Option<nat>)
    requires from <= |s|
    ensures r.Some? ==> (from <= r.value < |s| && IsLineTerminator(s[r.value])
                         && forall k :: from <= k < r.value ==> !IsLineTerminator(s[k]))
    ensures r.None? ==> forall k :: from <= k < |s| ==> !IsLineTerminator(s[k])
    decreases |s| - from
  {
    if from == |s| then None
    else if IsLineTerminator(s[from]) then Some(from)
    else FirstLineTerminator(s, from + 1)
  }

  /**
   * replaceAll("(?i)^<prefix>.*?\n", "") with `^` anchored at the start of the
   * whole text: when the text starts with the prefix (ASCII letters compared
   * case-insensitively; `prefix` is given in lower case) and the first line
   * terminator after it is '\n', everything up to and including that '\n' goes.
   */
  function StripLeadingLine(s: string, prefix: string): (r: string)
    ensures r == s || (exists k :: |prefix| <= k < |s| && s[k] == '\n' && r == s[k + 1..])
  {
    if |prefix| <= |s| && Lower(s[..|prefix|]) == prefix then
      match FirstLineTerminator(s, |prefix|)
      case Some(k) => if s[k] == '\n' then s[k + 1..] else s
      case None => s
    else s
  }

  /** The cleaned reply that directive extraction works on. */
  function CleanReply(response: string): (r: string)
    ensures r == Trim(r)
  {
    var noTags := StripThoughtTags(response);
    var noThought := StripLeadingLine(noTags, "thought:");
    var noChinese := StripLeadingLine(noThought, "思考过程:");
    TrimIdempotent(noChinese);
    Trim(noChinese)
  }

  // ---------------------------------------------------------------------
  // Directive extraction (handleAIResponse, lines 303-320)
  // ---------------------------------------------------------------------

  /** The known tools, in the order the source tries them. */
  const KnownTools: seq<string> := ["#over", "#exit", "#run", "#get", "#choose", "#search"]

  /** A candidate is a directive when, lower-cased, it starts with one of the known tools. */
  predicate NamesKnownTool(part: string) {
    exists t :: t in KnownTools && StartsWith(Lower(part), t)
  }

  /** What the player is shown, and the tool call ("" when there is none). */
  datatype Reply = Reply(content: string, toolCall: string)

  /** "k is the position of the last '#' of s". */
  predicate IsLastHash(s: string, k: int) {
    0 <= k < |s| && s[k] == '#' && '#' !in s[k + 1..]
  }

  /**
   * Only the text from the last '#' is examined. When it names a known tool it
   * is the tool call and the trimmed text before the '#' is shown; otherwise
   * there is no tool call and the whole cleaned text is shown.
   */
  function Extract(clean: string): (r: Reply)
    ensures r.toolCall != "" ==> NamesKnownTool(r.toolCall) && r.toolCall[0] == '#' && '#' !in r.toolCall[1..]
    ensures r.toolCall == "" ==> r.content == clean
  {
    match LastIndexOf(clean, '#')
    case None => Reply(clean, "")
    case Some(k) =>
      var part := Trim(clean[k..]);
      TrimNoopStart(clean[k..]);
      if NamesKnownTool(part) then Reply(Trim(clean[..k]), part) else Reply(clean, "")
  }

  /**
   * There is a tool call exactly when the text from the last '#' names a known
   * tool; it is that text, trimmed, and what is shown is the trimmed text before
   * that '#'.
   */
  lemma ExtractMeaning(clean: string)
    ensures var r := Extract(clean);
      r.toolCall != "" ==> exists k :: (IsLastHash(clean, k)
                                        && r.toolCall == Trim(clean[k..])
                                        && r.content == Trim(clean[..k]))
    ensures Extract(clean).toolCall == "" <==> forall k :: IsLastHash(clean, k) ==> !NamesKnownTool(Trim(clean[k..]))
  {
    match LastIndexOf(clean, '#')
    case None =>
    case Some(k) =>
      assert IsLastHash(clean, k);
      forall j | IsLastHash(clean, j)
        ensures j == k
      {
        LastIndexOfUnique(clean, '#', j);
      }
  }

  /** A text starting with a non-trimmable character keeps it: trim only cuts at the end. */
  lemma TrimNoopStart(s: string)
    requires s != [] && !IsTrimmable(s[0])
    ensures Trim(s) != [] && Trim(s)[0] == s[0] && Trim(s) == s[..|Trim(s)|]
  {
  }

  /** handleAIResponse's scan of the known tools, with its early `break`. */
  method ScanTools(part: string) returns (found: bool)
    ensures found <==> NamesKnownTool(part)
  {
    var lowered := Lower(part);
    found := false;
    var i := 0;
    while i < |KnownTools|
      invariant 0 <= i <= |KnownTools|
      invariant forall j :: 0 <= j < i ==> !StartsWith(lowered, KnownTools[j])
    {
      if StartsWith(lowered, KnownTools[i]) {
        found := true;
        break;
      }
      i := i + 1;
    }
  }

  /** handleAIResponse's directive extraction: only the text from the last '#' is scanned. */
  method SplitReply(clean: string) returns (r: Reply)
    ensures r == Extract(clean)
  {
    var content := clean;
    var toolCall := "";
    var lastHash := LastIndexOf(clean, '#');
    if lastHash.Some? {
      var part := Trim(clean[lastHash.value..]);
      var found := ScanTools(part);
      if found {
        toolCall := part;
        content := Trim(clean[..lastHash.value]);
      }
    }
    r := Reply(content, toolCall);
  }

  // ---------------------------------------------------------------------
  // Tool call split (executeTool, lines 355-372)
  // ---------------------------------------------------------------------

  datatype ToolCall = ToolCall(name: string, args: string)

  predicate IsSeparator(c: char) {
    c == ':' || c == ' '
  }

  /** Reference definition: the first position holding a ':' or a ' '. */
  function FirstSeparator(s: string, from: nat): (r: Option<nat>)
    requires from <= |s|
    ensures r.Some? ==> (from <= r.value < |s| && IsSeparator(s[r.value])
                         && forall k :: from <= k < r.value ==> !IsSeparator(s[k]))
    ensures r.None? ==> forall k :: from <= k < |s| ==> !IsSeparator(s[k])
    decreases |s| - from
  {
    if from == |s| then None
    else if IsSeparator(s[from]) then Some(from)
    else FirstSeparator(s, from + 1)
  }

  /** executeTool's split point: the smaller of indexOf(":") and indexOf(" "), when either exists. */
  function SplitPoint(call: string): Option<nat>
  {
    var colon := IndexOf(call, ':');
    var space := IndexOf(call, ' ');
    if colon.Some? && space.Some? then Some(if colon.value < space.value then colon.value else space.value)
    else if colon.Some? then colon
    else space
  }

  /** executeTool's split: name and arguments trimmed; no separator makes the whole call the name. */
  function SplitTool(call: string): ToolCall
  {
    match SplitPoint(call)
    case Some(k) => if k < |call| then ToolCall(Trim(call[..k]), Trim(call[k + 1..])) else ToolCall(Trim(call), "")
    case None => ToolCall(Trim(call), "")
  }

  /** The split happens at the first separator, whichever kind it is, and nowhere when there is none. */
  lemma SplitPointIsFirstSeparator(call: string)
    ensures SplitPoint(call) == FirstSeparator(call, 0)
  {
    var f := FirstSeparator(call, 0);
    if f.Some? {
      assert call[f.value] in call;
    }
  }

  /**
   * The name is the trimmed text before the first separator and the arguments
   * the trimmed text after it; with no separator the trimmed call is the name.
   */
  lemma SplitAtFirstSeparator(call: string)
    ensures match FirstSeparator(call, 0)
            case Some(k) => SplitTool(call) == ToolCall(Trim(call[..k]), Trim(call[k + 1..]))
            case None => SplitTool(call) == ToolCall(Trim(call), "")
  {
    SplitPointIsFirstSeparator(call);
  }

  /** A text that neither starts nor ends with a trimmable character (the output of trim). */
  predicate Trimmed(c: string) {
    c == [] || (!IsTrimmable(c[0]) && !IsTrimmable(c[|c| - 1]))
  }

  lemma FirstSeparatorOfRun(c: string)
    ensures FirstSeparator("#run: " + c, 0) == Some(4)
  {
    var call := "#run: " + c;
    assert call[..6] == "#run: ";
    assert FirstSeparator(call, 4) == Some(4);
    assert FirstSeparator(call, 3) == Some(4);
    assert FirstSeparator(call, 2) == Some(4);
    assert FirstSeparator(call, 1) == Some(4);
  }

  lemma TrimAfterSpace(c: string)
    requires Trimmed(c)
    ensures Trim(" " + c) == c
  {
    assert (" " + c)[1..] == c;
    TrimNoop(c);
  }

  /** The directive shape "#run: " followed by a trimmed command splits into "#run" and the command. */
  lemma SplitRunCommand(c: string)
    requires Trimmed(c)
    ensures SplitTool("#run: " + c) == ToolCall("#run", c)
  {
    var call := "#run: " + c;
    FirstSeparatorOfRun(c);
    SplitPointIsFirstSeparator(call);
    assert call[..4] == "#run";
    assert Trim("#run") == "#run";
    assert call[5..] == " " + c;
    TrimAfterSpace(c);
  }

  // ---------------------------------------------------------------------
  // Dispatch (executeTool's switch, lines 384-412; handleRunTool line 419)
  // ---------------------------------------------------------------------

  /** What a tool call asks the engine to do. */
  datatype ToolAction =
    | Over
    | Exit
    | RunMissingArgs
    | Run(command: string)
    | Get(file: string)
    | Choose(options: string)
    | Search(query: string)
    | Unknown(name: string)

  /** handleRunTool drops one leading '/', and only one. */
  function StripSlash(command: string): (r: string)
    ensures StartsWith(command, "/") ==> "/" + r == command
    ensures !StartsWith(command, "/") ==> r == command
  {
    if StartsWith(command, "/") then command[1..] else command
  }

  /** The switch on the lower-cased tool name. */
  function Dispatch(t: ToolCall): ToolAction
  {
    var lowered := Lower(t.name);
    if lowered == "#over" then Over
    else if lowered == "#exit" then Exit
    else if lowered == "#run" then (if t.args == "" then RunMissingArgs else Run(StripSlash(t.args)))
    else if lowered == "#get" then Get(t.args)
    else if lowered == "#choose" then Choose(t.args)
    else if lowered == "#search" then Search(t.args)
    else Unknown(t.name)
  }

  /** The feedback turn for `#run` without a command. */
  const RunArgsFeedback := "#error: #run 工具需要提供命令参数，例如 #run: say hello"

  /** The feedback turn for a tool name outside the switch. */
  function UnknownToolFeedback(name: string): string {
    "#error: 未知工具 " + name + "。请仅使用系统提示中定义的工具。"
  }

  /** Only names that are matched as their lower-cased known spelling reach a known case. */
  lemma DispatchCases(t: ToolCall)
    ensures Dispatch(t).Unknown? <==> Lower(t.name) !in KnownTools
    ensures Dispatch(t).Unknown? ==> Dispatch(t).name == t.name
    ensures Dispatch(t) == RunMissingArgs <==> Lower(t.name) == "#run" && t.args == ""
    ensures Dispatch(t).Run? ==> Lower(t.name) == "#run" && t.args != ""
                                 && (t.args == Dispatch(t).command || t.args == "/" + Dispatch(t).command)
  {
  }

  /** The staged command, the unknown name and the search query all come from the split call. */
  lemma DispatchArgs(t: ToolCall)
    ensures Dispatch(t).Run? ==> Dispatch(t).command == StripSlash(t.args)
    ensures Dispatch(t).Unknown? ==> Dispatch(t).name == t.name
    ensures Dispatch(t).Search? ==> Dispatch(t).query == t.args
  {
  }

  /** Exactly one leading slash is removed from a staged command. */
  lemma StripSlashOnce()
    ensures StripSlash("/say hi") == "say hi"
    ensures StripSlash("//say hi") == "/say hi"
    ensures StripSlash("say hi") == "say hi"
  {
    assert StartsWith("/say hi", "/");
    assert StartsWith("//say hi", "/");
    assert !StartsWith("say hi", "/") by { assert "say hi"[0] != '/'; }
  }

  /** Every known tool name is non-empty and free of separators and trimmable characters. */
  predicate PlainName(t: string) {
    |t| > 0 && forall j :: 0 <= j < |t| ==> !IsSeparator(t[j]) && !IsTrimmable(t[j])
  }

  lemma KnownToolsArePlain()
    ensures forall t :: t in KnownTools ==> PlainName(t)
  {
  }

  /** A character that lower-cases to a plain character is plain itself. */
  lemma LowerCharPlain(c: char, d: char)
    requires LowerChar(c) == d && !IsSeparator(d) && !IsTrimmable(d)
    ensures !IsSeparator(c) && !IsTrimmable(c)
  {
  }

  /** Trimming the end of a text whose character at `n - 1` is not trimmable keeps the first n characters. */
  lemma TrimEndKeeps(s: string, n: nat)
    requires 0 < n <= |s| && !IsTrimmable(s[n - 1]) && !IsTrimmable(s[0])
    ensures n <= |Trim(s)| && Trim(s)[..n] == s[..n]
  {
    TrimNoopStart(s);
  }

  /** A call that starts, ignoring ASCII case, with a plain name starts with plain characters. */
  lemma CallPrefixPlain(call: string, t: string)
    requires PlainName(t) && StartsWith(Lower(call), t)
    ensures forall j :: 0 <= j < |t| ==> !IsSeparator(call[j]) && !IsTrimmable(call[j])
  {
    forall j | 0 <= j < |t|
      ensures !IsSeparator(call[j]) && !IsTrimmable(call[j])
    {
      assert Lower(call)[..|t|][j] == t[j];
      LowerCharPlain(call[j], t[j]);
    }
  }

  /** The text before the first separator, or the whole call when there is none. */
  function RawName(call: string): (r: string)
    ensures StartsWith(call, r)
  {
    match FirstSeparator(call, 0) case Some(k) => call[..k] case None => call
  }

  lemma NameIsTrimmedRawName(call: string)
    ensures SplitTool(call).name == Trim(RawName(call))
  {
    SplitPointIsFirstSeparator(call);
  }

  lemma RawNameKeepsPlainPrefix(call: string, n: nat)
    requires 0 < n <= |call|
    requires forall j :: 0 <= j < n ==> !IsSeparator(call[j]) && !IsTrimmable(call[j])
    ensures n <= |RawName(call)| && RawName(call)[..n] == call[..n]
  {
  }

  /** The tool name keeps a plain prefix of the call unchanged. */
  lemma NameKeepsPlainPrefix(call: string, n: nat)
    requires 0 < n <= |call|
    requires forall j :: 0 <= j < n ==> !IsSeparator(call[j]) && !IsTrimmable(call[j])
    ensures n <= |SplitTool(call).name| && SplitTool(call).name[..n] == call[..n]
  {
    NameIsTrimmedRawName(call);
    RawNameKeepsPlainPrefix(call, n);
    var raw := RawName(call);
    assert !IsTrimmable(raw[0]) && !IsTrimmable(raw[n - 1]);
    TrimEndKeeps(raw, n);
  }

  /** A call that starts, ignoring ASCII case, with a plain name has a tool name that starts with it too. */
  lemma {:induction false} NameKeepsPrefix(call: string, t: string)
    requires PlainName(t) && StartsWith(Lower(call), t)
    ensures var name := SplitTool(call).name; |t| <= |name| && Lower(name)[..|t|] == t
  {
    CallPrefixPlain(call, t);
    NameKeepsPlainPrefix(call, |t|);
    LowerPrefix(SplitTool(call).name, call, |t|);
  }

  lemma StrictPrefix(x: string, t: string)
    requires |t| <= |x| && x[..|t|] == t && x != t
    ensures |t| < |x|
  {
  }

  /** When the text from the last '#' names a known tool, that text is the call and the text before it is shown. */
  lemma ExtractAtLastHash(clean: string, k: nat)
    requires IsLastHash(clean, k) && NamesKnownTool(Trim(clean[k..]))
    ensures Extract(clean) == Reply(Trim(clean[..k]), Trim(clean[k..]))
  {
    LastIndexOfUnique(clean, '#', k);
  }

  /**
   * A directive that the switch does not know has a name strictly extending
   * a known one ("#runx", "#overdue"): extraction only lets through calls that
   * start with a known tool.
   */
  lemma {:induction false} UnknownExtendsKnown(call: string)
    requires NamesKnownTool(call)
    requires Dispatch(SplitTool(call)).Unknown?
    ensures var name := SplitTool(call).name;
      exists t :: t in KnownTools && |t| < |name| && Lower(name)[..|t|] == t
  {
    var name := SplitTool(call).name;
    var t :| t in KnownTools && StartsWith(Lower(call), t);
    assert PlainName(t) by { KnownToolsArePlain(); }
    NameKeepsPrefix(call, t);
    DispatchCases(SplitTool(call));
    assert Lower(name) != t;
    StrictPrefix(Lower(name), t);
  }

  /** "#run: " followed by a trimmed command passes the known-tool test and survives trimming unchanged. */
  lemma RunCallIsDirective(c: string)
    requires c != [] && Trimmed(c)
    ensures Trim("#run: " + c) == "#run: " + c && NamesKnownTool("#run: " + c)
  {
    var call := "#run: " + c;
    assert Trimmed(call) by {
      assert call[0] == '#' && call[|call| - 1] == c[|c| - 1];
    }
    TrimNoop(call);
    assert Lower(call)[..4] == "#run" by {
      assert call[..4] == "#run";
      assert forall j :: 0 <= j < 4 ==> Lower(call)[j] == call[j];
    }
    assert "#run" in KnownTools;
  }
}
