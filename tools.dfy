/**
 * The pure helpers behind CLIManager's tools and warnings: the token-warning
 * arithmetic, the timeout in milliseconds, the text fed back after a command
 * ran, the feedback turns of #get, #choose and #search, the #search routing on
 * "widely" and the collection of related topics from a public search answer.
 */
module Tools {
  import opened Wrappers
  import opened Text
  import Dialogue

  // ---------------------------------------------------------------------
  // Token warning (checkTokenWarning)
  // ---------------------------------------------------------------------

  const MaxTokens: int := 4000

  /** The remaining budget to warn about, when it is below the threshold (strictly). */
  function TokenWarning(estimated: int, threshold: int): (remaining: Option<int>)
  {
    var left := MaxTokens - estimated;
    if left < threshold then Some(left) else None
  }

  /**
   * On a history, the warning appears exactly when the content holds at least
   * 4 * (4001 - threshold) characters, and it reports 4000 minus a quarter of
   * them, rounded down.
   */
  lemma {:induction false} TokenWarningOnHistory(history: seq<Dialogue.Message>, threshold: int)
    ensures var w := TokenWarning(Dialogue.EstimatedTokens(history), threshold);
      (w.Some? <==> Dialogue.SumLengths(history) >= 4 * (MaxTokens + 1 - threshold))
      && (w.Some? ==> w.value == MaxTokens - Dialogue.SumLengths(history) / 4)
  {
    var chars := Dialogue.SumLengths(history);
    var m := MaxTokens + 1 - threshold;
    QuarterAtLeast(chars, m);
  }

  /** Integer division by four: a quarter of n is at least m exactly when n is at least 4m. */
  lemma QuarterAtLeast(n: nat, m: int)
    ensures n / 4 >= m <==> n >= 4 * m
  {
    var q := n / 4;
    assert n == 4 * q + n % 4;
    if q >= m {
      assert n >= 4 * q >= 4 * m;
    } else {
      assert q <= m - 1;
      assert n < 4 * q + 4 <= 4 * m;
    }
  }

  // ---------------------------------------------------------------------
  // Timeout (startTimeoutTask)
  // ---------------------------------------------------------------------

  /** Java's int. */
  newtype Int32 = x: int | -0x8000_0000 <= x < 0x8000_0000

  /** Two's-complement wrap-around of a mathematical integer into an int. */
  function Wrap32(x: int): (r: int)
    ensures -0x8000_0000 <= r < 0x8000_0000
    ensures (x - r) % 0x1_0000_0000 == 0
    ensures -0x8000_0000 <= x < 0x8000_0000 ==> r == x
  {
    (x + 0x8000_0000) % 0x1_0000_0000 - 0x8000_0000
  }

  /** getTimeoutMinutes() * 60 * 1000L: the first product is an int, only the second a long. */
  function TimeoutMs(minutes: Int32): int
  {
    Wrap32(minutes as int * 60) * 1000
  }

  /** For every configured value up to 35791394 minutes the timeout is the expected number of milliseconds. */
  lemma TimeoutMsExact(minutes: Int32)
    requires -35791394 <= minutes <= 35791394
    ensures TimeoutMs(minutes) == minutes as int * 60000
  {
  }

  /** One minute more and the int product wraps: the timeout turns negative, so every session counts as idle. */
  lemma TimeoutMsWraps()
    ensures TimeoutMs(35791395) < 0
  {
    assert Wrap32(35791395 * 60) == 2147483700 - 0x1_0000_0000;
  }

  /** The sweep's test, strict: idle for longer than the timeout. */
  predicate IdleTooLong(now: int, lastActivity: int, timeoutMs: int) {
    now - lastActivity > timeoutMs
  }

  // ---------------------------------------------------------------------
  // Command result text (executeCommand, the delayed part)
  // ---------------------------------------------------------------------

  const OnlineHeader := "当前在线玩家: "
  const SucceededHead := "命令执行成功 ("
  const TeleportSilent := SucceededHead + "传送指令通常没有文本反馈)"
  const PermissionSilent := SucceededHead + "权限变更指令通常仅显示在控制台或被静默处理)"
  const OtherSilent := SucceededHead + "但系统未能捕获到该命令的文本输出，可能是静默执行或直接发送到了玩家屏幕)"
  const FailedHead := "命令执行失败。"
  const RunFailed := FailedHead + "可能原因：\n1. 命令语法错误\n2. 权限不足\n3. 该指令不支持拦截输出\n请检查语法或换一种实现方式。"

  /** Each online player's name followed by ", ", in the order given. */
  function NameList(names: seq<string>): string
    decreases |names|
  {
    if names == [] then "" else NameList(names[..|names| - 1]) + names[|names| - 1] + ", "
  }

  /** `list` commands with at most 30 captured characters get the online players appended. */
  predicate ListNeedsNames(command: string, captured: string) {
    StartsWith(Lower(command), "list") && |captured| <= 30
  }

  /** The captured output once the list special case has been applied. */
  function FinalOutput(command: string, captured: string, online: seq<string>): (r: string)
    ensures StartsWith(r, captured)
    ensures ListNeedsNames(command, captured) ==> r == captured + "\n" + OnlineHeader + NameList(online)
    ensures !ListNeedsNames(command, captured) ==> r == captured
  {
    if ListNeedsNames(command, captured) then captured + "\n" + OnlineHeader + NameList(online) else captured
  }

  /** What the model is told after a command ran: the output if any, else a text chosen by success and command. */
  function RunResultText(command: string, captured: string, success: bool, online: seq<string>): string
  {
    var output := FinalOutput(command, captured, online);
    var lowered := Lower(command);
    if |output| > 0 then output
    else if success then
      (if StartsWith(lowered, "tp") then TeleportSilent
       else if StartsWith(lowered, "op") || StartsWith(lowered, "deop") then PermissionSilent
       else OtherSilent)
    else RunFailed
  }

  /** The feedback turn that closes a #run. */
  function RunFeedback(command: string, captured: string, success: bool, online: seq<string>): (r: string)
    ensures StartsWith(r, "#run_result: ")
  {
    "#run_result: " + RunResultText(command, captured, success, online)
  }

  /**
   * The result is never empty. Captured output is passed on whenever there is
   * some; a `list` command always reaches the model with the player list; and
   * with nothing captured the failure text appears exactly when the command
   * failed, the other fixed texts otherwise.
   */
  lemma RunResultCases(command: string, captured: string, success: bool, online: seq<string>)
    ensures var r := RunResultText(command, captured, success, online);
      && r != ""
      && (captured != "" ==> r == FinalOutput(command, captured, online) && StartsWith(r, captured))
      && (ListNeedsNames(command, captured) ==> r == captured + "\n" + OnlineHeader + NameList(online))
      && (captured == "" && !ListNeedsNames(command, captured) ==>
            (r == RunFailed <==> !success)
            && (success ==> r in {TeleportSilent, PermissionSilent, OtherSilent}))
  {
    assert TeleportSilent != RunFailed && PermissionSilent != RunFailed && OtherSilent != RunFailed by {
      assert TeleportSilent[4] != RunFailed[4] && PermissionSilent[4] != RunFailed[4] && OtherSilent[4] != RunFailed[4];
    }
  }

  // ---------------------------------------------------------------------
  // The other feedback turns
  // ---------------------------------------------------------------------

  /**
   * handleGetTool: the preset file's lines joined by "\n". `preset` is what
   * reading preset/<file> gives: None when there is no such file, the lines,
   * or the message of the IOException that reading raised.
   */
  function GetFeedback(preset: Option<Result<seq<string>, string>>): (r: string)
    ensures StartsWith(r, "#get_result: ")
    ensures preset.None? ==> r == "#get_result: 文件不存在"
    ensures preset.Some? && preset.value.Ok? ==> r == "#get_result: " + Join("\n", preset.value.value)
    ensures preset.Some? && preset.value.Err? ==> r == "#get_result: 读取文件失败 - " + preset.value.error
  {
    match preset
    case None => "#get_result: 文件不存在"
    case Some(Ok(lines)) => "#get_result: " + Join("\n", lines)
    case Some(Err(message)) => "#get_result: 读取文件失败 - " + message
  }

  /** The feedback turn carrying the player's answer to a #choose, verbatim. */
  function ChooseFeedback(answer: string): (r: string)
    ensures StartsWith(r, "#choose_result: ") && r[|"#choose_result: "|..] == answer
  {
    "#choose_result: " + answer
  }

  /** The feedback turn carrying a search result. */
  function SearchFeedback(result: string): (r: string)
    ensures StartsWith(r, "#search_result: ") && r[|"#search_result: "|..] == result
  {
    "#search_result: " + result
  }

  // ---------------------------------------------------------------------
  // Search routing (handleSearchTool)
  // ---------------------------------------------------------------------

  const Keyword := "widely"
  const WikiNoHits := "未找到相关 Wiki 条目。"

  /** Which search runs, and on which query. */
  datatype SearchPlan = PublicOnly(query: string) | WikiFirst(query: string)

  /**
   * A query whose lower-cased text contains "widely" goes straight to the
   * public search, with every case-sensitive "widely" removed in one pass and
   * the rest trimmed; any other query goes to the wiki first.
   */
  function RouteSearch(query: string): SearchPlan
  {
    if Contains(Lower(query), Keyword) then PublicOnly(Trim(RemoveAll(query, Keyword)))
    else WikiFirst(query)
  }

  /** A search's outcome: the result text, and whether the wiki came back empty and the public search was tried. */
  datatype SearchOutcome = SearchOutcome(result: string, fellBack: bool)

  /**
   * The search as a whole; `wiki` and `web` stand for fetchWikiResult and
   * fetchPublicSearchResult, whose network requests are not modelled.
   */
  function RunSearch(query: string, wiki: string -> string, web: string -> string): SearchOutcome
  {
    match RouteSearch(query)
    case PublicOnly(q) => SearchOutcome(web(q), false)
    case WikiFirst(q) =>
      var fromWiki := wiki(q);
      if fromWiki == WikiNoHits then SearchOutcome(web(q), true) else SearchOutcome(fromWiki, false)
  }

  /**
   * The keyword test ignores case; nothing else decides the route. A
   * keyword query never consults the wiki and never reports a fallback; any
   * other query keeps the wiki's answer unless it is exactly the no-hits text,
   * and then asks the public search with the same query.
   */
  lemma SearchRouting(query: string, wiki: string -> string, wiki2: string -> string, web: string -> string)
    ensures Contains(Lower(query), Keyword) ==>
              RunSearch(query, wiki, web) == RunSearch(query, wiki2, web) == SearchOutcome(web(Trim(RemoveAll(query, Keyword))), false)
    ensures !Contains(Lower(query), Keyword) ==>
              RunSearch(query, wiki, web) == (if wiki(query) == WikiNoHits then SearchOutcome(web(query), true)
                                           else SearchOutcome(wiki(query), false))
    ensures RunSearch(query, wiki, web).fellBack <==> !Contains(Lower(query), Keyword) && wiki(query) == WikiNoHits
  {
  }

  /**
   * Only a lower-case "widely" is removed: a query spelling it in any other
   * case is routed to the public search with the keyword still in it.
   */
  lemma KeywordCaseKept(query: string)
    requires Contains(Lower(query), Keyword) && !Contains(query, Keyword)
    ensures RouteSearch(query) == PublicOnly(Trim(query))
  {
    RemoveAllAbsent(query, Keyword);
  }

  // ---------------------------------------------------------------------
  // Related topics (handleRelatedTopics and its use in fetchPublicSearchResult)
  // ---------------------------------------------------------------------

  /**
   * One element of a RelatedTopics array: a group with its own "Topics" (which
   * wins when an object has both), an entry with a "Text", or neither.
   */
  datatype Topic = Nested(topics: seq<Topic>) | Entry(text: string) | Neither

  /** Every entry text of ts[..n], groups expanded in place, in order. */
  function Flat(ts: seq<Topic>, n: nat, ghost owner: Topic): seq<string>
    requires n <= |ts| && owner == Nested(ts)
    decreases owner, n + 1
  {
    if n == 0 then [] else Flat(ts, n - 1, owner) + Own(ts[n - 1])
  }

  /** The entry texts one item contributes. */
  function Own(item: Topic): seq<string>
    decreases item, if item.Nested? then |item.topics| + 2 else 0
  {
    match item
    case Nested(sub) => Flat(sub, |sub|, item)
    case Entry(t) => [t]
    case Neither => []
  }

  /** Reference definition: all entry texts of a topic list, depth first. */
  function Texts(ts: seq<Topic>): seq<string> {
    Flat(ts, |ts|, Nested(ts))
  }

  /** The first n elements, or all of them when there are fewer. */
  function First(xs: seq<string>, n: nat): (r: seq<string>)
    ensures |r| <= n && HasPrefix(xs, r)
    ensures |xs| >= n ==> |r| == n
  {
    if |xs| <= n then xs else xs[..n]
  }

  predicate HasPrefix(xs: seq<string>, prefix: seq<string>) {
    |prefix| <= |xs| && xs[..|prefix|] == prefix
  }

  /** Taking n from a concatenation takes from the first part and then what is still owed from the second. */
  lemma FirstConcat(a: seq<string>, b: seq<string>, n: nat)
    ensures First(a + b, n) == First(a, n) + First(b, n - |First(a, n)|)
  {
    if |a| >= n {
      assert (a + b)[..n] == a[..n];
    } else if |a + b| > n {
      assert (a + b)[..n] == a + b[..n - |a|];
    }
  }

  /** The texts of a longer prefix extend those of a shorter one. */
  lemma {:induction false} FlatGrows(ts: seq<Topic>, i: nat, j: nat)
    requires i <= j <= |ts|
    ensures HasPrefix(Flat(ts, j, Nested(ts)), Flat(ts, i, Nested(ts)))
    decreases j - i
  {
    if i < j {
      FlatGrows(ts, i, j - 1);
    }
  }

  /** How many more texts may be added once `count` have been. */
  function Budget(count: int): nat {
    if count >= 3 then 0 else 3 - count
  }

  /** The lines appended per text: "- ", the text, "\n". */
  function Lines(texts: seq<string>): string
    decreases |texts|
  {
    if texts == [] then "" else Lines(texts[..|texts| - 1]) + "- " + texts[|texts| - 1] + "\n"
  }

  lemma {:induction false} LinesConcat(a: seq<string>, b: seq<string>)
    ensures Lines(a + b) == Lines(a) + Lines(b)
    decreases |b|
  {
    if b == [] {
      assert a + b == a;
    } else {
      var b' := b[..|b| - 1];
      assert (a + b)[..|a + b| - 1] == a + b';
      assert (a + b)[|a + b| - 1] == b[|b| - 1];
      LinesConcat(a, b');
    }
  }

  /**
   * handleRelatedTopics: walks the array while fewer than three texts have been
   * collected, descending into groups, and appends one line per entry text.
   */
  method CollectTopics(topics: seq<Topic>, sb: string, count: int) returns (sb': string, count': int)
    ensures var taken := First(Texts(topics), Budget(count));
      count' == count + |taken| && sb' == sb + Lines(taken)
    decreases Nested(topics), 0
  {
    sb', count' := sb, count;
    var i := 0;
    ghost var taken: seq<string> := [];
    assert sb + Lines([]) == sb;
    while i < |topics| && count' < 3
      invariant 0 <= i <= |topics|
      invariant taken == First(Flat(topics, i, Nested(topics)), Budget(count))
      invariant count' == count + |taken| && sb' == sb + Lines(taken)
    {
      ghost var added := First(Own(topics[i]), Budget(count'));
      ghost var sb0 := sb';
      TakeStep(Flat(topics, i, Nested(topics)), Own(topics[i]), added, count, count');
      FlatStep(topics, i);
      LinesAfter(taken, added, sb, sb0);
      sb', count' := CollectItem(topics[i], sb', count');
      taken := taken + added;
      i := i + 1;
    }
    WalkDone(topics, i, sb, count, sb', count');
  }

  /** The loop body of handleRelatedTopics for one item: a group is walked recursively, an entry appends its line. */
  method CollectItem(item: Topic, sb: string, count: int) returns (sb': string, count': int)
    requires count < 3
    ensures var added := First(Own(item), Budget(count));
      sb' == sb + Lines(added) && count' == count + |added|
    decreases item, 1
  {
    if item.Nested? {
      OwnGroup(item);
      sb', count' := CollectTopics(item.topics, sb, count);
    } else if item.Entry? {
      sb' := sb + ("- " + item.text + "\n");
      count' := count + 1;
      OneLine(item.text, count);
    } else {
      sb', count' := sb, count;
    }
  }

  /** The loop invariant: the first i items have contributed what was owed of their texts. */
  ghost predicate Walked(topics: seq<Topic>, i: nat, sb: string, count: int, sb': string, count': int)
    requires i <= |topics|
  {
    var taken := First(Flat(topics, i, Nested(topics)), Budget(count));
    count' == count + |taken| && sb' == sb + Lines(taken)
  }

  lemma OneLine(t: string, count: int)
    requires count < 3
    ensures First(Own(Entry(t)), Budget(count)) == [t]
    ensures Lines([t]) == "- " + t + "\n"
  {
    assert [t][..0] == [];
  }

  lemma WalkDone(topics: seq<Topic>, i: nat, sb: string, count: int, sb': string, count': int)
    requires i <= |topics| && Walked(topics, i, sb, count, sb', count') && (i == |topics| || count' >= 3)
    ensures var taken := First(Texts(topics), Budget(count));
      count' == count + |taken| && sb' == sb + Lines(taken)
  {
    var owner := Nested(topics);
    if i < |topics| {
      FlatGrows(topics, i, |topics|);
      FirstOfLonger(Flat(topics, i, owner), Flat(topics, |topics|, owner), Budget(count));
    }
  }

  lemma OwnGroup(item: Topic)
    requires item.Nested?
    ensures Own(item) == Texts(item.topics)
  {
  }

  lemma FlatStep(topics: seq<Topic>, i: nat)
    requires i < |topics|
    ensures Flat(topics, i + 1, Nested(topics)) == Flat(topics, i, Nested(topics)) + Own(topics[i])
  {
  }

  lemma LinesAfter(before: seq<string>, added: seq<string>, sb: string, sb0: string)
    requires sb0 == sb + Lines(before)
    ensures sb0 + Lines(added) == sb + Lines(before + added)
  {
    LinesConcat(before, added);
  }

  /** One step of the walk: what an item adds is what is still owed of its own texts. */
  lemma TakeStep(done: seq<string>, own: seq<string>, added: seq<string>, count: int, now: int)
    requires now == count + |First(done, Budget(count))| && now < 3
    requires added == First(own, Budget(now))
    ensures First(done + own, Budget(count)) == First(done, Budget(count)) + added
  {
    FirstConcat(done, own, Budget(count));
  }

  /** Once the prefix already holds n elements, taking n from any extension takes the same ones. */
  lemma FirstOfLonger(a: seq<string>, b: seq<string>, n: nat)
    requires HasPrefix(b, a) && |First(a, n)| == n
    ensures First(b, n) == First(a, n)
  {
  }

  const PublicNoHits := "未找到相关全网搜索结果。"

  /**
   * fetchPublicSearchResult once the answer is parsed: a non-empty abstract
   * wins; otherwise the related topics, when present and yielding at least one
   * text; otherwise the no-hits text.
   */
  function PublicSearchText(query: string, abstractText: string, related: Option<seq<Topic>>): string
  {
    if abstractText != "" then "全网搜索摘要 (" + query + "): " + abstractText
    else match related
      case Some(topics) =>
        var taken := First(Texts(topics), 3);
        if |taken| > 0 then "相关搜索结果：\n" + Lines(taken) else PublicNoHits
      case None => PublicNoHits
  }

  /** Without an abstract the answer lists the first three entry texts, depth first, and falls back only when there are none. */
  lemma PublicSearchTopics(query: string, topics: seq<Topic>)
    ensures var r := PublicSearchText(query, "", Some(topics));
      (Texts(topics) == [] <==> r == PublicNoHits)
      && (Texts(topics) != [] ==> r == "相关搜索结果：\n" + Lines(First(Texts(topics), 3)))
  {
    var r := PublicSearchText(query, "", Some(topics));
    if Texts(topics) != [] {
      assert r[0] == '相' && PublicNoHits[0] == '未';
    }
  }
}
