/**
 * CloudFlareAI: the Workers AI client. The HTTP exchanges are inputs (the
 * status code, reason phrase, body text and the body as parsed JSON of each
 * reply); what is modelled is which requests are sent, what they carry, how
 * the account id is cached, and how the reply text is picked out of the
 * response.
 */
module CloudFlare {
  import opened Wrappers
  import opened Text
  import opened Dialogue

  // ---------------------------------------------------------------------
  // JSON values, as Gson's JsonElement
  // ---------------------------------------------------------------------

  /** A number keeps its literal text: Gson returns that text from getAsString. */
  datatype Json =
    | JNull
    | JBool(b: bool)
    | JNum(literal: string)
    | JStr(s: string)
    | JArr(items: seq<Json>)
    | JObj(members: map<string, Json>)

  predicate IsPrimitive(j: Json) {
    j.JBool? || j.JNum? || j.JStr?
  }

  /**
   * JsonElement.getAsString: primitives give their text, an array of exactly
   * one element gives that element's; anything else throws (None).
   */
  function AsString(j: Json): (r: Option<string>)
    ensures IsPrimitive(j) ==> r.Some?
    ensures j.JNull? || j.JObj? ==> r.None?
  {
    match j
    case JStr(s) => Some(s)
    case JNum(t) => Some(t)
    case JBool(b) => Some(if b then "true" else "false")
    case JArr(items) => if |items| == 1 then AsString(items[0]) else None
    case _ => None
  }

  // ---------------------------------------------------------------------
  // Requests and replies
  // ---------------------------------------------------------------------

  const AccountsUrl := "https://api.cloudflare.com/client/v4/accounts"

  /** API_BASE_URL formatted with the account id and the model. */
  function ChatUrl(accountId: string, model: string): string {
    AccountsUrl + "/" + accountId + "/ai/run/" + model
  }

  /** A request sent, with the key it carries as a bearer token. */
  datatype Request =
    | AccountsRequest(key: string)
    | ChatRequest(url: string, key: string, payload: Json)

  /** A reply: status code, reason phrase, body text and the body as Gson parsed it. */
  datatype HttpReply = HttpReply(code: int, message: string, body: string, json: Json)

  /** OkHttp's Response.isSuccessful. */
  predicate Successful(code: int) {
    200 <= code < 300
  }

  /**
   * Why a call failed. Each IOException of the source is a constructor with
   * the values its message carries; an unchecked exception thrown by Gson
   * (a cast to the wrong JSON shape, getAsString on an object, a missing
   * member dereferenced) is `Malformed`.
   */
  datatype CfError =
    | MissingKey
    | AccountLookupFailed(code: int, message: string)
    | NoAccount
    | CallFailed(code: int, body: string)
    | MissingResult(body: string)
    | NoText(body: string)
    | Malformed

  /** What chat returns, without any request, when no cf_key is configured. */
  const NoKeyReply := "错误: 请先在配置文件中设置 CloudFlare cf_key。"

  // ---------------------------------------------------------------------
  // Account id (fetchAccountId)
  // ---------------------------------------------------------------------

  /** The outcome of fetchAccountId: its result, the cache afterwards, and whether the accounts request was sent. */
  datatype Lookup = Lookup(result: Result<string, CfError>, cache: Option<string>, asked: bool)

  /** The account id of a successful accounts reply: `result[0].id`. */
  function AccountOf(json: Json): Result<string, CfError> {
    if !json.JObj? then Err(Malformed)
    else if "result" !in json.members then Err(NoAccount)
    else
      var accounts := json.members["result"];
      if !accounts.JArr? then Err(Malformed)
      else if |accounts.items| == 0 then Err(NoAccount)
      else
        var account := accounts.items[0];
        if account.JObj? && "id" in account.members && AsString(account.members["id"]).Some? then
          Ok(AsString(account.members["id"]).value)
        else Err(Malformed)
  }

  function AccountLookup(cached: Option<string>, key: string, reply: HttpReply): (l: Lookup)
    ensures cached.Some? ==> l == Lookup(Ok(cached.value), cached, false)
  {
    if cached.Some? then Lookup(Ok(cached.value), cached, false)
    else if key == "" then Lookup(Err(MissingKey), None, false)
    else if !Successful(reply.code) then Lookup(Err(AccountLookupFailed(reply.code, reply.message)), None, true)
    else
      var id := AccountOf(reply.json);
      Lookup(id, if id.Ok? then Some(id.value) else None, true)
  }

  /**
   * The cache: a cached id is returned with no request; otherwise the id found
   * in the reply is cached and returned, and every failure leaves the cache
   * unset. The request goes out exactly when nothing is cached and a key is set.
   */
  lemma AccountCache(cached: Option<string>, key: string, reply: HttpReply)
    ensures var l := AccountLookup(cached, key, reply);
      && (l.asked <==> cached.None? && key != "")
      && (l.result.Ok? ==> l.cache == Some(l.result.value))
      && (l.result.Err? ==> l.cache == None && cached == None)
      && (cached.None? && l.result.Ok? ==> l.asked && Successful(reply.code) && AccountOf(reply.json) == l.result)
  {
  }

  /** A non-success status, a missing `result` or an empty one is an error. */
  lemma AccountErrors(key: string, reply: HttpReply)
    requires key != ""
    ensures !Successful(reply.code) ==>
              AccountLookup(None, key, reply).result == Err(AccountLookupFailed(reply.code, reply.message))
    ensures Successful(reply.code) && reply.json.JObj? && "result" !in reply.json.members ==>
              AccountLookup(None, key, reply).result == Err(NoAccount)
    ensures Successful(reply.code) && reply.json.JObj? && "result" in reply.json.members
            && reply.json.members["result"] == JArr([]) ==>
              AccountLookup(None, key, reply).result == Err(NoAccount)
  {
  }

  /** Once an id has been fetched, every later lookup returns it with no request, whatever the reply. */
  lemma CachedForever(key: string, first: HttpReply, later: HttpReply, key2: string)
    requires AccountLookup(None, key, first).result.Ok?
    ensures var l := AccountLookup(None, key, first);
      AccountLookup(l.cache, key2, later) == Lookup(l.result, l.cache, false)
  {
  }

  // ---------------------------------------------------------------------
  // Request payload
  // ---------------------------------------------------------------------

  function RoleMessage(role: string, content: string): Json {
    JObj(map["role" := JStr(role), "content" := JStr(content)])
  }

  function HistoryMessages(history: seq<Message>): seq<Json>
    decreases |history|
  {
    if history == [] then []
    else HistoryMessages(history[..|history| - 1]) + [RoleMessage(history[|history| - 1].role, history[|history| - 1].content)]
  }

  /** messagesArray: the system prompt, then every history entry. */
  function Messages(systemPrompt: string, history: seq<Message>): seq<Json> {
    [RoleMessage("system", systemPrompt)] + HistoryMessages(history)
  }

  /** The system message comes first; then each history entry in order, role and content unchanged. */
  lemma {:induction false} MessagesInOrder(systemPrompt: string, history: seq<Message>)
    ensures |Messages(systemPrompt, history)| == |history| + 1
    ensures Messages(systemPrompt, history)[0] == RoleMessage("system", systemPrompt)
    ensures forall i :: 0 <= i < |history| ==>
              Messages(systemPrompt, history)[i + 1] == RoleMessage(history[i].role, history[i].content)
  {
    var ms := Messages(systemPrompt, history);
    HistoryMessagesInOrder(history);
    forall i | 0 <= i < |history|
      ensures ms[i + 1] == RoleMessage(history[i].role, history[i].content)
    {
      assert ms[i + 1] == HistoryMessages(history)[i];
    }
  }

  lemma {:induction false} HistoryMessagesInOrder(history: seq<Message>)
    ensures |HistoryMessages(history)| == |history|
    ensures forall i :: 0 <= i < |history| ==> HistoryMessages(history)[i] == RoleMessage(history[i].role, history[i].content)
    decreases |history|
  {
    if history != [] {
      var init := history[..|history| - 1];
      HistoryMessagesInOrder(init);
      forall i | 0 <= i < |history| - 1
        ensures HistoryMessages(history)[i] == RoleMessage(history[i].role, history[i].content)
      {
        assert history[i] == init[i];
      }
    }
  }

  /** The loop of chat that fills messagesArray. */
  method BuildMessages(systemPrompt: string, history: seq<Message>) returns (messages: seq<Json>)
    ensures messages == Messages(systemPrompt, history)
  {
    messages := [RoleMessage("system", systemPrompt)];
    for i := 0 to |history|
      invariant messages == Messages(systemPrompt, history[..i])
    {
      assert history[..i + 1][..i] == history[..i];
      messages := messages + [RoleMessage(history[i].role, history[i].content)];
    }
    assert history[..|history|] == history;
  }

  predicate NamedRoles(history: seq<Message>) {
    forall i :: 0 <= i < |history| ==> history[i].role != ""
  }

  /** substring(0, 1).toUpperCase() + substring(1); an empty role makes substring throw. */
  function Capitalised(role: string): (r: string)
    requires role != ""
    ensures |r| == |role| && r[1..] == role[1..]
  {
    [UpperChar(role[0])] + role[1..]
  }

  /** One turn of the flattened prompt. */
  function Line(m: Message): string
    requires m.role != ""
  {
    Capitalised(m.role) + ": " + m.content + "\n"
  }

  function Transcript(history: seq<Message>): string
    requires NamedRoles(history)
    decreases |history|
  {
    if history == [] then "" else Transcript(history[..|history| - 1]) + Line(history[|history| - 1])
  }

  /** The single-string input for gpt-oss models. */
  function PromptText(systemPrompt: string, history: seq<Message>): string
    requires NamedRoles(history)
  {
    "System: " + systemPrompt + "\n\n" + Transcript(history) + "Assistant: "
  }

  /** The transcript of two runs of turns is the two transcripts one after the other. */
  lemma {:induction false} TranscriptConcat(a: seq<Message>, b: seq<Message>)
    requires NamedRoles(a) && NamedRoles(b)
    ensures NamedRoles(a + b)
    ensures Transcript(a + b) == Transcript(a) + Transcript(b)
    decreases |b|
  {
    NamedRolesConcat(a, b);
    if b == [] {
      assert a + b == a;
    } else {
      var init, m := b[..|b| - 1], b[|b| - 1];
      var line := Line(m);
      assert (a + b)[..|a + b| - 1] == a + init;
      assert (a + b)[|a + b| - 1] == m;
      assert NamedRoles(init);
      TranscriptConcat(a, init);
      assert Transcript(b) == Transcript(init) + line;
      assert Transcript(a + b) == Transcript(a + init) + line;
      Associative(Transcript(a), Transcript(init), line);
    }
  }

  lemma Associative<T>(x: seq<T>, y: seq<T>, z: seq<T>)
    ensures (x + y) + z == x + (y + z)
  {
  }

  lemma NamedRolesConcat(a: seq<Message>, b: seq<Message>)
    requires NamedRoles(a) && NamedRoles(b)
    ensures NamedRoles(a + b)
  {
    forall i | 0 <= i < |a + b|
      ensures (a + b)[i].role != ""
    {
      if i >= |a| {
        assert (a + b)[i] == b[i - |a|];
      }
    }
  }

  /** The two roles the plugin records appear as "User" and "Assistant". */
  lemma RoleNames()
    ensures Capitalised("user") == "User"
    ensures Capitalised("assistant") == "Assistant"
  {
    assert UpperChar('u') == 'U' && UpperChar('a') == 'A';
    assert Capitalised("user") == ['U'] + "ser";
    assert Capitalised("assistant") == ['A'] + "ssistant";
  }

  /** A history of one turn is one line between the system header and the assistant cue. */
  lemma OneTurnPrompt(systemPrompt: string, m: Message)
    requires m.role != ""
    ensures PromptText(systemPrompt, [m]) == "System: " + systemPrompt + "\n\n" + Line(m) + "Assistant: "
  {
    assert [m][..0] == [];
    assert Transcript([m]) == "" + Line(m) == Line(m);
  }

  /** The loop of chat that fills promptBuilder. */
  method BuildPrompt(systemPrompt: string, history: seq<Message>) returns (prompt: string)
    requires NamedRoles(history)
    ensures prompt == PromptText(systemPrompt, history)
  {
    prompt := "System: " + systemPrompt + "\n\n";
    for i := 0 to |history|
      invariant NamedRoles(history[..i])
      invariant prompt == "System: " + systemPrompt + "\n\n" + Transcript(history[..i])
    {
      assert history[..i + 1][..i] == history[..i];
      var m := history[i];
      var role := [UpperChar(m.role[0])] + m.role[1..];
      assert role + ": " + m.content + "\n" == Line(m);
      prompt := prompt + role + ": " + m.content + "\n";
    }
    assert history[..|history|] == history;
    prompt := prompt + "Assistant: ";
  }

  /** The request body: the flattened prompt for models whose name contains "gpt-oss", input.messages otherwise. */
  function Payload(model: string, systemPrompt: string, history: seq<Message>): Json
    requires Contains(model, "gpt-oss") ==> NamedRoles(history)
  {
    if Contains(model, "gpt-oss") then JObj(map["input" := JStr(PromptText(systemPrompt, history))])
    else JObj(map["input" := JObj(map["messages" := JArr(Messages(systemPrompt, history))])])
  }

  // ---------------------------------------------------------------------
  // Reply text (the three shapes chat knows)
  // ---------------------------------------------------------------------

  datatype Extracted = Text(text: string) | NotFound | Broken

  /** `m` has a "type" member whose text is `t`. */
  predicate TypeIs(m: map<string, Json>, t: string) {
    "type" in m && AsString(m["type"]) == Some(t)
  }

  /** The "type" member is there but getAsString throws on it. */
  predicate TypeUnreadable(m: map<string, Json>) {
    "type" in m && AsString(m["type"]).None?
  }

  /** The inner loop: the first content item of type output_text supplies its text. */
  function ContentScan(items: seq<Json>, j: nat): Extracted
    requires j <= |items|
    decreases |items| - j
  {
    if j == |items| then NotFound
    else if !items[j].JObj? || TypeUnreadable(items[j].members) then Broken
    else
      var m := items[j].members;
      if TypeIs(m, "output_text") then (if "text" in m && AsString(m["text"]).Some? then Text(AsString(m["text"]).value) else Broken)
      else ContentScan(items, j + 1)
  }

  /** The outer loop: message items are searched in order; items of other types are skipped. */
  function OutputScan(items: seq<Json>, i: nat): Extracted
    requires i <= |items|
    decreases |items| - i
  {
    if i == |items| then NotFound
    else if !items[i].JObj? || TypeUnreadable(items[i].members) then Broken
    else
      var m := items[i].members;
      if !(TypeIs(m, "message") && "content" in m) then OutputScan(items, i + 1)
      else if !m["content"].JArr? then Broken
      else
        var found := ContentScan(m["content"].items, 0);
        if found.NotFound? then OutputScan(items, i + 1) else found
  }

  /** The priority: a primitive result, else result.response, else the output items. */
  function ResultText(result: Json): Extracted {
    if IsPrimitive(result) then Text(AsString(result).value)
    else
      match result
      case JObj(m) =>
        if "response" in m then (if AsString(m["response"]).Some? then Text(AsString(m["response"]).value) else Broken)
        else if "output" in m && m["output"].JArr? then OutputScan(m["output"].items, 0)
        else NotFound
      case _ => NotFound
  }

  /** What chat makes of the reply to its request. */
  function ReplyOutcome(reply: HttpReply): Result<string, CfError> {
    if !Successful(reply.code) then Err(CallFailed(reply.code, reply.body))
    else if !reply.json.JObj? then Err(Malformed)
    else if "result" !in reply.json.members then Err(MissingResult(reply.body))
    else
      match ResultText(reply.json.members["result"])
      case Text(t) => Ok(t)
      case NotFound => Err(NoText(reply.body))
      case Broken => Err(Malformed)
  }

  /** The nested loops of chat over result.output and each item's content, with their early returns. */
  method ScanOutput(items: seq<Json>) returns (r: Extracted)
    ensures r == OutputScan(items, 0)
  {
    var i := 0;
    while i < |items|
      invariant 0 <= i <= |items|
      invariant OutputScan(items, 0) == OutputScan(items, i)
    {
      if !items[i].JObj? {
        return Broken;
      }
      var m := items[i].members;
      if TypeUnreadable(m) {
        return Broken;
      }
      if TypeIs(m, "message") && "content" in m {
        if !m["content"].JArr? {
          return Broken;
        }
        var content := m["content"].items;
        var j := 0;
        while j < |content|
          invariant 0 <= j <= |content|
          invariant ContentScan(content, 0) == ContentScan(content, j)
        {
          if !content[j].JObj? {
            return Broken;
          }
          var c := content[j].members;
          if TypeUnreadable(c) {
            return Broken;
          }
          if TypeIs(c, "output_text") {
            if "text" in c && AsString(c["text"]).Some? {
              return Text(AsString(c["text"]).value);
            }
            return Broken;
          }
          j := j + 1;
        }
      }
      i := i + 1;
    }
    r := NotFound;
  }

  /** The first item that yields anything decides: a text found in `a` wins over anything in `b`. */
  lemma {:induction false} OutputScanConcat(a: seq<Json>, b: seq<Json>, i: nat)
    requires i <= |a|
    ensures OutputScan(a + b, i) == if OutputScan(a, i).NotFound? then OutputScan(b, 0) else OutputScan(a, i)
    decreases |a| - i
  {
    if i == |a| {
      OutputScanShift(a, b, 0);
    } else {
      assert (a + b)[i] == a[i];
      OutputScanConcat(a, b, i + 1);
    }
  }

  lemma {:induction false} OutputScanShift(a: seq<Json>, b: seq<Json>, k: nat)
    requires k <= |b|
    ensures OutputScan(a + b, |a| + k) == OutputScan(b, k)
    decreases |b| - k
  {
    if k < |b| {
      assert (a + b)[|a| + k] == b[k];
      OutputScanShift(a, b, k + 1);
    }
  }

  /** An output item whose type is not "message" is skipped, whatever it holds. */
  lemma OtherTypesSkipped(m: map<string, Json>, t: string, rest: seq<Json>)
    requires TypeIs(m, t) && t != "message"
    ensures OutputScan([JObj(m)] + rest, 0) == OutputScan(rest, 0)
  {
    OutputScanConcat([JObj(m)], rest, 0);
  }

  /** A primitive result is returned as its text, before anything else is looked at. */
  lemma PrimitiveFirst(result: Json)
    requires IsPrimitive(result)
    ensures ResultText(result) == Text(AsString(result).value)
  {
  }

  /** result.response wins over result.output. */
  lemma ResponseBeforeOutput(m: map<string, Json>, text: string)
    requires "response" in m && m["response"] == JStr(text)
    ensures ResultText(JObj(m)) == Text(text)
  {
  }

  /** A reply is only ever text when the status was a success and the body had a `result`. */
  lemma ReplyErrors(reply: HttpReply)
    ensures !Successful(reply.code) ==> ReplyOutcome(reply) == Err(CallFailed(reply.code, reply.body))
    ensures ReplyOutcome(reply).Ok? ==>
              Successful(reply.code) && reply.json.JObj? && "result" in reply.json.members
              && ResultText(reply.json.members["result"]) == Text(ReplyOutcome(reply).value)
  {
  }

  // ---------------------------------------------------------------------
  // The client
  // ---------------------------------------------------------------------

  /** What one chat call leaves: its result, the cache, and the requests it sent, in order. */
  datatype ChatStep = ChatStep(result: Result<string, CfError>, cache: Option<string>, requests: seq<Request>)

  function ChatOutcome(cached: Option<string>, history: seq<Message>, systemPrompt: string, key: string,
                       model: string, accounts: HttpReply, reply: HttpReply): ChatStep
    requires Contains(model, "gpt-oss") ==> NamedRoles(history)
  {
    if key == "" then ChatStep(Ok(NoKeyReply), cached, [])
    else
      var l := AccountLookup(cached, key, accounts);
      var asked := if l.asked then [AccountsRequest(key)] else [];
      if l.result.Err? then ChatStep(Err(l.result.error), l.cache, asked)
      else
        var request := ChatRequest(ChatUrl(l.result.value, model), key, Payload(model, systemPrompt, history));
        ChatStep(ReplyOutcome(reply), l.cache, asked + [request])
  }

  /** With no cf_key, chat answers with the fixed text and sends nothing. */
  lemma NoKeyNoRequest(cached: Option<string>, history: seq<Message>, systemPrompt: string, model: string,
                       accounts: HttpReply, reply: HttpReply)
    requires Contains(model, "gpt-oss") ==> NamedRoles(history)
    ensures ChatOutcome(cached, history, systemPrompt, "", model, accounts, reply) == ChatStep(Ok(NoKeyReply), cached, [])
  {
  }

  /**
   * With a key: the chat request goes out exactly when an account id is known,
   * to that account's URL for the configured model, carrying the payload; it
   * is preceded by the accounts request only when nothing was cached.
   */
  lemma ChatRequests(cached: Option<string>, history: seq<Message>, systemPrompt: string, key: string,
                     model: string, accounts: HttpReply, reply: HttpReply)
    requires key != ""
    requires Contains(model, "gpt-oss") ==> NamedRoles(history)
    ensures var s := ChatOutcome(cached, history, systemPrompt, key, model, accounts, reply);
      var l := AccountLookup(cached, key, accounts);
      && (cached.Some? ==> s.requests == [ChatRequest(ChatUrl(cached.value, model), key, Payload(model, systemPrompt, history))])
      && (l.result.Ok? ==> s.requests[|s.requests| - 1] == ChatRequest(ChatUrl(l.result.value, model), key, Payload(model, systemPrompt, history))
                           && s.result == ReplyOutcome(reply))
      && (l.result.Err? ==> s.result == Err(l.result.error) && (forall r :: r in s.requests ==> r.AccountsRequest?))
      && (cached.None? ==> s.requests[0] == AccountsRequest(key))
      && s.cache == l.cache
  {
    AccountCache(cached, key, accounts);
  }

  class CloudFlareAI {
    var cachedAccountId: Option<string>
    /** The requests sent so far, oldest first. */
    var sent: seq<Request>

    constructor ()
      ensures cachedAccountId == None && sent == []
    {
      cachedAccountId := None;
      sent := [];
    }

    method FetchAccountId(key: string, reply: HttpReply) returns (r: Result<string, CfError>)
      modifies this
      ensures var l := AccountLookup(old(cachedAccountId), key, reply);
        && r == l.result && cachedAccountId == l.cache
        && sent == old(sent) + (if l.asked then [AccountsRequest(key)] else [])
    {
      if cachedAccountId.Some? {
        return Ok(cachedAccountId.value);
      }
      if key == "" {
        return Err(MissingKey);
      }
      sent := sent + [AccountsRequest(key)];
      if !Successful(reply.code) {
        return Err(AccountLookupFailed(reply.code, reply.message));
      }
      r := AccountOf(reply.json);
      if r.Ok? {
        cachedAccountId := Some(r.value);
      }
    }

    /**
     * chat: the configuration's key and model are parameters, and so are the
     * two replies the network would give.
     */
    method Chat(history: seq<Message>, systemPrompt: string, key: string, model: string,
                accounts: HttpReply, reply: HttpReply) returns (r: Result<string, CfError>)
      requires Contains(model, "gpt-oss") ==> NamedRoles(history)
      modifies this
      ensures var s := ChatOutcome(old(cachedAccountId), history, systemPrompt, key, model, accounts, reply);
        && r == s.result && cachedAccountId == s.cache && sent == old(sent) + s.requests
    {
      if key == "" {
        return Ok(NoKeyReply);
      }
      var accountId := FetchAccountId(key, accounts);
      if accountId.Err? {
        return Err(accountId.error);
      }
      var url := ChatUrl(accountId.value, model);
      var messages := BuildMessages(systemPrompt, history);
      var payload;
      if Contains(model, "gpt-oss") {
        var prompt := BuildPrompt(systemPrompt, history);
        payload := JObj(map["input" := JStr(prompt)]);
      } else {
        payload := JObj(map["input" := JObj(map["messages" := JArr(messages)])]);
      }
      sent := sent + [ChatRequest(url, key, payload)];
      if !Successful(reply.code) {
        return Err(CallFailed(reply.code, reply.body));
      }
      if !reply.json.JObj? {
        return Err(Malformed);
      }
      var m := reply.json.members;
      if "result" !in m {
        return Err(MissingResult(reply.body));
      }
      var result := m["result"];
      var found := NotFound;
      if IsPrimitive(result) {
        found := Text(AsString(result).value);
      } else if result.JObj? {
        var fields := result.members;
        if "response" in fields {
          found := if AsString(fields["response"]).Some? then Text(AsString(fields["response"]).value) else Broken;
        } else if "output" in fields && fields["output"].JArr? {
          found := ScanOutput(fields["output"].items);
        }
      }
      match found
      case Text(t) => r := Ok(t);
      case NotFound => r := Err(NoText(reply.body));
      case Broken => r := Err(Malformed);
    }
  }
}
