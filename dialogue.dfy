/**
 * DialogueSession: one player's conversation history, capped at 20 entries,
 * and the time of their last activity (milliseconds, supplied by the caller
 * instead of System.currentTimeMillis).
 */
module Dialogue {

  /** DialogueSession.Message: a role ("user" or "assistant") and its text. */
  datatype Message = Message(role: string, content: string)

  const MaxHistory: nat := 20

  /**
   * The history after addMessage: the message goes at the end; once the list
   * holds more than 20 entries the two oldest are removed together.
   */
  function Appended(history: seq<Message>, m: Message): (r: seq<Message>)
    ensures |r| > 0 && r[|r| - 1] == m
    ensures |history| <= MaxHistory ==> |r| <= MaxHistory
  {
    var h := history + [m];
    if |h| > MaxHistory then h[2..] else h
  }

  /**
   * The history after addMessage keeps the most recent entries of the old
   * history followed by the new message: all of them below the cap, all
   * but the two oldest at the cap.
   */
  lemma AppendedShape(history: seq<Message>, m: Message)
    ensures var r := Appended(history, m);
      |r| <= |history| + 1 && r == (history + [m])[|history| + 1 - |r|..]
    ensures |history| < MaxHistory ==> Appended(history, m) == history + [m]
    ensures |history| == MaxHistory ==> Appended(history, m) == history[2..] + [m]
  {
  }

  /** The history left by removeLastMessage: the last entry dropped, nothing on an empty history. */
  function DropLast(history: seq<Message>): (r: seq<Message>)
    ensures history == [] ==> r == []
    ensures history != [] ==> r + [history[|history| - 1]] == history
  {
    if history == [] then [] else history[..|history| - 1]
  }

  lemma AppendedSize(history: seq<Message>, m: Message)
    requires |history| <= MaxHistory
    ensures |Appended(history, m)| == if |history| < MaxHistory then |history| + 1 else |history| - 1
  {
  }

  /** Total number of characters of content in a history. */
  function SumLengths(history: seq<Message>): nat
  {
    if history == [] then 0
    else SumLengths(history[..|history| - 1]) + |history[|history| - 1].content|
  }

  /** getEstimatedTokens: four characters count as one token, rounding down. */
  function EstimatedTokens(history: seq<Message>): nat
  {
    SumLengths(history) / 4
  }

  /** The history after a run of addMessage calls, one per message of `ms`, in order. */
  function AddAll(history: seq<Message>, ms: seq<Message>): seq<Message>
    decreases |ms|
  {
    if ms == [] then history else Appended(AddAll(history, ms[..|ms| - 1]), ms[|ms| - 1])
  }

  /** Size of the history after n additions to a fresh session. */
  function SizeAfter(n: nat): nat {
    if n <= MaxHistory then n else MaxHistory - 1 + (n - 1) % 2
  }

  /**
   * Starting from a fresh session, n additions leave n entries while n <= 20
   * and then alternate between 19 and 20, so the entries removed always come
   * in pairs.
   */
  lemma {:induction false} AddAllSize(ms: seq<Message>)
    ensures |AddAll([], ms)| == SizeAfter(|ms|)
    ensures (|ms| - |AddAll([], ms)|) % 2 == 0
  {
    if ms != [] {
      var n := |ms|;
      AddAllSize(ms[..n - 1]);
      var p := AddAll([], ms[..n - 1]);
      SizeAfterStep(n);
      AppendedSize(p, ms[n - 1]);
    }
  }

  /** One more addition: the size grows by one up to the cap, and falls back by one once it would pass it. */
  lemma SizeAfterStep(n: nat)
    requires n > 0
    ensures SizeAfter(n - 1) <= MaxHistory
    ensures SizeAfter(n) == if SizeAfter(n - 1) < MaxHistory then SizeAfter(n - 1) + 1 else SizeAfter(n - 1) - 1
    ensures (n - SizeAfter(n)) % 2 == 0
  {
    if n > MaxHistory + 1 {
      var k := (n - 2) % 2;
      assert n - 2 == 2 * ((n - 2) / 2) + k;
      assert (n - 1) % 2 == 1 - k;
    }
  }

  /** What a fresh session keeps after a run of additions is the most recent messages, in the order sent. */
  lemma {:induction false} AddAllSuffix(ms: seq<Message>)
    ensures IsSuffix(AddAll([], ms), ms)
  {
    if ms != [] {
      var n := |ms|;
      var init, m := ms[..n - 1], ms[n - 1];
      var p := AddAll([], init);
      AddAllSuffix(init);
      AppendedSuffix(p, init, m);
      assert init + [m] == ms;
      assert AddAll([], ms) == Appended(p, m);
    }
  }

  /** `r` is a (possibly empty) run of the last entries of `xs`. */
  ghost predicate IsSuffix<T>(r: seq<T>, xs: seq<T>) {
    |r| <= |xs| && r == xs[|xs| - |r|..]
  }

  /** addMessage keeps a suffix of what was sent a suffix once the new message is counted as sent. */
  lemma AppendedSuffix(p: seq<Message>, xs: seq<Message>, m: Message)
    requires IsSuffix(p, xs)
    ensures IsSuffix(Appended(p, m), xs + [m])
  {
    var r := Appended(p, m);
    AppendedShape(p, m);
    var k := |xs| - |p|;
    var j := |p| + 1 - |r|;
    assert p + [m] == (xs + [m])[k..];
    assert r == (p + [m])[j..];
    DropDrop(xs + [m], k, j);
  }

  /** Dropping from a suffix drops from the whole list. */
  lemma DropDrop<T>(ms: seq<T>, a: nat, b: nat)
    requires a + b <= |ms|
    ensures ms[a..][b..] == ms[a + b..]
  {
  }

  /** Adding a message raises the character total by exactly its length when nothing is evicted. */
  lemma SumLengthsAppend(history: seq<Message>, m: Message)
    ensures SumLengths(history + [m]) == SumLengths(history) + |m.content|
  {
    assert (history + [m])[..|history|] == history;
  }

  class DialogueSession {
    var history: seq<Message>
    var lastActivityTime: int

    /** addMessage is the only way entries arrive, so the cap always holds. */
    ghost predicate Valid()
      reads this
    {
      |history| <= MaxHistory
    }

    constructor (now: int)
      ensures Valid()
      ensures history == [] && lastActivityTime == now
    {
      history := [];
      lastActivityTime := now;
    }

    method AddMessage(role: string, content: string, now: int)
      modifies this
      ensures history == Appended(old(history), Message(role, content))
      ensures lastActivityTime == now
      ensures old(Valid()) ==> Valid()
    {
      history := history + [Message(role, content)];
      lastActivityTime := now;
      if |history| > MaxHistory {
        history := history[1..];
        history := history[1..];
      }
    }

    method GetEstimatedTokens() returns (tokens: nat)
      ensures tokens == EstimatedTokens(history)
    {
      var chars: nat := 0;
      for i := 0 to |history|
        invariant chars == SumLengths(history[..i])
      {
        assert history[..i + 1][..i] == history[..i];
        chars := chars + |history[i].content|;
      }
      assert history[..|history|] == history;
      tokens := chars / 4;
    }

    method UpdateActivity(now: int)
      modifies this`lastActivityTime
      ensures lastActivityTime == now
    {
      lastActivityTime := now;
    }

    method ClearHistory()
      modifies this`history
      ensures history == []
    {
      history := [];
    }

    method RemoveLastMessage()
      modifies this`history
      ensures history == DropLast(old(history))
      ensures old(Valid()) ==> Valid()
    {
      if history != [] {
        history := history[..|history| - 1];
      }
    }
  }
}
