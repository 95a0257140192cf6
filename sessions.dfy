/**
 * A chat session: the message history sent to the model, which starts with
 * the system prompt and is trimmed to the prompt plus the most recent
 * MaxHistory messages, and the running character total.
 */
module Sessions {
  const RoleSystem: string := "system"
  const RoleUser: string := "user"
  const RoleAssistant: string := "assistant"

  datatype Message = Message(role: string, content: string)

  /**
   * The session settings this model uses. `reactPrompt` is the text the
   * ReAct prompt builder produces, which is not part of this model.
   */
  datatype SessionConfig = SessionConfig(prompt: string, maxHistory: int, reactMode: bool, reactPrompt: string)

  /** The total length of the contents of `msgs`. */
  function TotalLength(msgs: seq<Message>): (n: nat) {
    if msgs == [] then 0 else TotalLength(msgs[..|msgs| - 1]) + |msgs[|msgs| - 1].content|
  }

  lemma TotalLengthSnoc(msgs: seq<Message>, m: Message)
    ensures TotalLength(msgs + [m]) == TotalLength(msgs) + |m.content|
  {
    assert (msgs + [m])[..|msgs|] == msgs;
  }

  /** The messages a fresh history opens with: the system prompt, then the ReAct prompt in ReAct mode. */
  function Opening(config: SessionConfig): (r: seq<Message>)
    ensures r != [] && r[0] == Message(RoleSystem, config.prompt)
    ensures forall k :: 0 <= k < |r| ==> r[k].role == RoleSystem
  {
    [Message(RoleSystem, config.prompt)] + (if config.reactMode then [Message(RoleSystem, config.reactPrompt)] else [])
  }

  /** The history trimmed to its first message plus the last `maxHistory` messages. */
  function Trimmed(h: seq<Message>, maxHistory: int): seq<Message>
    requires maxHistory >= -1
  {
    if |h| <= maxHistory then h
    else if maxHistory < 0 then []
    else [h[0]] + h[|h| - maxHistory..]
  }

  /**
   * A trimmed history holds at most maxHistory + 1 messages, keeps the first
   * message (the system prompt) and ends with the newest messages.
   */
  lemma TrimmedShape(h: seq<Message>, maxHistory: int)
    requires maxHistory >= -1
    ensures var t := Trimmed(h, maxHistory);
      && |t| == (if |h| <= maxHistory then |h| else maxHistory + 1)
      && (h != [] && maxHistory >= 0 ==> t[0] == h[0])
      && (forall k :: 1 <= k < |t| ==> t[k] == h[|h| - |t| + k])
  {
    if |h| > maxHistory >= 0 {
      forall k | 0 <= k <= maxHistory
        ensures Trimmed(h, maxHistory)[k] == TrimmedAt(h, maxHistory, k)
      {
        TrimmedIndex(h, maxHistory, k);
      }
    }
  }

  /** The message at position `k` of a history trimmed to its first and last `maxHistory` messages. */
  function TrimmedAt(h: seq<Message>, maxHistory: int, k: int): Message
    requires |h| > maxHistory >= 0 && 0 <= k <= maxHistory
  {
    if k == 0 then h[0] else h[|h| - maxHistory + k - 1]
  }

  lemma TrimmedIndex(h: seq<Message>, maxHistory: int, k: int)
    requires |h| > maxHistory >= 0 && 0 <= k <= maxHistory
    ensures |Trimmed(h, maxHistory)| == maxHistory + 1
    ensures Trimmed(h, maxHistory)[k] == TrimmedAt(h, maxHistory, k)
  {
  }

  /** The newest message is never trimmed away while MaxHistory is positive. */
  lemma TrimmedKeepsNewest(h: seq<Message>, maxHistory: int)
    requires maxHistory >= 1 && h != []
    ensures Trimmed(h, maxHistory) != [] && Trimmed(h, maxHistory)[|Trimmed(h, maxHistory)| - 1] == h[|h| - 1]
  {
  }

  /** Trimming again changes nothing. */
  lemma TrimmedIdempotent(h: seq<Message>, maxHistory: int)
    requires maxHistory >= -1
    ensures Trimmed(Trimmed(h, maxHistory), maxHistory) == Trimmed(h, maxHistory)
  {
  }

  class Session {
    var config: SessionConfig
    var history: seq<Message>
    var last: int          // time of the last change; clock readings are parameters
    var totalchars: int
    /** Every message ever added, trimmed or not. */
    ghost var added: seq<Message>

    /** The character total counts every message added, once. */
    ghost predicate Valid()
      reads this
    {
      totalchars == TotalLength(added)
    }

    constructor (config: SessionConfig, now: int)
      ensures Valid()
      ensures this.config == config && history == [] && last == now && totalchars == 0 && added == []
    {
      this.config := config;
      history := [];
      last := now;
      totalchars := 0;
      added := [];
    }

    /** A copy of the history; the session is not changed. */
    method GetHistory() returns (h: seq<Message>)
      ensures h == history
    {
      h := history;
    }

    /** addMessage: append one message and count its characters. */
    method AppendMessage(role: string, message: string, now: int)
      modifies this
      ensures history == old(history) + [Message(role, message)]
      ensures added == old(added) + [Message(role, message)]
      ensures totalchars == old(totalchars) + |message|
      ensures last == now && config == old(config)
      ensures old(Valid()) ==> Valid()
    {
      TotalLengthSnoc(added, Message(role, message));
      history := history + [Message(role, message)];
      added := added + [Message(role, message)];
      totalchars := totalchars + |message|;
      last := now;
    }

    /**
     * initialMessages as written: an empty history gets the opening system
     * messages, and each one's length is added to the total twice, once by
     * addMessage and once more by the explicit addition after it.
     */
    method InitialMessagesAsWritten(now: int)
      modifies this
      ensures config == old(config)
      ensures old(history) != [] ==>
        history == old(history) && added == old(added) && totalchars == old(totalchars) && last == old(last)
      ensures old(history) == [] ==> (
        && history == Opening(config) && added == old(added) + Opening(config)
        && totalchars == old(totalchars) + 2 * TotalLength(Opening(config)))
      ensures old(Valid()) && old(history) == [] && config.prompt != "" ==> !Valid()
    {
      if |history| != 0 {
        return;
      }
      AppendCountedTwice(config.prompt, now);
      if config.reactMode {
        AppendCountedTwice(config.reactPrompt, now);
      }
      OpeningLength(config);
      OpeningTotal(old(added), config);
    }

    /** One opening message as initialMessages adds it: addMessage, then its length once more. */
    method AppendCountedTwice(message: string, now: int)
      modifies this
      ensures history == old(history) + [Message(RoleSystem, message)]
      ensures added == old(added) + [Message(RoleSystem, message)]
      ensures totalchars == old(totalchars) + 2 * |message|
      ensures last == now && config == old(config)
    {
      AppendMessage(RoleSystem, message, now);
      totalchars := totalchars + |message|;
    }

    /** initialMessages as intended: every opening message is counted once. */
    method InitialMessages(now: int)
      modifies this
      ensures config == old(config)
      ensures old(history) != [] ==>
        history == old(history) && added == old(added) && totalchars == old(totalchars) && last == old(last)
      ensures old(history) == [] ==> history == Opening(config) && added == old(added) + Opening(config)
      ensures old(Valid()) ==> Valid()
    {
      if |history| != 0 {
        return;
      }
      AppendMessage(RoleSystem, config.prompt, now);
      if config.reactMode {
        AppendMessage(RoleSystem, config.reactPrompt, now);
      }
    }

    /** Keep the first message and the last MaxHistory messages, shifting them down in place. */
    method TrimHistory()
      requires config.maxHistory >= -1
      modifies this`history
      ensures history == Trimmed(old(history), config.maxHistory)
    {
      var max := config.maxHistory;
      if |history| <= max {
        return;
      }
      if max < 0 {
        history := history[..0];
        return;
      }
      ghost var h0 := history;
      var rm := |history| - max;
      var i := 1;
      while i <= max
        invariant 1 <= i <= max + 1
        invariant |history| == |h0| && history[0] == h0[0]
        invariant forall j :: 1 <= j < i ==> history[j] == h0[j + rm - 1]
        invariant forall j :: i <= j < |history| ==> history[j] == h0[j]
      {
        history := history[i := history[i + rm - 1]];
        i := i + 1;
      }
      history := history[..max + 1];
      forall k | 0 <= k <= max
        ensures history[k] == Trimmed(h0, max)[k]
      {
        TrimmedIndex(h0, max, k);
      }
      TrimmedIndex(h0, max, 0);
    }

    /**
     * Add a message as written: open an empty history with the system
     * prompt (only then), append the message and trim. The opening messages
     * are counted twice, so the total no longer matches the messages added.
     */
    method AddMessage(role: string, message: string, now: int)
      requires config.maxHistory >= -1
      modifies this
      ensures config == old(config) && last == now
      ensures history == Trimmed(
        (if old(history) == [] then Opening(config) else old(history)) + [Message(role, message)],
        config.maxHistory)
      ensures added == old(added) + (if old(history) == [] then Opening(config) else []) + [Message(role, message)]
      ensures totalchars ==
        old(totalchars) + (if old(history) == [] then 2 * TotalLength(Opening(config)) else 0) + |message|
      ensures old(Valid()) && old(history) != [] ==> Valid()
      ensures old(Valid()) && old(history) == [] && config.prompt != "" ==> !Valid()
    {
      InitialMessagesAsWritten(now);
      AppendMessage(role, message, now);
      TrimHistory();
      if old(history) == [] {
        OpeningTotal(old(added), config);
        TotalLengthSnoc(old(added) + Opening(config), Message(role, message));
      }
    }

    /**
     * Add a message as intended: the same history, with every opening
     * message counted once, so the total stays the length of all messages
     * added.
     */
    method AddMessageIntended(role: string, message: string, now: int)
      requires config.maxHistory >= -1
      modifies this
      ensures config == old(config) && last == now
      ensures history == Trimmed(
        (if old(history) == [] then Opening(config) else old(history)) + [Message(role, message)],
        config.maxHistory)
      ensures added == old(added) + (if old(history) == [] then Opening(config) else []) + [Message(role, message)]
      ensures old(Valid()) ==> Valid()
    {
      InitialMessages(now);
      AppendMessage(role, message, now);
      TrimHistory();
    }

    /** Start over with `newConfig` (the configuration reload is not part of this model). */
    method Reset(newConfig: SessionConfig, now: int)
      modifies this
      ensures config == newConfig && history == [] && last == now
      ensures totalchars == old(totalchars) && added == old(added)
      ensures old(Valid()) ==> Valid()
    {
      config := newConfig;
      history := history[..0];
      last := now;
    }
  }

  lemma OpeningTotal(before: seq<Message>, config: SessionConfig)
    ensures TotalLength(before + Opening(config)) == TotalLength(before) + TotalLength(Opening(config))
  {
    var p := Message(RoleSystem, config.prompt);
    TotalLengthSnoc(before, p);
    TotalLengthSnoc([], p);
    if config.reactMode {
      var r := Message(RoleSystem, config.reactPrompt);
      assert before + Opening(config) == (before + [p]) + [r];
      TotalLengthSnoc(before + [p], r);
      TotalLengthSnoc([p], r);
    }
  }

  /** The openings are as long as the prompt, plus the ReAct prompt in ReAct mode. */
  lemma OpeningLength(config: SessionConfig)
    ensures TotalLength(Opening(config)) ==
      |config.prompt| + (if config.reactMode then |config.reactPrompt| else 0)
  {
    var p := Message(RoleSystem, config.prompt);
    TotalLengthSnoc([], p);
    assert [p] == [] + [p];
    if config.reactMode {
      TotalLengthSnoc([p], Message(RoleSystem, config.reactPrompt));
    }
  }

  /**
   * The first message of a fresh session with system prompt "hi": the
   * history holds four characters, but the written code totals six.
   */
  method PromptCountedTwice() returns (total: int, length: nat)
    ensures length == 4 && total == 6
  {
    var session := new Session(SessionConfig("hi", 10, false, ""), 0);
    session.AddMessage(RoleUser, "yo", 1);
    var h := session.GetHistory();
    assert Opening(session.config) == [Message(RoleSystem, "hi")];
    assert h == [Message(RoleSystem, "hi"), Message(RoleUser, "yo")];
    TotalLengthSnoc([], Message(RoleSystem, "hi"));
    TotalLengthSnoc([Message(RoleSystem, "hi")], Message(RoleUser, "yo"));
    assert [Message(RoleSystem, "hi")] == [] + [Message(RoleSystem, "hi")];
    total := session.totalchars;
    length := TotalLength(h);
  }
}
