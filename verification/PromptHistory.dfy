/**
 The parts of a conversation given back to the model: the recent messages within a budget
 (conversation-manager.service.ts) and the visible history of the planner (cited-records.ts).
 */
module PromptHistory {

  // ----- recent messages -----

  datatype Role = User | Assistant | System

  /** A stored message; `shown` is its text as written in a prompt. */
  datatype Message = Message(role: Role, shown: string)

  datatype Prompt = Prompt(role: Role, content: string)

  /** About four characters a token. */
  function EstimateTokens(text: string): (n: nat)
    ensures 4 * n >= |text| > 4 * (n - 1)
  {
    (|text| + 3) / 4
  }

  function Spoken(messages: seq<Message>): seq<Message> {
    if messages == [] then []
    else Spoken(messages[..|messages| - 1]) + if messages[|messages| - 1].role.System? then []
      else [messages[|messages| - 1]]
  }

  function Tokens(messages: seq<Message>): nat {
    if messages == [] then 0 else Tokens(messages[..|messages| - 1]) + EstimateTokens(messages[|messages| - 1].shown)
  }

  /** Oldest first. */
  function Shown(messages: seq<Message>): (r: seq<Prompt>)
    ensures |r| == |messages|
    ensures forall i ::
        0 <= i < |r| ==> r[i] == Prompt(messages[|messages| - 1 - i].role, messages[|messages| - 1 - i].shown)
  {
    if messages == [] then []
      else [Prompt(messages[|messages| - 1].role, messages[|messages| - 1].shown)] + Shown(messages[..|messages| - 1])
  }

  function Fetched(messages: seq<Message>, maxMessages: nat): (r: seq<Message>)
    ensures r <= messages && |r| <= 3 * maxMessages && (r == messages || |r| == 3 * maxMessages)
  {
    messages[..if 3 * maxMessages <= |messages| then 3 * maxMessages else |messages|]
  }

  /** The `n` most recent messages: as many as both limits allow, one at least when there may be one. */
  predicate Fits(spoken: seq<Message>, n: nat, maxMessages: nat, maxTokens: nat) {
    && n <= |spoken| && n <= maxMessages
    && (n > 1 ==> Tokens(spoken[..n]) <= maxTokens)
    && (n < |spoken| && n < maxMessages ==> n > 0 && Tokens(spoken[..n + 1]) > maxTokens)
  }

  /** The history is those `n` messages, oldest first. */
  ghost predicate IsRecent(spoken: seq<Message>, n: nat, maxMessages: nat, maxTokens: nat, history: seq<Prompt>) {
    Fits(spoken, n, maxMessages, maxTokens) && history == Shown(spoken[..n])
  }

  lemma {:induction false} SpokenStep(messages: seq<Message>, k: nat)
    requires k < |messages|
    ensures Spoken(messages[..k + 1]) == Spoken(messages[..k]) + if messages[k].role.System? then [] else [messages[k]]
  {
    assert messages[..k + 1][..k] == messages[..k];
  }

  /** What is said first stays first. */
  lemma {:induction false} SpokenIsPrefix(messages: seq<Message>, k: nat)
    requires k <= |messages|
    ensures Spoken(messages[..k]) <= Spoken(messages)
    decreases |messages| - k
  {
    if k < |messages| {
      SpokenStep(messages, k);
      SpokenIsPrefix(messages, k + 1);
    } else {
      assert messages[..k] == messages;
    }
  }

  lemma {:induction false} TokensStep(messages: seq<Message>, n: nat)
    requires n < |messages|
    ensures Tokens(messages[..n + 1]) == Tokens(messages[..n]) + EstimateTokens(messages[n].shown)
  {
    assert messages[..n + 1][..n] == messages[..n];
  }

  /** Nothing more is taken once a limit is reached. */
  lemma {:induction false} StopsAtLimit(fetched: seq<Message>, k: nat, maxMessages: nat, maxTokens: nat)
    requires k < |fetched| && !fetched[k].role.System?
    requires var selected := Spoken(fetched[..k]);
      && |selected| <= maxMessages && (|selected| > 1 ==> Tokens(selected) <= maxTokens)
      && (|selected| >= maxMessages
        || (|selected| > 0 && Tokens(selected) + EstimateTokens(fetched[k].shown) > maxTokens))
    ensures Spoken(fetched[..k]) <= Spoken(fetched)
    ensures Fits(Spoken(fetched), |Spoken(fetched[..k])|, maxMessages, maxTokens)
  {
    hide Spoken, Tokens, EstimateTokens;
    var selected, spoken := Spoken(fetched[..k]), Spoken(fetched);
    SpokenStep(fetched, k);
    SpokenIsPrefix(fetched, k);
    SpokenIsPrefix(fetched, k + 1);
    assert spoken[..|selected|] == selected && spoken[..|selected| + 1] == selected + [fetched[k]];
    TokensStep(spoken, |selected|);
  }

  lemma {:induction false} TokensAppend(selected: seq<Message>, msg: Message)
    ensures Tokens(selected + [msg]) == Tokens(selected) + EstimateTokens(msg.shown)
  {
    assert (selected + [msg])[..|selected|] == selected;
  }

  /** `getRecentHistoryForPrompt`; the messages are those of the conversation, the last one first. */
  method RecentHistory(messages: seq<Message>, maxMessages: nat, maxTokens: nat) returns (history: seq<Prompt>)
    ensures exists n :: IsRecent(Spoken(Fetched(messages, maxMessages)), n, maxMessages, maxTokens, history)
  {
    hide Spoken, Tokens, Shown, Fetched, Fits, EstimateTokens;
    var fetched := Fetched(messages, maxMessages);
    var selected: seq<Message> := [];
    var tokens := 0;
    NothingYet(fetched);
    for k := 0 to |fetched|
      invariant selected == Spoken(fetched[..k]) && |selected| <= maxMessages
      invariant tokens == Tokens(selected) && (|selected| > 1 ==> tokens <= maxTokens)
    {
      var msg := fetched[k];
      SpokenStep(fetched, k);
      if msg.role.System? { continue; }
      var messageTokens := EstimateTokens(msg.shown);
      if |selected| >= maxMessages || (|selected| > 0 && tokens + messageTokens > maxTokens) {
        StopsAtLimit(fetched, k, maxMessages, maxTokens);
        assert IsRecent(Spoken(fetched), |selected|, maxMessages, maxTokens, Shown(selected));
        return Shown(selected);
      }
      TokensAppend(selected, msg);
      selected := selected + [msg];
      tokens := tokens + messageTokens;
    }
    assert fetched[..|fetched|] == fetched;
    AllFit(selected, maxMessages, maxTokens);
    assert selected[..|selected|] == selected;
    history := Shown(selected);
    assert IsRecent(selected, |selected|, maxMessages, maxTokens, history);
  }

  lemma {:induction false} NothingYet(fetched: seq<Message>)
    ensures Spoken(fetched[..0]) == [] && Tokens([]) == 0
  {
  }

  lemma {:induction false} AllFit(spoken: seq<Message>, maxMessages: nat, maxTokens: nat)
    requires |spoken| <= maxMessages && (|spoken| > 1 ==> Tokens(spoken) <= maxTokens)
    ensures Fits(spoken, |spoken|, maxMessages, maxTokens)
  {
    assert spoken[..|spoken|] == spoken;
  }

  // ----- history of the planner -----

  const SEPARATOR := "\n---\n"

  function JoinBlocks(blocks: seq<string>): string {
    if blocks == [] then [] else if |blocks| == 1 then blocks[0] else blocks[0] + SEPARATOR + JoinBlocks(blocks[1..])
  }

  /** `blocks.slice(-n)`: without a limit of at least one, `-0` keeps them all. */
  function LastBlocks(blocks: seq<string>, n: nat): seq<string> {
    if n == 0 || n >= |blocks| then blocks else blocks[|blocks| - n..]
  }

  /** The text of the last `n` blocks, the last one cut when it is alone and too long. */
  function Kept(blocks: seq<string>, n: nat, maxChars: nat): seq<string>
    requires n <= |blocks|
  {
    if n == 0 then []
    else
      var last := blocks[|blocks| - 1];
      blocks[|blocks| - n..|blocks| - 1] + [if |last| <= maxChars then last else last[..maxChars]]
  }

  lemma {:induction false} JoinedLength(blocks: seq<string>)
    ensures |JoinBlocks(blocks)| == Lengths(blocks) - if blocks == [] then 0 else 5
  {
    if |blocks| > 1 { JoinedLength(blocks[1..]); }
  }

  /** The lengths of the blocks, five more for each. */
  function Lengths(blocks: seq<string>): nat {
    if blocks == [] then 0 else |blocks[0]| + 5 + Lengths(blocks[1..])
  }

  /** As many of the last blocks as the limit allows; one more would be too long. */
  predicate Fills(blocks: seq<string>, n: nat, maxChars: nat) {
    && n <= |blocks| && (blocks != [] ==> n > 0)
    && (n > 1 ==> |JoinBlocks(blocks[|blocks| - n..])| <= maxChars)
    && (n < |blocks| ==> |JoinBlocks(blocks[|blocks| - n - 1..])| > maxChars)
  }

  lemma {:induction false} KeptStep(blocks: seq<string>, n: nat, maxChars: nat)
    requires n < |blocks| && (n > 0 ==> |blocks[|blocks| - 1 - n]| <= maxChars)
    ensures var block := blocks[|blocks| - 1 - n]; var cut := if |block| <= maxChars then block else block[..maxChars];
      Kept(blocks, n + 1, maxChars) == [cut] + Kept(blocks, n, maxChars)
  {
    var block := blocks[|blocks| - 1 - n];
    if n > 0 {
      assert blocks[|blocks| - n - 1..|blocks| - 1] == [block] + blocks[|blocks| - n..|blocks| - 1];
    } else {
      assert blocks[|blocks| - 1..|blocks| - 1] == [];
    }
  }

  lemma {:induction false} LengthsStep(blocks: seq<string>, n: nat)
    requires n < |blocks|
    ensures var block := blocks[|blocks| - 1 - n];
      && Lengths(blocks[|blocks| - n - 1..]) == |block| + 5 + Lengths(blocks[|blocks| - n..])
      && |JoinBlocks(blocks[|blocks| - n - 1..])| == |block| + Lengths(blocks[|blocks| - n..])
  {
    var rest := blocks[|blocks| - n - 1..];
    assert rest[1..] == blocks[|blocks| - n..];
    JoinedLength(rest);
  }

  /** The text is that of the last `n` blocks. */
  ghost predicate IsFormatted(blocks: seq<string>, n: nat, maxChars: nat, text: string) {
    Fills(blocks, n, maxChars) && text == JoinBlocks(Kept(blocks, n, maxChars))
  }

  /** `formatHistoryForPlanner`, from the blocks of the messages on. */
  method FormatHistory(history: seq<string>, maxMessages: nat, maxChars: nat) returns (text: string)
    ensures exists n :: IsFormatted(LastBlocks(history, maxMessages), n, maxChars, text)
  {
    hide Kept, Lengths, JoinBlocks, LastBlocks;
    var blocks := LastBlocks(history, maxMessages);
    var kept: seq<string> := [];
    var size := 0;
    var i := 0;
    NothingKept(blocks, maxChars);
    while i < |blocks|
      invariant i <= |blocks| && kept == Kept(blocks, i, maxChars) && (i == 0 <==> kept == [])
      invariant size == Lengths(blocks[|blocks| - i..])
      invariant i > 1 ==> size - 5 <= maxChars
    {
      var block := blocks[|blocks| - 1 - i];
      LengthsStep(blocks, i);
      if |kept| > 0 && size + |block| > maxChars { break; }
      KeptStep(blocks, i, maxChars);
      kept := [if |block| <= maxChars then block else block[..maxChars]] + kept;
      size := size + |block| + 5;
      i := i + 1;
    }
    JoinedLength(blocks[|blocks| - i..]);
    text := JoinBlocks(kept);
    assert IsFormatted(blocks, i, maxChars, text);
  }

  lemma {:induction false} NothingKept(blocks: seq<string>, maxChars: nat)
    ensures Kept(blocks, 0, maxChars) == [] && Lengths(blocks[|blocks| - 0..]) == 0
  {
  }

  /** The text never exceeds the limit, separators included. */
  lemma {:induction false} HistoryFits(blocks: seq<string>, n: nat, maxChars: nat)
    requires Fills(blocks, n, maxChars)
    ensures |JoinBlocks(Kept(blocks, n, maxChars))| <= maxChars
    ensures n > 1 ==> Kept(blocks, n, maxChars) == blocks[|blocks| - n..]
  {
    if n > 1 {
      hide JoinBlocks;
      var suffix, last := blocks[|blocks| - n..], blocks[|blocks| - 1];
      JoinedLength(suffix);
      LastIsShorter(suffix);
      assert suffix == blocks[|blocks| - n..|blocks| - 1] + [last];
    } else if n == 1 {
      assert blocks[|blocks| - 1..|blocks| - 1] == [];
    }
  }

  lemma {:induction false} LastIsShorter(blocks: seq<string>)
    requires blocks != []
    ensures |blocks[|blocks| - 1]| + 5 <= Lengths(blocks)
  {
    if |blocks| > 1 { LastIsShorter(blocks[1..]); }
  }

  lemma {:induction false} JoinedIsLonger(blocks: seq<string>)
    requires |blocks| > 1
    ensures |JoinBlocks(blocks)| > 0
  {
  }

  /** The text never holds more messages than asked for, however long it may be, unless none was asked for. */
  lemma {:induction false} LimitIsKeptIff(history: seq<string>, maxMessages: nat)
    ensures |LastBlocks(history, maxMessages)| <= maxMessages <==> maxMessages > 0 || history == []
    ensures (forall n: nat, maxChars: nat :: Fills(LastBlocks(history, maxMessages), n, maxChars) ==> n <= maxMessages)
      <==> maxMessages > 0 || history == []
  {
    hide JoinBlocks;
    if maxMessages == 0 && history != [] {
      var blocks := LastBlocks(history, 0);
      if |blocks| > 1 { JoinedIsLonger(blocks[|blocks| - 2..]); }
      assert Fills(blocks, 1, 0);
    }
  }
}
