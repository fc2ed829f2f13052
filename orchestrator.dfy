/** The turn orchestrator of cascade/core/orchestrator.py. Each model client is an
    oracle: on turn t it is handed a prompt and a history and returns `replies[t]`,
    either a stream of cumulative snapshots with the client's full message list,
    or an exception. The state manager is an abstract sink that records every
    `(llm_key, response)` committed through `append_message`. */
module Orchestration {
  import opened Results
  import opened Models
  import opened Streaming
  import opened Turns
  import opened Text

  const EMPTY_HISTORY_ERROR := "At least one message is required in history"

  /** The provider-native message history (pydantic_ai's ModelMessage). */
  datatype RequestPart = SystemPromptPart(content: string) | UserPromptPart(content: string)
  datatype ResponsePart = TextPart(content: string)
  datatype ModelMessage =
    | ModelRequest(parts: seq<RequestPart>)
    | ModelResponse(responseParts: seq<ResponsePart>)

  /** The history entries built from one seed message: a request for a user
      message (with the system prompt in front when `first`), a response for an
      assistant message, nothing for any other role. */
  function EntryFor(msg: Message, first: bool, sysPrompt: string): seq<ModelMessage>
  {
    if msg.role == USER then
      [ModelRequest((if first then [SystemPromptPart(sysPrompt)] else []) + [UserPromptPart(msg.content)])]
    else if msg.role == ASSISTANT then
      [ModelResponse([TextPart(msg.content)])]
    else []
  }

  /** The list the loop of `_build_initial_history` builds from `prefix`. */
  function Converted(prefix: seq<Message>, sysPrompt: string): seq<ModelMessage>
  {
    if prefix == [] then []
    else Converted(prefix[..|prefix| - 1], sysPrompt) + EntryFor(prefix[|prefix| - 1], |prefix| == 1, sysPrompt)
  }

  /** `_build_initial_history`: fails on an empty seed; a single message is the
      prompt with no history; otherwise the last message is the prompt and the
      others become the history, `None` when no entry was built. */
  function InitialHistory(messages: seq<Message>, sysPrompt: string): (r: Result<(string, Option<seq<ModelMessage>>)>)
    ensures r.Failure? <==> messages == []
    ensures r.Failure? ==> r.error == ValueError(EMPTY_HISTORY_ERROR)
    ensures r.Success? ==> r.value.0 == messages[|messages| - 1].content
    ensures r.Success? && r.value.1.Some? ==> |messages| >= 2 && r.value.1.value != []
  {
    if |messages| == 0 then Failure(ValueError(EMPTY_HISTORY_ERROR))
    else if |messages| == 1 then Success((messages[0].content, None))
    else
      var built := Converted(messages[..|messages| - 1], sysPrompt);
      Success((messages[|messages| - 1].content, if built == [] then None else Some(built)))
  }

  /** `_build_initial_history` as the source writes it: a loop over
      `messages[:-1]` appending to a local list. */
  method BuildInitialHistory(messages: seq<Message>, sysPrompt: string)
    returns (r: Result<(string, Option<seq<ModelMessage>>)>)
    ensures r == InitialHistory(messages, sysPrompt)
  {
    if |messages| == 0 {
      return Failure(ValueError(EMPTY_HISTORY_ERROR));
    }
    if |messages| == 1 {
      return Success((messages[0].content, None));
    }
    var prefix := messages[..|messages| - 1];
    var modelMessages: seq<ModelMessage> := [];
    var i := 0;
    while i < |prefix|
      invariant 0 <= i <= |prefix|
      invariant modelMessages == Converted(prefix[..i], sysPrompt)
    {
      assert prefix[..i + 1][..i] == prefix[..i];
      assert Converted(prefix[..i + 1], sysPrompt) ==
        Converted(prefix[..i], sysPrompt) + EntryFor(prefix[i], i == 0, sysPrompt);
      var msg := prefix[i];
      if msg.role == USER {
        var parts := [UserPromptPart(msg.content)];
        if i == 0 {
          parts := [SystemPromptPart(sysPrompt)] + parts;
        }
        assert parts == (if i == 0 then [SystemPromptPart(sysPrompt)] else []) + [UserPromptPart(msg.content)];
        modelMessages := modelMessages + [ModelRequest(parts)];
      } else if msg.role == ASSISTANT {
        modelMessages := modelMessages + [ModelResponse([TextPart(msg.content)])];
      }
      i := i + 1;
    }
    assert prefix[..i] == prefix;
    r := Success((messages[|messages| - 1].content, if modelMessages == [] then None else Some(modelMessages)));
  }

  /** An independent description of the built history. */
  predicate Kept(msg: Message)
  {
    msg.role == USER || msg.role == ASSISTANT
  }

  /** The user and assistant messages of `s`, in order. */
  function KeptMessages(s: seq<Message>): (k: seq<Message>)
    ensures |k| <= |s|
  {
    if s == [] then []
    else KeptMessages(s[..|s| - 1]) + (if Kept(s[|s| - 1]) then [s[|s| - 1]] else [])
  }

  function Shape(msg: Message, withSystem: bool, sysPrompt: string): ModelMessage
  {
    if msg.role == USER then
      ModelRequest((if withSystem then [SystemPromptPart(sysPrompt)] else []) + [UserPromptPart(msg.content)])
    else ModelResponse([TextPart(msg.content)])
  }

  /** One entry per user or assistant message, in order; the system prompt goes
      only into the entry for index 0, and only when that message is a user
      message. */
  function ReferenceHistory(prefix: seq<Message>, sysPrompt: string): seq<ModelMessage>
  {
    var kept := KeptMessages(prefix);
    seq(|kept|, j requires 0 <= j < |kept| =>
      Shape(kept[j], j == 0 && |prefix| > 0 && prefix[0].role == USER, sysPrompt))
  }

  /** When the first message is dropped, so are all messages before the first
      kept one: an empty kept list means the first message was not kept. */
  lemma {:induction false} KeptMessagesStartsAtFirst(s: seq<Message>)
    requires |s| > 0 && Kept(s[0])
    ensures |KeptMessages(s)| > 0 && KeptMessages(s)[0] == s[0]
    decreases |s|
  {
    if |s| > 1 {
      var init := s[..|s| - 1];
      assert init[0] == s[0];
      KeptMessagesStartsAtFirst(init);
    }
  }

  /** The loop builds exactly the reference history. */
  lemma {:induction false} ConvertedMatchesReference(prefix: seq<Message>, sysPrompt: string)
    ensures Converted(prefix, sysPrompt) == ReferenceHistory(prefix, sysPrompt)
    decreases |prefix|
  {
    if prefix != [] {
      var init := prefix[..|prefix| - 1];
      var last := prefix[|prefix| - 1];
      ConvertedMatchesReference(init, sysPrompt);
      var keptInit := KeptMessages(init);
      var kept := KeptMessages(prefix);
      assert kept == keptInit + (if Kept(last) then [last] else []);
      var refInit := ReferenceHistory(init, sysPrompt);
      var ref := ReferenceHistory(prefix, sysPrompt);
      if |init| > 0 {
        assert init[0] == prefix[0];
      }
      assert forall j :: 0 <= j < |keptInit| ==> ref[j] == refInit[j];
      if Kept(last) {
        var j := |keptInit|;
        if |prefix| > 1 && j == 0 && prefix[0].role == USER {
          KeptMessagesStartsAtFirst(init);
        }
        assert ref[j] == Shape(last, |prefix| == 1 && last.role == USER, sysPrompt);
        assert ref == refInit + [ref[j]];
      } else {
        assert ref == refInit;
      }
    }
  }

  /** What `_build_initial_history` returns, stated against the reference:
      ValueError on an empty seed, the single message's content with no history,
      or else the last message's content and the reference history of the rest,
      `None` exactly when no user or assistant message precedes it. The history
      never has more entries than there are messages before the prompt. */
  lemma InitialHistoryShape(messages: seq<Message>, sysPrompt: string)
    ensures |messages| == 0 ==> InitialHistory(messages, sysPrompt) == Failure(ValueError(EMPTY_HISTORY_ERROR))
    ensures |messages| == 1 ==> InitialHistory(messages, sysPrompt) == Success((messages[0].content, None))
    ensures |messages| >= 2 ==>
      var prefix := messages[..|messages| - 1];
      var ref := ReferenceHistory(prefix, sysPrompt);
      && InitialHistory(messages, sysPrompt) ==
           Success((messages[|messages| - 1].content, if KeptMessages(prefix) == [] then None else Some(ref)))
      && |ref| <= |messages| - 1
  {
    if |messages| >= 2 {
      ConvertedMatchesReference(messages[..|messages| - 1], sysPrompt);
    }
  }

  /** The system prompt appears only in the first built entry, and only when the
      first seed message is a user message. */
  lemma SystemPromptOnlyFirst(messages: seq<Message>, sysPrompt: string, j: nat)
    requires |messages| >= 2
    requires InitialHistory(messages, sysPrompt).value.1.Some?
    requires j < |InitialHistory(messages, sysPrompt).value.1.value|
    ensures var entry := InitialHistory(messages, sysPrompt).value.1.value[j];
      entry.ModelRequest? && SystemPromptPart(sysPrompt) in entry.parts ==>
        j == 0 && messages[0].role == USER
  {
    var prefix := messages[..|messages| - 1];
    ConvertedMatchesReference(prefix, sysPrompt);
    var kept := KeptMessages(prefix);
    var entry := Shape(kept[j], j == 0 && |prefix| > 0 && prefix[0].role == USER, sysPrompt);
    assert InitialHistory(messages, sysPrompt).value.1.value[j] == entry;
    if entry.ModelRequest? && !(j == 0 && prefix[0].role == USER) {
      assert entry.parts == [UserPromptPart(kept[j].content)];
    }
  }

  /** `_process_human_input`: `typed` is the line the operator typed, `None`
      when the prompt was interrupted. The display returns the line stripped
      (cascade/core/display.py:40), and a line that is empty once stripped
      counts as no input. The note that comes back is never padded with
      whitespace. */
  function HumanInput(enabled: bool, typed: Option<string>): (h: Option<string>)
    ensures h.Some? ==> enabled && h.value != [] && !IsSpace(h.value[0]) && !IsSpace(h.value[|h.value| - 1])
    ensures h.Some? ==> typed.Some? && h.value == Strip(typed.value)
  {
    if !enabled then None
    else if typed.Some? && Strip(typed.value) != "" then Some(Strip(typed.value))
    else None
  }

  /** The prompt after the optional human annotation. */
  function Annotated(prompt: string, human: Option<string>): string
  {
    match human
    case None => prompt
    case Some(x) => prompt + "\n\n<HUMAN>" + x + "</HUMAN>\n"
  }

  /** The prompt gains a `<HUMAN>` annotation, holding the stripped line,
      exactly when human-in-the-loop is on and the operator typed something
      other than whitespace; otherwise, a whitespace-only line included, it is
      unchanged. */
  lemma AnnotationOnlyForTypedInput(prompt: string, enabled: bool, typed: Option<string>)
    ensures enabled && typed.Some? && Strip(typed.value) != "" ==>
      Annotated(prompt, HumanInput(enabled, typed)) == prompt + "\n\n<HUMAN>" + Strip(typed.value) + "</HUMAN>\n"
    ensures !(enabled && typed.Some? && Strip(typed.value) != "") ==>
      Annotated(prompt, HumanInput(enabled, typed)) == prompt
    ensures typed.Some? && (forall k | 0 <= k < |typed.value| :: IsSpace(typed.value[k])) ==>
      Annotated(prompt, HumanInput(enabled, typed)) == prompt
  {
    if typed.Some? {
      StripDropsOnlySpace(typed.value);
    }
  }

  /** What a client does on one turn. */
  datatype Reply =
    | Streamed(snapshots: seq<string>, allMessages: seq<ModelMessage>)
    | Raised(reason: string)

  /** One invocation of `agent.run_stream(prompt, message_history=history)`. */
  datatype AgentCall = AgentCall(llmKey: LlmKey, prompt: string, history: Option<seq<ModelMessage>>)

  /** The orchestrator's observable state: the two entries of `histories`,
      the calls made to the clients and the responses committed to the state
      manager. */
  datatype Session = Session(
    history1: Option<seq<ModelMessage>>,
    history2: Option<seq<ModelMessage>>,
    calls: seq<AgentCall>,
    appended: seq<(LlmKey, string)>)

  /** `histories[llm_key]`. */
  function HistoryOf(s: Session, llmKey: LlmKey): Option<seq<ModelMessage>>
  {
    match llmKey
    case Llm1 => s.history1
    case Llm2 => s.history2
  }

  /** `histories[llm_key] = h`. */
  function WithHistory(s: Session, llmKey: LlmKey, h: Option<seq<ModelMessage>>): Session
  {
    match llmKey
    case Llm1 => s.(history1 := h)
    case Llm2 => s.(history2 := h)
  }

  /** `_generate_response`: call the client with the model's stored history;
      on success the committed text is the last snapshot and the stored history
      becomes the client's full message list. */
  function Generated(s: Session, llmKey: LlmKey, prompt: string, reply: Reply): (Session, Result<string>)
  {
    var called := s.(calls := s.calls + [AgentCall(llmKey, prompt, HistoryOf(s, llmKey))]);
    match reply
    case Raised(reason) => (called, Failure(AgentFailure(reason)))
    case Streamed(snapshots, all) => (WithHistory(called, llmKey, Some(all)), Success(LastSnapshot(snapshots)))
  }

  /** One turn of `converse`: generate, then hand the response to the state
      manager. The result carries the next prompt, i.e. the response. */
  function Turn(s: Session, llmKey: LlmKey, prompt: string, reply: Reply): (Session, Result<string>)
  {
    var g := Generated(s, llmKey, prompt, reply);
    if g.1.Failure? then g
    else (g.0.(appended := g.0.appended + [(llmKey, g.1.value)]), g.1)
  }

  /** The state and the current prompt after the first k turns, stopping at the
      first client failure. */
  function Run(s: Session, prompt: string, enabled: bool, typed: seq<Option<string>>,
               replies: seq<Reply>, k: nat): (Session, Result<string>)
    requires k <= |typed| && k <= |replies|
    decreases k
  {
    if k == 0 then (s, Success(prompt))
    else
      var prev := Run(s, prompt, enabled, typed, replies, k - 1);
      if prev.1.Failure? then prev
      else Turn(prev.0, KeyOf(k - 1), Annotated(prev.1.value, HumanInput(enabled, typed[k - 1])), replies[k - 1])
  }

  /** `converse`: build the initial history, give it to llm1, then run every
      turn. */
  function ConverseSpec(s: Session, seed: seq<Message>, sysPrompt: string, enabled: bool, rounds: int,
                        typed: seq<Option<string>>, replies: seq<Reply>): (Session, Outcome)
    requires |typed| == TurnCount(rounds) && |replies| == TurnCount(rounds)
  {
    match InitialHistory(seed, sysPrompt)
    case Failure(e) => (s, Fail(e))
    case Success(start) =>
      var s1 := s.(history1 := start.1);
      var res := Run(s1, start.0, enabled, typed, replies, TurnCount(rounds));
      (res.0, if res.1.Success? then Pass else Fail(res.1.error))
  }

  /** One more turn after a successful run of k turns. */
  lemma RunNext(s: Session, prompt: string, enabled: bool,
                typed: seq<Option<string>>, replies: seq<Reply>, k: nat)
    requires k < |typed| && k < |replies|
    requires Run(s, prompt, enabled, typed, replies, k).1.Success?
    ensures var prev := Run(s, prompt, enabled, typed, replies, k);
      Run(s, prompt, enabled, typed, replies, k + 1) ==
        Turn(prev.0, KeyOf(k), Annotated(prev.1.value, HumanInput(enabled, typed[k])), replies[k])
  {
  }

  /** Once a turn fails, later turns change nothing: the session stops there. */
  lemma {:induction false} RunStaysFailed(s: Session, prompt: string, enabled: bool,
                                          typed: seq<Option<string>>, replies: seq<Reply>, k: nat, n: nat)
    requires k <= n <= |typed| && n <= |replies|
    requires Run(s, prompt, enabled, typed, replies, k).1.Failure?
    ensures Run(s, prompt, enabled, typed, replies, n) == Run(s, prompt, enabled, typed, replies, k)
    decreases n
  {
    if n > k {
      RunStaysFailed(s, prompt, enabled, typed, replies, k, n - 1);
    }
  }

  predicate AllStreamed(replies: seq<Reply>, k: nat)
  {
    forall t :: 0 <= t < k && t < |replies| ==> replies[t].Streamed?
  }

  /** The prompt of turn t before annotation: the initial prompt, then each
      previous response. */
  function PromptBefore(prompt: string, replies: seq<Reply>, t: nat): string
    requires t <= |replies|
    requires t > 0 ==> replies[t - 1].Streamed?
  {
    if t == 0 then prompt else LastSnapshot(replies[t - 1].snapshots)
  }

  /** The history a model is called with on turn t: its starting history for its
      first turn, then the full message list of its previous turn. */
  function HistoryBefore(s: Session, replies: seq<Reply>, t: nat): Option<seq<ModelMessage>>
    requires t <= |replies|
    requires t >= 2 ==> replies[t - 2].Streamed?
  {
    if t < 2 then HistoryOf(s, KeyOf(t)) else Some(replies[t - 2].allMessages)
  }

  /** One streamed turn, unfolded: one call recorded, one response committed,
      and the speaker's history replaced. */
  lemma RunStep(s: Session, prompt: string, enabled: bool,
                typed: seq<Option<string>>, replies: seq<Reply>, k: nat)
    requires 0 < k <= |typed| && k <= |replies|
    requires replies[k - 1].Streamed?
    requires Run(s, prompt, enabled, typed, replies, k - 1).1.Success?
    ensures var prev := Run(s, prompt, enabled, typed, replies, k - 1);
      var res := Run(s, prompt, enabled, typed, replies, k);
      var key := KeyOf(k - 1);
      var reply := replies[k - 1];
      && res.1 == Success(LastSnapshot(reply.snapshots))
      && res.0.calls == prev.0.calls +
           [AgentCall(key, Annotated(prev.1.value, HumanInput(enabled, typed[k - 1])), HistoryOf(prev.0, key))]
      && res.0.appended == prev.0.appended + [(key, LastSnapshot(reply.snapshots))]
      && HistoryOf(res.0, key) == Some(reply.allMessages)
      && HistoryOf(res.0, Other(key)) == HistoryOf(prev.0, Other(key))
  {
  }

  /** With no client failure the run goes on and the current prompt is the
      last response (the initial prompt before any turn). */
  lemma {:induction false} RunPrompt(s: Session, prompt: string, enabled: bool,
                                     typed: seq<Option<string>>, replies: seq<Reply>, k: nat)
    requires k <= |typed| && k <= |replies|
    requires AllStreamed(replies, k)
    ensures Run(s, prompt, enabled, typed, replies, k).1 == Success(PromptBefore(prompt, replies, k))
    decreases k
  {
    if k > 0 {
      RunPrompt(s, prompt, enabled, typed, replies, k - 1);
      RunStep(s, prompt, enabled, typed, replies, k);
    }
  }

  /** With no client failure each model's stored history is the full message
      list of its latest turn (llm2's starting history until it has spoken). */
  lemma {:induction false} RunHistories(s: Session, prompt: string, enabled: bool,
                                        typed: seq<Option<string>>, replies: seq<Reply>, k: nat)
    requires 0 < k <= |typed| && k <= |replies|
    requires AllStreamed(replies, k)
    ensures var res := Run(s, prompt, enabled, typed, replies, k);
      && HistoryOf(res.0, KeyOf(k - 1)) == Some(replies[k - 1].allMessages)
      && HistoryOf(res.0, Other(KeyOf(k - 1))) ==
           if k == 1 then HistoryOf(s, Other(KeyOf(0))) else Some(replies[k - 2].allMessages)
    decreases k
  {
    RunPrompt(s, prompt, enabled, typed, replies, k - 1);
    RunStep(s, prompt, enabled, typed, replies, k);
    if k >= 2 {
      RunHistories(s, prompt, enabled, typed, replies, k - 1);
      KeyOfAlternates(k - 2);
    }
  }

  /** The history each call is made with: a model's starting history on its
      first turn, then the full message list of its previous turn. */
  lemma HistoryAtTurn(s: Session, prompt: string, enabled: bool,
                      typed: seq<Option<string>>, replies: seq<Reply>, k: nat)
    requires k < |typed| && k < |replies|
    requires AllStreamed(replies, k)
    ensures HistoryOf(Run(s, prompt, enabled, typed, replies, k).0, KeyOf(k)) == HistoryBefore(s, replies, k)
  {
    if k >= 1 {
      RunHistories(s, prompt, enabled, typed, replies, k);
      KeyOfAlternates(k - 1);
    }
  }

  /** With no client failure, k turns make exactly k calls and commit exactly
      k responses, after the ones already there. */
  lemma {:induction false} RunCounts(s: Session, prompt: string, enabled: bool,
                                     typed: seq<Option<string>>, replies: seq<Reply>, k: nat)
    requires k <= |typed| && k <= |replies|
    requires AllStreamed(replies, k)
    ensures var res := Run(s, prompt, enabled, typed, replies, k);
      && |res.0.calls| == |s.calls| + k && s.calls <= res.0.calls
      && |res.0.appended| == |s.appended| + k && s.appended <= res.0.appended
    decreases k
  {
    if k > 0 {
      RunCounts(s, prompt, enabled, typed, replies, k - 1);
      RunPrompt(s, prompt, enabled, typed, replies, k - 1);
      RunStep(s, prompt, enabled, typed, replies, k);
    }
  }

  /** One turn records exactly one call, with the speaker's stored history;
      a streamed reply commits its last snapshot and a raised one commits
      nothing. */
  lemma TurnGrows(s: Session, llmKey: LlmKey, prompt: string, reply: Reply)
    ensures var n := Turn(s, llmKey, prompt, reply);
      && n.0.calls == s.calls + [AgentCall(llmKey, prompt, HistoryOf(s, llmKey))]
      && (reply.Streamed? ==> n.0.appended == s.appended + [(llmKey, LastSnapshot(reply.snapshots))])
      && (reply.Raised? ==> n.0.appended == s.appended && n.1.Failure?)
  {
  }

  /** Calls and commits are only ever added, whether or not a client fails. */
  lemma {:induction false} RunGrows(s: Session, prompt: string, enabled: bool,
                                    typed: seq<Option<string>>, replies: seq<Reply>, j: nat, k: nat)
    requires j <= k <= |typed| && k <= |replies|
    ensures var before := Run(s, prompt, enabled, typed, replies, j).0;
      var after := Run(s, prompt, enabled, typed, replies, k).0;
      before.calls <= after.calls && before.appended <= after.appended
    decreases k
  {
    if j < k {
      RunGrows(s, prompt, enabled, typed, replies, j, k - 1);
      var prev := Run(s, prompt, enabled, typed, replies, k - 1);
      if prev.1.Success? {
        TurnGrows(prev.0, KeyOf(k - 1), Annotated(prev.1.value, HumanInput(enabled, typed[k - 1])), replies[k - 1]);
      }
    }
  }

  /** Turn t of a run with no client failure, unfolded against the turn
      before it: the call it makes and the response it commits. */
  lemma RunTurnAt(s: Session, prompt: string, enabled: bool,
                  typed: seq<Option<string>>, replies: seq<Reply>, t: nat)
    requires t < |typed| && t < |replies|
    requires AllStreamed(replies, t + 1)
    ensures var before := Run(s, prompt, enabled, typed, replies, t).0;
      var after := Run(s, prompt, enabled, typed, replies, t + 1).0;
      && |before.calls| == |s.calls| + t && |before.appended| == |s.appended| + t
      && after.calls == before.calls +
           [AgentCall(KeyOf(t), Annotated(PromptBefore(prompt, replies, t), HumanInput(enabled, typed[t])),
                      HistoryBefore(s, replies, t))]
      && after.appended == before.appended + [(KeyOf(t), LastSnapshot(replies[t].snapshots))]
  {
    RunCounts(s, prompt, enabled, typed, replies, t);
    RunPrompt(s, prompt, enabled, typed, replies, t);
    HistoryAtTurn(s, prompt, enabled, typed, replies, t);
    var before := Run(s, prompt, enabled, typed, replies, t);
    TurnGrows(before.0, KeyOf(t), Annotated(before.1.value, HumanInput(enabled, typed[t])), replies[t]);
  }

  /** With no client failure, the response committed on turn t is llm1's or
      llm2's, alternately, with the last snapshot of that turn. */
  lemma RunAppendedAt(s: Session, prompt: string, enabled: bool,
                      typed: seq<Option<string>>, replies: seq<Reply>, k: nat, t: nat)
    requires t < k <= |typed| && k <= |replies|
    requires AllStreamed(replies, k)
    ensures var appended := Run(s, prompt, enabled, typed, replies, k).0.appended;
      |appended| == |s.appended| + k &&
      appended[|s.appended| + t] == (KeyOf(t), LastSnapshot(replies[t].snapshots))
  {
    RunCounts(s, prompt, enabled, typed, replies, k);
    RunTurnAt(s, prompt, enabled, typed, replies, t);
    RunGrows(s, prompt, enabled, typed, replies, t + 1, k);
    var mid := Run(s, prompt, enabled, typed, replies, t + 1).0.appended;
    assert mid[|s.appended| + t] == (KeyOf(t), LastSnapshot(replies[t].snapshots));
  }

  /** With no client failure, the call made on turn t is to llm1 or llm2,
      alternately; its prompt is the previous response (the initial prompt
      first) with the optional human annotation, and its history is
      `HistoryBefore`. */
  lemma RunCallAt(s: Session, prompt: string, enabled: bool,
                  typed: seq<Option<string>>, replies: seq<Reply>, k: nat, t: nat)
    requires t < k <= |typed| && k <= |replies|
    requires AllStreamed(replies, k)
    ensures var calls := Run(s, prompt, enabled, typed, replies, k).0.calls;
      |calls| == |s.calls| + k &&
      calls[|s.calls| + t] ==
        AgentCall(KeyOf(t), Annotated(PromptBefore(prompt, replies, t), HumanInput(enabled, typed[t])),
                  HistoryBefore(s, replies, t))
  {
    RunCounts(s, prompt, enabled, typed, replies, k);
    RunTurnAt(s, prompt, enabled, typed, replies, t);
    RunGrows(s, prompt, enabled, typed, replies, t + 1, k);
    var mid := Run(s, prompt, enabled, typed, replies, t + 1).0.calls;
    assert mid[|s.calls| + t] ==
      AgentCall(KeyOf(t), Annotated(PromptBefore(prompt, replies, t), HumanInput(enabled, typed[t])),
                HistoryBefore(s, replies, t));
  }

  /** `ConversationOrchestrator`. The seed and llm1's system prompt, which the
      source reads from the state manager, are fixed at construction. */
  class ConversationOrchestrator {
    const rounds: int
    const humanInTheLoop: bool
    const initialHistory: seq<Message>
    const systemPrompt: string
    var history1: Option<seq<ModelMessage>>
    var history2: Option<seq<ModelMessage>>
    var calls: seq<AgentCall>
    var appended: seq<(LlmKey, string)>

    constructor (conf: Config, initialHistory: seq<Message>, systemPrompt: string)
      ensures rounds == conf.rounds && humanInTheLoop == conf.humanInTheLoop
      ensures this.initialHistory == initialHistory && this.systemPrompt == systemPrompt
      ensures history1 == None && history2 == None
      ensures calls == [] && appended == []
    {
      rounds := conf.rounds;
      humanInTheLoop := conf.humanInTheLoop;
      this.initialHistory := initialHistory;
      this.systemPrompt := systemPrompt;
      history1 := None;
      history2 := None;
      calls := [];
      appended := [];
    }

    function Value(): Session
      reads this
    {
      Session(history1, history2, calls, appended)
    }

    /** `_generate_response`: iterate over the cumulative snapshots, keep the
        last, then store the client's full message list as the new history. */
    method GenerateResponse(llmKey: LlmKey, prompt: string, reply: Reply) returns (r: Result<string>)
      modifies this
      ensures (Value(), r) == Generated(old(Value()), llmKey, prompt, reply)
    {
      var history := if llmKey == Llm1 then history1 else history2;
      calls := calls + [AgentCall(llmKey, prompt, history)];
      if reply.Raised? {
        return Failure(AgentFailure(reply.reason));
      }
      var fullText := "";
      var i := 0;
      while i < |reply.snapshots|
        invariant 0 <= i <= |reply.snapshots|
        invariant fullText == LastSnapshot(reply.snapshots[..i])
      {
        fullText := reply.snapshots[i];
        i := i + 1;
      }
      assert reply.snapshots[..i] == reply.snapshots;
      if llmKey == Llm1 {
        history1 := Some(reply.allMessages);
      } else {
        history2 := Some(reply.allMessages);
      }
      r := Success(fullText);
    }

    /** The body of the inner loop of `converse` for one model: annotate the
        prompt with the operator's input, generate, and commit the response. */
    method TakeTurn(llmKey: LlmKey, prompt: string, typed: Option<string>, reply: Reply) returns (r: Result<string>)
      modifies this
      ensures (Value(), r) == Turn(old(Value()), llmKey, Annotated(prompt, HumanInput(humanInTheLoop, typed)), reply)
    {
      var annotated := prompt;
      var humanInput := HumanInput(humanInTheLoop, typed);
      if humanInput.Some? {
        annotated := annotated + "\n\n<HUMAN>" + humanInput.value + "</HUMAN>\n";
      }
      r := GenerateResponse(llmKey, annotated, reply);
      if r.Success? {
        appended := appended + [(llmKey, r.value)];
      }
    }

    /** One iteration of the inner loop of `converse`, as turn t of the run
        that started in state s1 with prompt p0: after a successful run of t
        turns, the state and the result are those of t + 1 turns. */
    method PlayTurn(ghost s1: Session, ghost p0: string, typed: seq<Option<string>>, replies: seq<Reply>,
                    t: nat, llmKey: LlmKey, prompt: string) returns (r: Result<string>)
      requires t < |typed| == |replies|
      requires llmKey == KeyOf(t)
      requires Run(s1, p0, humanInTheLoop, typed, replies, t) == (Value(), Success(prompt))
      modifies this
      ensures Run(s1, p0, humanInTheLoop, typed, replies, t + 1) == (Value(), r)
      ensures r.Failure? ==> Run(s1, p0, humanInTheLoop, typed, replies, |typed|) == (Value(), r)
    {
      RunNext(s1, p0, humanInTheLoop, typed, replies, t);
      r := TakeTurn(llmKey, prompt, typed[t], replies[t]);
      if r.Failure? {
        RunStaysFailed(s1, p0, humanInTheLoop, typed, replies, t + 1, |typed|);
      }
    }

    /** One round of `converse`: llm1 then llm2, as turns t and t + 1 of the
        run that started in state s1 with prompt p0. On a client failure the
        run stops there, so the state is already that of the whole run. */
    method PlayRound(ghost s1: Session, ghost p0: string, typed: seq<Option<string>>, replies: seq<Reply>,
                     t: nat, prompt: string) returns (r: Result<string>)
      requires t + 2 <= |typed| == |replies|
      requires KeyOf(t) == Llm1
      requires Run(s1, p0, humanInTheLoop, typed, replies, t) == (Value(), Success(prompt))
      modifies this
      ensures r.Success? ==> Run(s1, p0, humanInTheLoop, typed, replies, t + 2) == (Value(), r)
      ensures r.Failure? ==> Run(s1, p0, humanInTheLoop, typed, replies, |typed|) == (Value(), r)
    {
      var keys := [Llm1, Llm2];
      r := Success(prompt);
      var k := t;
      var j := 0;
      while j < 2
        invariant 0 <= j <= 2 && k == t + j
        invariant r.Success?
        invariant Run(s1, p0, humanInTheLoop, typed, replies, k) == (Value(), r)
      {
        KeyOfSeat(keys, t, j, k);
        r := PlayTurn(s1, p0, typed, replies, k, keys[j], r.value);
        if r.Failure? {
          return;
        }
        k := k + 1;
        j := j + 1;
      }
    }

    /** The loops of `converse`: rounds 1..rounds from state s1 and prompt
        p0. The result carries the last response, or the first client
        failure. */
    method PlayRounds(ghost s1: Session, p0: string, typed: seq<Option<string>>, replies: seq<Reply>)
      returns (r: Result<string>)
      requires s1 == Value()
      requires |typed| == TurnCount(rounds) && |replies| == TurnCount(rounds)
      modifies this
      ensures Run(s1, p0, humanInTheLoop, typed, replies, TurnCount(rounds)) == (Value(), r)
    {
      r := Success(p0);
      var roundNum := 1;
      while roundNum <= rounds
        invariant 1 <= roundNum && 2 * (roundNum - 1) <= TurnCount(rounds)
        invariant r.Success?
        invariant Run(s1, p0, humanInTheLoop, typed, replies, 2 * (roundNum - 1)) == (Value(), r)
      {
        KeyOfRound(roundNum - 1, 0);
        r := PlayRound(s1, p0, typed, replies, 2 * (roundNum - 1), r.value);
        if r.Failure? {
          return;
        }
        roundNum := roundNum + 1;
      }
      assert 2 * (roundNum - 1) == TurnCount(rounds);
    }

    /** `converse`: build the initial history, give it to llm1, then play the
        rounds. `typed[t]` and `replies[t]` are the operator's entry and the
        client's reply on turn t. */
    method Converse(typed: seq<Option<string>>, replies: seq<Reply>) returns (r: Outcome)
      requires |typed| == TurnCount(rounds) && |replies| == TurnCount(rounds)
      modifies this
      ensures (Value(), r) ==
        ConverseSpec(old(Value()), initialHistory, systemPrompt, humanInTheLoop, rounds, typed, replies)
    {
      var start := BuildInitialHistory(initialHistory, systemPrompt);
      if start.Failure? {
        return Fail(start.error);
      }
      history1 := start.value.1;
      var last := PlayRounds(Value(), start.value.0, typed, replies);
      r := if last.Success? then Pass else Fail(last.error);
    }
  }

  /** A whole session with no client failure reaches the end of the run that
      starts from the built history. */
  lemma ConverseRunsToEnd(s: Session, seed: seq<Message>, sysPrompt: string, enabled: bool, rounds: int,
                          typed: seq<Option<string>>, replies: seq<Reply>, start: (string, Option<seq<ModelMessage>>))
    requires |typed| == TurnCount(rounds) && |replies| == TurnCount(rounds)
    requires InitialHistory(seed, sysPrompt) == Success(start)
    requires AllStreamed(replies, TurnCount(rounds))
    ensures var s1 := s.(history1 := start.1);
      ConverseSpec(s, seed, sysPrompt, enabled, rounds, typed, replies) ==
        (Run(s1, start.0, enabled, typed, replies, TurnCount(rounds)).0, Pass)
  {
    var s1 := s.(history1 := start.1);
    RunPrompt(s1, start.0, enabled, typed, replies, TurnCount(rounds));
  }

  /** A whole session with no client failure commits exactly 2·rounds
      responses, alternating llm1 and llm2, each the last snapshot of its turn. */
  lemma ConverseAppends(s: Session, seed: seq<Message>, sysPrompt: string, enabled: bool, rounds: int,
                        typed: seq<Option<string>>, replies: seq<Reply>, start: (string, Option<seq<ModelMessage>>))
    requires |typed| == TurnCount(rounds) && |replies| == TurnCount(rounds)
    requires InitialHistory(seed, sysPrompt) == Success(start)
    requires AllStreamed(replies, TurnCount(rounds))
    ensures var res := ConverseSpec(s, seed, sysPrompt, enabled, rounds, typed, replies);
      && res.1 == Pass
      && |res.0.appended| == |s.appended| + TurnCount(rounds)
      && s.appended <= res.0.appended
      && forall t :: 0 <= t < TurnCount(rounds) ==>
           res.0.appended[|s.appended| + t] == (KeyOf(t), LastSnapshot(replies[t].snapshots))
  {
    var s1 := s.(history1 := start.1);
    ConverseRunsToEnd(s, seed, sysPrompt, enabled, rounds, typed, replies, start);
    RunCounts(s1, start.0, enabled, typed, replies, TurnCount(rounds));
    var appended := Run(s1, start.0, enabled, typed, replies, TurnCount(rounds)).0.appended;
    forall t | 0 <= t < TurnCount(rounds)
      ensures appended[|s.appended| + t] == (KeyOf(t), LastSnapshot(replies[t].snapshots))
    {
      RunAppendedAt(s1, start.0, enabled, typed, replies, TurnCount(rounds), t);
    }
  }

  /** A whole session with no client failure makes exactly 2·rounds calls,
      and every prompt after the first is the previous response with the
      optional annotation. */
  lemma ConverseCalls(s: Session, seed: seq<Message>, sysPrompt: string, enabled: bool, rounds: int,
                      typed: seq<Option<string>>, replies: seq<Reply>, start: (string, Option<seq<ModelMessage>>))
    requires |typed| == TurnCount(rounds) && |replies| == TurnCount(rounds)
    requires InitialHistory(seed, sysPrompt) == Success(start)
    requires AllStreamed(replies, TurnCount(rounds))
    ensures var res := ConverseSpec(s, seed, sysPrompt, enabled, rounds, typed, replies);
      && |res.0.calls| == |s.calls| + TurnCount(rounds)
      && s.calls <= res.0.calls
      && forall t :: 1 <= t < TurnCount(rounds) ==>
           res.0.calls[|s.calls| + t].prompt ==
             Annotated(LastSnapshot(replies[t - 1].snapshots), HumanInput(enabled, typed[t]))
  {
    var s1 := s.(history1 := start.1);
    ConverseRunsToEnd(s, seed, sysPrompt, enabled, rounds, typed, replies, start);
    RunCounts(s1, start.0, enabled, typed, replies, TurnCount(rounds));
    var calls := Run(s1, start.0, enabled, typed, replies, TurnCount(rounds)).0.calls;
    forall t | 1 <= t < TurnCount(rounds)
      ensures calls[|s.calls| + t].prompt ==
                Annotated(LastSnapshot(replies[t - 1].snapshots), HumanInput(enabled, typed[t]))
    {
      RunCallAt(s1, start.0, enabled, typed, replies, TurnCount(rounds), t);
    }
  }

  /** The first round of a session with no client failure: llm1 is called
      first, with the built prompt and the built history, and llm2 next, with
      no history. */
  lemma ConverseFirstCalls(s: Session, seed: seq<Message>, sysPrompt: string, enabled: bool, rounds: int,
                           typed: seq<Option<string>>, replies: seq<Reply>, start: (string, Option<seq<ModelMessage>>))
    requires s.history2 == None
    requires rounds >= 1
    requires |typed| == TurnCount(rounds) && |replies| == TurnCount(rounds)
    requires InitialHistory(seed, sysPrompt) == Success(start)
    requires AllStreamed(replies, TurnCount(rounds))
    ensures var res := ConverseSpec(s, seed, sysPrompt, enabled, rounds, typed, replies);
      && |res.0.calls| >= |s.calls| + 2
      && res.0.calls[|s.calls|] == AgentCall(Llm1, Annotated(start.0, HumanInput(enabled, typed[0])), start.1)
      && res.0.calls[|s.calls| + 1].llmKey == Llm2
      && res.0.calls[|s.calls| + 1].history == None
  {
    var s1 := s.(history1 := start.1);
    ConverseRunsToEnd(s, seed, sysPrompt, enabled, rounds, typed, replies, start);
    RunCallAt(s1, start.0, enabled, typed, replies, TurnCount(rounds), 0);
    RunCallAt(s1, start.0, enabled, typed, replies, TurnCount(rounds), 1);
    assert KeyOf(0) == Llm1 && KeyOf(1) == Llm2;
  }
}
