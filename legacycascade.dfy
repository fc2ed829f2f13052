/** The legacy command-line manager of cascade.py. `LLMWrapper` picks a client
    from a type string; `ConversationManager` keeps one message list per model,
    lets each model speak in turn, copies every response into the other list as
    user input, and rewrites the whole transcript after every message. Each
    client is an oracle: on turn t it yields the deltas of `streams[t]`, then
    either ends or raises. */
module LegacyCascade {
  import opened Results
  import opened Models
  import opened Streaming
  import opened Turns
  import opened Text
  import ConversationState

  /* ---------------- LLMWrapper ---------------- */

  /** The client classes the wrapper can hold. */
  datatype Client = AnthropicClient | OpenAIClient | OllamaClient(model: string)

  const OLLAMA_PREFIX := "ollama:"

  predicate StartsWith(s: string, prefix: string)
  {
    |prefix| <= |s| && s[..|prefix|] == prefix
  }

  /** `s.split(sep)[0]` for a non-empty separator: the text before the first
      occurrence of `sep`, or all of `s` when `sep` does not occur. */
  function SegmentBefore(s: string, sep: string): (r: string)
    requires sep != ""
    ensures r <= s
    ensures |r| == |s| || StartsWith(s[|r|..], sep)
    ensures forall i | 0 <= i < |r| :: !StartsWith(s[i..], sep)
    decreases |s|
  {
    if |s| < |sep| then s
    else if s[..|sep|] == sep then ""
    else
      var rest := SegmentBefore(s[1..], sep);
      assert forall i | 1 <= i <= |s| :: s[i..] == s[1..][i - 1..];
      [s[0]] + rest
  }

  /** A string in which `sep` does not occur is its own first segment. */
  lemma SegmentBeforeWithoutSeparator(s: string, sep: string)
    requires sep != ""
    requires forall i | 0 <= i < |s| :: !StartsWith(s[i..], sep)
    ensures SegmentBefore(s, sep) == s
  {
    var r := SegmentBefore(s, sep);
    if |r| < |s| {
      assert false;
    }
  }

  /** `LLMWrapper.__init__`: the client for a type string, or the ValueError it
      raises. An Ollama type names its model after the prefix, up to a second
      occurrence of the prefix if there is one (`split("ollama:")[1]`). */
  function ClientFor(llmType: string): (r: Result<Client>)
    ensures r.Failure? ==> r.error == ValueError("Invalid LLM type: " + llmType)
    ensures r.Success? && r.value.OllamaClient? ==>
      StartsWith(llmType, OLLAMA_PREFIX) && r.value.model <= llmType[|OLLAMA_PREFIX|..]
  {
    if llmType == "anthropic" then Success(AnthropicClient)
    else if llmType == "openai" then Success(OpenAIClient)
    else if StartsWith(llmType, OLLAMA_PREFIX) then
      Success(OllamaClient(SegmentBefore(llmType[|OLLAMA_PREFIX|..], OLLAMA_PREFIX)))
    else Failure(ValueError("Invalid LLM type: " + llmType))
  }

  /** Exactly the two bare provider names and the "ollama:" types are accepted;
      everything else, the `provider:model` connection strings of the current
      configuration format included, raises ValueError naming the type. */
  lemma ClientForCases(llmType: string, model: string)
    ensures ClientFor(llmType).Success? <==>
      llmType == "anthropic" || llmType == "openai" || StartsWith(llmType, OLLAMA_PREFIX)
    ensures ClientFor(llmType).Failure? ==>
      ClientFor(llmType).error == ValueError("Invalid LLM type: " + llmType)
    ensures ClientFor("anthropic:" + model).Failure? && ClientFor("openai:" + model).Failure?
  {
    var a := "anthropic:" + model;
    var o := "openai:" + model;
    assert a[..|OLLAMA_PREFIX|] != OLLAMA_PREFIX by {
      assert a[0] == 'a';
    }
    assert o[..|OLLAMA_PREFIX|] != OLLAMA_PREFIX by {
      assert o[1] == 'p';
    }
    assert a != "anthropic" by {
      assert |a| > |"anthropic"|;
    }
    assert o != "openai" && o != "anthropic" by {
      assert |o| > |"openai"|;
      assert o[0] == 'o';
    }
  }

  /** An Ollama model in which the prefix does not occur again survives the
      round trip through the type string. */
  lemma OllamaModelRoundTrip(model: string)
    requires forall i | 0 <= i < |model| :: !StartsWith(model[i..], OLLAMA_PREFIX)
    ensures ClientFor(OLLAMA_PREFIX + model) == Success(OllamaClient(model))
  {
    var t := OLLAMA_PREFIX + model;
    assert StartsWith(t, OLLAMA_PREFIX);
    assert t[|OLLAMA_PREFIX|..] == model;
    assert t != "anthropic" && t != "openai" by {
      assert t[0] == 'o' && t[1] == 'l';
    }
    SegmentBeforeWithoutSeparator(model, OLLAMA_PREFIX);
  }

  /* ---------------- ConversationManager state ---------------- */

  /** What one `generate_stream` call is handed. */
  datatype Request = Request(llmKey: LlmKey, messages: seq<Message>, sysPrompt: string)

  /** A client's stream: the deltas it yields, then the end or an exception. */
  datatype Stream = Stream(chunks: seq<string>, raises: bool)

  /** The manager's observable state: `conversations["conv_1"]` and
      `["conv_2"]`, `output_data["conversation_1"]` and `["conversation_2"]`,
      the last transcript written to the output file, and every request made. */
  datatype Manager = Manager(
    conv1: seq<Message>,
    conv2: seq<Message>,
    out1: seq<Message>,
    out2: seq<Message>,
    written: Option<(seq<Message>, seq<Message>)>,
    requests: seq<Request>)

  /** What the manager reads from its configuration and prompt files. */
  datatype Settings = Settings(humanInTheLoop: bool, outputFile: string, sysPrompt1: string, sysPrompt2: string)

  /** llm1 speaks from conv_1 and llm2 from conv_2. */
  function ConvOf(m: Manager, llmKey: LlmKey): seq<Message>
  {
    match llmKey
    case Llm1 => m.conv1
    case Llm2 => m.conv2
  }

  function WithConv(m: Manager, llmKey: LlmKey, c: seq<Message>): Manager
  {
    match llmKey
    case Llm1 => m.(conv1 := c)
    case Llm2 => m.(conv2 := c)
  }

  /** conversation_1 is llm1's transcript and conversation_2 llm2's. */
  function OutOf(m: Manager, llmKey: LlmKey): seq<Message>
  {
    match llmKey
    case Llm1 => m.out1
    case Llm2 => m.out2
  }

  function SysPromptOf(st: Settings, llmKey: LlmKey): string
  {
    match llmKey
    case Llm1 => st.sysPrompt1
    case Llm2 => st.sysPrompt2
  }

  /** Append to one transcript list and, when an output file is configured,
      write the whole transcript. */
  function AppendTo(m: Manager, side: LlmKey, msg: Message, outputFile: string): Manager
  {
    var m1 := match side
      case Llm1 => m.(out1 := m.out1 + [msg])
      case Llm2 => m.(out2 := m.out2 + [msg]);
    if outputFile != "" then m1.(written := Some((m1.out1, m1.out2))) else m1
  }

  /** `_append_and_write_message`: the transcript list is chosen by name; any
      other name raises KeyError. */
  function AppendWrite(m: Manager, convKey: string, msg: Message, outputFile: string): (res: (Manager, Outcome))
    ensures res.1.Fail? ==> res.0 == m
    ensures res.1.Pass? ==>
      && |res.0.out1| + |res.0.out2| == |m.out1| + |m.out2| + 1
      && res.0.conv1 == m.conv1 && res.0.conv2 == m.conv2 && res.0.requests == m.requests
  {
    if convKey == "conversation_1" then (AppendTo(m, Llm1, msg, outputFile), Pass)
    else if convKey == "conversation_2" then (AppendTo(m, Llm2, msg, outputFile), Pass)
    else (m, Fail(KeyError(convKey)))
  }

  /** Appending grows exactly one list by the message; the file, when
      configured, then holds both lists as they now are. */
  lemma AppendWriteTouchesOneList(m: Manager, convKey: string, msg: Message, outputFile: string)
    ensures var (n, r) := AppendWrite(m, convKey, msg, outputFile);
      && (r == Pass <==> convKey == "conversation_1" || convKey == "conversation_2")
      && (r == Pass ==>
            var side := if convKey == "conversation_1" then Llm1 else Llm2;
            && OutOf(n, side) == OutOf(m, side) + [msg]
            && OutOf(n, Other(side)) == OutOf(m, Other(side))
            && n.conv1 == m.conv1 && n.conv2 == m.conv2 && n.requests == m.requests
            && n.written == if outputFile != "" then Some((n.out1, n.out2)) else m.written)
      && (r != Pass ==> n == m && r == Fail(KeyError(convKey)))
  {
  }

  /** `f"conversation_{llm_key[-1]}"`. */
  function TranscriptKey(llmKey: string): string
    requires llmKey != ""
  {
    "conversation_" + [llmKey[|llmKey| - 1]]
  }

  /** `f"conversation_{3 - int(llm_key[-1])}"`, for a key ending in 1 or 2. */
  function OtherTranscriptKey(llmKey: string): string
    requires llmKey != "" && (llmKey[|llmKey| - 1] == '1' || llmKey[|llmKey| - 1] == '2')
  {
    "conversation_" + if llmKey[|llmKey| - 1] == '1' then "2" else "1"
  }

  /** The names built from the key's last digit address the speaker's own
      transcript and the other model's, as the (llm, conv, other conv) triples
      of the loop pair them. */
  lemma TranscriptKeysFollowSeats(m: Manager, llmKey: LlmKey, msg: Message, outputFile: string)
    ensures AppendWrite(m, TranscriptKey(KeyName(llmKey)), msg, outputFile) ==
      (AppendTo(m, llmKey, msg, outputFile), Pass)
    ensures AppendWrite(m, OtherTranscriptKey(KeyName(llmKey)), msg, outputFile) ==
      (AppendTo(m, Other(llmKey), msg, outputFile), Pass)
  {
    var name := KeyName(llmKey);
    assert name[|name| - 1] == if llmKey == Llm1 then '1' else '2';
    assert TranscriptKey(name) == if llmKey == Llm1 then "conversation_1" else "conversation_2";
    assert OtherTranscriptKey(name) == if llmKey == Llm1 then "conversation_2" else "conversation_1";
  }

  /** The note the operator's line becomes. */
  function HumanNote(line: string): string
  {
    "\n\n<HUMAN>" + Strip(line) + "</HUMAN>\n"
  }

  /** `_process_human_input` with the operator's line as `typed` (`None` when
      the prompt is interrupted). When enabled, the stripped line is wrapped in
      `<HUMAN>` tags and appended in place to the last message of the speaker's
      list, even when the line is empty, and the edited message is added to the
      speaker's transcript. An empty list raises IndexError. */
  function HumanStep(m: Manager, llmKey: LlmKey, st: Settings, typed: Option<string>): (res: (Manager, Outcome))
    ensures res.1.Fail? ==> res == (m, Fail(IndexError))
  {
    if !st.humanInTheLoop || typed.None? then (m, Pass)
    else
      var conv := ConvOf(m, llmKey);
      if conv == [] then (m, Fail(IndexError))
      else
        var last := conv[|conv| - 1];
        var edited := last.(content := last.content + HumanNote(typed.value));
        (AppendTo(WithConv(m, llmKey, conv[..|conv| - 1] + [edited]), llmKey, edited, st.outputFile), Pass)
  }

  /** The operator's note reaches only the speaker's own list: the other
      model's copy of the same exchange keeps the text without it. Without
      human in the loop, or on an interrupt, nothing changes. */
  lemma HumanNoteOnlyInSpeakersCopy(m: Manager, llmKey: LlmKey, st: Settings, typed: Option<string>)
    ensures !st.humanInTheLoop || typed.None? ==> HumanStep(m, llmKey, st, typed) == (m, Pass)
    ensures st.humanInTheLoop && typed.Some? && ConvOf(m, llmKey) == [] ==>
      HumanStep(m, llmKey, st, typed) == (m, Fail(IndexError))
    ensures st.humanInTheLoop && typed.Some? && ConvOf(m, llmKey) != [] ==>
      var (n, r) := HumanStep(m, llmKey, st, typed);
      var c := ConvOf(m, llmKey);
      var c' := ConvOf(n, llmKey);
      && r == Pass
      && |c'| == |c|
      && c'[..|c| - 1] == c[..|c| - 1]
      && c'[|c| - 1] == Message(c[|c| - 1].role, c[|c| - 1].content + HumanNote(typed.value))
      && ConvOf(n, Other(llmKey)) == ConvOf(m, Other(llmKey))
      && OutOf(n, llmKey) == OutOf(m, llmKey) + [c'[|c| - 1]]
      && OutOf(n, Other(llmKey)) == OutOf(m, Other(llmKey))
  {
    if st.humanInTheLoop && typed.Some? && ConvOf(m, llmKey) != [] {
      var c := ConvOf(m, llmKey);
      var edited := c[|c| - 1].(content := c[|c| - 1].content + HumanNote(typed.value));
      assert (c[..|c| - 1] + [edited])[..|c| - 1] == c[..|c| - 1];
    }
  }

  /** `_generate_response`: the concatenated deltas, or `sys.exit(1)` when the
      client raises. */
  function Generated(stream: Stream): Result<string>
  {
    if stream.raises then Failure(Exit(1)) else Success(Concat(stream.chunks))
  }

  /** The concatenated deltas are what a producer of cumulative snapshots would
      leave as its last snapshot. */
  lemma GeneratedAsSnapshots(stream: Stream)
    ensures !stream.raises ==> Generated(stream) == Success(LastSnapshot(Snapshots(stream.chunks)))
    ensures stream.raises ==> Generated(stream) == Failure(Exit(1))
  {
    LastSnapshotOfDeltas(stream.chunks);
  }

  /** The request `_generate_response` makes: the speaker's whole list and
      its system prompt. */
  function Asked(m: Manager, llmKey: LlmKey, st: Settings): Manager
  {
    m.(requests := m.requests + [Request(llmKey, ConvOf(m, llmKey), SysPromptOf(st, llmKey))])
  }

  /** The role a message has in a side's list: assistant for the speaker,
      user for the listener. */
  function RoleFor(side: LlmKey, speaker: LlmKey): string
  {
    if speaker == side then ASSISTANT else USER
  }

  /** The response, appended to each list and to each transcript with the role
      it has on that side; the file then holds both transcripts. */
  function Exchange(m: Manager, llmKey: LlmKey, response: string, outputFile: string): Manager
  {
    var on1 := Message(RoleFor(Llm1, llmKey), response);
    var on2 := Message(RoleFor(Llm2, llmKey), response);
    var out1 := m.out1 + [on1];
    var out2 := m.out2 + [on2];
    m.(conv1 := m.conv1 + [on1], conv2 := m.conv2 + [on2], out1 := out1, out2 := out2,
       written := if outputFile != "" then Some((out1, out2)) else m.written)
  }

  /** The two copies of a response are mirror images: the speaker keeps it as
      assistant and the listener receives it as user, in its list and in its
      transcript alike. Earlier entries stay, no request is made, and the file,
      when configured, holds both transcripts as they now are. */
  lemma ExchangeMirrors(m: Manager, llmKey: LlmKey, response: string, outputFile: string)
    ensures var n := Exchange(m, llmKey, response, outputFile);
      var spoken := Message(ASSISTANT, response);
      var heard := ConversationState.Mirror(spoken);
      && heard == Message(USER, response)
      && ConvOf(n, llmKey) == ConvOf(m, llmKey) + [spoken]
      && ConvOf(n, Other(llmKey)) == ConvOf(m, Other(llmKey)) + [heard]
      && OutOf(n, llmKey) == OutOf(m, llmKey) + [spoken]
      && OutOf(n, Other(llmKey)) == OutOf(m, Other(llmKey)) + [heard]
      && n.requests == m.requests
      && n.written == if outputFile != "" then Some((n.out1, n.out2)) else m.written
  {
  }

  /** One iteration of the inner loop of `converse`: the operator's input,
      the request, then the exchange of the response. */
  function Turn(m: Manager, llmKey: LlmKey, st: Settings, typed: Option<string>, stream: Stream): (Manager, Outcome)
  {
    var h := HumanStep(m, llmKey, st, typed);
    if h.1.Fail? then h
    else
      var asked := Asked(h.0, llmKey, st);
      match Generated(stream)
      case Failure(e) => (asked, Fail(e))
      case Success(response) => (Exchange(asked, llmKey, response, st.outputFile), Pass)
  }

  /** The state after the first k turns, stopping at the first failure. */
  function Run(m: Manager, st: Settings, typed: seq<Option<string>>, streams: seq<Stream>, k: nat): (Manager, Outcome)
    requires k <= |typed| && k <= |streams|
    decreases k
  {
    if k == 0 then (m, Pass)
    else
      var prev := Run(m, st, typed, streams, k - 1);
      if prev.1.Fail? then prev
      else Turn(prev.0, KeyOf(k - 1), st, typed[k - 1], streams[k - 1])
  }

  /** One more turn after k turns without failure. */
  lemma RunNext(m: Manager, st: Settings, typed: seq<Option<string>>, streams: seq<Stream>, k: nat)
    requires k < |typed| && k < |streams|
    requires Run(m, st, typed, streams, k).1 == Pass
    ensures Run(m, st, typed, streams, k + 1) ==
      Turn(Run(m, st, typed, streams, k).0, KeyOf(k), st, typed[k], streams[k])
  {
  }

  /** After a failure nothing more happens: the process exits or the error
      propagates out of `converse`. */
  lemma {:induction false} RunStaysFailed(m: Manager, st: Settings, typed: seq<Option<string>>,
                                          streams: seq<Stream>, k: nat, n: nat)
    requires k <= n <= |typed| && n <= |streams|
    requires Run(m, st, typed, streams, k).1.Fail?
    ensures Run(m, st, typed, streams, n) == Run(m, st, typed, streams, k)
    decreases n
  {
    if n > k {
      RunStaysFailed(m, st, typed, streams, k, n - 1);
    }
  }

  /** A run without a failure had none at any earlier turn either. */
  lemma RunPassedBefore(m: Manager, st: Settings, typed: seq<Option<string>>,
                        streams: seq<Stream>, j: nat, k: nat)
    requires j <= k <= |typed| && k <= |streams|
    requires Run(m, st, typed, streams, k).1 == Pass
    ensures Run(m, st, typed, streams, j).1 == Pass
  {
    if Run(m, st, typed, streams, j).1.Fail? {
      RunStaysFailed(m, st, typed, streams, j, k);
    }
  }

  /** A turn that gets past the operator's input makes exactly one request:
      the speaker, its whole list with the note just added, and its system
      prompt. */
  lemma TurnRequest(m: Manager, llmKey: LlmKey, st: Settings, typed: Option<string>, stream: Stream)
    ensures var h := HumanStep(m, llmKey, st, typed);
      var n := Turn(m, llmKey, st, typed, stream).0;
      && (h.1.Fail? ==> n.requests == m.requests)
      && (h.1.Pass? ==> n.requests == m.requests + [Request(llmKey, ConvOf(h.0, llmKey), SysPromptOf(st, llmKey))])
  {
  }

  /** A completed turn adds one message to each list, the response as
      assistant on the speaker's side and as user on the other. The other
      transcript gets one entry, the user copy. The speaker's transcript keeps
      its entries and gains the assistant copy, preceded by the edited last
      message of its list when the operator typed a line. */
  lemma TurnAppends(m: Manager, llmKey: LlmKey, st: Settings, typed: Option<string>, stream: Stream)
    requires Turn(m, llmKey, st, typed, stream).1 == Pass
    ensures var n := Turn(m, llmKey, st, typed, stream).0;
      var noted := st.humanInTheLoop && typed.Some?;
      var c := ConvOf(m, llmKey);
      var response := Concat(stream.chunks);
      && !stream.raises
      && ConvOf(n, llmKey) == ConvOf(HumanStep(m, llmKey, st, typed).0, llmKey) + [Message(ASSISTANT, response)]
      && ConvOf(n, Other(llmKey)) == ConvOf(m, Other(llmKey)) + [Message(USER, response)]
      && OutOf(n, llmKey) == OutOf(HumanStep(m, llmKey, st, typed).0, llmKey) + [Message(ASSISTANT, response)]
      && (!noted ==> OutOf(n, llmKey) == OutOf(m, llmKey) + [Message(ASSISTANT, response)])
      && (noted ==>
            c != [] &&
            OutOf(n, llmKey) == OutOf(m, llmKey) +
              [Message(c[|c| - 1].role, c[|c| - 1].content + HumanNote(typed.value)), Message(ASSISTANT, response)])
      && OutOf(n, Other(llmKey)) == OutOf(m, Other(llmKey)) + [Message(USER, response)]
  {
    HumanNoteOnlyInSpeakersCopy(m, llmKey, st, typed);
    var h := HumanStep(m, llmKey, st, typed).0;
    ExchangeMirrors(Asked(h, llmKey, st), llmKey, Concat(stream.chunks), st.outputFile);
    if st.humanInTheLoop && typed.Some? {
      var c := ConvOf(m, llmKey);
      var edited := Message(c[|c| - 1].role, c[|c| - 1].content + HumanNote(typed.value));
      assert OutOf(h, llmKey) == OutOf(m, llmKey) + [edited];
      assert OutOf(m, llmKey) + [edited] + [Message(ASSISTANT, Concat(stream.chunks))] ==
             OutOf(m, llmKey) + [edited, Message(ASSISTANT, Concat(stream.chunks))];
    }
  }

  /** Requests are only ever added. */
  lemma {:induction false} RunRequestsGrow(m: Manager, st: Settings, typed: seq<Option<string>>,
                                           streams: seq<Stream>, j: nat, k: nat)
    requires j <= k <= |typed| && k <= |streams|
    ensures Run(m, st, typed, streams, j).0.requests <= Run(m, st, typed, streams, k).0.requests
    decreases k
  {
    if j < k {
      RunRequestsGrow(m, st, typed, streams, j, k - 1);
      var prev := Run(m, st, typed, streams, k - 1);
      if prev.1.Pass? {
        TurnRequest(prev.0, KeyOf(k - 1), st, typed[k - 1], streams[k - 1]);
      }
    }
  }

  /** The request of turn t: the speaker, its whole list as it stands after
      t turns with the operator's note included, and its system prompt. With
      `RunRequestsGrow` it stays at that position for the rest of the run. */
  lemma RequestAt(m: Manager, st: Settings, typed: seq<Option<string>>, streams: seq<Stream>, t: nat)
    requires t < |typed| && t < |streams|
    requires Run(m, st, typed, streams, t + 1).1 == Pass
    ensures var before := Run(m, st, typed, streams, t).0;
      Run(m, st, typed, streams, t + 1).0.requests == before.requests +
        [Request(KeyOf(t), ConvOf(HumanStep(before, KeyOf(t), st, typed[t]).0, KeyOf(t)), SysPromptOf(st, KeyOf(t)))]
  {
    RunPassedBefore(m, st, typed, streams, t, t + 1);
    TurnRequest(Run(m, st, typed, streams, t).0, KeyOf(t), st, typed[t], streams[t]);
  }

  /* ---------------- Runs without the operator and without exceptions ---------------- */

  /** No operator note and no client raising in the first k turns: either
      human in the loop is off or every prompt was interrupted. */
  predicate Quiet(st: Settings, typed: seq<Option<string>>, streams: seq<Stream>, k: nat)
  {
    forall t | 0 <= t < k && t < |typed| && t < |streams| ::
      (!st.humanInTheLoop || typed[t].None?) && !streams[t].raises
  }

  /** The text of turn t. */
  function TextAt(streams: seq<Stream>, t: nat): string
    requires t < |streams|
  {
    Concat(streams[t].chunks)
  }

  /** One quiet turn: both lists and both transcripts grow by one message, the
      speaker's as assistant and the other's as user, with the same text, and
      one request is made. */
  lemma QuietStep(m: Manager, st: Settings, typed: seq<Option<string>>, streams: seq<Stream>, k: nat)
    requires 0 < k <= |typed| && k <= |streams| && Quiet(st, typed, streams, k)
    requires Run(m, st, typed, streams, k - 1).1 == Pass
    ensures var prev := Run(m, st, typed, streams, k - 1).0;
      var res := Run(m, st, typed, streams, k);
      var text := TextAt(streams, k - 1);
      && res.1 == Pass
      && res.0.conv1 == prev.conv1 + [Message(RoleFor(Llm1, KeyOf(k - 1)), text)]
      && res.0.conv2 == prev.conv2 + [Message(RoleFor(Llm2, KeyOf(k - 1)), text)]
      && res.0.out1 == prev.out1 + [Message(RoleFor(Llm1, KeyOf(k - 1)), text)]
      && res.0.out2 == prev.out2 + [Message(RoleFor(Llm2, KeyOf(k - 1)), text)]
      && |res.0.requests| == |prev.requests| + 1
      && res.0.written == if st.outputFile != "" then Some((res.0.out1, res.0.out2)) else prev.written
  {
    assert (!st.humanInTheLoop || typed[k - 1].None?) && !streams[k - 1].raises;
  }

  /** A quiet run of k turns adds exactly k messages to each list and to each
      transcript and makes exactly k requests, keeping everything before. */
  lemma {:induction false} QuietRunCounts(m: Manager, st: Settings, typed: seq<Option<string>>,
                                          streams: seq<Stream>, k: nat)
    requires k <= |typed| && k <= |streams| && Quiet(st, typed, streams, k)
    ensures var res := Run(m, st, typed, streams, k);
      && res.1 == Pass
      && |res.0.conv1| == |m.conv1| + k && m.conv1 <= res.0.conv1
      && |res.0.conv2| == |m.conv2| + k && m.conv2 <= res.0.conv2
      && |res.0.out1| == |m.out1| + k && m.out1 <= res.0.out1
      && |res.0.out2| == |m.out2| + k && m.out2 <= res.0.out2
      && |res.0.requests| == |m.requests| + k
    decreases k
  {
    if k > 0 {
      QuietRunCounts(m, st, typed, streams, k - 1);
      QuietStep(m, st, typed, streams, k);
      var prev := Run(m, st, typed, streams, k - 1).0;
      var res := Run(m, st, typed, streams, k).0;
      assert prev.conv1 <= res.conv1 && prev.conv2 <= res.conv2;
      assert prev.out1 <= res.out1 && prev.out2 <= res.out2;
    }
  }

  /** In a quiet run, entry t after the starting lists holds turn t's text on
      both sides, as assistant on the speaker's and as user on the other; each
      transcript repeats its list's new entries. */
  lemma {:induction false} QuietEntryAt(m: Manager, st: Settings, typed: seq<Option<string>>,
                                        streams: seq<Stream>, k: nat, t: nat)
    requires t < k <= |typed| && k <= |streams| && Quiet(st, typed, streams, k)
    ensures var res := Run(m, st, typed, streams, k).0;
      var text := TextAt(streams, t);
      && |res.conv1| == |m.conv1| + k && res.conv1[|m.conv1| + t] == Message(RoleFor(Llm1, KeyOf(t)), text)
      && |res.conv2| == |m.conv2| + k && res.conv2[|m.conv2| + t] == Message(RoleFor(Llm2, KeyOf(t)), text)
      && |res.out1| == |m.out1| + k && res.out1[|m.out1| + t] == Message(RoleFor(Llm1, KeyOf(t)), text)
      && |res.out2| == |m.out2| + k && res.out2[|m.out2| + t] == Message(RoleFor(Llm2, KeyOf(t)), text)
    decreases k
  {
    QuietRunCounts(m, st, typed, streams, k - 1);
    QuietStep(m, st, typed, streams, k);
    if t < k - 1 {
      QuietEntryAt(m, st, typed, streams, k - 1, t);
    }
  }

  /** A whole quiet `converse` from the constructed state: conv_1 holds the
      history and 2·rounds more messages, conv_2 and each transcript hold
      2·rounds messages, 2·rounds requests were made, and once anything was
      appended the output file holds both transcripts. */
  lemma QuietConverseCounts(history: seq<Message>, st: Settings, typed: seq<Option<string>>,
                            streams: seq<Stream>, rounds: int)
    requires |typed| == TurnCount(rounds) && |streams| == TurnCount(rounds)
    requires Quiet(st, typed, streams, TurnCount(rounds))
    ensures var res := Run(Manager(history, [], [], [], None, []), st, typed, streams, TurnCount(rounds));
      && res.1 == Pass
      && |res.0.conv1| == |history| + TurnCount(rounds) && res.0.conv1[..|history|] == history
      && |res.0.conv2| == TurnCount(rounds)
      && |res.0.out1| == TurnCount(rounds) && |res.0.out2| == TurnCount(rounds)
      && |res.0.requests| == TurnCount(rounds)
      && (st.outputFile != "" && rounds > 0 ==> res.0.written == Some((res.0.out1, res.0.out2)))
  {
    var m := Manager(history, [], [], [], None, []);
    var k := TurnCount(rounds);
    QuietRunCounts(m, st, typed, streams, k);
    if k > 0 {
      QuietRunCounts(m, st, typed, streams, k - 1);
      QuietStep(m, st, typed, streams, k);
    }
  }

  /** A quiet run keeps the two lists as the mirrored pair of the newer design:
      starting from (history, empty), the history stays in front of conv_1 and
      every later entry of conv_1 is the mirror image of the same entry of
      conv_2. */
  lemma QuietRunKeepsLockstep(history: seq<Message>, st: Settings, typed: seq<Option<string>>,
                              streams: seq<Stream>, k: nat)
    requires k <= |typed| && k <= |streams| && Quiet(st, typed, streams, k)
    ensures var res := Run(Manager(history, [], [], [], None, []), st, typed, streams, k).0;
      ConversationState.Lockstep(history, ConversationState.Pair(res.conv1, res.conv2))
  {
    var m := Manager(history, [], [], [], None, []);
    var res := Run(m, st, typed, streams, k).0;
    QuietRunCounts(m, st, typed, streams, k);
    assert res.conv1[..|history|] == history;
    forall i | 0 <= i < |res.conv2|
      ensures ConversationState.Mirrored(res.conv1[|history| + i], res.conv2[i])
    {
      QuietEntryAt(m, st, typed, streams, k, i);
    }
  }

  /* ---------------- Construction ---------------- */

  /** `_load_conversation_history`: the state manager's selection, except that
      a missing file ends the process with status 1. */
  function LoadHistory(conf: Config, readHistoryFile: Result<seq<Message>>): (r: Result<seq<Message>>)
    ensures !(r.Failure? && r.error.FileNotFound?)
    ensures r.Success? ==> r == ConversationState.LoadConversationHistory(conf, readHistoryFile)
  {
    match ConversationState.LoadConversationHistory(conf, readHistoryFile)
    case Failure(FileNotFound(_)) => Failure(Exit(1))
    case other => other
  }

  /** The two loaders agree on every configuration and file outcome, except
      that the missing file the newer one re-raises is an exit here. */
  lemma LoadHistoryAgrees(conf: Config, readHistoryFile: Result<seq<Message>>)
    ensures var newer := ConversationState.LoadConversationHistory(conf, readHistoryFile);
      && (newer.Failure? && newer.error.FileNotFound? ==> LoadHistory(conf, readHistoryFile) == Failure(Exit(1)))
      && (!(newer.Failure? && newer.error.FileNotFound?) ==> LoadHistory(conf, readHistoryFile) == newer)
    ensures LoadHistory(conf, readHistoryFile).Failure? && LoadHistory(conf, readHistoryFile).error == Exit(1) ==>
      HasHistoryFile(conf) && readHistoryFile.Failure? &&
      (readHistoryFile.error.FileNotFound? || readHistoryFile.error == Exit(1))
  {
  }

  /** `_load_system_prompts`, one file: a missing file ends the process with
      status 1. */
  function LoadPrompt(read: Result<string>): (r: Result<string>)
    ensures !(r.Failure? && r.error.FileNotFound?)
    ensures r.Success? <==> read.Success?
    ensures r.Success? ==> r.value == read.value
  {
    match read
    case Failure(FileNotFound(_)) => Failure(Exit(1))
    case other => other
  }

  /** `ConversationManager.__init__`, in its order: both clients, the history,
      then both system prompts; the first failure wins. */
  function Setup(conf: Config, llm1Type: string, llm2Type: string, readHistoryFile: Result<seq<Message>>,
                 readPrompt1: Result<string>, readPrompt2: Result<string>)
    : (r: Result<(Client, Client, seq<Message>, string, string)>)
    ensures r.Success? ==>
      && ClientFor(llm1Type) == Success(r.value.0) && ClientFor(llm2Type) == Success(r.value.1)
      && LoadHistory(conf, readHistoryFile) == Success(r.value.2)
      && LoadPrompt(readPrompt1) == Success(r.value.3) && LoadPrompt(readPrompt2) == Success(r.value.4)
    ensures r.Failure? ==> !r.error.FileNotFound?
  {
    var c1 := ClientFor(llm1Type);
    if c1.Failure? then Failure(c1.error) else
    var c2 := ClientFor(llm2Type);
    if c2.Failure? then Failure(c2.error) else
    var h := LoadHistory(conf, readHistoryFile);
    if h.Failure? then Failure(h.error) else
    var p1 := LoadPrompt(readPrompt1);
    if p1.Failure? then Failure(p1.error) else
    var p2 := LoadPrompt(readPrompt2);
    if p2.Failure? then Failure(p2.error) else
    Success((c1.value, c2.value, h.value, p1.value, p2.value))
  }

  /** Construction succeeds exactly when every step does. An unknown model
      type, llm1's first and then llm2's, is reported before any file is looked
      at; a missing history file or either missing prompt file ends the process
      with status 1. */
  lemma SetupCases(conf: Config, llm1Type: string, llm2Type: string, readHistoryFile: Result<seq<Message>>,
                   readPrompt1: Result<string>, readPrompt2: Result<string>)
    ensures var r := Setup(conf, llm1Type, llm2Type, readHistoryFile, readPrompt1, readPrompt2);
      && (r.Success? <==>
            ClientFor(llm1Type).Success? && ClientFor(llm2Type).Success? &&
            LoadHistory(conf, readHistoryFile).Success? &&
            LoadPrompt(readPrompt1).Success? && LoadPrompt(readPrompt2).Success?)
      && (ClientFor(llm1Type).Failure? ==> r == Failure(ValueError("Invalid LLM type: " + llm1Type)))
      && (ClientFor(llm1Type).Success? && ClientFor(llm2Type).Failure? ==>
            r == Failure(ValueError("Invalid LLM type: " + llm2Type)))
      && (r.Success? ==> r.value.2 == LoadHistory(conf, readHistoryFile).value)
    ensures var clientsOk := ClientFor(llm1Type).Success? && ClientFor(llm2Type).Success?;
      var r := Setup(conf, llm1Type, llm2Type, readHistoryFile, readPrompt1, readPrompt2);
      && (clientsOk && HasHistoryFile(conf) && readHistoryFile.Failure? && readHistoryFile.error.FileNotFound? ==>
            r == Failure(Exit(1)))
      && (clientsOk && LoadHistory(conf, readHistoryFile).Success? &&
          readPrompt1.Failure? && readPrompt1.error.FileNotFound? ==>
            r == Failure(Exit(1)))
      && (clientsOk && LoadHistory(conf, readHistoryFile).Success? && LoadPrompt(readPrompt1).Success? &&
          readPrompt2.Failure? && readPrompt2.error.FileNotFound? ==>
            r == Failure(Exit(1)))
  {
    ClientForCases(llm1Type, "");
    ClientForCases(llm2Type, "");
  }

  /* ---------------- The manager ---------------- */

  /** `ConversationManager`. The model types, which the source reads from
      `conf.llm1.type` and `conf.llm2.type`, arrive as `Setup` parameters. */
  class ConversationManager {
    const conf: Config
    const client1: Client
    const client2: Client
    const sysPrompt1: string
    const sysPrompt2: string
    var conv1: seq<Message>
    var conv2: seq<Message>
    var out1: seq<Message>
    var out2: seq<Message>
    var written: Option<(seq<Message>, seq<Message>)>
    var requests: seq<Request>

    constructor (conf: Config, client1: Client, client2: Client, history: seq<Message>,
                 sysPrompt1: string, sysPrompt2: string)
      ensures this.conf == conf && this.client1 == client1 && this.client2 == client2
      ensures this.sysPrompt1 == sysPrompt1 && this.sysPrompt2 == sysPrompt2
      ensures Value() == Manager(history, [], [], [], None, [])
    {
      this.conf := conf;
      this.client1 := client1;
      this.client2 := client2;
      this.sysPrompt1 := sysPrompt1;
      this.sysPrompt2 := sysPrompt2;
      conv1 := history;
      conv2 := [];
      out1 := [];
      out2 := [];
      written := None;
      requests := [];
    }

    function Value(): Manager
      reads this
    {
      Manager(conv1, conv2, out1, out2, written, requests)
    }

    function Fixed(): Settings
    {
      Settings(conf.humanInTheLoop, conf.outputFile, sysPrompt1, sysPrompt2)
    }

    /** `_append_and_write_message`. */
    method AppendAndWriteMessage(convKey: string, message: Message) returns (r: Outcome)
      modifies this
      ensures (Value(), r) == AppendWrite(old(Value()), convKey, message, conf.outputFile)
    {
      if convKey == "conversation_1" {
        out1 := out1 + [message];
      } else if convKey == "conversation_2" {
        out2 := out2 + [message];
      } else {
        return Fail(KeyError(convKey));
      }
      if conf.outputFile != "" {
        written := Some((out1, out2));
      }
      r := Pass;
    }

    /** `_process_human_input`; `typed` is the line entered, `None` on an
        interrupt. */
    method ProcessHumanInput(llmKey: LlmKey, typed: Option<string>) returns (r: Outcome)
      modifies this
      ensures (Value(), r) == HumanStep(old(Value()), llmKey, Fixed(), typed)
    {
      r := Pass;
      if conf.humanInTheLoop && typed.Some? {
        var humanMessage := Strip(typed.value);
        var conv := if llmKey == Llm1 then conv1 else conv2;
        if conv == [] {
          return Fail(IndexError);
        }
        var last := conv[|conv| - 1];
        var note := "\n\n<HUMAN>" + humanMessage + "</HUMAN>\n";
        var edited := last.(content := last.content + note);
        if llmKey == Llm1 {
          conv1 := conv[..|conv| - 1] + [edited];
        } else {
          conv2 := conv[..|conv| - 1] + [edited];
        }
        TranscriptKeysFollowSeats(Value(), llmKey, edited, conf.outputFile);
        r := AppendAndWriteMessage(TranscriptKey(KeyName(llmKey)), edited);
      }
    }

    /** `_generate_response`: hand the speaker's list and system prompt to its
        client and concatenate the deltas it yields. */
    method GenerateResponse(llmKey: LlmKey, stream: Stream) returns (r: Result<string>)
      modifies this
      ensures Value() == old(Value()).(requests := old(requests) +
        [Request(llmKey, ConvOf(old(Value()), llmKey), SysPromptOf(Fixed(), llmKey))])
      ensures r == Generated(stream)
    {
      var conv := if llmKey == Llm1 then conv1 else conv2;
      var sysPrompt := if llmKey == Llm1 then sysPrompt1 else sysPrompt2;
      requests := requests + [Request(llmKey, conv, sysPrompt)];
      var response := "";
      var i := 0;
      while i < |stream.chunks|
        invariant 0 <= i <= |stream.chunks|
        invariant response == Concat(stream.chunks[..i])
      {
        assert stream.chunks[..i + 1][..i] == stream.chunks[..i];
        response := response + stream.chunks[i];
        i := i + 1;
      }
      if stream.raises {
        return Failure(Exit(1));
      }
      assert stream.chunks[..i] == stream.chunks;
      r := Success(response);
    }

    /** The body of the inner loop of `converse` for one model. */
    method TakeTurn(llmKey: LlmKey, typed: Option<string>, stream: Stream) returns (r: Outcome)
      modifies this
      ensures (Value(), r) == Turn(old(Value()), llmKey, Fixed(), typed, stream)
    {
      r := ProcessHumanInput(llmKey, typed);
      if r.Fail? {
        return;
      }
      var response := GenerateResponse(llmKey, stream);
      if response.Failure? {
        return Fail(response.error);
      }
      var newMessage := Message(ASSISTANT, response.value);
      if llmKey == Llm1 {
        conv1 := conv1 + [newMessage];
      } else {
        conv2 := conv2 + [newMessage];
      }
      TranscriptKeysFollowSeats(Value(), llmKey, newMessage, conf.outputFile);
      r := AppendAndWriteMessage(TranscriptKey(KeyName(llmKey)), newMessage);
      var otherMessage := Message(USER, response.value);
      if llmKey == Llm1 {
        conv2 := conv2 + [otherMessage];
      } else {
        conv1 := conv1 + [otherMessage];
      }
      TranscriptKeysFollowSeats(Value(), llmKey, otherMessage, conf.outputFile);
      r := AppendAndWriteMessage(OtherTranscriptKey(KeyName(llmKey)), otherMessage);
    }

    /** Turn t of the run that started in state m0. */
    method PlayTurn(ghost m0: Manager, ghost st: Settings, typed: seq<Option<string>>, streams: seq<Stream>,
                    t: nat, llmKey: LlmKey) returns (r: Outcome)
      requires st == Fixed()
      requires t < |typed| == |streams|
      requires llmKey == KeyOf(t)
      requires Run(m0, st, typed, streams, t) == (Value(), Pass)
      modifies this
      ensures Run(m0, st, typed, streams, t + 1) == (Value(), r)
      ensures r.Fail? ==> Run(m0, st, typed, streams, |typed|) == (Value(), r)
    {
      RunNext(m0, st, typed, streams, t);
      r := TakeTurn(llmKey, typed[t], streams[t]);
      if r.Fail? {
        RunStaysFailed(m0, st, typed, streams, t + 1, |typed|);
      }
    }

    /** One round: llm1 with conv_1, then llm2 with conv_2. */
    method PlayRound(ghost m0: Manager, ghost st: Settings, typed: seq<Option<string>>, streams: seq<Stream>, t: nat)
      returns (r: Outcome)
      requires st == Fixed()
      requires t + 2 <= |typed| == |streams|
      requires KeyOf(t) == Llm1
      requires Run(m0, st, typed, streams, t) == (Value(), Pass)
      modifies this
      ensures r.Pass? ==> Run(m0, st, typed, streams, t + 2) == (Value(), r)
      ensures r.Fail? ==> Run(m0, st, typed, streams, |typed|) == (Value(), r)
    {
      var seats := [Llm1, Llm2];
      r := Pass;
      var k := t;
      var j := 0;
      while j < 2
        invariant 0 <= j <= 2 && k == t + j
        invariant r.Pass?
        invariant Run(m0, st, typed, streams, k) == (Value(), r)
      {
        KeyOfSeat(seats, t, j, k);
        r := PlayTurn(m0, st, typed, streams, k, seats[j]);
        if r.Fail? {
          return;
        }
        k := k + 1;
        j := j + 1;
      }
    }

    /** `converse`: rounds 1..rounds. `typed[t]` and `streams[t]` are the
        operator's line and the client's stream on turn t. */
    method Converse(typed: seq<Option<string>>, streams: seq<Stream>) returns (r: Outcome)
      requires |typed| == TurnCount(conf.rounds) && |streams| == TurnCount(conf.rounds)
      modifies this
      ensures (Value(), r) == Run(old(Value()), Fixed(), typed, streams, TurnCount(conf.rounds))
    {
      ghost var m0 := Value();
      ghost var st := Fixed();
      r := Pass;
      var t := 0;
      var i := 1;
      while i <= conf.rounds
        invariant 1 <= i && t == 2 * (i - 1) <= TurnCount(conf.rounds)
        invariant KeyOf(t) == Llm1
        invariant r.Pass?
        invariant Run(m0, st, typed, streams, t) == (Value(), r)
      {
        KeyOfAlternates(t);
        KeyOfAlternates(t + 1);
        r := PlayRound(m0, st, typed, streams, t);
        if r.Fail? {
          return;
        }
        t := t + 2;
        i := i + 1;
      }
      assert t == TurnCount(conf.rounds);
    }
  }

  /** `ConversationManager(conf, conf_dir)`: the readers of the history file and
      of both prompt files are passed in as their outcomes. */
  method Open(conf: Config, llm1Type: string, llm2Type: string, readHistoryFile: Result<seq<Message>>,
              readPrompt1: Result<string>, readPrompt2: Result<string>) returns (r: Result<ConversationManager>)
    ensures var s := Setup(conf, llm1Type, llm2Type, readHistoryFile, readPrompt1, readPrompt2);
      && (r.Failure? <==> s.Failure?)
      && (r.Failure? ==> r.error == s.error)
      && (r.Success? ==>
            && fresh(r.value) && r.value.conf == conf
            && r.value.client1 == s.value.0 && r.value.client2 == s.value.1
            && r.value.sysPrompt1 == s.value.3 && r.value.sysPrompt2 == s.value.4
            && r.value.Value() == Manager(s.value.2, [], [], [], None, []))
  {
    var c1 := ClientFor(llm1Type);
    if c1.Failure? {
      return Failure(c1.error);
    }
    var c2 := ClientFor(llm2Type);
    if c2.Failure? {
      return Failure(c2.error);
    }
    var history := LoadHistory(conf, readHistoryFile);
    if history.Failure? {
      return Failure(history.error);
    }
    var p1 := LoadPrompt(readPrompt1);
    if p1.Failure? {
      return Failure(p1.error);
    }
    var p2 := LoadPrompt(readPrompt2);
    if p2.Failure? {
      return Failure(p2.error);
    }
    var manager := new ConversationManager(conf, c1.value, c2.value, history.value, p1.value, p2.value);
    r := Success(manager);
  }
}
