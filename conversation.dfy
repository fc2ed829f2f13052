/** The mirrored conversation pair and the state manager of
    cascade/core/conversation.py. Two message lists are kept; every message added
    for one model is copied, with its role inverted, into the other model's list. */
module ConversationState {
  import opened Results
  import opened Models

  /** The role a message gets in the other model's list: an assistant message is
      received as user input, and every other role becomes assistant. */
  function MirrorRole(role: string): string
  {
    if role == ASSISTANT then USER else ASSISTANT
  }

  function Mirror(m: Message): Message
  {
    Message(MirrorRole(m.role), m.content)
  }

  /** Mirroring keeps the content and inverts user and assistant, so it is its
      own inverse exactly on those two roles; any other role is turned into
      assistant and cannot be recovered. */
  lemma MirrorRoundTrip(m: Message)
    ensures Mirror(m).content == m.content
    ensures Mirror(Mirror(m)) == m <==> m.role == USER || m.role == ASSISTANT
    ensures m.role == USER ==> Mirror(m).role == ASSISTANT
    ensures m.role != ASSISTANT ==> Mirror(m).role == ASSISTANT
    ensures m.role == ASSISTANT ==> Mirror(m).role == USER
  {
  }

  /** Which of the two lists a key selects. */
  datatype Side = First | Second

  function Route(llm1: string, llmKey: string): Side
  {
    if llmKey == llm1 then First else Second
  }

  function OtherKey(llm1: string, llm2: string, llmKey: string): string
  {
    if llmKey == llm1 then llm2 else llm1
  }

  /** With two distinct keys, the other key always selects the other list; an
      unknown key is not rejected but routed like the second key, which is why
      taking the other key twice gives a key back only for the two known keys. */
  lemma RoutingOfKeys(llm1: string, llm2: string, llmKey: string)
    requires llm1 != llm2
    ensures Route(llm1, OtherKey(llm1, llm2, llmKey)) != Route(llm1, llmKey)
    ensures llmKey != llm1 ==> Route(llm1, llmKey) == Route(llm1, llm2) == Second
    ensures OtherKey(llm1, llm2, OtherKey(llm1, llm2, llmKey)) == llmKey <==>
              llmKey == llm1 || llmKey == llm2
  {
  }

  /** The value of the two lists. */
  datatype Pair = Pair(conversation1: seq<Message>, conversation2: seq<Message>)

  function Append(p: Pair, side: Side, m: Message): Pair
  {
    match side
    case First => p.(conversation1 := p.conversation1 + [m])
    case Second => p.(conversation2 := p.conversation2 + [m])
  }

  /** The pair after `add_message(llm_key, message)`. */
  function Added(p: Pair, llm1: string, llm2: string, llmKey: string, m: Message): (q: Pair)
    ensures |q.conversation1| + |q.conversation2| == |p.conversation1| + |p.conversation2| + 2
    ensures p.conversation1 <= q.conversation1 && p.conversation2 <= q.conversation2
  {
    var sent := Append(p, Route(llm1, llmKey), m);
    Append(sent, Route(llm1, OtherKey(llm1, llm2, llmKey)), Mirror(m))
  }

  /** With distinct keys each call lengthens both lists by one and leaves all
      earlier entries alone: the sender's list ends with the message itself and
      the other list ends with its mirror. */
  lemma AddedAppendsAndMirrors(p: Pair, llm1: string, llm2: string, llmKey: string, m: Message)
    requires llm1 != llm2
    ensures var q := Added(p, llm1, llm2, llmKey, m);
      q.conversation1 == p.conversation1 + [if llmKey == llm1 then m else Mirror(m)] &&
      q.conversation2 == p.conversation2 + [if llmKey == llm1 then Mirror(m) else m]
  {
  }

  /** With equal keys the routing collapses: a message for that key and its
      mirror both land in the first list. */
  lemma AddedWithEqualKeys(p: Pair, key: string, m: Message)
    ensures Added(p, key, key, key, m) == Pair(p.conversation1 + [m, Mirror(m)], p.conversation2)
  {
    assert p.conversation1 + [m] + [Mirror(m)] == p.conversation1 + [m, Mirror(m)];
  }

  /** The pair after a run of `add_message` calls, oldest first. */
  function Replay(p: Pair, llm1: string, llm2: string, calls: seq<(string, Message)>): Pair
  {
    if calls == [] then p
    else
      var last := calls[|calls| - 1];
      Added(Replay(p, llm1, llm2, calls[..|calls| - 1]), llm1, llm2, last.0, last.1)
  }

  /** Two entries are mirror images: the same content, one the other's mirror. */
  predicate Mirrored(a: Message, b: Message)
  {
    a.content == b.content && (b == Mirror(a) || a == Mirror(b))
  }

  /** The lockstep invariant for a pair seeded with `seed` on the first side:
      the seed stays in front, the first list is longer by exactly the seed, and
      after it the two lists are mirror images entry by entry. */
  ghost predicate Lockstep(seed: seq<Message>, p: Pair)
  {
    && |p.conversation1| == |seed| + |p.conversation2|
    && p.conversation1[..|seed|] == seed
    && forall i :: 0 <= i < |p.conversation2| ==>
         Mirrored(p.conversation1[|seed| + i], p.conversation2[i])
  }

  /** With distinct keys, k calls lengthen both lists by exactly k and keep
      every earlier entry. */
  lemma {:induction false} ReplayGrows(p: Pair, llm1: string, llm2: string, calls: seq<(string, Message)>)
    requires llm1 != llm2
    ensures var q := Replay(p, llm1, llm2, calls);
      && |q.conversation1| == |p.conversation1| + |calls| && p.conversation1 <= q.conversation1
      && |q.conversation2| == |p.conversation2| + |calls| && p.conversation2 <= q.conversation2
  {
    if calls != [] {
      var init := calls[..|calls| - 1];
      var last := calls[|calls| - 1];
      ReplayGrows(p, llm1, llm2, init);
      AddedAppendsAndMirrors(Replay(p, llm1, llm2, init), llm1, llm2, last.0, last.1);
    }
  }

  /** Entry i after the starting lists comes from call i: the sender's list
      holds the message and the other list its mirror. */
  lemma {:induction false} ReplayEntryAt(p: Pair, llm1: string, llm2: string,
                                         calls: seq<(string, Message)>, i: nat)
    requires llm1 != llm2 && i < |calls|
    ensures var q := Replay(p, llm1, llm2, calls);
      && |q.conversation1| == |p.conversation1| + |calls|
      && |q.conversation2| == |p.conversation2| + |calls|
      && q.conversation1[|p.conversation1| + i] == (if calls[i].0 == llm1 then calls[i].1 else Mirror(calls[i].1))
      && q.conversation2[|p.conversation2| + i] == (if calls[i].0 == llm1 then Mirror(calls[i].1) else calls[i].1)
    decreases |calls|
  {
    var init := calls[..|calls| - 1];
    var last := calls[|calls| - 1];
    ReplayGrows(p, llm1, llm2, init);
    AddedAppendsAndMirrors(Replay(p, llm1, llm2, init), llm1, llm2, last.0, last.1);
    if i < |init| {
      ReplayEntryAt(p, llm1, llm2, init, i);
      assert init[i] == calls[i];
    }
  }

  /** After any k calls starting from (seed, empty), with distinct keys: the
      first list holds |seed|+k entries, the second k, and entry i of both comes
      from call i, the sender's list holding the message and the other its mirror. */
  lemma ReplayFromSeed(seed: seq<Message>, llm1: string, llm2: string, calls: seq<(string, Message)>)
    requires llm1 != llm2
    ensures var q := Replay(Pair(seed, []), llm1, llm2, calls);
      && |q.conversation1| == |seed| + |calls|
      && |q.conversation2| == |calls|
      && q.conversation1[..|seed|] == seed
      && forall i :: 0 <= i < |calls| ==>
           q.conversation1[|seed| + i] == (if calls[i].0 == llm1 then calls[i].1 else Mirror(calls[i].1)) &&
           q.conversation2[i] == (if calls[i].0 == llm1 then Mirror(calls[i].1) else calls[i].1)
  {
    var p := Pair(seed, []);
    ReplayGrows(p, llm1, llm2, calls);
    forall i | 0 <= i < |calls|
      ensures var q := Replay(p, llm1, llm2, calls);
        q.conversation1[|seed| + i] == (if calls[i].0 == llm1 then calls[i].1 else Mirror(calls[i].1)) &&
        q.conversation2[i] == (if calls[i].0 == llm1 then Mirror(calls[i].1) else calls[i].1)
    {
      ReplayEntryAt(p, llm1, llm2, calls, i);
    }
  }

  /** The lockstep invariant holds after every sequence of calls. */
  lemma ReplayKeepsLockstep(seed: seq<Message>, llm1: string, llm2: string,
                            calls: seq<(string, Message)>)
    requires llm1 != llm2
    ensures Lockstep(seed, Replay(Pair(seed, []), llm1, llm2, calls))
  {
    ReplayFromSeed(seed, llm1, llm2, calls);
  }

  /** `ConversationPair`: two keys and the two lists they select. */
  class ConversationPair {
    const llm1: string
    const llm2: string
    var conversation1: seq<Message>
    var conversation2: seq<Message>

    constructor (llm1: string, llm2: string, conversation1: seq<Message>, conversation2: seq<Message>)
      ensures this.llm1 == llm1 && this.llm2 == llm2
      ensures this.conversation1 == conversation1 && this.conversation2 == conversation2
    {
      this.llm1 := llm1;
      this.llm2 := llm2;
      this.conversation1 := conversation1;
      this.conversation2 := conversation2;
    }

    function Value(): Pair
      reads this
    {
      Pair(conversation1, conversation2)
    }

    /** `get_llm_conversation`: the first key selects the first list, every
        other key, the second key included, the second list. */
    function GetLlmConversation(llmKey: string): (c: seq<Message>)
      reads this
      ensures llmKey == llm1 ==> c == conversation1
      ensures llmKey != llm1 ==> c == conversation2
    {
      if llmKey == llm1 then conversation1 else conversation2
    }

    /** `get_other_llm_key`: the object's keys handed to `OtherKey`. */
    function GetOtherLlmKey(llmKey: string): (k: string)
      ensures k == llm1 || k == llm2
      ensures llm1 != llm2 ==> (k == llm1 <==> llmKey != llm1)
    {
      OtherKey(llm1, llm2, llmKey)
    }

    /** `add_message`: append the message to the sender's list, then append its
        mirror to the list of the other key. */
    method AddMessage(llmKey: string, message: Message)
      modifies this
      ensures Value() == Added(old(Value()), llm1, llm2, llmKey, message)
      ensures llm1 != llm2 ==>
        conversation1 == old(conversation1) + [if llmKey == llm1 then message else Mirror(message)] &&
        conversation2 == old(conversation2) + [if llmKey == llm1 then Mirror(message) else message]
    {
      if llmKey == llm1 {
        conversation1 := conversation1 + [message];
      } else {
        conversation2 := conversation2 + [message];
      }
      var otherLlmKey := GetOtherLlmKey(llmKey);
      var otherMessage := Message(
        if message.role == ASSISTANT then USER else ASSISTANT,
        message.content);
      if otherLlmKey == llm1 {
        conversation1 := conversation1 + [otherMessage];
      } else {
        conversation2 := conversation2 + [otherMessage];
      }
      if llm1 != llm2 {
        AddedAppendsAndMirrors(old(Value()), llm1, llm2, llmKey, message);
      }
    }
  }

  const HISTORY_MISSING_ERROR :=
    "Either 'history_file' or 'history' must be provided in the configuration."

  /** `_load_conversation_history`, selection logic only: `readHistoryFile` is
      what opening and parsing the configured file yields (FileNotFound
      included). The file wins whenever it is named; otherwise a non-empty
      literal history is used. */
  function LoadConversationHistory(conf: Config, readHistoryFile: Result<seq<Message>>): (r: Result<seq<Message>>)
    ensures !HasHistoryFile(conf) && r.Success? ==> conf.history == Some(r.value) && r.value != []
    ensures !HasHistoryFile(conf) && r.Failure? ==> r.error == ValueError(HISTORY_MISSING_ERROR)
  {
    if HasHistoryFile(conf) then readHistoryFile
    else if HasHistory(conf) then Success(conf.history.value)
    else Failure(ValueError(HISTORY_MISSING_ERROR))
  }

  /** The seed comes from the file whenever one is named, whatever `history`
      says; without a file it is the literal history, and the load fails
      exactly when that is absent or empty. */
  lemma SeedSelection(conf: Config, readHistoryFile: Result<seq<Message>>)
    ensures HasHistoryFile(conf) ==>
      forall h :: LoadConversationHistory(conf.(history := h), readHistoryFile) == readHistoryFile
    ensures !HasHistoryFile(conf) ==>
      (LoadConversationHistory(conf, readHistoryFile).Failure? <==>
         conf.history.None? || conf.history.value == [])
    ensures !HasHistoryFile(conf) && LoadConversationHistory(conf, readHistoryFile).Success? ==>
      LoadConversationHistory(conf, readHistoryFile).value == conf.history.value
  {
  }

  /** The configuration validator is weaker than the loader: every
      configuration the loader accepts passes `check_history`, but an empty
      literal history with no file passes `check_history` and is then refused. */
  lemma CheckHistoryWeakerThanLoader(conf: Config, readHistoryFile: Result<seq<Message>>)
    ensures LoadConversationHistory(conf, readHistoryFile).Success? ==> CheckHistory(conf) == Pass
    ensures conf.history == Some([]) && conf.historyFile.None? ==>
      CheckHistory(conf) == Pass &&
      LoadConversationHistory(conf, readHistoryFile) == Failure(ValueError(HISTORY_MISSING_ERROR))
  {
  }

  /** One transcript record: the message's role and content and an opaque
      timestamp. */
  datatype Entry = Entry(role: string, content: string, timestamp: string)

  /** `output_data[llm_key].append(entry)`: only the addressed list grows; a key
      that is not in the transcript raises KeyError. */
  function Recorded(data: map<string, seq<Entry>>, llmKey: string, entry: Entry): (r: Result<map<string, seq<Entry>>>)
    ensures r.Success? <==> llmKey in data
    ensures r.Success? ==> r.value.Keys == data.Keys && r.value[llmKey] == data[llmKey] + [entry]
    ensures r.Failure? ==> r.error == KeyError(llmKey)
  {
    if llmKey in data then Success(data[llmKey := data[llmKey] + [entry]])
    else Failure(KeyError(llmKey))
  }

  /** Recording touches exactly one list: it gains the entry as its new last
      element, every other key keeps its list, and no key is added. */
  lemma RecordedTouchesOnlyKey(data: map<string, seq<Entry>>, llmKey: string, entry: Entry)
    ensures Recorded(data, llmKey, entry).Success? <==> llmKey in data
    ensures Recorded(data, llmKey, entry).Success? ==>
      var d := Recorded(data, llmKey, entry).value;
      && d.Keys == data.Keys
      && d[llmKey] == data[llmKey] + [entry]
      && forall k :: k in data && k != llmKey ==> d[k] == data[k]
  {
  }

  /** `StateManager`: the pair, the per-model transcript and the last snapshot
      written to the output file. */
  class StateManager {
    const conf: Config
    const conversationPair: ConversationPair
    var outputData: map<string, seq<Entry>>
    var written: Option<map<string, seq<Entry>>>

    /** `__init__` once `_initialize_conversations` has produced its seed. */
    constructor (conf: Config, seed: seq<Message>)
      ensures this.conf == conf
      ensures fresh(conversationPair)
      ensures conversationPair.llm1 == "llm1" && conversationPair.llm2 == "llm2"
      ensures conversationPair.Value() == Pair(seed, [])
      ensures outputData == map["llm1" := [], "llm2" := []]
      ensures written == None
    {
      this.conf := conf;
      this.conversationPair := new ConversationPair("llm1", "llm2", seed, []);
      this.outputData := map["llm1" := [], "llm2" := []];
      this.written := None;
    }

    /** `append_message`. The pair is updated first, so a key missing from the
        transcript has already changed both lists when KeyError is raised. When
        an output file is configured the whole transcript is written. */
    method AppendMessage(llmKey: string, message: Message, timestamp: string) returns (r: Outcome)
      modifies this, conversationPair
      ensures conversationPair.Value() ==
        Added(old(conversationPair.Value()), conversationPair.llm1, conversationPair.llm2, llmKey, message)
      ensures match Recorded(old(outputData), llmKey, Entry(message.role, message.content, timestamp))
        case Failure(e) => r == Fail(e) && outputData == old(outputData) && written == old(written)
        case Success(d) =>
          r == Pass && outputData == d &&
          written == if conf.outputFile != "" then Some(d) else old(written)
    {
      conversationPair.AddMessage(llmKey, message);
      var entry := Entry(message.role, message.content, timestamp);
      if llmKey !in outputData {
        return Fail(KeyError(llmKey));
      }
      outputData := outputData[llmKey := outputData[llmKey] + [entry]];
      if conf.outputFile != "" {
        written := Some(outputData);
      }
      r := Pass;
    }
  }

  /** `StateManager.__init__`: load the seed, then build the pair (seed, empty)
      under the keys "llm1" and "llm2" and an empty transcript for each. */
  method OpenStateManager(conf: Config, readHistoryFile: Result<seq<Message>>) returns (r: Result<StateManager>)
    ensures LoadConversationHistory(conf, readHistoryFile).Failure? ==>
      r == Failure(LoadConversationHistory(conf, readHistoryFile).error)
    ensures LoadConversationHistory(conf, readHistoryFile).Success? ==>
      && r.Success? && fresh(r.value) && fresh(r.value.conversationPair)
      && r.value.conf == conf
      && r.value.conversationPair.llm1 == "llm1" && r.value.conversationPair.llm2 == "llm2"
      && r.value.conversationPair.Value() == Pair(LoadConversationHistory(conf, readHistoryFile).value, [])
      && r.value.outputData == map["llm1" := [], "llm2" := []]
      && r.value.written == None
  {
    var seed := LoadConversationHistory(conf, readHistoryFile);
    if seed.Failure? {
      return Failure(seed.error);
    }
    var manager := new StateManager(conf, seed.value);
    r := Success(manager);
  }
}
