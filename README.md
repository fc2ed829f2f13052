# Cascade: a verified model of the conversation core

Cascade sets two language models talking to each other. A YAML configuration
names the two models, the number of rounds, an optional output file, and a seed
conversation given inline or as a JSON file. In every round the first model
(`llm1`) speaks and then the second (`llm2`). Each response becomes the other
model's next input. When human-in-the-loop is on, an operator may add a note
before every turn.

The repository holds two generations of this loop, and both are modelled here:

- **The current design** (`cascade/core/`):
  - `StateManager` keeps a `ConversationPair`, two message lists in which every
    message added for one model is mirrored, with its role inverted, into the
    other model's list.
  - `ConversationOrchestrator` builds a provider-native history from the seed,
    calls each model's agent with a prompt and that model's stored history, and
    hands every response to the state manager.
- **The legacy command-line manager** (`cascade.py`):
  - `LLMWrapper` chooses a client from a type string.
  - `ConversationManager` keeps one list per model, lets each model speak from
    its own list, streams the response as deltas, copies it into the other list
    as user input, and rewrites the whole transcript file after every message.

Three smaller parts complete the model:

- the configuration validators of `cascade/models.py`;
- `escape_chars` of `cascade/utils.py`;
- the two streaming protocols: deltas in the legacy manager, cumulative
  snapshots in the orchestrator.

Model clients, the operator's console and the file system are replaced by
values handed to the model:

- a client's behaviour on turn `t` is `replies[t]` or `streams[t]`;
- the operator's raw line on turn `t` is `typed[t]`, which is `None` when the
  prompt is interrupted; both loops strip it before using it, as Python's
  `input(...).strip()` does;
- reading a file is its outcome, a `Result` carrying `FileNotFound` for a
  missing file;
- the environment is a `map`.

Modules and files:

| module | file | models |
|---|---|---|
| `Results` | `results.dfy` | `Option`, `Result`, `Outcome` and the exceptions the source raises |
| `Models` | `models.dfy` | `cascade/models.py` |
| `Utils` | `utils.dfy` | `cascade/utils.py` |
| `Text` | `text.dfy` | Python's `str.strip()`, applied to the operator's line by both loops |
| `Streaming` | `streaming.dfy` | delta and snapshot streams |
| `Turns` | `turns.dfy` | the round and turn schedule shared by both loops |
| `ConversationState` | `conversation.dfy` | `cascade/core/conversation.py` |
| `Orchestration` | `orchestrator.dfy` | `cascade/core/orchestrator.py` |
| `LegacyCascade` | `legacycascade.dfy` | `cascade.py` |

Classes whose fields the source updates in place are Dafny classes:
`ConversationPair`, `StateManager`, `ConversationOrchestrator` and the legacy
`ConversationManager`. Each of their methods is proved against a function on
the object's value: `Added`, `Generated`/`Turn`/`Run`/`ConverseSpec` or
`HumanStep`/`Turn`/`Run`. The properties of the source are then proved as
lemmas about those functions.

## Model

| member | source | states |
|---|---|---|
| `Models.ProviderOf` | cascade/models.py:50-53 | The provider is a prefix of the connection string and contains no ':'. |
| `Models.ModelOf` | cascade/models.py:55-58 | Taking the model succeeds exactly when the string contains ':', and the model is shorter than the string; without ':' it is an IndexError. |
| `Models.ValidateConnection` | cascade/models.py:35-48 | An accepted string is returned unchanged and contains ':'; a rejection is one of the three ValueErrors the validator raises. |
| `Models.RequireApiKey` | cascade/models.py:60-68 | A failure is a ValueError, raised only for a provider that has an API key variable. |
| `Models.CheckHistory` | cascade/models.py:82-87 | A failure is the history ValueError, and a configuration with `history` or `history_file` set passes. |
| `Models.ColonIndex` | cascade/models.py:41 | The position of the first ':' (or the length when there is none); no ':' occurs before it. |
| `Models.SplitRejoins` | cascade/models.py:50-58 | For a string containing ':', `provider + ":" + model` gives the connection string back, and the provider contains no ':'. |
| `Models.JoinSplits` | cascade/models.py:41 | Joining a ':'-free provider with any model and splitting at the first ':' gives both parts back, even when the model contains ':'. |
| `Models.ValidateConnectionAccepts` | cascade/models.py:35-48 | `validate_connection` accepts exactly the strings with a ':', a known provider and a non-empty model, and returns them unchanged; a string without ':' gets the format error, an empty provider or model the missing-part error, and an unknown provider with both parts present the provider error. |
| `Models.KnownProviderIsValid` | cascade/models.py:9-13 | Every provider of the `Provider` enum joined to any non-empty model is accepted. |
| `Models.RequireApiKeyCases` | cascade/models.py:60-68 | The key check fails exactly for openai or anthropic with the matching variable unset or empty; ollama always passes. |
| `Models.CheckHistoryRejectsOnlyBothAbsent` | cascade/models.py:82-87 | `check_history` rejects exactly when both `history` and `history_file` are `None`; an empty list passes. |
| `Utils.EscapeChars` | cascade/utils.py:6-8 | The rewrite never lengthens the text. |
| `Utils.EscapeCharsHead` | cascade/utils.py:8 | The first output character is a newline for a leading backslash-`n`, else the first input character. |
| `Utils.EscapeCharsLeavesNoEscape` | cascade/utils.py:8 | The output contains no backslash-`n` pair. |
| `Utils.EscapeCharsFixesEscapeFree` | cascade/utils.py:8 | A text with no backslash-`n` pair is returned unchanged. |
| `Utils.EscapeCharsNoBackslash` | cascade/utils.py:8 | A text without a backslash is returned unchanged. |
| `Utils.EscapeCharsIdempotent` | cascade/utils.py:8 | Applying the rewrite twice equals applying it once. |
| `Utils.EscapeCharsLength` | cascade/utils.py:8 | Each replacement turns two characters into one newline: the input is longer than the output by exactly the number of newlines gained. |
| `Utils.EscapeCharsConcat` | cascade/utils.py:8 | The rewrite distributes over concatenation unless the cut splits a backslash from its `n`. |
| `Utils.EscapeCharsLeftToRight` | cascade/utils.py:8 | Matching goes left to right without overlap (examples such as backslash, backslash, `n`). |
| `Text.LeadingSpaces` | cascade.py:159 | The count is the maximal whitespace prefix. |
| `Text.TrailingSpaces` | cascade.py:159 | The count is the maximal whitespace suffix. |
| `Text.Strip` | cascade/core/display.py:40 | The stripped text neither starts nor ends with whitespace. |
| `Text.StripDropsOnlySpace` | cascade/core/display.py:40 | The result is a slice with only whitespace around it, and empty exactly when the input is all whitespace. |
| `Text.StripIdempotent` | cascade.py:159 | Stripping twice equals stripping once. |
| `Streaming.ConcatAppend` | cascade.py:142-147 | Concatenating two runs of deltas gives the concatenation of their texts. |
| `Streaming.ConcatContainsChunk` | cascade.py:145 | Every delta occurs in the response at the offset of the deltas before it. |
| `Streaming.Snapshots` | cascade/core/orchestrator.py:90 | A cumulative producer yields one snapshot per delta, snapshot i being the first i+1 deltas joined. |
| `Streaming.LastSnapshotOfDeltas` | cascade/core/orchestrator.py:87-91 | The last cumulative snapshot equals the concatenated deltas, so both protocols give the same text. |
| `Turns.KeyOfAlternates` | cascade/core/orchestrator.py:118 | Consecutive turns are taken by different models. |
| `Turns.KeyOfRound` | cascade/core/orchestrator.py:115-118 | In round r (from 0) llm1 takes turn 2r and llm2 turn 2r+1. |
| `Turns.KeyOfSeat` | cascade.py:169-173 | Turn t+j of a round starting at turn t is taken by the model in seat j of the pair list. |
| `ConversationState.MirrorRoundTrip` | cascade/core/conversation.py:39-42 | Mirroring keeps the content, swaps user and assistant, and maps every other role to assistant; it is its own inverse exactly on user and assistant. |
| `ConversationState.RoutingOfKeys` | cascade/core/conversation.py:25-31 | With distinct keys the other key selects the other list; an unknown key is routed to the second list; taking the other key twice returns the key exactly for the two known keys. |
| `ConversationState.Added` | cascade/core/conversation.py:33-43 | One call adds two messages in total, and both lists keep their earlier entries. |
| `ConversationState.AddedAppendsAndMirrors` | cascade/core/conversation.py:33-43 | With distinct keys, `add_message` appends the message to the sender's list and its mirror to the other list, and changes nothing else. |
| `ConversationState.AddedWithEqualKeys` | cascade/core/conversation.py:33-43 | With equal keys both the message and its mirror land in the first list. |
| `ConversationState.ReplayGrows` | cascade/core/conversation.py:33-43 | k calls lengthen both lists by exactly k and keep earlier entries. |
| `ConversationState.ReplayEntryAt` | cascade/core/conversation.py:33-43 | Entry i after the starting lists comes from call i: the message on the sender's side, its mirror on the other. |
| `ConversationState.ReplayFromSeed` | cascade/core/conversation.py:58-66 | Starting from (seed, empty), the seed stays in front, the lengths are seed+k and k, and every new entry is the message or its mirror. |
| `ConversationState.ReplayKeepsLockstep` | cascade/core/conversation.py:33-66 | Every call sequence keeps the lockstep invariant: after the seed the two lists are mirror images entry by entry. |
| `ConversationState.ConversationPair.constructor` | cascade/core/conversation.py:16-23 | The pair holds the given keys and lists. |
| `ConversationState.ConversationPair.GetLlmConversation` | cascade/core/conversation.py:25-27 | The first key selects the first list; every other key selects the second. |
| `ConversationState.ConversationPair.GetOtherLlmKey` | cascade/core/conversation.py:29-31 | The result is one of the two keys, and with distinct keys it is the first key exactly when the input is not. |
| `ConversationState.ConversationPair.AddMessage` | cascade/core/conversation.py:33-43 | The new pair is `Added` of the old one: the message on the sender's list, its mirror on the other. |
| `ConversationState.LoadConversationHistory` | cascade/core/conversation.py:68-86 | Without a history file, a success is the inline history, which is non-empty, and a failure is the ValueError asking for `history` or `history_file`. |
| `ConversationState.SeedSelection` | cascade/core/conversation.py:68-86 | A named history file wins whatever `history` says; without one the load fails exactly when `history` is absent or empty, and otherwise yields it. |
| `ConversationState.CheckHistoryWeakerThanLoader` | cascade/models.py:82-87 | Every configuration the loader accepts passes `check_history`, but an empty inline history without a file passes validation and is then refused by the loader. |
| `ConversationState.Recorded` | cascade/core/conversation.py:93 | Recording succeeds exactly for a key of the transcript, keeps the keys and appends the entry to that key's list; otherwise it is KeyError for the key. |
| `ConversationState.RecordedTouchesOnlyKey` | cascade/core/conversation.py:93 | Recording succeeds exactly for a key in the transcript; it appends to that key's list only and adds no key. |
| `ConversationState.StateManager.constructor` | cascade/core/conversation.py:49-66 | The pair is (seed, empty) under the keys "llm1" and "llm2", and both transcripts are empty. |
| `ConversationState.StateManager.AppendMessage` | cascade/core/conversation.py:88-101 | The pair is updated first, then the entry is recorded (KeyError for an unknown key, with the pair already changed), then the file is rewritten when an output file is set. |
| `ConversationState.OpenStateManager` | cascade/core/conversation.py:49-86 | A loader failure is returned as is; otherwise a fresh manager holds (seed, empty) and empty transcripts. |
| `Orchestration.InitialHistory` | cascade/core/orchestrator.py:39-62 | The build fails, with the empty-history ValueError, exactly for an empty seed; otherwise the prompt is the last message's content, and a history is present only for two or more messages and is then non-empty. |
| `Orchestration.BuildInitialHistory` | cascade/core/orchestrator.py:39-62 | The loop computes `InitialHistory`. |
| `Orchestration.KeptMessages` | cascade/core/orchestrator.py:51-60 | The kept messages are never more than the messages. |
| `Orchestration.KeptMessagesStartsAtFirst` | cascade/core/orchestrator.py:54 | A kept first message is the first kept message. |
| `Orchestration.ConvertedMatchesReference` | cascade/core/orchestrator.py:51-60 | The loop's list equals an independent reference: one entry per user or assistant message in order, with the system prompt only at index 0 and only for a user message. |
| `Orchestration.InitialHistoryShape` | cascade/core/orchestrator.py:39-62 | ValueError for an empty seed; a single message is the prompt with no history; otherwise the last message is the prompt and the reference history of the rest is the history, `None` exactly when it would be empty. |
| `Orchestration.SystemPromptOnlyFirst` | cascade/core/orchestrator.py:54-55 | A system prompt part appears only in entry 0, and only when the first seed message is a user message. |
| `Orchestration.HumanInput` | cascade/core/orchestrator.py:64-74 | An operator message is returned only when human-in-the-loop is on and a line was typed; it is that line stripped, non-empty and without whitespace at either end. |
| `Orchestration.AnnotationOnlyForTypedInput` | cascade/core/orchestrator.py:64-74 | The prompt gains the `<HUMAN>` note with the stripped line exactly when human-in-the-loop is on and the stripped line is non-empty; an all-whitespace line adds nothing. |
| `Orchestration.RunNext` | cascade/core/orchestrator.py:118-127 | After k successful turns, turn k is the annotated previous response sent to `KeyOf(k)`. |
| `Orchestration.RunStaysFailed` | cascade/core/orchestrator.py:123 | After a client failure the session stops and later turns change nothing. |
| `Orchestration.RunStep` | cascade/core/orchestrator.py:119-127 | A streamed turn records one call with the speaker's stored history, commits the last snapshot, replaces the speaker's history and leaves the other's alone. |
| `Orchestration.RunPrompt` | cascade/core/orchestrator.py:127 | Without failures the current prompt is the last response, or the initial prompt before any turn. |
| `Orchestration.RunHistories` | cascade/core/orchestrator.py:80-99 | Each model's stored history is the full message list of its latest turn (llm2's starting history until it speaks). |
| `Orchestration.HistoryAtTurn` | cascade/core/orchestrator.py:80-88 | The history a call is made with is the model's starting history on its first turn, then its previous turn's message list. |
| `Orchestration.RunCounts` | cascade/core/orchestrator.py:115-127 | k successful turns make exactly k calls and k commits, keeping the earlier ones. |
| `Orchestration.TurnGrows` | cascade/core/orchestrator.py:76-101 | One turn records exactly one call with the speaker's stored history; a streamed reply commits its last snapshot, a raised one commits nothing and fails. |
| `Orchestration.RunGrows` | cascade/core/orchestrator.py:115-127 | Calls and commits are only ever appended, whether or not a client fails. |
| `Orchestration.RunTurnAt` | cascade/core/orchestrator.py:119-127 | Turn t appends to the t calls and commits before it the call to `KeyOf(t)` with the annotated previous response and `HistoryBefore`, and the commit of its last snapshot. |
| `Orchestration.RunAppendedAt` | cascade/core/orchestrator.py:124 | Commit t is by llm1 or llm2 alternately, with turn t's last snapshot. |
| `Orchestration.RunCallAt` | cascade/core/orchestrator.py:119-123 | Call t goes to `KeyOf(t)` with the annotated previous response and `HistoryBefore`. |
| `Orchestration.ConversationOrchestrator.constructor` | cascade/core/orchestrator.py:23-37 | Both histories start as `None`; no call or commit has been made. |
| `Orchestration.ConversationOrchestrator.GenerateResponse` | cascade/core/orchestrator.py:76-101 | The new state and result are `Generated`: the call is recorded, the last snapshot is returned and the speaker's history is replaced, or the client's failure is returned. |
| `Orchestration.ConversationOrchestrator.TakeTurn` | cascade/core/orchestrator.py:119-127 | One loop iteration is `Turn` on the annotated prompt. |
| `Orchestration.ConversationOrchestrator.PlayTurn` | cascade/core/orchestrator.py:119-127 | After turn t the state is `Run` of t+1 turns; on failure it is the end of the run. |
| `Orchestration.ConversationOrchestrator.PlayRound` | cascade/core/orchestrator.py:118-127 | After a round starting at turn t the state is `Run` of t+2 turns; on failure it is the end of the run. |
| `Orchestration.ConversationOrchestrator.PlayRounds` | cascade/core/orchestrator.py:115-127 | All rounds give `Run` of `TurnCount(rounds)` turns. |
| `Orchestration.ConversationOrchestrator.Converse` | cascade/core/orchestrator.py:103-127 | The whole session equals `ConverseSpec`: build the history, give it to llm1, run every turn. |
| `Orchestration.ConverseRunsToEnd` | cascade/core/orchestrator.py:111-127 | A session without client failure passes and ends where the full run ends. |
| `Orchestration.ConverseAppends` | cascade/core/orchestrator.py:115-127 | A session without failure commits exactly 2·rounds responses, alternating llm1 and llm2, each the last snapshot of its turn. |
| `Orchestration.ConverseCalls` | cascade/core/orchestrator.py:115-127 | A session without failure makes exactly 2·rounds calls, and every prompt after the first is the previous response with the optional note. |
| `Orchestration.ConverseFirstCalls` | cascade/core/orchestrator.py:111-123 | llm1 is called first with the built prompt and history; llm2 is called next with no history. |
| `LegacyCascade.SegmentBefore` | cascade.py:45 | The text before the first occurrence of the separator (or all of it): a prefix in which the separator does not start. |
| `LegacyCascade.SegmentBeforeWithoutSeparator` | cascade.py:45 | A text without the separator is its own first segment. |
| `LegacyCascade.ClientFor` | cascade.py:39-48 | A rejection is the ValueError "Invalid LLM type: " with the type; an Ollama client comes only from an "ollama:"-prefixed type, and its model is a prefix of the rest. |
| `LegacyCascade.ClientForCases` | cascade.py:39-48 | Exactly "anthropic", "openai" and "ollama:"-prefixed types are accepted; all else raises "Invalid LLM type: …", `provider:model` strings included. |
| `LegacyCascade.OllamaModelRoundTrip` | cascade.py:44-46 | An Ollama model without a further prefix survives the round trip through the type string. |
| `LegacyCascade.AppendWrite` | cascade.py:109-117 | A failure leaves the manager unchanged; a success adds exactly one transcript entry and leaves both lists and the requests unchanged. |
| `LegacyCascade.AppendWriteTouchesOneList` | cascade.py:109-117 | A known transcript name grows exactly that list by the message and, with an output file, writes both lists; an unknown name raises KeyError and changes nothing. |
| `LegacyCascade.TranscriptKeysFollowSeats` | cascade.py:181-190 | The names built from the key's last digit address the speaker's own transcript and the other model's. |
| `LegacyCascade.HumanStep` | cascade.py:154-165 | A failure is IndexError and leaves the manager unchanged. |
| `LegacyCascade.HumanNoteOnlyInSpeakersCopy` | cascade.py:154-165 | Off or interrupted: nothing changes. Empty list: IndexError. Otherwise only the speaker's last message gains the note, it is added to the speaker's transcript, and the other list is untouched. |
| `LegacyCascade.GeneratedAsSnapshots` | cascade.py:140-152 | The response is the concatenated deltas, the same text as a cumulative producer's last snapshot; a raising client exits with status 1. |
| `LegacyCascade.ExchangeMirrors` | cascade.py:179-191 | The response is appended to the speaker's list and transcript as assistant, and to the other list and transcript as user (the newer design's mirror of the assistant message); the requests are unchanged, and with an output file the file holds both transcripts. |
| `LegacyCascade.RunNext` | cascade.py:169-191 | After k turns without failure, turn k is `Turn` for `KeyOf(k)`. |
| `LegacyCascade.RunStaysFailed` | cascade.py:148-150 | After a failure nothing further happens. |
| `LegacyCascade.RunPassedBefore` | cascade.py:169-191 | A run without failure had none at any earlier turn. |
| `LegacyCascade.TurnRequest` | cascade.py:174-177 | A turn past the operator's input makes exactly one request: the speaker's whole list with the note and its system prompt. |
| `LegacyCascade.TurnAppends` | cascade.py:174-191 | A completed turn did not raise; it appends the response as assistant to the speaker's list after the operator's step and as user to the other list; the speaker's transcript gains the response alone, or, when a note was typed, the speaker's last message with the note followed by the response; the other transcript gains the user copy. |
| `LegacyCascade.RunRequestsGrow` | cascade.py:169-191 | Requests are only ever appended. |
| `LegacyCascade.RequestAt` | cascade.py:174-177 | Turn t's request is the speaker's list after t turns with the note included, and its system prompt. |
| `LegacyCascade.QuietStep` | cascade.py:176-191 | A quiet turn grows both lists and both transcripts by one message with the same text, and makes one request. |
| `LegacyCascade.QuietRunCounts` | cascade.py:169-191 | k quiet turns add exactly k entries to every list and make k requests, keeping everything before. |
| `LegacyCascade.QuietEntryAt` | cascade.py:179-191 | In a quiet run, entry t holds turn t's text, as assistant on the speaker's side and user on the other; the transcripts repeat the lists. |
| `LegacyCascade.QuietConverseCounts` | cascade.py:167-191 | A quiet `converse` leaves conv_1 with the history plus 2·rounds messages, conv_2 and each transcript with 2·rounds messages, 2·rounds requests, and the file holding both transcripts. |
| `LegacyCascade.QuietRunKeepsLockstep` | cascade.py:179-191 | A quiet run keeps the lists in the newer design's lockstep: history in front, then mirror images entry by entry. |
| `LegacyCascade.LoadHistory` | cascade.py:76-93 | A missing file is never returned as FileNotFound, and a success is the newer loader's success. |
| `LegacyCascade.LoadPrompt` | cascade.py:95-107 | A prompt loads exactly when its file was read, with the file's text, and a missing file is never returned as FileNotFound. |
| `LegacyCascade.Setup` | cascade.py:58-64 | A success holds both clients, the history and both prompts exactly as the steps produce them, and no failure is a bare FileNotFound. |
| `LegacyCascade.LoadHistoryAgrees` | cascade.py:76-93 | The legacy loader equals the newer one except that a missing file becomes exit status 1. |
| `LegacyCascade.SetupCases` | cascade.py:58-107 | Construction succeeds exactly when every step does; an invalid llm1 type is reported first, then an invalid llm2 type; with valid types a missing history file exits with status 1, and so does a missing prompt file once the history and any earlier prompt have loaded. |
| `LegacyCascade.ConversationManager.constructor` | cascade.py:58-64 | The manager holds the clients, prompts and history; conv_2, both transcripts and the requests are empty. |
| `LegacyCascade.ConversationManager.AppendAndWriteMessage` | cascade.py:109-117 | The new state and outcome are `AppendWrite`. |
| `LegacyCascade.ConversationManager.ProcessHumanInput` | cascade.py:154-165 | The new state and outcome are `HumanStep`. |
| `LegacyCascade.ConversationManager.GenerateResponse` | cascade.py:119-152 | The streaming loop returns `Generated`, the concatenated deltas or exit 1, and records the speaker's list and system prompt as a request. |
| `LegacyCascade.ConversationManager.TakeTurn` | cascade.py:174-191 | One loop iteration is `Turn`. |
| `LegacyCascade.ConversationManager.PlayTurn` | cascade.py:174-191 | After turn t the state is `Run` of t+1 turns; on failure it is the end of the run. |
| `LegacyCascade.ConversationManager.PlayRound` | cascade.py:170-191 | A round from turn t gives `Run` of t+2 turns; on failure it is the end of the run. |
| `LegacyCascade.ConversationManager.Converse` | cascade.py:167-191 | The whole loop equals `Run` of `TurnCount(rounds)` turns. |
| `LegacyCascade.Open` | cascade.py:58-107 | Construction fails exactly when `Setup` does, with its error; otherwise a fresh manager starts from (history, empty) with no transcript and no request. |

## Left out

- Console and display: the Rich panels, Markdown rendering, `Live`, the colours
  and `DisplayManager`. They have no effect on the state.
- Concurrency: `asyncio` and `time.sleep(2)`.
- Logging.
- Timestamps: the timestamp of a transcript entry is a parameter, and the
  timestamp in panel titles is left out.
- The token count shown after a response.
- The provider clients, the agent factory, CLI parsing, `load_config`, YAML and
  JSON parsing, and pydantic's own type validation. A file read is modelled as
  its outcome.
- Seed messages, from the history file or inline, are assumed to carry `role`
  and `content`.
- The orchestrator reads `initial_history` and `system_prompts` from the state
  manager, but `StateManager` in `cascade/core/conversation.py` defines neither
  attribute. They are constructor parameters of
  `Orchestration.ConversationOrchestrator`. `display_completion_message` reads
  an `output_file` attribute that does not exist either; it is left out.
- The orchestrator passes a response string to `append_message`, which expects
  a `Message`. The orchestrator's state manager is therefore modelled as a
  sink of `(llm_key, response)` pairs (`Session.appended`), not as a call to
  `StateManager.AppendMessage`.
- `cascade.py` reads `conf.llm1.type` and `conf.llm2.type`, which `LLMConfig`
  does not have. The type strings are parameters of `LegacyCascade.Setup` and
  `LegacyCascade.Open`.
- `StateManager` takes `conf_dir`. Directory joining is left out with the file
  system.
- The orchestrator's `histories` dict is two fields, `history1` and `history2`.
  It only ever holds the keys "llm1" and "llm2".
- `human_in_the_loop: None` is treated as false, the same as Python's
  truthiness.
- `LegacyCascade.ClientFor`: `split("ollama:")[1]` is modelled as the text up to
  the next occurrence of the prefix. The model is left uninterpreted.
- `LegacyCascade.ClientFor`: `cascade.py:41` and `cascade.py:43` construct
  `AnthropicWrapper()` and `OpenAIWrapper()` with no arguments, and the model
  assumes that this succeeds. The wrappers in `cascade/llm/anthropic.py:15` and
  `cascade/llm/openai.py:21` of this revision take a model (and, for Anthropic,
  an API key), so as written these calls raise TypeError; the OpenAI wrapper
  also raises ValueError when `OPENAI_API_KEY` is unset
  (`cascade/llm/openai.py:29-32`). Neither error is modelled.
- Python's Unicode character database is not modelled. `Text.IsSpace` lists by
  hand the code points `str.isspace` accepts.
- A raising stream is modelled as raising after all of its yielded chunks.
  Where in the stream the exception happens does not change the outcome,
  which is exit 1.
- `LegacyCascade.OtherTranscriptKey` is defined only for keys ending in 1 or 2,
  which are the only keys the loop uses. `int()` of any other digit or
  character is left out.
- The output file is modelled as a field holding the last transcript written.
  The JSON formatting (`indent=2`) is left out.
- `sys.exit(1)` is the value `Exit(1)`, which ends the run; the process exit
  itself is left out.
- The legacy `converse` stops at the first failure, because every failure
  there is an exit or an exception. `LegacyCascade.QuietRunCounts`,
  `LegacyCascade.QuietEntryAt`, `LegacyCascade.QuietConverseCounts` and
  `LegacyCascade.QuietRunKeepsLockstep` describe only runs without an
  operator note and without a raising client. Runs with notes are described
  turn by turn by `LegacyCascade.TurnAppends` and `LegacyCascade.RequestAt`.
- `Orchestration.ConverseAppends`, `Orchestration.ConverseCalls` and
  `Orchestration.ConverseFirstCalls` describe only sessions in which no
  client fails. A failure is covered by `Orchestration.RunStaysFailed`.
