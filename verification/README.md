# Panel round of ScholarAgentRoom, in Dafny

A model of the deterministic data shaping around one panel round of the
ScholarAgentRoom backend. A user's research prompt is discussed by a panel of
simulated experts, and the transcript grows by one round per call.

The model covers:

- **Mode and system messages** (`Agents`). The mode is upper-cased and stripped. Every one of the
  five agents (Moderator, BioExpert, AIExpert, Reviewer, GrantsWriter) gets its
  base prompt followed by one shared suffix. The suffix is the EVIDENCE addendum
  exactly when the mode spells "evidence", and empty otherwise.
- **Participants** (`Agents`). The Moderator comes first. Then, in the order given, one agent
  for every enabled name that is an expert key. Unknown names and "Moderator"
  are dropped, and repeated names are kept.
- **Context and kickoff** (`Transcript`). The last ten history entries are rendered as
  `speaker: content` lines under a fixed label. The kickoff is the context, the
  user prompt and a fixed trailer.
- **Normalisation** (`Messages`). Raw engine messages become `assistant` entries. The speaker
  falls back from `source` to `name` to "assistant". The content falls back by
  message kind. Messages whose conversion raises are skipped.
- **The HTTP handlers** (`App`). Request defaults, session creation, and the transcript update of
  `api_run_round`: prior history, one user entry, then the round's entries. That
  value is saved and returned.

Two foreign steps are function parameters. `Agents.Setup` is building the
shared model client and the round-robin team over the participants; it yields
the message of what it raised, or nothing. `Agents.Engine` is the team's run:
it maps the participants, the turn cap and the kickoff to raw messages or an
error. Setup comes before the history is rendered, as in the code, so a failing
setup wins over a malformed stored entry. Storage is a map from session id to
transcript. The session id, which the program draws at random, is a
parameter. The prompt texts are a `Prompts` record, so every property holds
for any prompt text.

Behaviour of the code worth knowing:

- The participant list is not de-duplicated. Enabling "BioExpert" twice puts it
  in the list twice (`Agents.DuplicatesKept`). Whether the group chat accepts
  such a list is library behaviour, part of `Agents.Setup`.
- An empty user prompt is not rejected. `RunRoundReq` puts no constraint on
  `user_prompt`.
- A history entry without `role` makes the context fail even when it has a
  `name`. This is because `m.get('name', m['role'])` evaluates `m['role']`
  first. Entries older than the last ten are never read, so they cannot fail.

Files: `results.dfy` (Option, Result), `strings.dfy` (ASCII upper, strip,
join, split), `transcript.dfy`, `messages.dfy`, `agents.dfy`, `app.dfy`.

## Model

| member | source | states |
|---|---|---|
| Strings.Strip | backend/agents.py:43 | the stripped text is a slice of the input that starts after the leading whitespace and neither starts nor ends with whitespace |
| Agents.NormalizeMode | backend/agents.py:43 | the normalised mode is no longer than the input, contains no lower-case ASCII letter, and has no whitespace at either end |
| Agents.ModeIsEvidenceIff | backend/agents.py:43-44 | the normalised mode is "EVIDENCE" if and only if the raw mode is "evidence" in any letter case, surrounded only by whitespace |
| Agents.PaddedLowerCaseEvidence | backend/agents.py:43-44 | "  evidence " normalises to "EVIDENCE" and selects the addendum |
| Agents.OtherModesAreNotEvidence | backend/agents.py:43-44 | "FREESTYLE", a missing mode and "" do not select the addendum |
| Agents.DirectiveSuffix | backend/agents.py:44 | the suffix is non-empty exactly in EVIDENCE mode, and then it is the banner followed by the evidence template |
| Agents.BuildAgents | backend/agents.py:42-78 | each of the five agents plays its own role, and its system message is its base prompt followed by the one shared suffix |
| Agents.FreestyleKeepsBasePrompts | backend/agents.py:44-76 | outside EVIDENCE mode every system message equals its base prompt |
| Agents.ExpertRole | backend/agents.py:98-103 | a name maps to an expert whose registered name it is, never to the Moderator; a name that maps to nothing names no expert |
| Agents.ModeratorIsNoKey | backend/agents.py:98-103 | "Moderator" is not a key of the expert lookup |
| Agents.KnownNames | backend/agents.py:106-108 | the kept names are all expert keys and are no more than the enabled names |
| Agents.KnownNamesOccurrences | backend/agents.py:106-108 | each expert key keeps its exact number of occurrences, and every other name disappears |
| Agents.KnownNamesAppend | backend/agents.py:106-108 | filtering a concatenation concatenates the filtered parts, so the input order is kept |
| Agents.KnownNamesCount | backend/agents.py:106-108 | the number of kept names is the number of occurrences of the four keys |
| Agents.Experts | backend/agents.py:106-108 | the appended agents are, position by position, the agents of the kept names |
| Agents.Participants | backend/agents.py:105-108 | the panel has the Moderator at index 0, then one agent per kept name in order, so its length is 1 plus the number of kept names |
| Agents.PanelFollowsEnabled | backend/agents.py:98-108 | for built agents, the panel size is 1 plus the key occurrences; the Moderator is first and appears nowhere else; the later names follow the enabled order |
| Agents.ModeratorAlone | backend/agents.py:105-106 | a missing or empty enabled list gives the Moderator alone |
| Agents.DuplicatesKept | backend/agents.py:106-108 | [key, non-key, key] lists the same expert twice after the Moderator and drops the non-key |
| Agents.RunPanelRound | backend/agents.py:90-136 | a failing setup (client or team construction) is returned first; otherwise a context failure is returned as is; otherwise an engine failure comes back as `EngineError` and a successful run as the normalisation of exactly the engine's messages, which are all assistant entries |
| Agents.RoundSeesOnlyWindow | backend/agents.py:114-136 | prepending entries older than the last ten, malformed or not, leaves the round's result unchanged: the engine is called with the same panel, turn cap and kickoff |
| Transcript.Window | backend/agents.py:117 | the window holds min(10, length) entries and is the suffix of the history |
| Transcript.Line | backend/agents.py:117 | a line renders exactly when the entry has a role and a content; a missing role fails with key "role" even when a name is present; a line is the name (else the role), ": ", then the content |
| Transcript.Lines | backend/agents.py:117 | lines succeed exactly when every entry has a role and a content; each line is the name, or else the role, then ": " and the content; a failure is the error of the first bad entry |
| Transcript.FormatContext | backend/agents.py:114-118 | empty history gives ""; otherwise rendering succeeds exactly when every windowed entry has a role and a content, the text is the label followed by the window's `speaker: content` lines joined by newlines, and a failure is the missing key of the first bad windowed entry |
| Transcript.ContextIgnoresOlderEntries | backend/agents.py:115-117 | entries older than the last ten never change the context, even when they are malformed |
| Transcript.ContextLines | backend/agents.py:114-118 | when no speaker or content of the last ten entries holds a newline (older entries may be malformed or multi-line), the context starts with the label, and splitting the rest at newlines gives min(10, length) lines, each `speaker: content` of the matching entry in history order |
| Strings.SplitJoin | backend/agents.py:116 | splitting a newline-join of newline-free lines gives the lines back |
| Transcript.Kickoff | backend/agents.py:120 | the kickoff starts with the context and ends with the trailer, and the prompt is read back out of it exactly |
| Transcript.EmptyHistoryKickoff | backend/agents.py:114-120 | with no history the context is "" and the kickoff starts with two newlines |
| Messages.SpeakerOf | backend/agents.py:129 | the speaker is never empty; it is a non-empty source, else a non-empty name, else "assistant" |
| Messages.MsgToText | backend/agents.py:81-87 | conversion fails exactly when `to_text()` or `str()` raises; text is kept as is; a structured message gives its rendering; any other message gives its content attribute, else its string form |
| Messages.ContentFallbacks | backend/agents.py:81-87 | text content as is; the structured rendering; the content attribute, else the string form; nothing when to_text() or str() raises |
| Messages.Normalize | backend/agents.py:128-134 | a message yields an entry exactly when it is not broken and its content converts, and the entry is the assistant entry of its speaker and content |
| Messages.NormalizeAll | backend/agents.py:125-136 | the output is no longer than the input and holds only assistant entries with a name and a content; it is as long as the input exactly when no message is skipped |
| Messages.NormalizeAllAppend | backend/agents.py:125-134 | normalising a concatenation concatenates the normalisations, so the output order is the input order |
| Messages.NormalizeAllKeepsEvery | backend/agents.py:125-134 | when no message is skipped, the output has one entry per message, each the entry of the message at the same position |
| Messages.NormalizeOne | backend/agents.py:126-134 | one message gives its entry, or nothing when it is skipped |
| Messages.SpeakerFallbacks | backend/agents.py:129 | a truthy source wins; an empty source falls back to the name; an absent source with an empty name gives "assistant" |
| Messages.SkippedMessage | backend/agents.py:128-134 | a broken message between two good ones disappears, and the two keep their order |
| App.Load | backend/storage.py:15-20 | a stored session loads as its stored transcript; an unknown session loads as the empty transcript |
| App.Save | backend/storage.py:22-25 | after saving, the session loads as what was saved, and every other session is unchanged |
| App.SaveThenLoad | backend/storage.py:15-25 | load after save returns the saved transcript |
| App.MakeRunRoundReq | backend/app.py:13-17 | session id and prompt are kept; a missing mode is "FREESTYLE" and missing agents are the four experts in registry order; given values are kept |
| App.DefaultNamesAllKnown | backend/app.py:17 | every default agent name is an expert key |
| App.DefaultParticipants | backend/app.py:17 | the default names seat the Moderator, BioExpert, AIExpert, Reviewer and GrantsWriter, in that order |
| App.DefaultPanel | backend/app.py:16-17 | a request without mode and agents gets that full panel, with every base prompt unchanged |
| App.ApiNewSession | backend/app.py:24-27 | the new session is stored with an empty transcript, the response carries its id and no messages, and other sessions are unchanged |
| App.ExtendHistory | backend/app.py:42 | the result has length \|history\| + 1 + \|new\|; its prefix is the history, then the user entry at index \|history\|, then the new messages |
| App.TwoNewMessages | backend/app.py:42 | with two new messages, the first is second to last and the user entry sits just before it |
| App.ApiRunRound | backend/app.py:29-45 | the call succeeds exactly when its round does; the returned transcript is the loaded history, the user entry, then exactly the round's entries; it is what is saved; other sessions are unchanged; a failed round returns the round's error |
| App.ReplayAppends | backend/app.py:42-43 | after any number of rounds, the transcript is the original history followed by each round's user entry and replies, in call order; `App.SessionAppendOnly` uses it for the handler |
| App.SessionAppendOnly | backend/app.py:29-45 | after any sequence of successful calls on one session, its stored transcript is the replay of the recorded rounds on the original one, that is the original followed by each call's user entry and round entries, in call order |
| App.SecondRoundKeepsFirst | backend/app.py:31-45 | two successful rounds on one session keep the first round's transcript as a prefix of the second |

## Left out

- `build_model_client` (backend/agents.py:19-39) is not modelled. It does environment lookups, prints a line and constructs a foreign client. The client the agents share is not part of `Agents.Agent`.
- The turn-taking engine (`AssistantAgent`, `RoundRobinGroupChat`, `asyncio.run`; backend/agents.py:111, 123) is library code. It is an opaque `Engine` parameter. `max_turns` is only passed through, so no bound on the number of turns is claimed.
- Agents.RunPanelRound: it does not say what the engine returns. In particular, whether the engine echoes the kickoff task as a message is library behaviour and is not claimed.
- Agents.RunPanelRound: the engine is a deterministic function of the panel, the turn cap and the kickoff. The program's `team.run` calls a language model, so two identical calls can return different messages; what the model shows about older entries is that they never reach the engine.
- Agents.RunPanelRound: building the model client (backend/agents.py:46) and building the team (backend/agents.py:111) are one `Setup` step, so which of the two raised is not distinguished. When either raises, nothing else runs.
- Exceptions become `Err` values. Their mapping to HTTP status codes by the web framework is not modelled.
- Request validation by the web framework (wrong JSON types, an explicit `null` for `mode`) is not modelled. `App.MakeRunRoundReq` only fills in the defaults of missing fields.
- App.Save: the map assumes that distinct session ids name distinct files. In backend/storage.py:16,23 the id becomes a path under the sessions directory, so ids such as "a" and "./a" name the same file, and an absolute id names a file outside that directory.
- App.ApiRunRound: saving is assumed never to raise. An id naming a missing subdirectory loads as [] and runs the whole round, but `open(path, "w")` at backend/storage.py:24 then raises, where the model returns `Ok`.
- Storage I/O (backend/storage.py), the SQL layer (backend/db.py) and uuid generation are abstracted as a map and a session-id parameter.
- The `/` route and the static mount (backend/app.py:10-11, 19-22), and frontend/app.js, are UI code.
- The history endpoint used by tests/test_backend.py is not defined in backend/app.py, so it is not modelled.
- The prompt texts of backend/prompts.py are opaque fields of `Agents.Prompts`.
- Agents.NormalizeMode: upper-casing and stripping are modelled on ASCII only. Python's Unicode case mapping (for example a dotless "ı" upper-cases to "I") and non-ASCII whitespace are not modelled.
- JSON values that are not strings are not modelled; entry fields are strings or absent. A `null` name renders as "None". A content attribute that JSON cannot encode (a list of tool calls, say) makes `json.dump` at backend/storage.py:25 raise after `open(path, "w")` at :24 has emptied the file, so the session is left half-written.
- Concurrent requests are not modelled, because the functions are pure. The handlers run on separate threads: two saves of one session each truncate the file and write through their own handle, so a shorter later write can leave the tail of an earlier one behind it, and a load during a save can read a partial file.
- App.Load: loading is assumed never to raise. An unreadable, partial or invalid session file makes `json.load` at backend/storage.py:19-20 raise; that failure is not modelled.
