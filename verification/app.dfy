/** The HTTP handlers around a panel round (backend/app.py): request
    defaults, session creation, and the transcript update of `api_run_round`.
    Storage is a map from session id to transcript. */
module App {
  import opened Results
  import opened Transcript
  import opened Messages
  import opened Agents

  /** Persisted transcripts, keyed by session id. */
  type Store = map<string, seq<Entry>>

  /** `load_session`: the stored transcript, or none for an unknown session. */
  function Load(store: Store, sid: string): (h: seq<Entry>)
    ensures sid in store ==> h == store[sid]
    ensures sid !in store ==> h == []
  {
    if sid in store then store[sid] else []
  }

  /** `save_session`: create or overwrite one session, leave the others alone. */
  function Save(store: Store, sid: string, messages: seq<Entry>): (s: Store)
    ensures Load(s, sid) == messages
    ensures forall other :: other != sid ==> Load(s, other) == Load(store, other)
  {
    store[sid := messages]
  }

  /** Saving and then loading the same session gives back what was saved. */
  lemma {:induction false} SaveThenLoad(store: Store, sid: string, messages: seq<Entry>)
    ensures Load(Save(store, sid, messages), sid) == messages
  {
  }

  datatype RunRoundReq = RunRoundReq(sessionId: string, userPrompt: string, mode: string, enabledAgents: seq<string>)

  const DefaultMode: string := "FREESTYLE"

  const DefaultEnabled: seq<string> := ["BioExpert", "AIExpert", "Reviewer", "GrantsWriter"]

  /** A request body with the optional fields filled in by their defaults. */
  function MakeRunRoundReq(sessionId: string, userPrompt: string, mode: Option<string>,
                           enabledAgents: Option<seq<string>>): (r: RunRoundReq)
    ensures r.sessionId == sessionId && r.userPrompt == userPrompt
    ensures r.mode == (if mode.Some? then mode.value else "FREESTYLE")
    ensures r.enabledAgents == (if enabledAgents.Some? then enabledAgents.value
                                else ["BioExpert", "AIExpert", "Reviewer", "GrantsWriter"])
  {
    RunRoundReq(sessionId, userPrompt, mode.GetOr(DefaultMode), enabledAgents.GetOr(DefaultEnabled))
  }

  /** Every default name is a key, so the default list selects itself. */
  lemma {:induction false} DefaultNamesAllKnown()
    ensures KnownNames(DefaultEnabled) == DefaultEnabled
  {
    var g := ["GrantsWriter"];
    var rg := ["Reviewer"] + g;
    var arg := ["AIExpert"] + rg;
    KnownNamesCons("GrantsWriter", []);
    assert g == ["GrantsWriter"] + [];
    KnownNamesCons("Reviewer", g);
    KnownNamesCons("AIExpert", rg);
    KnownNamesCons("BioExpert", arg);
    assert DefaultEnabled == ["BioExpert"] + arg;
  }

  /** The default names put every expert on the panel once, in registry order. */
  lemma {:induction false} DefaultParticipants(r: Roster)
    ensures Participants(r, Some(DefaultEnabled)) == [r.moderator, r.bio, r.ai, r.reviewer, r.grant]
  {
    DefaultNamesAllKnown();
    var panel := Participants(r, Some(DefaultEnabled));
    var kn := KnownNames(DefaultEnabled);
    assert kn[0] == "BioExpert" && kn[1] == "AIExpert" && kn[2] == "Reviewer" && kn[3] == "GrantsWriter";
    assert panel[1] == r.bio;
    assert panel[2] == r.ai;
    assert panel[3] == r.reviewer;
    assert panel[4] == r.grant;
  }

  /** A request that only names a session and a prompt gets the full panel in
      FREESTYLE mode: the Moderator then the four experts, in that order, each
      with its base prompt unchanged. */
  lemma {:induction false} DefaultPanel(p: Prompts, sessionId: string, userPrompt: string)
    ensures var req := MakeRunRoundReq(sessionId, userPrompt, None, None);
      var r := BuildAgents(p, Some(req.mode));
      && Participants(r, Some(req.enabledAgents)) == [r.moderator, r.bio, r.ai, r.reviewer, r.grant]
      && forall role :: r.Get(role).systemMessage == Base(p, role)
  {
    OtherModesAreNotEvidence();
    DefaultParticipants(BuildAgents(p, Some(DefaultMode)));
  }

  datatype NewSessionResponse = NewSessionResponse(sessionId: string, messages: seq<Entry>)

  /** `api_new_session` with `new_session`: the fresh id (random in the
      program, a parameter here) is stored with an empty transcript and
      returned with no messages. */
  function ApiNewSession(store: Store, sid: string): (r: (Store, NewSessionResponse))
    ensures r.1.sessionId == sid && r.1.messages == []
    ensures Load(r.0, sid) == []
    ensures forall other :: other != sid ==> Load(r.0, other) == Load(store, other)
  {
    (Save(store, sid, []), NewSessionResponse(sid, []))
  }

  /** `history + [user entry] + new_msgs`: the prior history unchanged, then
      the user's prompt, then the round's messages in order. */
  function ExtendHistory(history: seq<Entry>, userPrompt: string, newMsgs: seq<Entry>): (r: seq<Entry>)
    ensures |r| == |history| + 1 + |newMsgs|
    ensures r[..|history|] == history
    ensures r[|history|] == UserEntry(userPrompt)
    ensures r[|history| + 1..] == newMsgs
  {
    history + [UserEntry(userPrompt)] + newMsgs
  }

  /** The shape the round test relies on: with two new messages the first is
      second to last. */
  lemma {:induction false} TwoNewMessages(history: seq<Entry>, userPrompt: string, m1: Entry, m2: Entry)
    ensures var r := ExtendHistory(history, userPrompt, [m1, m2]);
      |r| >= 3 && r[|r| - 2] == m1 && r[|r| - 1] == m2 && r[|r| - 3] == UserEntry(userPrompt)
  {
    var r := ExtendHistory(history, userPrompt, [m1, m2]);
    assert r[|history| + 1..][0] == m1 && r[|history| + 1..][1] == m2;
  }

  lemma {:induction false} AppendedAssistants(history: seq<Entry>, userPrompt: string, newMsgs: seq<Entry>)
    requires forall k :: 0 <= k < |newMsgs| ==> IsAssistantEntry(newMsgs[k])
    ensures var full := ExtendHistory(history, userPrompt, newMsgs);
      forall k :: |history| < k < |full| ==> IsAssistantEntry(full[k])
  {
    var full := ExtendHistory(history, userPrompt, newMsgs);
    assert forall k :: |history| < k < |full| ==> full[k] == newMsgs[k - |history| - 1];
  }

  /** The round `api_run_round` runs for a request on a given store. */
  function RoundFor(store: Store, req: RunRoundReq, p: Prompts, setup: Setup, engine: Engine): Result<seq<Entry>, Error> {
    RunPanelRound(p, req.userPrompt, Some(req.mode), Some(req.enabledAgents),
                  Load(store, req.sessionId), DefaultMaxTurns, setup, engine)
  }

  /** `api_run_round`: load the session, run the round on it, save and return
      the extended transcript. A failing round saves nothing. */
  function ApiRunRound(store: Store, req: RunRoundReq, p: Prompts, setup: Setup, engine: Engine)
    : (r: Result<(Store, seq<Entry>), Error>)
    ensures r.Ok? <==> RoundFor(store, req, p, setup, engine).Ok?
    ensures r.Ok? ==> r.value.1 == ExtendHistory(Load(store, req.sessionId), req.userPrompt,
                                                  RoundFor(store, req, p, setup, engine).value)
    ensures r.Ok? ==> Load(r.value.0, req.sessionId) == r.value.1
    ensures r.Ok? ==> forall other :: other != req.sessionId ==> Load(r.value.0, other) == Load(store, other)
    ensures r.Ok? ==> var h := Load(store, req.sessionId);
      && |r.value.1| > |h|
      && r.value.1[..|h|] == h
      && r.value.1[|h|] == UserEntry(req.userPrompt)
      && forall k :: |h| < k < |r.value.1| ==> IsAssistantEntry(r.value.1[k])
    ensures r.Err? ==> RoundFor(store, req, p, setup, engine) == Err(r.error)
  {
    var history := Load(store, req.sessionId);
    match RoundFor(store, req, p, setup, engine)
    case Err(e) => Err(e)
    case Ok(newMsgs) =>
      var full := ExtendHistory(history, req.userPrompt, newMsgs);
      AppendedAssistants(history, req.userPrompt, newMsgs);
      Ok((Save(store, req.sessionId, full), full))
  }

  /** One completed round as the transcript sees it: the prompt and the replies. */
  datatype Round = Round(userPrompt: string, replies: seq<Entry>)

  /** The transcript after applying rounds one after another. */
  function Replay(history: seq<Entry>, rounds: seq<Round>): seq<Entry>
    decreases |rounds|
  {
    if |rounds| == 0 then history
    else Replay(ExtendHistory(history, rounds[0].userPrompt, rounds[0].replies), rounds[1..])
  }

  /** What the rounds contribute, in call order. */
  function Contributions(rounds: seq<Round>): seq<Entry> {
    if |rounds| == 0 then []
    else [UserEntry(rounds[0].userPrompt)] + rounds[0].replies + Contributions(rounds[1..])
  }

  /** The transcript is append-only: after any number of rounds it is the
      original history followed by each round's entries in call order. */
  lemma {:induction false} ReplayAppends(history: seq<Entry>, rounds: seq<Round>)
    ensures Replay(history, rounds) == history + Contributions(rounds)
    decreases |rounds|
  {
    if |rounds| > 0 {
      var next := ExtendHistory(history, rounds[0].userPrompt, rounds[0].replies);
      ReplayAppends(next, rounds[1..]);
      assert next == history + ([UserEntry(rounds[0].userPrompt)] + rounds[0].replies);
    }
  }

  /** Successive `api_run_round` calls: the final store and, for each call,
      the prompt and the replies its round produced; the first failure stops
      the sequence. */
  function RunRounds(store: Store, reqs: seq<RunRoundReq>, p: Prompts, setup: Setup, engine: Engine)
    : Result<(Store, seq<Round>), Error>
    decreases |reqs|
  {
    if |reqs| == 0 then Ok((store, []))
    else
      match ApiRunRound(store, reqs[0], p, setup, engine)
      case Err(e) => Err(e)
      case Ok(step) =>
        var replies := RoundFor(store, reqs[0], p, setup, engine).value;
        match RunRounds(step.0, reqs[1..], p, setup, engine)
        case Err(e) => Err(e)
        case Ok(rest) => Ok((rest.0, [Round(reqs[0].userPrompt, replies)] + rest.1))
  }

  /** The extended transcript is the history followed by what the round contributes. */
  lemma {:induction false} ExtendHistoryAppends(history: seq<Entry>, userPrompt: string, newMsgs: seq<Entry>)
    ensures ExtendHistory(history, userPrompt, newMsgs) == history + ([UserEntry(userPrompt)] + newMsgs)
  {
    assert history + [UserEntry(userPrompt)] + newMsgs == history + ([UserEntry(userPrompt)] + newMsgs);
  }

  /** A non-empty sequence of calls succeeds when its first call and the rest succeed. */
  lemma {:induction false} RunRoundsFirst(store: Store, reqs: seq<RunRoundReq>, p: Prompts, setup: Setup, engine: Engine)
    requires |reqs| > 0 && RunRounds(store, reqs, p, setup, engine).Ok?
    ensures ApiRunRound(store, reqs[0], p, setup, engine).Ok?
    ensures var step := ApiRunRound(store, reqs[0], p, setup, engine).value;
      var rest := RunRounds(step.0, reqs[1..], p, setup, engine);
      && rest.Ok?
      && RunRounds(store, reqs, p, setup, engine).value
         == (rest.value.0, [Round(reqs[0].userPrompt, RoundFor(store, reqs[0], p, setup, engine).value)] + rest.value.1)
  {
  }

  /** A session is append-only across calls: after any sequence of successful
      rounds on it, its stored transcript is the original one followed by each
      call's user entry and replies, in call order. */
  lemma {:induction false} SessionAppendOnly(store: Store, sid: string, reqs: seq<RunRoundReq>, p: Prompts,
                                             setup: Setup, engine: Engine)
    requires forall k :: 0 <= k < |reqs| ==> reqs[k].sessionId == sid
    ensures var r := RunRounds(store, reqs, p, setup, engine);
      r.Ok? ==> |r.value.1| == |reqs| && Load(r.value.0, sid) == Load(store, sid) + Contributions(r.value.1)
    ensures var r := RunRounds(store, reqs, p, setup, engine);
      r.Ok? ==> Load(r.value.0, sid) == Replay(Load(store, sid), r.value.1)
    decreases |reqs|
  {
    var r := RunRounds(store, reqs, p, setup, engine);
    if r.Ok? {
      ReplayAppends(Load(store, sid), r.value.1);
    }
    if |reqs| > 0 && r.Ok? {
      RunRoundsFirst(store, reqs, p, setup, engine);
      var step := ApiRunRound(store, reqs[0], p, setup, engine).value;
      var replies := RoundFor(store, reqs[0], p, setup, engine).value;
      var rest := RunRounds(step.0, reqs[1..], p, setup, engine).value;
      assert Load(step.0, sid) == ExtendHistory(Load(store, sid), reqs[0].userPrompt, replies);
      ExtendHistoryAppends(Load(store, sid), reqs[0].userPrompt, replies);
      SessionAppendOnly(step.0, sid, reqs[1..], p, setup, engine);
      var rounds := [Round(reqs[0].userPrompt, replies)] + rest.1;
      assert rounds[1..] == rest.1;
      assert Contributions(rounds) == [UserEntry(reqs[0].userPrompt)] + replies + Contributions(rest.1);
    }
  }

  /** Two successful rounds on one session leave the first round's transcript
      as an untouched prefix of the second. */
  lemma {:induction false} SecondRoundKeepsFirst(store: Store, req1: RunRoundReq, req2: RunRoundReq, p: Prompts,
                                                 setup: Setup, engine: Engine)
    requires req1.sessionId == req2.sessionId
    requires ApiRunRound(store, req1, p, setup, engine).Ok?
    requires ApiRunRound(ApiRunRound(store, req1, p, setup, engine).value.0, req2, p, setup, engine).Ok?
    ensures var first := ApiRunRound(store, req1, p, setup, engine).value;
      var second := ApiRunRound(first.0, req2, p, setup, engine).value;
      && second.1[..|first.1|] == first.1
      && first.1[..|Load(store, req1.sessionId)|] == Load(store, req1.sessionId)
      && Load(second.0, req1.sessionId) == second.1
  {
  }
}
