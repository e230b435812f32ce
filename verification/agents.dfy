/** The panel of one round (backend/agents.py): the mode-dependent system
    messages of the five agents, the ordered list of participants, and the
    composition of context, kickoff, engine run and normalisation. */
module Agents {
  import opened Results
  import Strings
  import opened Transcript
  import opened Messages

  datatype Role = Moderator | BioExpert | AIExpert | Reviewer | GrantsWriter

  /** The agent name each role is registered under. */
  function RoleName(role: Role): string {
    match role
    case Moderator => "Moderator"
    case BioExpert => "BioExpert"
    case AIExpert => "AIExpert"
    case Reviewer => "Reviewer"
    case GrantsWriter => "GrantsWriter"
  }

  /** The prompt texts of backend/prompts.py, kept opaque: every property
      below holds whatever they say. */
  datatype Prompts = Prompts(
    moderator: string,
    bioExpert: string,
    aiExpert: string,
    reviewer: string,
    grantsman: string,
    evidenceTemplate: string)

  /** The base system prompt of each role. */
  function Base(p: Prompts, role: Role): string {
    match role
    case Moderator => p.moderator
    case BioExpert => p.bioExpert
    case AIExpert => p.aiExpert
    case Reviewer => p.reviewer
    case GrantsWriter => p.grantsman
  }

  /** An assistant agent: which role it plays and its system message. The
      model client all agents share is not part of the model. */
  datatype Agent = Agent(role: Role, systemMessage: string)

  /** The five agents `build_agents` returns. */
  datatype Roster = Roster(moderator: Agent, bio: Agent, ai: Agent, reviewer: Agent, grant: Agent) {
    function Get(role: Role): Agent {
      match role
      case Moderator => moderator
      case BioExpert => bio
      case AIExpert => ai
      case Reviewer => reviewer
      case GrantsWriter => grant
    }
  }

  // ---------------------------------------------------------------- mode

  /** `mode or ""`. */
  function ModeText(mode: Option<string>): string {
    if mode.Some? then mode.value else ""
  }

  /** `(mode or "").upper().strip()`. */
  function NormalizeMode(mode: Option<string>): (r: string)
    ensures |r| <= |ModeText(mode)|
    ensures forall k :: 0 <= k < |r| ==> !Strings.IsLower(r[k])
    ensures r != [] ==> !Strings.IsSpace(r[0]) && !Strings.IsSpace(r[|r| - 1])
  {
    Strings.Strip(Strings.Upper(ModeText(mode)))
  }

  /** The mode names EVIDENCE: apart from leading and trailing whitespace it
      is the word "evidence" in any letter case. */
  ghost predicate SpellsEvidence(mode: Option<string>) {
    mode.Some? &&
    exists i, j :: 0 <= i <= j <= |mode.value|
      && Strings.AllSpace(mode.value[..i])
      && Strings.AllSpace(mode.value[j..])
      && Strings.Upper(mode.value[i..j]) == "EVIDENCE"
  }

  lemma {:induction false} EvidenceSpelled(mode: Option<string>)
    requires NormalizeMode(mode) == "EVIDENCE"
    ensures SpellsEvidence(mode)
  {
    var s := ModeText(mode);
    var a, b := Strings.StripSlices(Strings.Upper(s));
    Strings.UpperSlice(s, 0, a);
    Strings.UpperSlice(s, a, b);
    Strings.UpperSlice(s, b, |s|);
    assert s[0..a] == s[..a] && s[b..|s|] == s[b..];
    Strings.UpperAllSpace(s[..a]);
    Strings.UpperAllSpace(s[b..]);
  }

  /** A word padded with whitespace normalises to its upper-cased self. */
  lemma {:induction false} NormalizePadded(s: string, i: nat, j: nat, w: string)
    requires i <= j <= |s| && Strings.AllSpace(s[..i]) && Strings.AllSpace(s[j..])
    requires Strings.Upper(s[i..j]) == w
    requires w != [] && !Strings.IsSpace(w[0]) && !Strings.IsSpace(w[|w| - 1])
    ensures NormalizeMode(Some(s)) == w
  {
    var u := Strings.Upper(s);
    Strings.UpperSlice(s, 0, i);
    Strings.UpperSlice(s, i, j);
    Strings.UpperSlice(s, j, |s|);
    assert s[0..i] == s[..i] && s[j..|s|] == s[j..];
    Strings.UpperAllSpace(s[..i]);
    Strings.UpperAllSpace(s[j..]);
    assert u[i] == u[i..j][0] && u[j - 1] == u[i..j][j - i - 1];
    Strings.StripAt(u, i, j);
  }

  lemma {:induction false} SpelledEvidence(mode: Option<string>)
    requires SpellsEvidence(mode)
    ensures NormalizeMode(mode) == "EVIDENCE"
  {
    var s := mode.value;
    var i, j :| 0 <= i <= j <= |s| && Strings.AllSpace(s[..i]) && Strings.AllSpace(s[j..])
                && Strings.Upper(s[i..j]) == "EVIDENCE";
    NormalizePadded(s, i, j, "EVIDENCE");
  }

  /** The normalised mode equals "EVIDENCE" exactly when the raw mode spells it. */
  lemma {:induction false} ModeIsEvidenceIff(mode: Option<string>)
    ensures NormalizeMode(mode) == "EVIDENCE" <==> SpellsEvidence(mode)
  {
    if NormalizeMode(mode) == "EVIDENCE" {
      EvidenceSpelled(mode);
    }
    if SpellsEvidence(mode) {
      SpelledEvidence(mode);
    }
  }

  // Single steps of the two examples below, kept apart so that each proof
  // obligation over string literals stays small.

  lemma {:induction false} UpperEvidence()
    ensures Strings.Upper("evidence") == "EVIDENCE"
  {
  }

  lemma {:induction false} PaddedEvidencePieces()
    ensures var e := "  evidence ";
      e[..2] == "  " && e[10..] == " " && e[2..10] == "evidence"
    ensures Strings.AllSpace("  ") && Strings.AllSpace(" ")
  {
  }

  lemma {:induction false} PaddedEvidenceNormalizes()
    ensures NormalizeMode(Some("  evidence ")) == "EVIDENCE"
  {
    PaddedEvidencePieces();
    UpperEvidence();
    NormalizePadded("  evidence ", 2, 10, "EVIDENCE");
  }

  lemma {:induction false} UpperFreestyle()
    ensures Strings.Upper("FREESTYLE") == "FREESTYLE"
  {
  }

  lemma {:induction false} FreestylePieces()
    ensures var f := "FREESTYLE";
      f[..0] == [] && f[9..] == [] && f[0..9] == f
  {
  }

  lemma {:induction false} FreestyleNormalizes()
    ensures NormalizeMode(Some("FREESTYLE")) == "FREESTYLE"
  {
    FreestylePieces();
    UpperFreestyle();
    NormalizePadded("FREESTYLE", 0, 9, "FREESTYLE");
  }

  /** A lower-case mode with surrounding blanks still selects EVIDENCE. */
  lemma {:induction false} PaddedLowerCaseEvidence()
    ensures NormalizeMode(Some("  evidence ")) == "EVIDENCE" && SpellsEvidence(Some("  evidence "))
  {
    PaddedEvidenceNormalizes();
    ModeIsEvidenceIff(Some("  evidence "));
  }

  /** FREESTYLE, a missing mode and an empty one all select no suffix. */
  lemma {:induction false} OtherModesAreNotEvidence()
    ensures NormalizeMode(Some("FREESTYLE")) == "FREESTYLE" && !SpellsEvidence(Some("FREESTYLE"))
    ensures NormalizeMode(None) == "" && !SpellsEvidence(None)
    ensures NormalizeMode(Some("")) == "" && !SpellsEvidence(Some(""))
  {
    FreestyleNormalizes();
    ModeIsEvidenceIff(Some("FREESTYLE"));
    ModeIsEvidenceIff(None);
    ModeIsEvidenceIff(Some(""));
  }

  // ---------------------------------------------------------- system messages

  const EvidenceBanner: string := "\n\nCRITICAL: EVIDENCE MODE IS ACTIVE.\n"

  /** The text appended to every system message in EVIDENCE mode. */
  function Addendum(p: Prompts): string {
    EvidenceBanner + p.evidenceTemplate
  }

  /** The shared suffix: the addendum in EVIDENCE mode, nothing otherwise. */
  function DirectiveSuffix(p: Prompts, mode: Option<string>): (r: string)
    ensures r != "" <==> SpellsEvidence(mode)
    ensures r == (if SpellsEvidence(mode) then Addendum(p) else "")
  {
    ModeIsEvidenceIff(mode);
    if NormalizeMode(mode) == "EVIDENCE" then Addendum(p) else ""
  }

  /** `build_agents`: one agent per role, each with its base prompt followed
      once by the same mode suffix (the EVIDENCE addendum or nothing, as
      `DirectiveSuffix` states). */
  function BuildAgents(p: Prompts, mode: Option<string>): (r: Roster)
    ensures forall role :: r.Get(role).role == role
    ensures forall role :: r.Get(role).systemMessage == Base(p, role) + DirectiveSuffix(p, mode)
  {
    var suffix := DirectiveSuffix(p, mode);
    var r := Roster(
      Agent(Moderator, p.moderator + suffix),
      Agent(BioExpert, p.bioExpert + suffix),
      Agent(AIExpert, p.aiExpert + suffix),
      Agent(Reviewer, p.reviewer + suffix),
      Agent(GrantsWriter, p.grantsman + suffix));
    assert forall role :: r.Get(role) == Agent(role, Base(p, role) + suffix);
    r
  }

  /** Outside EVIDENCE mode every agent gets its base prompt unchanged. */
  lemma {:induction false} FreestyleKeepsBasePrompts(p: Prompts, mode: Option<string>)
    requires NormalizeMode(mode) != "EVIDENCE"
    ensures forall role :: BuildAgents(p, mode).Get(role).systemMessage == Base(p, role)
  {
    ModeIsEvidenceIff(mode);
  }

  // ---------------------------------------------------------- participants

  /** The `name_to_agent` keys: the four experts, not the Moderator. */
  function ExpertRole(n: string): (r: Option<Role>)
    ensures r.Some? ==> r.value != Moderator && RoleName(r.value) == n
    ensures r.None? ==> forall role :: role != Moderator ==> RoleName(role) != n
  {
    if n == "BioExpert" then Some(BioExpert)
    else if n == "AIExpert" then Some(AIExpert)
    else if n == "Reviewer" then Some(Reviewer)
    else if n == "GrantsWriter" then Some(GrantsWriter)
    else None
  }

  predicate IsExpertKey(n: string) {
    ExpertRole(n).Some?
  }

  /** `enabled or []`. */
  function EnabledNames(enabled: Option<seq<string>>): seq<string> {
    enabled.GetOr([])
  }

  /** The enabled names that select an expert, in order and with repetitions. */
  function KnownNames(ns: seq<string>): (r: seq<string>)
    ensures |r| <= |ns|
    ensures forall k :: 0 <= k < |r| ==> IsExpertKey(r[k])
  {
    if |ns| == 0 then []
    else
      var rest := KnownNames(ns[1..]);
      if IsExpertKey(ns[0]) then [ns[0]] + rest else rest
  }

  /** Each key keeps its number of occurrences; every other name is gone. */
  lemma {:induction false} KnownNamesOccurrences(ns: seq<string>)
    ensures forall n :: IsExpertKey(n) ==> multiset(KnownNames(ns))[n] == multiset(ns)[n]
    ensures forall n :: !IsExpertKey(n) ==> multiset(KnownNames(ns))[n] == 0
  {
    if |ns| > 0 {
      assert ns == [ns[0]] + ns[1..];
      KnownNamesOccurrences(ns[1..]);
    }
  }

  /** The agents the loop appends after the Moderator. */
  function Experts(roster: Roster, ns: seq<string>): (r: seq<Agent>)
    ensures |r| == |KnownNames(ns)|
    ensures forall k :: 0 <= k < |r| ==> r[k] == roster.Get(ExpertRole(KnownNames(ns)[k]).value)
  {
    if |ns| == 0 then []
    else
      var rest := Experts(roster, ns[1..]);
      assert KnownNames(ns) == (if IsExpertKey(ns[0]) then [ns[0]] + KnownNames(ns[1..]) else KnownNames(ns[1..]));
      match ExpertRole(ns[0])
      case Some(role) => [roster.Get(role)] + rest
      case None => rest
  }

  /** The participant list: the Moderator, then one agent per enabled expert
      name, in the order given. */
  function Participants(roster: Roster, enabled: Option<seq<string>>): (p: seq<Agent>)
    ensures |p| == 1 + |KnownNames(EnabledNames(enabled))|
    ensures p[0] == roster.moderator
    ensures forall k :: 1 <= k < |p| ==>
      p[k] == roster.Get(ExpertRole(KnownNames(EnabledNames(enabled))[k - 1]).value)
  {
    [roster.moderator] + Experts(roster, EnabledNames(enabled))
  }

  /** Filtering respects concatenation, so names keep their relative order. */
  lemma {:induction false} KnownNamesAppend(a: seq<string>, b: seq<string>)
    ensures KnownNames(a + b) == KnownNames(a) + KnownNames(b)
  {
    if |a| == 0 {
      assert a + b == b;
    } else {
      assert (a + b)[0] == a[0];
      assert (a + b)[1..] == a[1..] + b;
      KnownNamesAppend(a[1..], b);
    }
  }

  lemma {:induction false} KnownNamesCons(n: string, rest: seq<string>)
    ensures KnownNames([n] + rest) == (if IsExpertKey(n) then [n] + KnownNames(rest) else KnownNames(rest))
  {
    assert ([n] + rest)[1..] == rest;
  }

  /** The number of occurrences of expert keys in the enabled list. */
  function KeyOccurrences(ns: seq<string>): nat {
    var m := multiset(ns);
    m["BioExpert"] + m["AIExpert"] + m["Reviewer"] + m["GrantsWriter"]
  }

  /** One name contributes one occurrence exactly when it is a key. */
  lemma {:induction false} KeyIndicator(n: string)
    ensures KeyOccurrences([n]) == if IsExpertKey(n) then 1 else 0
  {
    var m := multiset([n]);
    assert m == multiset{n};
    if n == "BioExpert" {
      assert m["AIExpert"] == 0 && m["Reviewer"] == 0 && m["GrantsWriter"] == 0;
    } else if n == "AIExpert" {
      assert m["BioExpert"] == 0 && m["Reviewer"] == 0 && m["GrantsWriter"] == 0;
    } else if n == "Reviewer" {
      assert m["BioExpert"] == 0 && m["AIExpert"] == 0 && m["GrantsWriter"] == 0;
    } else if n == "GrantsWriter" {
      assert m["BioExpert"] == 0 && m["AIExpert"] == 0 && m["Reviewer"] == 0;
    }
  }

  lemma {:induction false} KnownNamesCount(ns: seq<string>)
    ensures |KnownNames(ns)| == KeyOccurrences(ns)
  {
    if |ns| > 0 {
      var x, rest := ns[0], ns[1..];
      assert ns == [x] + rest;
      assert multiset(ns) == multiset([x]) + multiset(rest);
      KnownNamesCount(rest);
      KnownNamesCons(x, rest);
      KeyIndicator(x);
    }
  }

  /** The panel of a built roster: the Moderator first and only there, then the
      enabled expert names in order, repetitions kept, one agent per
      occurrence of a key; its size counts those occurrences. */
  lemma {:induction false} PanelFollowsEnabled(p: Prompts, mode: Option<string>, enabled: seq<string>)
    ensures var panel := Participants(BuildAgents(p, mode), Some(enabled));
      && |panel| == 1 + KeyOccurrences(enabled)
      && panel[0].role == Moderator
      && forall k :: 1 <= k < |panel| ==>
           panel[k].role != Moderator && RoleName(panel[k].role) == KnownNames(enabled)[k - 1]
  {
    KnownNamesCount(enabled);
  }

  /** No enabled list, or an empty one, leaves the Moderator alone. */
  lemma {:induction false} ModeratorAlone(roster: Roster)
    ensures Participants(roster, None) == [roster.moderator]
    ensures Participants(roster, Some([])) == [roster.moderator]
  {
  }

  /** Repeated names are not merged: an expert enabled twice sits on the panel
      twice, and a name that is no key ("Moderator" among them) is dropped. */
  lemma {:induction false} DuplicatesKept(roster: Roster, a: string, x: string)
    requires IsExpertKey(a) && !IsExpertKey(x)
    ensures var expert := roster.Get(ExpertRole(a).value);
      Participants(roster, Some([a, x, a])) == [roster.moderator, expert, expert]
  {
    KnownNamesCons(a, []);
    KnownNamesCons(x, [a]);
    KnownNamesCons(a, [x, a]);
    assert [a] + [x, a] == [a, x, a];
    assert [x] + [a] == [x, a];
    assert [a] + [] == [a];
  }

  /** "Moderator" is not one of the keys, so it cannot be enabled a second time. */
  lemma {:induction false} ModeratorIsNoKey()
    ensures !IsExpertKey("Moderator")
  {
  }

  // ---------------------------------------------------------- the round

  /** Building the shared model client (`build_model_client`) and the
      round-robin team over the participants with the turn cap: the message of
      the exception either raises, or `None` when both succeed. */
  type Setup = (seq<Agent>, nat) -> Option<string>

  /** The engine's `team.run`: given the participants, the turn cap and the
      kickoff task, either the raw messages of the conversation or the
      message of the error it raised. */
  type Engine = (seq<Agent>, nat, string) -> Result<seq<RawMessage>, string>

  const DefaultMaxTurns: nat := 6

  /** `run_panel_round`: build the agents, the panel and the team (which may
      raise), then render the context (which may fail on a malformed stored
      entry), run the engine on the kickoff, and keep every message that
      converts. */
  function RunPanelRound(p: Prompts, userPrompt: string, mode: Option<string>, enabled: Option<seq<string>>,
                         history: seq<Entry>, maxTurns: nat, setup: Setup, engine: Engine): (r: Result<seq<Entry>, Error>)
    ensures var panel := Participants(BuildAgents(p, mode), enabled);
      setup(panel, maxTurns).Some? ==> r == Err(SetupError(setup(panel, maxTurns).value))
    ensures var panel := Participants(BuildAgents(p, mode), enabled);
      setup(panel, maxTurns).None? && FormatContext(history).Err? ==> r == Err(FormatContext(history).error)
    ensures var panel := Participants(BuildAgents(p, mode), enabled);
      setup(panel, maxTurns).None? && FormatContext(history).Ok? ==>
      var raw := engine(panel, maxTurns, Kickoff(FormatContext(history).value, userPrompt));
      && (raw.Ok? ==> r == Ok(NormalizeAll(raw.value)))
      && (raw.Err? ==> r == Err(EngineError(raw.error)))
    ensures r.Ok? ==> forall k :: 0 <= k < |r.value| ==> IsAssistantEntry(r.value[k])
  {
    var panel := Participants(BuildAgents(p, mode), enabled);
    match setup(panel, maxTurns)
    case Some(msg) => Err(SetupError(msg))
    case None =>
      match FormatContext(history)
      case Err(e) => Err(e)
      case Ok(context) =>
        match engine(panel, maxTurns, Kickoff(context, userPrompt))
        case Err(msg) => Err(EngineError(msg))
        case Ok(raw) => Ok(NormalizeAll(raw))
  }

  /** The round only sees the last ten entries of history: prepending older
      entries, malformed or not, changes nothing about its outcome. */
  lemma {:induction false} RoundSeesOnlyWindow(p: Prompts, userPrompt: string, mode: Option<string>,
                                               enabled: Option<seq<string>>, older: seq<Entry>, recent: seq<Entry>,
                                               maxTurns: nat, setup: Setup, engine: Engine)
    requires |recent| >= WindowSize
    ensures RunPanelRound(p, userPrompt, mode, enabled, older + recent, maxTurns, setup, engine)
         == RunPanelRound(p, userPrompt, mode, enabled, recent, maxTurns, setup, engine)
  {
    ContextIgnoresOlderEntries(older, recent);
  }
}
