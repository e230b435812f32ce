/** Transcript entries and the text a panel round is started with: the
    context block rendered from the last entries of prior history
    (backend/agents.py:113-118) and the kickoff message (backend/agents.py:120). */
module Transcript {
  import opened Results
  import Strings

  /** One stored transcript entry. Entries are JSON objects read back from
      storage, so each of the three keys may be absent. */
  datatype Entry = Entry(role: Option<string>, name: Option<string>, content: Option<string>)

  function UserEntry(prompt: string): Entry {
    Entry(Some("user"), Some("User"), Some(prompt))
  }

  function AssistantEntry(name: string, content: string): Entry {
    Entry(Some("assistant"), Some(name), Some(content))
  }

  /** At most this many prior entries are shown to the panel. */
  const WindowSize: nat := 10

  const ContextLabel: string := "Previous Conversation Context:\n"

  const PromptMarker: string := "\n\nUSER PROMPT: "

  const KickoffTrailer: string := "\n\nModerator, please start the panel discussion."

  function Min(a: nat, b: nat): nat {
    if a <= b then a else b
  }

  /** `history[-10:]`: the last `WindowSize` entries, or all of them when there are fewer. */
  function Window(history: seq<Entry>): (w: seq<Entry>)
    ensures |w| == Min(WindowSize, |history|)
    ensures w == history[|history| - |w|..]
  {
    if |history| <= WindowSize then history else history[|history| - WindowSize..]
  }

  /** An entry can be rendered when it has a role and a content. */
  predicate Renderable(e: Entry) {
    e.role.Some? && e.content.Some?
  }

  /** `m.get('name', m['role'])`: the name when the key is present, else the role. */
  function Speaker(e: Entry): string
    requires e.role.Some?
  {
    e.name.GetOr(e.role.value)
  }

  /** One line of the context block. `m['role']` is read even when `name` is
      present, so a missing role fails the line before a missing content does. */
  function Line(e: Entry): (r: Result<string, Error>)
    ensures r.Ok? <==> Renderable(e)
    ensures e.role.None? ==> r == Err(KeyError("role"))
    ensures e.role.Some? && e.content.None? ==> r == Err(KeyError("content"))
    ensures r.Ok? ==> var who := e.name.GetOr(e.role.value);
      && |r.value| == |who| + 2 + |e.content.value|
      && r.value[..|who|] == who
      && r.value[|who|..|who| + 2] == ": "
      && r.value[|who| + 2..] == e.content.value
  {
    if e.role.None? then Err(KeyError("role"))
    else if e.content.None? then Err(KeyError("content"))
    else Ok(Speaker(e) + ": " + e.content.value)
  }

  /** The lines of a window, failing at its first unrenderable entry. */
  function Lines(w: seq<Entry>): (r: Result<seq<string>, Error>)
    ensures r.Ok? <==> forall k :: 0 <= k < |w| ==> Renderable(w[k])
    ensures r.Ok? ==> |r.value| == |w|
    ensures r.Ok? ==> forall k :: 0 <= k < |w| ==>
      r.value[k] == Speaker(w[k]) + ": " + w[k].content.value
    ensures r.Err? ==> exists k :: 0 <= k < |w| && !Renderable(w[k]) && Line(w[k]) == Err(r.error)
                                  && forall j :: 0 <= j < k ==> Renderable(w[j])
  {
    if |w| == 0 then Ok([])
    else match Line(w[0])
      case Err(e) => Err(e)
      case Ok(l) =>
        match Lines(w[1..])
        case Err(e) =>
          assert forall j :: 1 <= j < |w| ==> w[j] == w[1..][j - 1];
          Err(e)
        case Ok(ls) =>
          assert forall j :: 1 <= j < |w| ==> w[j] == w[1..][j - 1];
          Ok([l] + ls)
  }

  /** The context block that precedes the user prompt: empty for an empty
      history, otherwise the label and the window's lines, one per line. */
  function FormatContext(history: seq<Entry>): (r: Result<string, Error>)
    ensures history == [] ==> r == Ok("")
    ensures r.Ok? <==> forall k :: 0 <= k < |Window(history)| ==> Renderable(Window(history)[k])
    ensures r.Err? ==> exists k :: 0 <= k < |Window(history)| && Line(Window(history)[k]) == Err(r.error)
                                  && forall j :: 0 <= j < k ==> Renderable(Window(history)[j])
    ensures history != [] && r.Ok? ==> var w := Window(history);
      r.value == ContextLabel + Strings.Join(seq(|w|, k requires 0 <= k < |w| => Speaker(w[k]) + ": " + w[k].content.value), "\n")
  {
    if history == [] then Ok("")
    else match Lines(Window(history))
      case Err(e) => Err(e)
      case Ok(ls) =>
        var w := Window(history);
        assert ls == seq(|w|, k requires 0 <= k < |w| => Speaker(w[k]) + ": " + w[k].content.value);
        Ok(ContextLabel + Strings.Join(ls, "\n"))
  }

  /** The kickoff task handed to the panel: it starts with the context, ends
      with the fixed trailer, and the prompt can be read back out of it. */
  function Kickoff(context: string, userPrompt: string): (r: string)
    ensures |r| == |context| + |PromptMarker| + |userPrompt| + |KickoffTrailer|
    ensures r[..|context|] == context
    ensures r[|r| - |KickoffTrailer|..] == KickoffTrailer
    ensures PromptOf(r, context) == Some(userPrompt)
  {
    var head := context + PromptMarker;
    var k := head + userPrompt + KickoffTrailer;
    assert k[..|head|] == head;
    assert k[|k| - |KickoffTrailer|..] == KickoffTrailer;
    assert k[|head|..|k| - |KickoffTrailer|] == userPrompt;
    k
  }

  /** Reads the user prompt back out of a kickoff, given the context it was built with. */
  function PromptOf(kickoff: string, context: string): Option<string> {
    var head := context + PromptMarker;
    if |kickoff| >= |head| + |KickoffTrailer|
       && kickoff[..|head|] == head
       && kickoff[|kickoff| - |KickoffTrailer|..] == KickoffTrailer
    then Some(kickoff[|head|..|kickoff| - |KickoffTrailer|])
    else None
  }

  /** With no prior history the kickoff begins with the two newlines that
      would otherwise separate context from prompt. */
  lemma {:induction false} EmptyHistoryKickoff(userPrompt: string)
    ensures FormatContext([]) == Ok("")
    ensures Kickoff("", userPrompt) == "\n\nUSER PROMPT: " + userPrompt + KickoffTrailer
    ensures Kickoff("", userPrompt)[..2] == "\n\n"
  {
  }

  /** Only the window matters: entries older than the last ten, renderable or
      not, never change the context. */
  lemma {:induction false} ContextIgnoresOlderEntries(older: seq<Entry>, recent: seq<Entry>)
    requires |recent| >= WindowSize
    ensures FormatContext(older + recent) == FormatContext(recent)
  {
    var h := older + recent;
    assert Window(h) == recent[|recent| - WindowSize..];
    assert Window(recent) == recent[|recent| - WindowSize..];
  }

  /** Rendering entries whose speakers and contents hold no newline gives
      lines without a newline. */
  lemma {:induction false} LinesWithoutNewline(w: seq<Entry>)
    requires forall k :: 0 <= k < |w| ==>
      Renderable(w[k]) && '\n' !in Speaker(w[k]) && '\n' !in w[k].content.value
    ensures Lines(w).Ok?
    ensures forall k :: 0 <= k < |Lines(w).value| ==> '\n' !in Lines(w).value[k]
  {
    var ls := Lines(w).value;
    forall k | 0 <= k < |ls| ensures '\n' !in ls[k] {
      var e := w[k];
      var line := Speaker(e) + ": " + e.content.value;
      assert ls[k] == line;
      forall j | 0 <= j < |line| ensures line[j] != '\n' {
        if j < |Speaker(e)| {
          assert line[j] == Speaker(e)[j];
        } else if j >= |Speaker(e)| + 2 {
          assert line[j] == e.content.value[j - |Speaker(e)| - 2];
        }
      }
    }
  }

  /** The context block, read back line by line: when no speaker or content of
      the window holds a newline, splitting after the label gives exactly one
      line per windowed entry, in history order, each `speaker: content`. Older
      entries may be malformed or span several lines. */
  lemma {:induction false} ContextLines(history: seq<Entry>)
    requires history != []
    requires forall k :: 0 <= k < |Window(history)| ==>
      var e := Window(history)[k];
      Renderable(e) && '\n' !in Speaker(e) && '\n' !in e.content.value
    ensures FormatContext(history).Ok?
    ensures var ctx := FormatContext(history).value;
      var ls := Strings.Split(ctx[|ContextLabel|..], '\n');
      && ctx[..|ContextLabel|] == ContextLabel
      && |ls| == Min(WindowSize, |history|)
      && forall k :: 0 <= k < |ls| ==>
           ls[k] == Speaker(history[|history| - |ls| + k]) + ": " + history[|history| - |ls| + k].content.value
  {
    var w := Window(history);
    LinesWithoutNewline(w);
    var ls := Lines(w).value;
    Strings.SplitJoin(ls, '\n');
    var ctx := FormatContext(history).value;
    assert ctx == ContextLabel + Strings.Join(ls, "\n");
    assert ctx[|ContextLabel|..] == Strings.Join(ls, "\n");
    forall k | 0 <= k < |ls|
      ensures ls[k] == Speaker(history[|history| - |ls| + k]) + ": " + history[|history| - |ls| + k].content.value
    {
      assert w[k] == history[|history| - |w| + k];
    }
  }
}
