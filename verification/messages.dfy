/** Turning the conversation engine's raw messages into transcript entries
    (`_msg_to_text`, backend/agents.py:81-87, and the loop at
    backend/agents.py:125-134). */
module Messages {
  import opened Results
  import opened Transcript

  /** What a raw message carries besides its speaker. `None` marks a call
      that raises: `to_text()` on a structured message, or `str(msg)`. */
  datatype Body =
    | TextMessage(text: string)
    | StructuredMessage(rendered: Option<string>)
    | OtherEvent(contentAttr: Option<string>, repr: Option<string>)

  /** A raw message of the engine: its `source` and `name` attributes (absent
      or present, possibly empty) and its body; `Broken` is a message on which
      even reading those attributes raises. */
  datatype RawMessage =
    | RawMessage(source: Option<string>, name: Option<string>, body: Body)
    | Broken

  /** Python truthiness of an optional string. */
  predicate Truthy(o: Option<string>) {
    o.Some? && o.value != ""
  }

  /** `source or name or "assistant"`: the first non-empty candidate. */
  function SpeakerOf(m: RawMessage): (r: string)
    requires m.RawMessage?
    ensures r != ""
    ensures Truthy(m.source) ==> r == m.source.value
    ensures !Truthy(m.source) && Truthy(m.name) ==> r == m.name.value
    ensures r == "assistant" || Some(r) == m.source || Some(r) == m.name
  {
    if Truthy(m.source) then m.source.value
    else if Truthy(m.name) then m.name.value
    else "assistant"
  }

  /** `_msg_to_text`. `str(msg)` is evaluated as the default of `getattr`
      before the attribute is looked up, so a failing `str` fails the
      conversion even when a content attribute exists. */
  function MsgToText(b: Body): (r: Option<string>)
    ensures r.None? <==> (b.StructuredMessage? && b.rendered.None?) || (b.OtherEvent? && b.repr.None?)
    ensures b.TextMessage? ==> r == Some(b.text)
    ensures b.StructuredMessage? ==> r == b.rendered
    ensures b.OtherEvent? && b.repr.Some? ==> r == Some(if b.contentAttr.Some? then b.contentAttr.value else b.repr.value)
  {
    match b
    case TextMessage(t) => Some(t)
    case StructuredMessage(rendered) => rendered
    case OtherEvent(contentAttr, repr) =>
      if repr.None? then None else Some(contentAttr.GetOr(repr.value))
  }

  /** The content fallbacks: text as is, the structured rendering, else the
      `content` attribute or the string form; a raising `to_text()` or `str`
      gives nothing, even when a content attribute exists. */
  lemma {:induction false} ContentFallbacks(t: string, c: string, repr: string)
    ensures MsgToText(TextMessage(t)) == Some(t)
    ensures MsgToText(StructuredMessage(Some(t))) == Some(t)
    ensures MsgToText(StructuredMessage(None)) == None
    ensures MsgToText(OtherEvent(Some(c), Some(repr))) == Some(c)
    ensures MsgToText(OtherEvent(None, Some(repr))) == Some(repr)
    ensures MsgToText(OtherEvent(Some(c), None)) == None
  {
  }

  /** One iteration of the loop: an assistant entry, or nothing when the
      conversion raises and the message is skipped. */
  function Normalize(m: RawMessage): (r: Option<Entry>)
    ensures r.Some? <==> m.RawMessage? && MsgToText(m.body).Some?
    ensures r.Some? ==> r.value == AssistantEntry(SpeakerOf(m), MsgToText(m.body).value)
  {
    match m
    case Broken => None
    case RawMessage(_, _, body) =>
      match MsgToText(body)
      case None => None
      case Some(content) => Some(AssistantEntry(SpeakerOf(m), content))
  }

  /** An entry the normaliser may produce: role "assistant", a non-empty name, a content. */
  predicate IsAssistantEntry(e: Entry) {
    e.role == Some("assistant") && e.name.Some? && e.name.value != "" && e.content.Some?
  }

  /** The whole loop: every message that converts, in order. */
  function NormalizeAll(ms: seq<RawMessage>): (out: seq<Entry>)
    ensures |out| <= |ms|
    ensures forall k :: 0 <= k < |out| ==> IsAssistantEntry(out[k])
    ensures |out| == |ms| <==> forall k :: 0 <= k < |ms| ==> Normalize(ms[k]).Some?
  {
    if |ms| == 0 then []
    else
      var rest := NormalizeAll(ms[1..]);
      assert forall k :: 1 <= k < |ms| ==> ms[k] == ms[1..][k - 1];
      match Normalize(ms[0])
      case None => rest
      case Some(e) => [e] + rest
  }

  /** Normalising a concatenation is concatenating the normalisations: the
      output keeps the input order and each message contributes on its own. */
  lemma {:induction false} NormalizeAllAppend(a: seq<RawMessage>, b: seq<RawMessage>)
    ensures NormalizeAll(a + b) == NormalizeAll(a) + NormalizeAll(b)
  {
    if |a| == 0 {
      assert a + b == b;
    } else {
      assert (a + b)[0] == a[0];
      assert (a + b)[1..] == a[1..] + b;
      NormalizeAllAppend(a[1..], b);
    }
  }

  /** When no message is skipped, the output is the messages' entries one for
      one, in the engine's order. */
  lemma {:induction false} NormalizeAllKeepsEvery(ms: seq<RawMessage>)
    requires forall k :: 0 <= k < |ms| ==> Normalize(ms[k]).Some?
    ensures |NormalizeAll(ms)| == |ms|
    ensures forall k :: 0 <= k < |ms| ==> NormalizeAll(ms)[k] == Normalize(ms[k]).value
    decreases |ms|
  {
    if |ms| > 0 {
      assert forall k :: 1 <= k < |ms| ==> ms[k] == ms[1..][k - 1];
      NormalizeAllKeepsEvery(ms[1..]);
    }
  }

  /** A single message yields its entry, or nothing when it is skipped. */
  lemma {:induction false} NormalizeOne(m: RawMessage)
    ensures NormalizeAll([m]) == (if Normalize(m).Some? then [Normalize(m).value] else [])
  {
    assert [m][1..] == [];
  }

  /** The speaker fallback chain on concrete messages, including an empty
      `source` that is passed over. */
  lemma {:induction false} SpeakerFallbacks()
    ensures SpeakerOf(RawMessage(Some("BioExpert"), Some("x"), TextMessage("hi"))) == "BioExpert"
    ensures SpeakerOf(RawMessage(Some(""), Some("Reviewer"), TextMessage("hi"))) == "Reviewer"
    ensures SpeakerOf(RawMessage(None, Some(""), TextMessage("hi"))) == "assistant"
  {
  }

  /** A message whose conversion raises disappears; the neighbours keep their order. */
  lemma {:induction false} SkippedMessage(before: RawMessage, after: RawMessage)
    requires Normalize(before).Some? && Normalize(after).Some?
    ensures NormalizeAll([before, Broken, after]) == [Normalize(before).value, Normalize(after).value]
  {
    assert [before, Broken, after] == [before] + ([Broken] + [after]);
    NormalizeAllAppend([before], [Broken] + [after]);
    NormalizeAllAppend([Broken], [after]);
    NormalizeOne(before);
    NormalizeOne(Broken);
    NormalizeOne(after);
  }
}
