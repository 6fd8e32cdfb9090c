/** The structuring step (infra/infra/lambda/bedrock_handler.py): send the
    extracted text to the language model, clean Markdown fences off its
    answer, decode it as a signal batch or substitute a degraded batch, and
    persist the signals best-effort.

    The model call (`bedrock.converse`) and the JSON decoder (`json.loads`
    followed by reading the batch's fields) are parameters: `converse` maps a
    prompt to the model's text or to `None` when the call raised, `decode`
    maps a text to the batch it encodes or to `None` when it is not valid
    JSON. */
module Structuring {
  import opened Wrappers
  import opened Text
  import opened SignalStore

  /** A Markdown code-fence marker. */
  const Fence: string := "```"

  /** How much of the extracted text goes into the prompt. */
  const MaxPromptText: nat := 5000

  /** How much of an undecodable answer the degraded batch keeps. */
  const MaxRawKept: nat := 500

  /** The structured answer: the signals, the summary, the model's own
      signal count (not checked against the signals) and, in a degraded
      batch only, the start of the raw answer. A missing `signals` key is an
      empty sequence. */
  datatype Batch = Batch(signals: seq<RawSignal>, summary: Option<string>,
                         signalCount: Option<int>, raw: Option<string>)

  /** The varying parts of the prompt; the instruction text around them is
      a fixed template. */
  datatype Prompt = Prompt(docType: string, city: string, text: string)

  // ---------------------------------------------------------------------
  // Sanitiser

  /** Drops an opening fence line: everything up to and including the first
      newline, or only the marker when there is no newline. */
  function DropOpeningFence(clean: string): (r: string)
    requires StartsWith(clean, Fence)
    ensures '\n' in clean ==> IndexOf(clean, '\n') < |clean| && r == clean[IndexOf(clean, '\n') + 1..]
    ensures '\n' !in clean ==> r == clean[|Fence|..]
  {
    var lines := Split(clean, '\n');
    AfterFirstSeparator(clean, '\n');
    SplitMany(clean, '\n');
    if |lines| > 1 then Join(lines[1..], "\n") else clean[3..]
  }

  /** Drops a closing fence marker, and nothing else. */
  function DropClosingFence(clean: string): (r: string)
    ensures EndsWith(clean, Fence) ==> r + Fence == clean
    ensures !EndsWith(clean, Fence) ==> r == clean
  {
    if EndsWith(clean, Fence) then clean[..|clean| - 3] else clean
  }

  /** The text handed to the JSON decoder: the answer trimmed, its fences
      dropped, and trimmed again. An answer without fences is only trimmed. */
  function Sanitize(raw: string): (clean: string)
    ensures Stripped(clean)
    ensures |clean| <= |raw|
    ensures !StartsWith(Strip(raw), Fence) && !EndsWith(Strip(raw), Fence) ==> clean == Strip(raw)
  {
    var trimmed := Strip(raw);
    var unfenced := if StartsWith(trimmed, Fence) then DropOpeningFence(trimmed) else trimmed;
    var closed := DropClosingFence(unfenced);
    StripStripped(trimmed);
    Strip(closed)
  }

  /** An answer wrapped in a fenced block (an opening fence with an info
      string such as `json`, the body, a closing fence on its own line) is
      decoded exactly as the bare body would be. */
  lemma SanitizeFencedBlock(tag: string, body: string)
    requires '\n' !in tag
    requires !StartsWith(Strip(body), Fence) && !EndsWith(Strip(body), Fence)
    ensures Sanitize(Fence + tag + "\n" + body + "\n" + Fence) == Sanitize(body)
  {
    StripFencedBlock(tag, body);
    DropOpeningFenceLine(tag, body);
    SanitizeFencedParts(Fence + tag + "\n" + body + "\n" + Fence, body + "\n");
    StripTrailingSpace(body, "\n");
  }

  /** Sanitising an answer that is already trimmed and opens with a fence
      line: what is left once the opening line and the closing marker are
      gone, trimmed. */
  lemma SanitizeFencedParts(raw: string, inner: string)
    requires Strip(raw) == raw && StartsWith(raw, Fence)
    requires DropOpeningFence(raw) == inner + Fence
    ensures Sanitize(raw) == Strip(inner)
  {
    DropClosingFenceOf(inner);
  }

  lemma StripFencedBlock(tag: string, body: string)
    ensures Strip(Fence + tag + "\n" + body + "\n" + Fence) == Fence + tag + "\n" + body + "\n" + Fence
  {
    var raw := Fence + tag + "\n" + body + "\n" + Fence;
    assert raw[0] == '`' && raw[|raw| - 1] == '`';
    StripStripped(raw);
  }

  /** The opening fence line of a fenced block is dropped up to its newline. */
  lemma DropOpeningFenceLine(tag: string, body: string)
    requires '\n' !in tag
    ensures StartsWith(Fence + tag + "\n" + body + "\n" + Fence, Fence)
    ensures DropOpeningFence(Fence + tag + "\n" + body + "\n" + Fence) == body + "\n" + Fence
  {
    var s := Fence + tag + "\n" + body + "\n" + Fence;
    var rest := body + "\n" + Fence;
    assert s[..3] == Fence;
    assert IndexOf(s, '\n') == |Fence + tag| by {
      assert s == (Fence + tag) + ['\n'] + rest;
      IndexOfPrefix(Fence + tag, '\n', rest);
    }
    assert s[|Fence + tag| + 1..] == rest;
  }

  lemma DropClosingFenceOf(s: string)
    ensures DropClosingFence(s + Fence) == s
  {
    assert (s + Fence)[|s|..] == Fence;
  }

  /** A fence opened and closed on one line only loses its two markers: an
      info string stays in the decoder's input, so `json {...}` is what the
      decoder sees for a one-line answer with a `json` tag. */
  lemma SanitizeOneLineFence(inner: string)
    requires '\n' !in inner
    ensures Sanitize(Fence + inner + Fence) == Strip(inner)
  {
    var raw := Fence + inner + Fence;
    assert raw[0] == '`' && raw[|raw| - 1] == '`';
    StripStripped(raw);
    assert raw[..3] == Fence;
    assert '\n' !in raw by {
      assert raw == Fence + (inner + Fence);
    }
    var unfenced := DropOpeningFence(raw);
    assert unfenced == inner + Fence;
    assert DropClosingFence(unfenced) == inner;
  }

  /** The batch substituted for an answer that does not decode. */
  function Degraded(raw: string): (b: Batch)
    ensures b.signals == [] && b.signalCount == Some(0) && b.summary == Some("Parsing failed")
    ensures b.raw.Some? && |b.raw.value| <= MaxRawKept && |b.raw.value| <= |raw| && b.raw.value == raw[..|b.raw.value|]
    ensures |raw| >= MaxRawKept ==> |b.raw.value| == MaxRawKept
    ensures |raw| <= MaxRawKept ==> b.raw.value == raw
  {
    Batch([], Some("Parsing failed"), Some(0), Some(Take(raw, MaxRawKept)))
  }

  /** `_parse_nova_json` together with the handler's fallback: the decoded
      batch, or the degraded batch; never a failure. */
  function ParseModelOutput(raw: string, decode: string -> Option<Batch>): (b: Batch)
    ensures decode(Sanitize(raw)).Some? ==> b == decode(Sanitize(raw)).value
    ensures decode(Sanitize(raw)).None? ==> b == Degraded(raw) && b.signals == []
  {
    match decode(Sanitize(raw))
    case Some(batch) => batch
    case None => Degraded(raw)
  }

  /** An answer wrapped in a fenced block is parsed as its bare body would
      be, whenever that body decodes. */
  lemma FencedAnswerParsesAsBody(tag: string, body: string, decode: string -> Option<Batch>)
    requires '\n' !in tag
    requires !StartsWith(Strip(body), Fence) && !EndsWith(Strip(body), Fence)
    requires decode(Sanitize(body)).Some?
    ensures ParseModelOutput(Fence + tag + "\n" + body + "\n" + Fence, decode) == ParseModelOutput(body, decode)
  {
    SanitizeFencedBlock(tag, body);
  }

  // ---------------------------------------------------------------------
  // Handler

  /** The fields of the step's input the handler reads; `None` is an absent key. */
  datatype Payload = Payload(extractedText: Option<string>, docType: Option<string>,
                             city: Option<string>, s3Key: Option<string>)

  /** The input as it arrives: the payload itself, or a string `body` to be
      decoded (`None` when that string is not valid JSON). */
  datatype StructureEvent = Direct(payload: Payload) | WrappedBody(decoded: Option<Payload>)

  datatype StructureResponse =
    | InvalidBody
    | MissingText
    | ModelFailed
    | Structured(s3Key: string, docType: string, city: string, batch: Batch,
                 signalsStored: nat, modelId: string)
  {
    /** The HTTP status; `None` when the handler raises instead of answering. */
    function StatusCode(): Option<int> {
      match this
      case InvalidBody => None
      case MissingText => Some(400)
      case ModelFailed => Some(500)
      case Structured(_, _, _, _, _, _) => Some(200)
    }
  }

  /** The payload the handler works on, when it can get one. */
  function PayloadOf(event: StructureEvent): Option<Payload> {
    match event
    case Direct(p) => Some(p)
    case WrappedBody(decoded) => decoded
  }

  /** The handler: unwrap the input, reject empty text, call the model on
      the first 5,000 characters, parse, and persist when a table is
      configured and the batch has signals. */
  method Structure(event: StructureEvent, modelId: string, converse: Prompt -> Option<string>,
                   decode: string -> Option<Batch>, table: SignalTable?, timestamp: string,
                   failing: set<nat>)
    returns (r: StructureResponse)
    modifies table
    ensures match PayloadOf(event)
            case None => r == InvalidBody
            case Some(p) =>
              var text := p.extractedText.GetOr("");
              var docType, city := p.docType.GetOr("unknown"), p.city.GetOr("Paris");
              if text == "" then r == MissingText
              else match converse(Prompt(docType, city, Take(text, MaxPromptText)))
                case None => r == ModelFailed
                case Some(raw) =>
                  var batch := ParseModelOutput(raw, decode);
                  r == Structured(p.s3Key.GetOr(""), docType, city, batch,
                                  if table != null && batch.signals != []
                                  then Successes(Bound(|batch.signals|), failing) else 0,
                                  modelId)
    ensures r.Structured? ==> r.signalsStored <= MaxStoredSignals && r.signalsStored <= |r.batch.signals|
    ensures table != null ==>
              table.items == if r.Structured? && r.batch.signals != []
                             then Persisted(old(table.items), r.s3Key, r.docType, r.city, r.batch.signals,
                                            timestamp, failing, Bound(|r.batch.signals|))
                             else old(table.items)
  {
    var payload: Payload;
    match event {
      case Direct(p) =>
        payload := p;
      case WrappedBody(decoded) =>
        if decoded.None? {
          return InvalidBody;
        }
        payload := decoded.value;
    }
    var text := payload.extractedText.GetOr("");
    var docType := payload.docType.GetOr("unknown");
    var city := payload.city.GetOr("Paris");
    var s3Key := payload.s3Key.GetOr("");
    if text == "" {
      return MissingText;
    }
    var answer := converse(Prompt(docType, city, Take(text, MaxPromptText)));
    if answer.None? {
      return ModelFailed;
    }
    var structured := ParseModelOutput(answer.value, decode);
    var stored := 0;
    if table != null && structured.signals != [] {
      stored := table.PersistSignals(s3Key, docType, city, structured.signals, timestamp, failing);
    }
    r := Structured(s3Key, docType, city, structured, stored, modelId);
  }
}
