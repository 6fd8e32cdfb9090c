# PREN-Systems document-to-signal pipeline, modelled in Dafny

This project models the behaviour of the serverless pipeline in
`infra/infra/lambda/` that turns municipal planning documents into real-estate
signals, and of the three read-side endpoints that serve the resulting scores.

- **Text extraction** (`textract_handler.py`, module `Extraction`). The step
  asks the OCR service (`analyze_document`) for the document's blocks. It keeps
  the `LINE` blocks in order and counts the distinct page numbers. On one of
  four "service unavailable" error codes it falls back to a local PDF parser,
  which strips every line and drops the empty ones, page by page. Any other
  error code is fatal. The lines are joined with newlines and cut to 10,000
  characters. Both collecting loops are `method`s proved against
  specification functions.
- **Structuring** (`bedrock_handler.py`, modules `Structuring` and
  `SignalStore`). The step unwraps the input event and rejects empty text. It
  calls the language model on the first 5,000 characters and strips Markdown
  code fences from the answer (`_parse_nova_json`). An answer that does not
  decode is replaced by a degraded batch. The step then writes at most ten
  signal records into the signal table, keyed by `DOC#<document key>` and
  `SIGNAL#NNN`, with a default for every field the model left out. Each write
  is attempted on its own, and the successful ones are counted. The table is
  a class, `SignalTable`, holding a `map` from key pair to record, and the
  write loop is its method `PersistSignals`.
- **Read side** (`score_handler.py`, `explain_handler.py`, `health_handler.py`;
  modules `ScoreRecords`, `ScoreApi`, `ExplainApi` and `HealthApi`). This part
  covers:
  - the three-way demo zone mapping from coordinates;
  - the status decision trees (500 when unconfigured, 400 for bad input, 404
    for an unknown zone, 200 otherwise);
  - the `iris_id`-over-coordinates precedence of the explanation endpoint;
  - the splitting of the stored `top_signals` text;
  - the health check's ordered list of missing fields.

The external services are parameters of the model:

- `analyze` returns the blocks or a client error code.
- `readPdf` returns one `extract_text()` result per page, or `None` when the
  download or the parse raises.
- `converse` returns the answer text, or `None` when the call raises.
- `decode` stands for `json.loads` and returns the batch, or `None`.
- `parseFloat` stands for `float()` and returns the number, or `None` on
  `ValueError`.
- A scores table is a `map`, and `None` stands for a table that is not
  configured.
- The writes that raise are the set `failing` of batch positions.

The Python string operations the handlers rely on are written out in module
`Text`: `isspace`, `strip`, `split`, `join`, `splitlines` and slicing. This
makes their edge cases explicit: empty strings, absent separators, `\r\n`,
and a final line break.

## Model

| member | source | states |
|---|---|---|
| Text.Strip | infra/infra/lambda/bedrock_handler.py:49 | `str.strip()` returns text with no whitespace at either end, never longer than its input |
| Text.StripEmpty | infra/infra/lambda/score_handler.py:108 | `s.strip()` is empty exactly when `s` is all whitespace, so `if s.strip()` drops exactly the blank pieces |
| Text.StripIdempotent | infra/infra/lambda/bedrock_handler.py:49-55 | stripping twice is stripping once, so the second `strip()` of `_parse_nova_json` changes nothing on unfenced text |
| Text.Split | infra/infra/lambda/bedrock_handler.py:51 | `s.split(sep)` for one character: always at least one piece; no piece holds the separator (Text.SplitPiecesAvoid); more than one piece exactly when the separator occurs (Text.SplitMany) |
| Text.SplitPiecesAvoid | infra/infra/lambda/bedrock_handler.py:51 | no piece of a split holds the separator |
| Text.SplitMany | infra/infra/lambda/bedrock_handler.py:51-52 | a split has more than one piece exactly when the separator occurs, which selects the branch of line 52 |
| Text.Join | infra/infra/lambda/bedrock_handler.py:52 | `sep.join(xs)`; it is the inverse of Split in both directions (Text.JoinSplit, Text.SplitJoin) |
| Text.JoinSplit | infra/infra/lambda/bedrock_handler.py:51-52 | `"\n".join(s.split("\n")) == s`: splitting and rejoining loses nothing |
| Text.SplitJoin | infra/infra/lambda/textract_handler.py:99 | splitting a join recovers the pieces when none of them holds the separator |
| Text.SplitLines | infra/infra/lambda/textract_handler.py:40 | `str.splitlines()`: no lines exactly for the empty string; lines hold no break character (Text.SplitLinesNoBreak) |
| Text.SplitLinesNoBreak | infra/infra/lambda/textract_handler.py:40 | no line returned by `splitlines()` holds a line-break character |
| Text.CleanPieces | infra/infra/lambda/score_handler.py:108 | `[p.strip() for p in ps if p.strip()]`: never more pieces than given; the kept ones are clean (Text.CleanPiecesAreClean), clean input is kept as it is (Text.CleanPiecesOfClean), and it distributes over concatenation (Text.CleanPiecesAppend) |
| Text.CleanPiecesOfClean | infra/infra/lambda/score_handler.py:108 | pieces that are already non-empty and trimmed are kept unchanged and in order |
| Text.CleanPiecesAreClean | infra/infra/lambda/score_handler.py:108 | `[p.strip() for p in ps if p.strip()]` keeps only non-empty pieces with no surrounding whitespace |
| Extraction.LineTexts | infra/infra/lambda/textract_handler.py:77-79 | the `Text` of the `LINE` blocks in the service's order; never more lines than blocks, and order is kept across any split of the blocks (Extraction.LineTextsAppend) |
| Extraction.Pages | infra/infra/lambda/textract_handler.py:80 | the set of page numbers, never larger than the block count and holding the first block's page; exactly the blocks' pages (Extraction.PagesMembers) |
| Extraction.LineTextsAppend | infra/infra/lambda/textract_handler.py:77-79 | the LINE texts of two runs of blocks are the runs' LINE texts one after the other: order is kept |
| Extraction.CollectLines | infra/infra/lambda/textract_handler.py:77-79 | the loop collects exactly the `Text` of the `LINE` blocks, in the service's order |
| Extraction.PagesMembers | infra/infra/lambda/textract_handler.py:80 | the page set holds exactly the blocks' page numbers, a block without `Page` counting as page 1 |
| Extraction.PageCount | infra/infra/lambda/textract_handler.py:80 | the page count is at most the number of blocks, and it is 0 exactly when there are no blocks |
| Extraction.PageLines | infra/infra/lambda/textract_handler.py:39-43 | one page's lines: its text, or `""` when `extract_text()` gives nothing, split into lines, stripped, empty ones dropped |
| Extraction.FallbackLines | infra/infra/lambda/textract_handler.py:38-44 | the pages' lines in page order; every line clean (Extraction.FallbackLinesAreClean) and free of newlines (Extraction.FallbackLinesNoBreak); the loop computes it (Extraction.ExtractWithPypdf) |
| Extraction.FallbackLinesAreClean | infra/infra/lambda/textract_handler.py:38-44 | every fallback line is non-empty and has no surrounding whitespace |
| Extraction.FallbackLinesAppend | infra/infra/lambda/textract_handler.py:38-44 | fallback lines come page by page: the lines of consecutive page runs are concatenated in page order |
| Extraction.FallbackLinesNoBreak | infra/infra/lambda/textract_handler.py:40 | no fallback line contains a newline |
| Extraction.CollectPageLines | infra/infra/lambda/textract_handler.py:40-43 | the inner loop keeps each page line stripped, drops the empty ones, and keeps the order |
| Extraction.ExtractWithPypdf | infra/infra/lambda/textract_handler.py:29-44 | the fallback's lines are the clean lines of every page in page-then-line order, and its page count is the number of pages |
| Extraction.ExtractText | infra/infra/lambda/textract_handler.py:47-112 | empty or missing key gives 400 and nothing else; otherwise it states the whole outcome: primary success (LINE texts, distinct pages, `textract`), fallback only on the four codes (`pypdf`, page count = pages), 500 on any other code or when the fallback fails, text = the first 10,000 characters of the newline join, `line_count` untruncated |
| Extraction.FallbackTextRoundTrip | infra/infra/lambda/textract_handler.py:99-106 | when the joined fallback text fits in 10,000 characters, splitting it on newlines gives back exactly the lines |
| SignalStore.Pad3RoundTrip | infra/infra/lambda/bedrock_handler.py:121 | the three-digit zero padding of an index below 1000 reads back as that index |
| SignalStore.SortKey | infra/infra/lambda/bedrock_handler.py:121 | a sort key is `SIGNAL#` followed by the three-digit padded index, ten characters in all |
| SignalStore.SortKeyInjective | infra/infra/lambda/bedrock_handler.py:121 | distinct batch positions get distinct sort keys |
| SignalStore.ToRecord | infra/infra/lambda/bedrock_handler.py:119-130 | a record carries the document's keys, type, city and timestamp; each signal field is copied, or defaults to `unknown`, `""`, `neutral`, `"0.5"` and `""` when absent |
| SignalStore.Bound | infra/infra/lambda/bedrock_handler.py:117 | `signals[:10]` takes min(10, n) signals |
| SignalStore.Successes | infra/infra/lambda/bedrock_handler.py:114-133 | the success count is at most the number of writes, and equals it when no write fails |
| SignalStore.SuccessesCountsWritten | infra/infra/lambda/bedrock_handler.py:114-133 | the counter equals the number of batch positions whose write went through |
| SignalStore.Persisted | infra/infra/lambda/bedrock_handler.py:117-131 | the table after the first n writes: it gains exactly the successful positions' keys (SignalStore.PersistedKeys), each holding its own record (SignalStore.PersistedAt), and nothing else changes (SignalStore.PersistedElsewhere) |
| SignalStore.PersistedKeys | infra/infra/lambda/bedrock_handler.py:117-121 | persisting adds exactly the keys (`DOC#<key>`, `SIGNAL#i`) of the successful positions i, and no other key |
| SignalStore.PersistedAt | infra/infra/lambda/bedrock_handler.py:117-131 | every successful position holds exactly its signal's record: a failed write does not stop the later ones |
| SignalStore.PersistedElsewhere | infra/infra/lambda/bedrock_handler.py:117-121 | a key outside the batch's keys is left as it was |
| SignalStore.RepersistAddsNoKeys | infra/infra/lambda/bedrock_handler.py:115-121 | persisting the same batch again for the same document creates no new key: records are overwritten, not duplicated |
| SignalStore.SignalTable.PersistSignals | infra/infra/lambda/bedrock_handler.py:114-133 | the loop over `signals[:10]` leaves the table as `Persisted` and returns the number of successes, which is at most min(10, len(signals)) |
| Structuring.DropOpeningFence | infra/infra/lambda/bedrock_handler.py:50-52 | with a newline, everything up to and including the first newline is dropped; without one, only the three-character marker |
| Structuring.DropClosingFence | infra/infra/lambda/bedrock_handler.py:53-54 | a trailing marker loses exactly its three characters; other text is unchanged |
| Structuring.Sanitize | infra/infra/lambda/bedrock_handler.py:47-55 | the decoder's input has no surrounding whitespace and is never longer than the answer; an answer with no fence is only trimmed |
| Structuring.SanitizeFencedBlock | infra/infra/lambda/bedrock_handler.py:47-55 | an answer wrapped in a fenced block (info string, body, closing fence on its own line) is sanitised exactly as its bare body |
| Structuring.SanitizeOneLineFence | infra/infra/lambda/bedrock_handler.py:50-55 | a fence opened and closed on one line only loses its two markers, so an info string such as `json` stays in the decoder's input |
| Structuring.Degraded | infra/infra/lambda/bedrock_handler.py:111 | the degraded batch has no signals, summary `Parsing failed`, count 0, and `raw` = the first 500 characters of the answer |
| Structuring.ParseModelOutput | infra/infra/lambda/bedrock_handler.py:107-111 | parsing never fails: the decoded batch of the sanitised answer, or the degraded batch with no signals |
| Structuring.FencedAnswerParsesAsBody | infra/infra/lambda/bedrock_handler.py:47-55 | when the bare body decodes, its fenced form parses to the same batch |
| Structuring.Structure | infra/infra/lambda/bedrock_handler.py:72-146 | states the whole outcome: an undecodable body raises; empty text gives 400; a failed model call gives 500; the prompt holds the first 5,000 characters; the table changes only when it is configured and the batch has signals, and then exactly as PersistSignals says; `signals_stored` is the success count, at most 10 |
| ScoreRecords.TopSignalsText | infra/infra/lambda/score_handler.py:108 | an absent `top_signals` reads as `""`; a stored value that is not a string makes the handler raise |
| ScoreRecords.TopSignals | infra/infra/lambda/score_handler.py:108 | the stored `top_signals` text split on the separator (`;` here, `\|` at explain_handler.py line 98), stripped, blanks dropped: every element clean and separator-free (ScoreRecords.TopSignalsAreClean), a normal form (ScoreRecords.TopSignalsCanonical) |
| ScoreRecords.TopSignalsAreClean | infra/infra/lambda/score_handler.py:108 | every listed top signal is non-empty, trimmed, and free of the separator |
| ScoreRecords.TopSignalsWithoutSeparator | infra/infra/lambda/score_handler.py:108 | text without a separator lists its stripped self, or nothing when blank |
| ScoreRecords.TopSignalsCanonical | infra/infra/lambda/score_handler.py:108 | rejoining the list with the separator and splitting again gives the same list |
| ScoreApi.DemoIrisFromLatLng | infra/infra/lambda/score_handler.py:32-43 | always one of the three demo zones: zone 1 iff lat ≥ 48.86; zone 2 iff lat < 48.86 and lng ≥ 2.36; zone 3 iff both below |
| ScoreApi.ScoreHandler | infra/infra/lambda/score_handler.py:46-117 | 500 iff unconfigured (checked first); 400 iff `lat` or `lng` is absent, or either is not a number; 404 with the resolved zone iff its item is missing; the handler raises (the gateway then answers 500) iff the item's `top_signals` is not text or `json.dumps(out)` fails on a field, that is, on a number in `iris_id`, `city`, `momentum` or `updated_at` or an unwritable value anywhere; otherwise the item's fields and its clean `;`-split top signals |
| ScoreApi.PassedThroughNumberRaises | infra/infra/lambda/score_handler.py:101-116 | a stored number in `iris_id`, `city`, `momentum` or `updated_at` is passed on without `_to_float`, so the lookup raises instead of answering |
| ScoreApi.NumericTimestampRaises | infra/infra/lambda/score_handler.py:109-116 | an item in zone 1 whose `updated_at` is a number, looked up at (49, 2), makes the handler raise |
| ExplainApi.DemoIrisFromLatLng | infra/infra/lambda/explain_handler.py:29-35 | the explanation endpoint's copy of the zone mapping, with the same thresholds |
| ExplainApi.MappingMatchesScoreApi | infra/infra/lambda/explain_handler.py:29-35 | the copy agrees with the score endpoint's mapping on every input |
| ExplainApi.Target | infra/infra/lambda/explain_handler.py:48-65 | a non-empty `iris_id` is the target; otherwise both coordinates must be non-empty, and they give malformed-numbers iff one does not parse, else the mapped zone; no target otherwise |
| ExplainApi.ExplainHandler | infra/infra/lambda/explain_handler.py:38-147 | 500 iff unconfigured; 400 iff numbers are malformed or there is no target; 404 iff the target's item is missing; the handler raises (the gateway then answers 500) iff the item's `top_signals` is not text or `json.dumps(out)` fails on a number in `city`, `momentum` or `updated_at` or an unwritable value; otherwise the target, the item's fields and its clean `\|`-split top signals |
| ExplainApi.IrisIdTakesPrecedence | infra/infra/lambda/explain_handler.py:49-52 | with a non-empty `iris_id`, changing the coordinates, or whether they parse, changes nothing |
| ExplainApi.PassedThroughNumberRaises | infra/infra/lambda/explain_handler.py:131-146 | a stored number in `city`, `momentum` or `updated_at` reaches `json.dumps(out)` unconverted, so the handler raises |
| HealthApi.MissingFields | infra/infra/lambda/health_handler.py:45-46 | the list holds exactly the required fields absent from the item, as a subsequence of the fixed order |
| HealthApi.HealthCheck | infra/infra/lambda/health_handler.py:27-65 | FAIL when unconfigured or when `PARIS_DEMO_3` has no item; FAIL with the missing list iff it is non-empty; with all four fields, the handler raises iff the score or the confidence is a value `json.dumps` cannot write even after `_to_float`, and otherwise it is PASS, carrying the zone, score and confidence |
| HealthApi.OnlyConfidenceMissing | infra/infra/lambda/health_handler.py:45-52 | a record lacking only `confidence` fails with exactly `["confidence"]` |

## Left out

- The calls to AWS (`analyze_document`, `get_object`, the PDF parser,
  `converse`, `put_item` and `get_item`) are modelled only as the parameters
  described above. Retries, latency and concurrency are not modelled.
- JSON is not modelled as text. `json.loads` of the model's answer and of a
  string `body` is the `decode` parameter and the `WrappedBody` case. The
  bodies `json.dumps` writes are left out. Only whether `json.dumps` raises is
  modelled: a stored number that reaches it as a `Decimal` raises, and so does
  a set, a binary value, or a container holding one of these (`Attr`'s
  `Unwritable`, with ScoreRecords.Dumpable). A response is a datatype whose
  `StatusCode()` is the HTTP status, or `None` when the handler raises and
  the gateway answers 500.
- Only dict-shaped JSON is modelled. Non-dict answers are out of scope, and so
  are JSON `null` field values, which `signal.get(...)` would return instead of
  the default. When `body` is absent or not a string, the event itself is the
  payload (`Direct`) and the body is ignored.
- Floating point is not modelled. The coordinates are `real`, so IEEE-double
  rounding near 48.86 and 2.36 is not captured, and neither are NaN and
  infinity from `float()`. The Decimal-to-float conversion `_to_float` keeps a
  number's value (its rounding to a double is not captured), and the `str()`
  rendering of a decoded confidence is opaque: the record stores the
  confidence text as the decoder gives it.
- The prompt template text, the timestamp source (`datetime.utcnow()`, here a
  parameter), logging, and the explanation's fixed sentences and lists
  (summary, why, limitations, ethics, next steps, roadmap) are left out.
- Exceptions other than `ClientError` from the OCR service propagate
  uncaught and are not modelled. Neither is a block without `BlockType`,
  nor a `LINE` block without `Text`: on both the handler raises `KeyError`.
- Structuring.Structure: "before any model call" is not observable in a model
  where `converse` is a function, so the contract states the 400 result but not
  the absence of the call.
- An answer written as a one-line fenced block (```` ```json {...} ``` ````)
  reaches the decoder as the stripped text between the markers, `json`
  info string included (Structuring.SanitizeOneLineFence). `json.loads`
  rejects such text, so this answer becomes the degraded batch; that
  rejection is a property of `json.loads`, a parameter here, and is not
  proved. Only the multi-line form decodes as its bare body
  (Structuring.SanitizeFencedBlock).
- `ingest_handler.py` (a placeholder that only logs) and the infrastructure
  stack (`pren_lite_stack.py`, `app.py`) are not part of this model.
