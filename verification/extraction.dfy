/** The text-extraction step (infra/infra/lambda/textract_handler.py): ask the
    primary OCR service for the document's blocks; on one of four
    "service unavailable" error codes fall back to parsing the PDF locally;
    join the lines with newlines and cut the text to 10,000 characters.

    The two external services are parameters: `analyze` stands for
    `textract.analyze_document` on (bucket, key), and `readPdf` for fetching
    the object from S3 and running the PDF parser over it, giving one
    `extract_text()` result per page, or `None` when fetching or parsing
    raised. */
module Extraction {
  import opened Wrappers
  import opened Text
  import opened Seqs

  /** The text budget of the step's output (the orchestrator's payload limit). */
  const MaxTextLength: nat := 10000

  /** The error codes on which the local parser takes over. */
  const FallbackCodes: set<string> := {"SubscriptionRequiredException", "AccessDeniedException",
                                       "UnsupportedDocumentException", "InvalidParameterException"}

  /** One block of an analyze_document answer: its `BlockType`, its `Text`
      and its optional `Page`. */
  datatype Block = Block(blockType: string, text: string, page: Option<int>)

  /** What the primary service call gives: the blocks, or a client error code. */
  datatype PrimaryOutcome = Blocks(blocks: seq<Block>) | ClientError(code: string)

  datatype ExtractionMethod = Textract | Pypdf {
    /** The name the step reports as `extraction_method`. */
    function Name(): string {
      match this
      case Textract => "textract"
      case Pypdf => "pypdf"
    }
  }

  /** The fields of the incoming event the step reads; `None` is an absent key. */
  datatype ExtractEvent = ExtractEvent(s3Bucket: Option<string>, s3Key: Option<string>,
                                       docType: Option<string>, city: Option<string>)

  datatype ExtractResponse =
    | MissingKey
    | BothExtractorsFailed
    | PrimaryFailed(code: string)
    | Extracted(s3Key: string, docType: string, city: string, pageCount: nat,
                lineCount: nat, extractedText: string, extraction: ExtractionMethod)
  {
    function StatusCode(): int {
      match this
      case MissingKey => 400
      case BothExtractorsFailed => 500
      case PrimaryFailed(_) => 500
      case Extracted(_, _, _, _, _, _, _) => 200
    }
  }

  // ---------------------------------------------------------------------
  // Primary extractor: LINE blocks and page numbers

  predicate IsLine(b: Block) {
    b.blockType == "LINE"
  }

  /** The texts of the LINE blocks, in the order the service returned them. */
  function LineTexts(blocks: seq<Block>): (r: seq<string>)
    ensures |r| <= |blocks|
  {
    if |blocks| == 0 then []
    else (if IsLine(blocks[0]) then [blocks[0].text] else []) + LineTexts(blocks[1..])
  }

  /** Splitting the block list anywhere splits its lines at the same place. */
  lemma {:induction false} LineTextsAppend(a: seq<Block>, b: seq<Block>)
    ensures LineTexts(a + b) == LineTexts(a) + LineTexts(b)
  {
    if |a| > 0 {
      ConcatTail(a, b);
      LineTextsAppend(a[1..], b);
      ConcatAssoc(if IsLine(a[0]) then [a[0].text] else [], LineTexts(a[1..]), LineTexts(b));
    } else {
      assert a + b == b;
    }
  }

  /** A block's page number; a block without one counts as page 1. */
  function PageOf(b: Block): int {
    b.page.GetOr(1)
  }

  /** The distinct page numbers among the blocks. */
  function Pages(blocks: seq<Block>): (r: set<int>)
    ensures |r| <= |blocks|
    ensures |blocks| > 0 ==> PageOf(blocks[0]) in r
  {
    if |blocks| == 0 then {} else {PageOf(blocks[0])} + Pages(blocks[1..])
  }

  /** The page numbers are exactly those of the blocks. */
  lemma {:induction false} PagesMembers(blocks: seq<Block>)
    ensures forall i :: 0 <= i < |blocks| ==> PageOf(blocks[i]) in Pages(blocks)
    ensures forall p :: p in Pages(blocks) ==> exists i :: 0 <= i < |blocks| && PageOf(blocks[i]) == p
  {
    if |blocks| > 0 {
      var tail := blocks[1..];
      PagesMembers(tail);
      forall i | 1 <= i < |blocks|
        ensures PageOf(blocks[i]) in Pages(blocks)
      {
        assert blocks[i] == tail[i - 1];
      }
      forall p | p in Pages(blocks)
        ensures exists i :: 0 <= i < |blocks| && PageOf(blocks[i]) == p
      {
        if p != PageOf(blocks[0]) {
          var j :| 0 <= j < |tail| && PageOf(tail[j]) == p;
          assert PageOf(blocks[j + 1]) == p;
        }
      }
    }
  }

  /** The reported page count: there are pages exactly when there are blocks,
      and never more pages than blocks. */
  function PageCount(blocks: seq<Block>): (n: nat)
    ensures n <= |blocks|
    ensures n == 0 <==> blocks == []
  {
    |Pages(blocks)|
  }

  /** The loop that keeps the LINE blocks. */
  method CollectLines(blocks: seq<Block>) returns (lines: seq<string>)
    ensures lines == LineTexts(blocks)
  {
    lines := [];
    var i := 0;
    while i < |blocks|
      invariant 0 <= i <= |blocks|
      invariant lines == LineTexts(blocks[..i])
    {
      LineTextsAppend(blocks[..i], [blocks[i]]);
      PrefixSnoc(blocks, i);
      if blocks[i].blockType == "LINE" {
        lines := lines + [blocks[i].text];
      }
      i := i + 1;
    }
    assert blocks[..i] == blocks;
  }

  // ---------------------------------------------------------------------
  // Fallback extractor: per-page text split into clean lines

  /** The lines of one page; a page whose text extraction gave nothing counts
      as empty text. */
  function PageLines(text: Option<string>): seq<string> {
    CleanPieces(SplitLines(text.GetOr("")))
  }

  /** The fallback's lines: page after page, each page's lines in order. */
  function FallbackLines(pages: seq<Option<string>>): seq<string> {
    if |pages| == 0 then [] else PageLines(pages[0]) + FallbackLines(pages[1..])
  }

  /** Every fallback line is non-empty and has no surrounding whitespace. */
  lemma {:induction false} FallbackLinesAreClean(pages: seq<Option<string>>)
    ensures forall line :: line in FallbackLines(pages) ==> CleanPiece(line)
  {
    if |pages| > 0 {
      FallbackLinesAreClean(pages[1..]);
      CleanPiecesAreClean(SplitLines(pages[0].GetOr("")));
    }
  }

  /** The lines of consecutive runs of pages are the runs' lines one after the
      other: no line moves across a page boundary. */
  lemma {:induction false} FallbackLinesAppend(a: seq<Option<string>>, b: seq<Option<string>>)
    ensures FallbackLines(a + b) == FallbackLines(a) + FallbackLines(b)
  {
    if |a| > 0 {
      ConcatTail(a, b);
      FallbackLinesAppend(a[1..], b);
      ConcatAssoc(PageLines(a[0]), FallbackLines(a[1..]), FallbackLines(b));
    } else {
      assert a + b == b;
    }
  }

  /** No fallback line holds a line break (they come from `splitlines`). */
  lemma {:induction false} FallbackLinesNoBreak(pages: seq<Option<string>>)
    ensures forall line :: line in FallbackLines(pages) ==> '\n' !in line
  {
    if |pages| > 0 {
      FallbackLinesNoBreak(pages[1..]);
      var pieces := SplitLines(pages[0].GetOr(""));
      forall piece | piece in pieces
        ensures '\n' !in piece
      {
        SplitLinesNoBreak(pages[0].GetOr(""));
        NoLineBreakNoNewline(piece);
      }
      CleanPiecesAvoid(pieces, '\n');
    }
  }

  /** The lines of one page: each line stripped, the empty ones dropped. */
  method CollectPageLines(pieces: seq<string>) returns (kept: seq<string>)
    ensures kept == CleanPieces(pieces)
  {
    kept := [];
    var j := 0;
    while j < |pieces|
      invariant 0 <= j <= |pieces|
      invariant kept == CleanPieces(pieces[..j])
    {
      CleanPiecesAppend(pieces[..j], [pieces[j]]);
      PrefixSnoc(pieces, j);
      var line := Strip(pieces[j]);
      if line != "" {
        kept := kept + [line];
      }
      j := j + 1;
    }
    assert pieces[..j] == pieces;
  }

  /** The local parser: every line of every page, stripped, empty ones dropped;
      the page count is the document's. */
  method ExtractWithPypdf(pages: seq<Option<string>>) returns (lines: seq<string>, pageCount: nat)
    ensures lines == FallbackLines(pages)
    ensures pageCount == |pages|
  {
    lines := [];
    var p := 0;
    while p < |pages|
      invariant 0 <= p <= |pages|
      invariant lines == FallbackLines(pages[..p])
    {
      var text := pages[p].GetOr("");
      var kept := CollectPageLines(SplitLines(text));
      FallbackLinesAppend(pages[..p], [pages[p]]);
      assert FallbackLines([pages[p]]) == kept + FallbackLines([]);
      PrefixSnoc(pages, p);
      lines := lines + kept;
      p := p + 1;
    }
    assert pages[..p] == pages;
    pageCount := |pages|;
  }

  // ---------------------------------------------------------------------
  // The handler

  /** The handler: validate the key, extract with the primary service or the
      fallback, then join and cut the text. */
  method ExtractText(event: ExtractEvent, rawBucket: string,
                     analyze: (string, string) -> PrimaryOutcome,
                     readPdf: (string, string) -> Option<seq<Option<string>>>)
    returns (r: ExtractResponse)
    ensures event.s3Key.GetOr("") == "" <==> r == MissingKey
    ensures var key, bucket := event.s3Key.GetOr(""), event.s3Bucket.GetOr(rawBucket);
            var docType, city := event.docType.GetOr("unknown"), event.city.GetOr("Paris");
            key != "" ==>
              match analyze(bucket, key)
              case Blocks(blocks) =>
                var lines := LineTexts(blocks);
                r == Extracted(key, docType, city, PageCount(blocks), |lines|,
                               Take(Join(lines, "\n"), MaxTextLength), Textract)
              case ClientError(code) =>
                if code !in FallbackCodes then r == PrimaryFailed(code)
                else match readPdf(bucket, key)
                  case None => r == BothExtractorsFailed
                  case Some(pages) =>
                    var lines := FallbackLines(pages);
                    r == Extracted(key, docType, city, |pages|, |lines|,
                                   Take(Join(lines, "\n"), MaxTextLength), Pypdf)
    ensures r.Extracted? ==> |r.extractedText| <= MaxTextLength
  {
    var bucket := event.s3Bucket.GetOr(rawBucket);
    var key := event.s3Key.GetOr("");
    var docType := event.docType.GetOr("unknown");
    var city := event.city.GetOr("Paris");
    if key == "" {
      return MissingKey;
    }
    var extraction := Textract;
    var lines: seq<string> := [];
    var pageCount: nat := 0;
    match analyze(bucket, key) {
      case Blocks(blocks) =>
        lines := CollectLines(blocks);
        pageCount := PageCount(blocks);
      case ClientError(code) =>
        if code !in FallbackCodes {
          return PrimaryFailed(code);
        }
        match readPdf(bucket, key) {
          case None =>
            return BothExtractorsFailed;
          case Some(pages) =>
            lines, pageCount := ExtractWithPypdf(pages);
            extraction := Pypdf;
        }
    }
    var fullText := Join(lines, "\n");
    r := Extracted(key, docType, city, pageCount, |lines|, Take(fullText, MaxTextLength), extraction);
  }

  /** When the joined fallback text fits the budget, a consumer that splits
      the extracted text on newlines gets back exactly the fallback's lines. */
  lemma FallbackTextRoundTrip(pages: seq<Option<string>>)
    requires FallbackLines(pages) != []
    requires |Join(FallbackLines(pages), "\n")| <= MaxTextLength
    ensures Split(Take(Join(FallbackLines(pages), "\n"), MaxTextLength), '\n') == FallbackLines(pages)
  {
    FallbackLinesNoBreak(pages);
    SplitJoin(FallbackLines(pages), '\n');
  }
}
