/** `POST /api/extract-criteria`: choose an extraction strategy by file type,
    obtain the document's text, reject a PDF whose text is too short, and
    hand the text to the language model that lists the criteria.

    Everything the handler calls out to is an oracle held in `Libraries`: the
    PDF library's view of the document (page texts), the vision model, the
    DOCX converter, the browser's `file.text()` and the criteria-extracting
    chat completion together with the `JSON.parse` of its answer. */
module ExtractCriteria {
  import opened Wrappers
  import opened Text
  import opened PageScan

  /** Direct text longer than this is used; otherwise the vision model is. */
  const DirectTextFloor: nat := 500
  /** A PDF whose final text is shorter than this is rejected. */
  const PdfTextFloor: nat := 100
  const PreviewLength: nat := 500
  /** The vision path renders at most this many pages. */
  const VisionPageCap: nat := 10

  const PdfMime := "application/pdf"
  const DocxMime := "application/vnd.openxmlformats-officedocument.wordprocessingml.document"
  const PlainTextMime := "text/plain"

  const NoFileError := "No file uploaded"
  const UnsupportedError := "Unsupported file type. Please upload PDF, DOCX, or TXT files."
  const InsufficientTextError := "Could not extract sufficient text from PDF. The document may be empty, corrupted, or contain only images."
  const PdfErrorPrefix := "Failed to process PDF: "
  const DefaultError := "Failed to process document"

  // ---------------------------------------------------------------------
  // Cleanup: .replace(/\s+/g, ' ').replace(/\n{3,}/g, '\n\n').trim()

  /** Every whitespace character is a plain space and no two are adjacent. */
  ghost predicate Squashed(s: string) {
    && (forall k :: 0 <= k < |s| && IsWhitespace(s[k]) ==> s[k] == ' ')
    && (forall k :: 0 <= k < |s| - 1 ==> !(IsWhitespace(s[k]) && IsWhitespace(s[k + 1])))
  }

  /** The characters of `s` that are not whitespace, in order. */
  function NonWhitespace(s: string): string {
    if s == [] then []
    else (if IsWhitespace(s[0]) then [] else [s[0]]) + NonWhitespace(s[1..])
  }

  lemma {:induction false} NonWhitespaceAppend(a: string, b: string)
    ensures NonWhitespace(a + b) == NonWhitespace(a) + NonWhitespace(b)
    decreases |a|
  {
    if a != [] {
      assert (a + b)[1..] == a[1..] + b;
      NonWhitespaceAppend(a[1..], b);
    } else {
      assert a + b == b;
    }
  }

  lemma {:induction false} NonWhitespaceOfWhitespace(s: string)
    requires AllWhitespace(s)
    ensures NonWhitespace(s) == []
    decreases |s|
  {
    if s != [] {
      NonWhitespaceOfWhitespace(s[1..]);
    }
  }

  /** `replace(/\s+/g, ' ')`, scanning left to right; `inRun` says the
      previous character was whitespace already replaced by its space. Every
      maximal run of whitespace becomes one space and nothing else changes. */
  function SquashWhitespace(s: string, inRun: bool): (r: string)
    ensures Squashed(r)
    ensures inRun ==> r == [] || !IsWhitespace(r[0])
    ensures NonWhitespace(r) == NonWhitespace(s)
  {
    if s == [] then []
    else if IsWhitespace(s[0]) then
      var rest := SquashWhitespace(s[1..], true);
      assert NonWhitespace([' '] + rest) == NonWhitespace(rest) by {
        assert ([' '] + rest)[1..] == rest;
      }
      if inRun then rest else [' '] + rest
    else
      var rest := SquashWhitespace(s[1..], false);
      assert NonWhitespace([s[0]] + rest) == [s[0]] + NonWhitespace(rest) by {
        assert ([s[0]] + rest)[1..] == rest;
      }
      [s[0]] + rest
  }

  /** A squashed string is left as it is (when the scan does not start in a
      run, or the string does not start with whitespace). */
  lemma {:induction false} SquashOfSquashed(s: string, inRun: bool)
    requires Squashed(s)
    requires inRun ==> s == [] || !IsWhitespace(s[0])
    ensures SquashWhitespace(s, inRun) == s
    decreases |s|
  {
    if s != [] {
      assert Squashed(s[1..]) by {
        forall k | 0 <= k < |s[1..]| - 1
          ensures !(IsWhitespace(s[1..][k]) && IsWhitespace(s[1..][k + 1]))
        {
          assert s[1..][k] == s[k + 1] && s[1..][k + 1] == s[k + 2];
        }
      }
      if IsWhitespace(s[0]) {
        assert |s| > 1 ==> !IsWhitespace(s[1]);
        SquashOfSquashed(s[1..], true);
        assert s == [' '] + s[1..];
      } else {
        SquashOfSquashed(s[1..], false);
        assert s == [s[0]] + s[1..];
      }
    }
  }

  /** The length of the run of newlines `s` starts with. */
  function NewlineRun(s: string): (n: nat)
    ensures n <= |s| && (s != [] && s[0] == '\n' ==> n >= 1)
  {
    if s != [] && s[0] == '\n' then 1 + NewlineRun(s[1..]) else 0
  }

  /** `replace(/\n{3,}/g, '\n\n')`: every run of three or more newlines
      becomes two. */
  function CollapseNewlineRuns(s: string): string
    decreases |s|
  {
    if s == [] then []
    else if s[0] == '\n' then
      var n := NewlineRun(s);
      (if n >= 3 then "\n\n" else s[..n]) + CollapseNewlineRuns(s[n..])
    else [s[0]] + CollapseNewlineRuns(s[1..])
  }

  lemma {:induction false} CollapseWithoutNewlines(s: string)
    requires '\n' !in s
    ensures CollapseNewlineRuns(s) == s
    decreases |s|
  {
    if s != [] {
      CollapseWithoutNewlines(s[1..]);
      assert s == [s[0]] + s[1..];
    }
  }

  /** The cleanup chain applied to the combined page text. */
  function Cleanup(s: string): string {
    Trim(CollapseNewlineRuns(SquashWhitespace(s, false)))
  }

  lemma SquashedSlice(s: string, i: nat, j: nat)
    requires Squashed(s) && i <= j <= |s|
    ensures Squashed(s[i..j])
  {
    var t := s[i..j];
    forall k | 0 <= k < |t| - 1
      ensures !(IsWhitespace(t[k]) && IsWhitespace(t[k + 1]))
    {
      assert t[k] == s[i + k] && t[k + 1] == s[i + k + 1];
    }
  }

  lemma SquashedHasNoNewline(q: string)
    requires Squashed(q)
    ensures '\n' !in q
  {
    if '\n' in q {
      var k :| 0 <= k < |q| && q[k] == '\n';
      assert IsWhitespace(q[k]);
    }
  }

  /** Trimming drops only whitespace. */
  lemma NonWhitespaceOfTrim(q: string)
    ensures NonWhitespace(Trim(q)) == NonWhitespace(q)
  {
    var front, back := TrimSplit(q);
    var r := Trim(q);
    NonWhitespaceAppend(front + r, back);
    NonWhitespaceAppend(front, r);
    NonWhitespaceOfWhitespace(front);
    NonWhitespaceOfWhitespace(back);
  }

  /** Trimming keeps a squashed string squashed. */
  lemma TrimSquashed(q: string)
    requires Squashed(q)
    ensures Squashed(Trim(q))
  {
    var r := Trim(q);
    var i := LeadingWhitespace(q);
    SquashedSlice(q, i, i + |r|);
  }

  /** The cleaned text has no whitespace at either end, no newline, no two
      whitespace characters in a row and only plain spaces between words; and
      it keeps every other character of the input, in order. */
  lemma CleanupShape(s: string)
    ensures var r := Cleanup(s);
      && (r == [] || (!IsWhitespace(r[0]) && !IsWhitespace(r[|r| - 1])))
      && '\n' !in r
      && Squashed(r)
      && NonWhitespace(r) == NonWhitespace(s)
  {
    var q := SquashWhitespace(s, false);
    SquashedHasNoNewline(q);
    CollapseWithoutNewlines(q);
    TrimSquashed(q);
    NonWhitespaceOfTrim(q);
    SquashedHasNoNewline(Trim(q));
  }

  /** Cleaning twice is cleaning once. */
  lemma CleanupIdempotent(s: string)
    ensures Cleanup(Cleanup(s)) == Cleanup(s)
  {
    var r := Cleanup(s);
    CleanupShape(s);
    SquashOfSquashed(r, false);
    CollapseWithoutNewlines(r);
    TrimOfTrimmed(r);
  }

  /** A word: a non-empty run of characters none of which is whitespace. */
  ghost predicate IsWord(w: string) {
    w != [] && forall k :: 0 <= k < |w| ==> !IsWhitespace(w[k])
  }

  /** The maximal runs of non-whitespace characters of `s`, in order. */
  function Words(s: string): (ws: seq<string>)
    ensures ws == [] <==> AllWhitespace(s)
    decreases |s|
  {
    if s == [] then []
    else
      var rest := Words(s[1..]);
      if IsWhitespace(s[0]) then rest
      else if |s| > 1 && !IsWhitespace(s[1]) then
        assert !IsWhitespace(s[1..][0]);
        [[s[0]] + rest[0]] + rest[1..]
      else [[s[0]]] + rest
  }

  /** Every element of `Words(s)` is a word. */
  lemma {:induction false} WordsAreWords(s: string)
    ensures forall k :: 0 <= k < |Words(s)| ==> IsWord(Words(s)[k])
    decreases |s|
  {
    if s != [] {
      var t := s[1..];
      WordsAreWords(t);
      var rest := Words(t);
      if !IsWhitespace(s[0]) {
        if |s| > 1 && !IsWhitespace(s[1]) {
          assert !IsWhitespace(t[0]);
          var head := [s[0]] + rest[0];
          assert IsWord(rest[0]);
          assert IsWord(head) by {
            forall k | 0 <= k < |head|
              ensures !IsWhitespace(head[k])
            {
              if k > 0 { assert head[k] == rest[0][k - 1]; }
            }
          }
          assert Words(s) == [head] + rest[1..];
        } else {
          assert Words(s) == [[s[0]]] + rest;
          assert IsWord([s[0]]);
        }
      }
    }
  }

  /** A single space, or nothing. */
  function Space(b: bool): (r: string)
    ensures AllWhitespace(r) && |r| <= 1
  {
    if b then " " else ""
  }

  lemma JoinExtendFirst(c: char, w: seq<string>, sep: string)
    requires |w| > 0
    ensures Join([[c] + w[0]] + w[1..], sep) == [c] + Join(w, sep)
  {
    var v := [[c] + w[0]] + w[1..];
    if |w| > 1 {
      assert v[1..] == w[1..];
    }
  }

  lemma JoinAfterSingle(c: char, w: seq<string>, sep: string)
    requires |w| > 0
    ensures Join([[c]] + w, sep) == [c] + sep + Join(w, sep)
  {
    assert ([[c]] + w)[1..] == w;
  }

  /** Words joined by spaces neither begin nor end with whitespace. */
  lemma {:induction false} JoinOfWordsEdges(ws: seq<string>)
    requires |ws| > 0 && forall k :: 0 <= k < |ws| ==> IsWord(ws[k])
    ensures var j := Join(ws, " "); j != [] && !IsWhitespace(j[0]) && !IsWhitespace(j[|j| - 1])
  {
    if |ws| > 1 {
      assert IsWord(ws[0]);
      JoinOfWordsEdges(ws[1..]);
      var rest := Join(ws[1..], " ");
      var j := ws[0] + " " + rest;
      assert j[0] == ws[0][0];
      assert j[|j| - 1] == rest[|rest| - 1];
    } else {
      assert IsWord(ws[0]);
    }
  }

  /** The words of `s` joined by single spaces, with one space in front
      when `s` starts with whitespace (and the scan is not already in a run)
      and one behind when it ends with whitespace; whitespace alone becomes
      one space, or nothing. */
  function SpacedWords(s: string, inRun: bool): string {
    var ws := Words(s);
    if ws == [] then Space(s != [] && !inRun)
    else Space(IsWhitespace(s[0]) && !inRun) + Join(ws, " ") + Space(IsWhitespace(s[|s| - 1]))
  }

  /** A leading whitespace character adds at most the front space. */
  lemma SpacedWordsOfSpace(s: string, inRun: bool)
    requires s != [] && IsWhitespace(s[0])
    ensures SpacedWords(s, inRun) == Space(!inRun) + SpacedWords(s[1..], true)
  {
    var t := s[1..];
    WordsOfSpace(s);
    if Words(t) != [] {
      assert s[|s| - 1] == t[|t| - 1];
      var j, tail := Join(Words(t), " "), Space(IsWhitespace(t[|t| - 1]));
      assert SpacedWords(t, true) == j + tail;
      assert SpacedWords(s, inRun) == Space(!inRun) + j + tail;
    }
  }

  lemma WordsOfSpace(s: string)
    requires s != [] && IsWhitespace(s[0])
    ensures Words(s) == Words(s[1..])
  {
  }

  /** A leading word character is kept in front. */
  lemma SpacedWordsOfWordChar(s: string, inRun: bool)
    requires s != [] && !IsWhitespace(s[0])
    ensures SpacedWords(s, inRun) == [s[0]] + SpacedWords(s[1..], false)
  {
    var t := s[1..];
    if t == [] {
      assert Words(s) == [[s[0]]];
    } else if !IsWhitespace(t[0]) {
      WordCharBeforeWord(s, inRun);
    } else {
      WordCharBeforeSpace(s, inRun);
    }
  }

  lemma WordCharBeforeWord(s: string, inRun: bool)
    requires |s| > 1 && !IsWhitespace(s[0]) && !IsWhitespace(s[1])
    ensures SpacedWords(s, inRun) == [s[0]] + SpacedWords(s[1..], false)
  {
    var c, t := s[0], s[1..];
    var w := Words(t);
    assert t[0] == s[1];
    assert s[|s| - 1] == t[|t| - 1];
    var tail := Space(IsWhitespace(t[|t| - 1]));
    SpacedWordsOfWord(t, false);
    WordsOfWordPair(s);
    JoinExtendFirst(c, w, " ");
    SpacedWordsOfWord(s, inRun);
    Regroup([c], [], Join(w, " "), tail, SpacedWords(t, false));
  }

  lemma WordCharBeforeSpace(s: string, inRun: bool)
    requires |s| > 1 && !IsWhitespace(s[0]) && IsWhitespace(s[1])
    ensures SpacedWords(s, inRun) == [s[0]] + SpacedWords(s[1..], false)
  {
    var c, t := s[0], s[1..];
    var w := Words(t);
    if w == [] {
      WordCharBeforeTrailingSpace(s, inRun);
    } else {
      assert t[0] == s[1];
      assert s[|s| - 1] == t[|t| - 1];
      var tail := Space(IsWhitespace(t[|t| - 1]));
      SpacedWordsOfSpaceFirst(t);
      WordsOfWordSpace(s);
      JoinAfterSingle(c, w, " ");
      SpacedWordsOfWord(s, inRun);
      Regroup([c], " ", Join(w, " "), tail, SpacedWords(t, false));
    }
  }

  /** Unfolding `SpacedWords` for a text that starts with a word character. */
  lemma SpacedWordsOfWord(s: string, inRun: bool)
    requires s != [] && !IsWhitespace(s[0])
    ensures Words(s) != []
    ensures SpacedWords(s, inRun) == Join(Words(s), " ") + Space(IsWhitespace(s[|s| - 1]))
  {
  }

  /** Unfolding `SpacedWords` for a text that starts with whitespace and
      holds a word. */
  lemma SpacedWordsOfSpaceFirst(t: string)
    requires t != [] && IsWhitespace(t[0]) && Words(t) != []
    ensures SpacedWords(t, false) == " " + Join(Words(t), " ") + Space(IsWhitespace(t[|t| - 1]))
  {
  }

  lemma WordsOfWordPair(s: string)
    requires |s| > 1 && !IsWhitespace(s[0]) && !IsWhitespace(s[1])
    ensures Words(s[1..]) != [] && Words(s) == [[s[0]] + Words(s[1..])[0]] + Words(s[1..])[1..]
  {
    assert s[1..][0] == s[1];
  }

  lemma WordsOfWordSpace(s: string)
    requires |s| > 1 && !IsWhitespace(s[0]) && IsWhitespace(s[1])
    ensures Words(s) == [[s[0]]] + Words(s[1..])
  {
  }

  /** `x + (y + j + t) == (x + y + j) + t`, named so that the solver does
      not have to search for it. */
  lemma Regroup(x: string, y: string, j: string, t: string, rest: string)
    requires rest == y + j + t
    ensures x + rest == (x + y + j) + t
  {
  }

  lemma WordCharBeforeTrailingSpace(s: string, inRun: bool)
    requires |s| > 1 && !IsWhitespace(s[0]) && Words(s[1..]) == []
    ensures SpacedWords(s, inRun) == [s[0]] + " " == [s[0]] + SpacedWords(s[1..], false)
  {
    var t := s[1..];
    assert Words(s) == [[s[0]]];
    assert IsWhitespace(s[|s| - 1]) by {
      assert s[|s| - 1] == t[|t| - 1];
    }
  }

  /** `replace(/\s+/g, ' ')` keeps the words and turns each maximal run of
      whitespace into one space. */
  lemma {:induction false} SquashWords(s: string, inRun: bool)
    ensures SquashWhitespace(s, inRun) == SpacedWords(s, inRun)
    decreases |s|
  {
    if s != [] {
      SquashWords(s[1..], IsWhitespace(s[0]));
      if IsWhitespace(s[0]) {
        SpacedWordsOfSpace(s, inRun);
        assert SquashWhitespace(s, inRun) == Space(!inRun) + SquashWhitespace(s[1..], true);
      } else {
        SpacedWordsOfWordChar(s, inRun);
      }
    }
  }

  /** The cleaned text is exactly the words of the input, in order, each
      separated from the next by one space. */
  lemma CleanupJoinsWords(s: string)
    ensures Cleanup(s) == Join(Words(s), " ")
  {
    var q := SquashWhitespace(s, false);
    SquashedHasNoNewline(q);
    CollapseWithoutNewlines(q);
    SquashWords(s, false);
    var ws := Words(s);
    if ws == [] {
      TrimPadded(q, [], []);
      assert q + [] + [] == q;
    } else {
      WordsAreWords(s);
      JoinOfWordsEdges(ws);
      TrimPadded(Space(IsWhitespace(s[0])), Join(ws, " "), Space(IsWhitespace(s[|s| - 1])));
    }
  }

  // ---------------------------------------------------------------------
  // The PDF path

  /** What the PDF library makes of the uploaded bytes: the text layer of
      each page (`None` where fetching that page threw), or the error
      `getDocument` threw. */
  datatype PdfLoad = Loaded(pages: seq<Option<string>>) | LoadFailed(message: string)

  function PageTexts(ps: seq<Page>): (ts: seq<string>)
    ensures |ts| == |ps| && forall k :: 0 <= k < |ps| ==> ts[k] == ps[k].text
  {
    seq(|ps|, k requires 0 <= k < |ps| => ps[k].text)
  }

  /** The page texts of pages 1..FetchedCount(pages), in page order, joined
      by a blank line, then cleaned. */
  function DirectText(pages: seq<Option<string>>): string {
    Cleanup(Join(PageTexts(FetchRange(pages, 1, FetchedCount(pages))), "\n\n"))
  }

  /** The pages that `extractPDFTextWithVision` renders: 1..min(numPages, 10). */
  function VisionPages(numPages: nat): (ps: seq<nat>)
    ensures |ps| == Min(numPages, VisionPageCap)
    ensures forall k :: 0 <= k < |ps| ==> ps[k] == k + 1
  {
    seq(Min(numPages, VisionPageCap), k requires 0 <= k < Min(numPages, VisionPageCap) => k + 1)
  }

  /** The vision model's outcome (its message content, possibly absent) for
      a rendering of the given pages. */
  type Vision = seq<nat> -> Attempt<Option<string>>

  /** The text a PDF yields: the cleaned direct text when it is longer than
      500 characters, otherwise the vision model's transcription of the
      first pages ("" when it returns no content). An error from loading
      the document or from the vision call propagates. */
  function PdfText(load: PdfLoad, vision: Vision): Attempt<string> {
    match load
    case LoadFailed(m) => Threw(m)
    case Loaded(pages) =>
      var cleaned := DirectText(pages);
      if |cleaned| > DirectTextFloor then Done(cleaned)
      else
        match vision(VisionPages(|pages|))
        case Threw(m) => Threw(m)
        case Done(content) => Done(content.GetOr(""))
  }

  /** The source choice: direct text exactly when its cleaned length is
      strictly over 500; at 500 or less (including exactly 500) the vision
      text of pages 1..min(numPages, 10), whatever the direct text was. */
  lemma SourceChoice(pages: seq<Option<string>>, vision: Vision)
    ensures |DirectText(pages)| > DirectTextFloor ==>
              PdfText(Loaded(pages), vision) == Done(DirectText(pages))
    ensures |DirectText(pages)| <= DirectTextFloor ==>
              PdfText(Loaded(pages), vision) ==
                match vision(VisionPages(|pages|))
                case Threw(m) => Threw(m)
                case Done(content) => Done(content.GetOr(""))
  {
  }

  // ---------------------------------------------------------------------
  // Dispatch and response

  datatype UploadedFile = UploadedFile(name: string, mimeType: string)

  datatype FileKind = PdfFile | DocxFile | PlainTextFile | Unsupported

  /** PDF by MIME type or a ".pdf" name, tried first; then DOCX by MIME type
      or a ".docx" name; then plain text by MIME type only. */
  function Classify(f: UploadedFile): (k: FileKind)
    ensures k == PdfFile <==> f.mimeType == PdfMime || EndsWith(f.name, ".pdf")
    ensures k == DocxFile <==> && !(f.mimeType == PdfMime || EndsWith(f.name, ".pdf"))
                               && (f.mimeType == DocxMime || EndsWith(f.name, ".docx"))
    ensures k == PlainTextFile <==> && !(f.mimeType == PdfMime || EndsWith(f.name, ".pdf"))
                                    && !(f.mimeType == DocxMime || EndsWith(f.name, ".docx"))
                                    && f.mimeType == PlainTextMime
  {
    if f.mimeType == PdfMime || EndsWith(f.name, ".pdf") then PdfFile
    else if f.mimeType == DocxMime || EndsWith(f.name, ".docx") then DocxFile
    else if f.mimeType == PlainTextMime then PlainTextFile
    else Unsupported
  }

  /** The two arrays the criteria model is asked to return. */
  datatype Criteria = Criteria(inclusion: seq<string>, exclusion: seq<string>)

  /** The oracles the handler consults for one upload. */
  datatype Libraries = Libraries(
    pdf: PdfLoad,
    vision: Vision,
    docx: Attempt<string>,
    plainText: string,
    analyse: string -> Attempt<Criteria>)

  datatype Response =
    | Extracted(fileName: string, criteria: Criteria, documentPreview: string)
    | Failed(status: nat, error: string)

  /** `documentText.substring(0, 500) + '...'`: the first 500 characters or
      fewer, then an ellipsis. */
  function Preview(text: string): (p: string)
    ensures |p| == Min(|text|, PreviewLength) + 3
    ensures StartsWith(text, p[..|p| - 3]) && EndsWith(p, "...")
  {
    text[..Min(|text|, PreviewLength)] + "..."
  }

  /** The final step every accepted document goes through. */
  function Analyse(f: UploadedFile, text: string, analyse: string -> Attempt<Criteria>): Response {
    match analyse(text)
    case Threw(m) => Failed(500, OrDefault(m, DefaultError))
    case Done(c) => Extracted(f.name, c, Preview(text))
  }

  /** The handler as a function of the upload and the oracles. */
  function Respond(file: Option<UploadedFile>, libs: Libraries): Response {
    match file
    case None => Failed(400, NoFileError)
    case Some(f) =>
      match Classify(f)
      case Unsupported => Failed(400, UnsupportedError)
      case PdfFile =>
        (match PdfText(libs.pdf, libs.vision)
         case Threw(m) => Failed(500, PdfErrorPrefix + m)
         case Done(t) =>
           if |t| < PdfTextFloor then Failed(400, InsufficientTextError)
           else Analyse(f, t, libs.analyse))
      case DocxFile =>
        (match libs.docx
         case Threw(m) => Failed(500, OrDefault(m, DefaultError))
         case Done(t) => Analyse(f, t, libs.analyse))
      case PlainTextFile => Analyse(f, libs.plainText, libs.analyse)
  }

  /** The text the handler sends to the criteria model, when it gets that far. */
  function DocumentText(f: UploadedFile, libs: Libraries): Option<string> {
    match Classify(f)
    case PdfFile =>
      (match PdfText(libs.pdf, libs.vision)
       case Done(t) => if |t| < PdfTextFloor then None else Some(t)
       case Threw(_) => None)
    case DocxFile => (match libs.docx case Done(t) => Some(t) case Threw(_) => None)
    case PlainTextFile => Some(libs.plainText)
    case Unsupported => None
  }

  /** Dispatch: a missing file and an unsupported type are 400s and consult
      no oracle; an accepted file yields the model's criteria with the
      file's name and the preview of the text sent to the model. */
  lemma RespondDispatch(file: Option<UploadedFile>, libs: Libraries, other: Libraries)
    ensures file.None? ==> Respond(file, libs) == Failed(400, NoFileError)
    ensures file.Some? && Classify(file.value) == Unsupported ==>
              Respond(file, libs) == Failed(400, UnsupportedError) == Respond(file, other)
    ensures file.Some? && DocumentText(file.value, libs).Some? ==>
              var f, t := file.value, DocumentText(file.value, libs).value;
              && (libs.analyse(t).Done? ==>
                    Respond(file, libs) == Extracted(f.name, libs.analyse(t).value, Preview(t)))
              && (libs.analyse(t).Threw? ==>
                    Respond(file, libs) == Failed(500, OrDefault(libs.analyse(t).message, DefaultError)))
    ensures Respond(file, libs).Extracted? ==>
              && file.Some? && DocumentText(file.value, libs).Some?
              && Respond(file, libs).fileName == file.value.name
              && Respond(file, libs).documentPreview == Preview(DocumentText(file.value, libs).value)
              && libs.analyse(DocumentText(file.value, libs).value) == Done(Respond(file, libs).criteria)
  {
  }

  /** The 100-character floor exists only on the PDF path: DOCX and plain
      text are never rejected for being short, and a rejected PDF is always
      one whose direct text was at most 500 characters, so that the vision
      text was the one measured. An accepted PDF text has at least 100. */
  lemma LengthFloorOnlyForPdf(f: UploadedFile, libs: Libraries)
    ensures Classify(f) != PdfFile ==> Respond(Some(f), libs) != Failed(400, InsufficientTextError)
    ensures Respond(Some(f), libs) == Failed(400, InsufficientTextError) ==>
              && Classify(f) == PdfFile && libs.pdf.Loaded?
              && |DirectText(libs.pdf.pages)| <= DirectTextFloor
    ensures Classify(f) == PdfFile && DocumentText(f, libs).Some? ==>
              |DocumentText(f, libs).value| >= PdfTextFloor
    ensures Classify(f) == PdfFile && PdfText(libs.pdf, libs.vision).Done?
            && |PdfText(libs.pdf, libs.vision).value| < PdfTextFloor ==>
              Respond(Some(f), libs) == Failed(400, InsufficientTextError)
  {
  }

  /** How each kind of file gets its text, and how a failed extraction is
      answered: plain text is always sent; a DOCX conversion that throws is
      a 500 with its message; a PDF whose processing throws is a 500 with
      the PDF prefix, one whose text is under 100 characters a 400, and any
      other PDF text is sent. */
  lemma ExtractionOutcomes(f: UploadedFile, libs: Libraries)
    ensures Classify(f) == PlainTextFile ==> DocumentText(f, libs) == Some(libs.plainText)
    ensures Classify(f) == DocxFile && libs.docx.Done? ==>
              DocumentText(f, libs) == Some(libs.docx.value)
    ensures Classify(f) == DocxFile && libs.docx.Threw? ==>
              Respond(Some(f), libs) == Failed(500, OrDefault(libs.docx.message, DefaultError))
    ensures Classify(f) == PdfFile ==>
              var outcome := PdfText(libs.pdf, libs.vision);
              && (outcome.Threw? ==> Respond(Some(f), libs) == Failed(500, PdfErrorPrefix + outcome.message))
              && (outcome.Done? && |outcome.value| < PdfTextFloor ==>
                    Respond(Some(f), libs) == Failed(400, InsufficientTextError))
              && (outcome.Done? && |outcome.value| >= PdfTextFloor ==>
                    DocumentText(f, libs) == Some(outcome.value))
    ensures Classify(f) == Unsupported ==> DocumentText(f, libs).None?
  {
  }

  // ---------------------------------------------------------------------
  // The handler

  /** The loop of `extractPDFTextWithVision` over the pages it renders. */
  method RenderVisionPages(numPages: nat) returns (rendered: seq<nat>)
    ensures rendered == VisionPages(numPages)
  {
    var maxPages := Min(numPages, VisionPageCap);
    rendered := [];
    var pageNum := 1;
    while pageNum <= maxPages
      invariant 1 <= pageNum <= maxPages + 1
      invariant |rendered| == pageNum - 1
      invariant forall k :: 0 <= k < |rendered| ==> rendered[k] == k + 1
    {
      rendered := rendered + [pageNum];
      pageNum := pageNum + 1;
    }
  }

  /** The PDF branch: load, scan, assemble, clean, and fall back to vision. */
  method ExtractPdfText(load: PdfLoad, vision: Vision) returns (outcome: Attempt<string>)
    ensures outcome == PdfText(load, vision)
  {
    match load {
    case LoadFailed(m) =>
      outcome := Threw(m);
    case Loaded(pages) =>
      var allPages, _ := ScanPages(pages);
      // allPages is already in page order (pageNum == index + 1), so the
      // handler's sort by page number leaves it as it is.
      var extractedText := Join(PageTexts(allPages), "\n\n");
      var cleanedText := Cleanup(extractedText);
      if |cleanedText| > DirectTextFloor {
        outcome := Done(cleanedText);
      } else {
        var rendered := RenderVisionPages(|pages|);
        match vision(rendered) {
          case Threw(m) => outcome := Threw(m);
          case Done(content) => outcome := Done(content.GetOr(""));
        }
      }
    }
  }

  method HandleExtract(file: Option<UploadedFile>, libs: Libraries) returns (resp: Response)
    ensures resp == Respond(file, libs)
  {
    if file.None? {
      return Failed(400, NoFileError);
    }
    var f := file.value;
    var documentText := "";
    match Classify(f) {
      case PdfFile =>
        var outcome := ExtractPdfText(libs.pdf, libs.vision);
        match outcome {
          case Threw(m) => return Failed(500, PdfErrorPrefix + m);
          case Done(t) => documentText := t;
        }
        if |documentText| < PdfTextFloor {
          return Failed(400, InsufficientTextError);
        }
      case DocxFile =>
        match libs.docx {
          case Threw(m) => return Failed(500, OrDefault(m, DefaultError));
          case Done(t) => documentText := t;
        }
      case PlainTextFile =>
        documentText := libs.plainText;
      case Unsupported =>
        return Failed(400, UnsupportedError);
    }
    resp := Analyse(f, documentText, libs.analyse);
  }
}
