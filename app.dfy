/** `process_query`: build one prompt from the conversation history, the new user text and an
    optional file, hand it to the agent, and return the answer with the history extended by one
    turn. */
module App {
  import opened Outcomes
  import Truncation

  /** One (user, agent) pair of the conversation history. */
  datatype Turn = Turn(user: string, agent: string)

  function TurnLine(t: Turn): string {
    "User: " + t.user + "\nAgent: " + t.agent + "\n"
  }

  function PromptLine(prompt: string): string {
    "User: " + prompt + "\nAgent:"
  }

  /** The history rendered oldest first, one line pair per turn. */
  function TurnsText(history: seq<Turn>): string
    decreases |history|
  {
    if history == [] then ""
    else TurnsText(history[..|history| - 1]) + TurnLine(history[|history| - 1])
  }

  /** The conversation part of the prompt: every earlier turn, then the new prompt. */
  function Transcript(history: seq<Turn>, prompt: string): string {
    TurnsText(history) + PromptLine(prompt)
  }

  /** Rendering a history split in two renders the halves one after the other. */
  lemma {:induction false} TurnsTextAppend(a: seq<Turn>, b: seq<Turn>)
    ensures TurnsText(a + b) == TurnsText(a) + TurnsText(b)
    decreases |b|
  {
    if b == [] {
      assert a + b == a;
    } else {
      var n := |b| - 1;
      var front, last := TurnsText(b[..n]), TurnLine(b[n]);
      assert (a + b)[..|a + b| - 1] == a + b[..n];
      assert (a + b)[|a + b| - 1] == b[n];
      calc {
        TurnsText(a + b);
        TurnsText(a + b[..n]) + last;
        { TurnsTextAppend(a, b[..n]); }
        (TurnsText(a) + front) + last;
        TurnsText(a) + (front + last);
      }
    }
  }

  /** The oldest turn's lines come first, followed by the rest of the history. */
  lemma TurnsTextOldestFirst(t: Turn, history: seq<Turn>)
    ensures TurnsText([t] + history) == TurnLine(t) + TurnsText(history)
  {
    TurnsTextAppend([t], history);
    assert [t][..0] == [];
    assert TurnsText([t]) == TurnsText([]) + TurnLine(t);
  }

  /** The loop of `process_query` that renders the history, and the final prompt line. */
  method BuildConversation(history: seq<Turn>, prompt: string) returns (conversation: string)
    ensures conversation == Transcript(history, prompt)
    ensures history == [] ==> conversation == "User: " + prompt + "\nAgent:"
  {
    conversation := "";
    for i := 0 to |history|
      invariant conversation == TurnsText(history[..i])
    {
      assert history[..i + 1][..i] == history[..i];
      conversation := conversation + ("User: " + history[i].user + "\nAgent: " + history[i].agent + "\n");
    }
    assert history[..|history|] == history;
    conversation := conversation + ("User: " + prompt + "\nAgent:");
  }

  // ---------------------------------------------------------------- PDF text

  /** A PDF page as the reader sees it: `extract_text()` returns a text, returns nothing, or raises. */
  datatype Page = Page(extract: Result<Option<string>>)

  /** `page.extract_text() or ""`. */
  function PageText(text: Option<string>): string {
    text.GetOr("")
  }

  /** The concatenated page texts, pages in order, or the error of the first page that raises. */
  function PdfText(pages: seq<Page>): Result<string>
    decreases |pages|
  {
    if pages == [] then Ok("")
    else
      match PdfText(pages[..|pages| - 1])
      case Err(e) => Err(e)
      case Ok(t) =>
        match pages[|pages| - 1].extract
        case Err(e) => Err(e)
        case Ok(x) => Ok(t + PageText(x))
  }

  /** Every page extracts without raising. */
  predicate AllExtract(pages: seq<Page>) {
    forall i :: 0 <= i < |pages| ==> pages[i].extract.Ok?
  }

  /** Reference definition: the page texts joined first to last. */
  function JoinedText(pages: seq<Page>): string
    requires AllExtract(pages)
    decreases |pages|
  {
    if pages == [] then "" else PageText(pages[0].extract.value) + JoinedText(pages[1..])
  }

  lemma {:induction false} JoinedTextSnoc(pages: seq<Page>, p: Page)
    requires AllExtract(pages) && p.extract.Ok?
    ensures AllExtract(pages + [p])
    ensures JoinedText(pages + [p]) == JoinedText(pages) + PageText(p.extract.value)
    decreases |pages|
  {
    assert AllExtract(pages + [p]) by {
      forall i | 0 <= i < |pages + [p]| ensures (pages + [p])[i].extract.Ok? {
        if i < |pages| { assert (pages + [p])[i] == pages[i]; }
      }
    }
    if pages == [] {
      assert [p][1..] == [];
    } else {
      assert (pages + [p])[1..] == pages[1..] + [p];
      JoinedTextSnoc(pages[1..], p);
    }
  }

  /** When no page raises, the PDF text is all page texts joined in order, a missing text
      counting as empty. */
  lemma {:induction false} PdfTextJoinsPages(pages: seq<Page>)
    requires AllExtract(pages)
    ensures PdfText(pages) == Ok(JoinedText(pages))
    decreases |pages|
  {
    if pages != [] {
      var n := |pages| - 1;
      assert pages == pages[..n] + [pages[n]];
      PdfTextJoinsPages(pages[..n]);
      JoinedTextSnoc(pages[..n], pages[n]);
    }
  }

  /** Once a prefix of the pages fails, the whole document fails with the same error. */
  lemma {:induction false} PdfTextErrorSticks(pages: seq<Page>, k: nat)
    requires k <= |pages| && PdfText(pages[..k]).Err?
    ensures PdfText(pages) == PdfText(pages[..k])
    decreases |pages| - k
  {
    if k < |pages| {
      assert pages[..k + 1][..k] == pages[..k];
      PdfTextErrorSticks(pages, k + 1);
    } else {
      assert pages[..k] == pages;
    }
  }

  /** The first page that raises decides the error of the whole document. */
  lemma PdfTextFirstFailure(pages: seq<Page>, k: nat)
    requires k < |pages| && pages[k].extract.Err?
    requires forall i :: 0 <= i < k ==> pages[i].extract.Ok?
    ensures PdfText(pages) == Err(pages[k].extract.msg)
  {
    assert pages[..k + 1][..k] == pages[..k];
    assert AllExtract(pages[..k]);
    PdfTextJoinsPages(pages[..k]);
    PdfTextErrorSticks(pages, k + 1);
  }

  /** The loop of `process_query` that joins the page texts; a page that raises ends it. */
  method ExtractPdfText(pages: seq<Page>) returns (r: Result<string>)
    ensures r == PdfText(pages)
  {
    var pdfText := "";
    for i := 0 to |pages|
      invariant PdfText(pages[..i]) == Ok(pdfText)
    {
      assert pages[..i + 1][..i] == pages[..i];
      match pages[i].extract
      case Err(e) =>
        PdfTextErrorSticks(pages, i + 1);
        return Err(e);
      case Ok(x) =>
        pdfText := pdfText + PageText(x);
    }
    assert pages[..|pages|] == pages;
    r := Ok(pdfText);
  }

  // ---------------------------------------------------------------- the file section

  const FileProvided: string := "\n\nFile provided: "
  const PdfHeader: string := "\n\nPDF content (extracted text):\n"
  const FileHeader: string := "\n\nFile content:\n"
  const PdfNoteOpen: string := "\n\n(Could not extract PDF text: "
  const ReadNoteOpen: string := "\n\n(Could not read file content: "

  /** The file system as `process_query` uses it: reading a path as text, and opening a path as
      a PDF document (with its pages); either may raise. */
  datatype Files = Files(readText: string -> Result<string>, openPdf: string -> Result<seq<Page>>)

  /** ASCII lower-casing of one character. */
  function LowerChar(c: char): char {
    if 'A' <= c <= 'Z' then (c as int + 32) as char else c
  }

  function Lower(s: string): (r: string)
    ensures |r| == |s|
    ensures forall i :: 0 <= i < |s| ==> r[i] == LowerChar(s[i])
  {
    if s == [] then [] else [LowerChar(s[0])] + Lower(s[1..])
  }

  /** `path.lower().endswith(".pdf")`. */
  predicate IsPdfPath(path: string) {
    EndsWith(Lower(path), ".pdf")
  }

  /** The suffix test, spelled out: the last four characters are a dot and the letters p, d, f
      in either case. */
  lemma IsPdfPathCaseInsensitive(path: string)
    ensures IsPdfPath(path) <==>
      |path| >= 4 && path[|path| - 4] == '.'
      && path[|path| - 3] in {'p', 'P'} && path[|path| - 2] in {'d', 'D'} && path[|path| - 1] in {'f', 'F'}
  {
    var low := Lower(path);
    if |path| >= 4 {
      var n := |path|;
      assert low[n - 4..] == [low[n - 4], low[n - 3], low[n - 2], low[n - 1]];
    }
  }

  /** What `process_query` appends after the file path: the extracted or read content under the
      truncation rule, or a note saying why there is none. */
  function FileSection(path: string, files: Files): string {
    if IsPdfPath(path) then
      match files.openPdf(path)
      case Err(e) => PdfNoteOpen + e + ")"
      case Ok(pages) =>
        match PdfText(pages)
        case Err(e) => PdfNoteOpen + e + ")"
        case Ok(t) => PdfHeader + Truncation.Truncate(t)
    else
      match files.readText(path)
      case Err(e) => ReadNoteOpen + e + ")"
      case Ok(c) => FileHeader + Truncation.Truncate(c)
  }

  /** The whole prompt sent to the agent. */
  function FullPrompt(history: seq<Turn>, prompt: string, file: Option<string>, files: Files): string {
    Transcript(history, prompt) + (match file
      case None => ""
      case Some(path) => FileProvided + path + FileSection(path, files))
  }

  /** Without a file the prompt is the transcript; with one, the transcript, the path line and the
      file section, in that order. */
  lemma PromptShape(history: seq<Turn>, prompt: string, file: Option<string>, files: Files)
    ensures file.None? ==> FullPrompt(history, prompt, file, files) == Transcript(history, prompt)
    ensures file.Some? ==>
      FullPrompt(history, prompt, file, files) ==
      Transcript(history, prompt) + FileProvided + file.value + FileSection(file.value, files)
  {
  }

  /** The kinds of file section, told apart by how each one begins. */
  datatype SectionKind = PdfContent | PdfNote | TextContent | ReadNote | NoSection

  function KindOf(section: string): SectionKind {
    if PdfHeader <= section then PdfContent
    else if PdfNoteOpen <= section then PdfNote
    else if FileHeader <= section then TextContent
    else if ReadNoteOpen <= section then ReadNote
    else NoSection
  }

  /** Exactly one of the four sections follows the path: a PDF path gets the PDF content or the
      PDF note, any other path the file content or the read note, and the content kinds appear
      exactly when reading succeeded. */
  lemma FileSectionKind(path: string, files: Files)
    ensures IsPdfPath(path) ==>
      (KindOf(FileSection(path, files)) == PdfContent <==>
        files.openPdf(path).Ok? && PdfText(files.openPdf(path).value).Ok?)
    ensures IsPdfPath(path) ==>
      (KindOf(FileSection(path, files)) == PdfNote <==>
        !(files.openPdf(path).Ok? && PdfText(files.openPdf(path).value).Ok?))
    ensures !IsPdfPath(path) ==>
      (KindOf(FileSection(path, files)) == TextContent <==> files.readText(path).Ok?)
    ensures !IsPdfPath(path) ==>
      (KindOf(FileSection(path, files)) == ReadNote <==> files.readText(path).Err?)
  {
    var section := FileSection(path, files);
    if IsPdfPath(path) {
      if files.openPdf(path).Ok? && PdfText(files.openPdf(path).value).Ok? {
        assert PdfHeader <= section;
      } else {
        var e := if files.openPdf(path).Err? then files.openPdf(path).msg else PdfText(files.openPdf(path).value).msg;
        assert section == PdfNoteOpen + e + ")";
        assert section[2] == '(' && PdfHeader[2] == 'P';
        assert PdfNoteOpen <= section;
      }
    } else {
      if files.readText(path).Ok? {
        assert section[2] == 'F' && PdfHeader[2] == 'P' && PdfNoteOpen[2] == '(';
        assert FileHeader <= section;
      } else {
        assert section[2] == '(' && PdfHeader[2] == 'P';
        assert section[13] == 'r' && PdfNoteOpen[13] == 'e';
        assert ReadNoteOpen <= section;
      }
    }
  }

  /** The PDF content is the joined page texts with truncation applied after joining, so the
      payload keeps at most 5016 characters. */
  lemma PdfSectionContent(path: string, files: Files, pages: seq<Page>)
    requires IsPdfPath(path) && files.openPdf(path) == Ok(pages) && AllExtract(pages)
    ensures FileSection(path, files) == PdfHeader + Truncation.Truncate(JoinedText(pages))
    ensures |FileSection(path, files)| <= |PdfHeader| + Truncation.MaxLength
  {
    PdfTextJoinsPages(pages);
  }

  /** A file that cannot be read or extracted still yields a section: a note carrying the error
      message. */
  lemma FileFailureIsNoted(path: string, files: Files)
    ensures !IsPdfPath(path) && files.readText(path).Err? ==>
      FileSection(path, files) == ReadNoteOpen + files.readText(path).msg + ")"
    ensures IsPdfPath(path) && files.openPdf(path).Err? ==>
      FileSection(path, files) == PdfNoteOpen + files.openPdf(path).msg + ")"
    ensures IsPdfPath(path) && files.openPdf(path).Ok? && PdfText(files.openPdf(path).value).Err? ==>
      FileSection(path, files) == PdfNoteOpen + PdfText(files.openPdf(path).value).msg + ")"
  {
  }

  /** The file branch of `process_query`: the PDF or text content, or the note on failure. */
  method ReadFileSection(path: string, files: Files) returns (section: string)
    ensures section == FileSection(path, files)
  {
    if IsPdfPath(path) {
      match files.openPdf(path)
      case Err(e) =>
        section := PdfNoteOpen + e + ")";
      case Ok(pages) =>
        var text := ExtractPdfText(pages);
        match text
        case Err(e) =>
          section := PdfNoteOpen + e + ")";
        case Ok(t) =>
          section := PdfHeader + Truncation.Truncate(t);
    } else {
      match files.readText(path)
      case Err(e) =>
        section := ReadNoteOpen + e + ")";
      case Ok(c) =>
        section := FileHeader + Truncation.Truncate(c);
    }
  }

  /** The prompt assembly of `process_query`: the conversation, then, with a file, its path and
      its section. */
  method AssemblePrompt(history: seq<Turn>, prompt: string, file: Option<string>, files: Files)
    returns (fullPrompt: string)
    ensures fullPrompt == FullPrompt(history, prompt, file, files)
  {
    fullPrompt := BuildConversation(history, prompt);
    if file.Some? {
      var path := file.value;
      var section := ReadFileSection(path, files);
      fullPrompt := fullPrompt + (FileProvided + path + section);
    }
  }

  // ---------------------------------------------------------------- the agent and the history

  const KeyRequired: string := "GEMINI_API_KEY environment variable is required"
  const ErrorPrefix: string := "Error: "

  /** The agent as `process_query` uses it: the API key it is built with, and the answer (or the
      error raised) for each prompt. */
  datatype Agent = Agent(apiKey: Option<string>, run: string -> Result<string>)

  /** `initialize_agent`'s key check: an unset or empty key raises. */
  function InitializeAgent(apiKey: Option<string>): (r: Result<()>)
    ensures r.Err? <==> apiKey == None || apiKey == Some("")
    ensures r.Err? ==> r.msg == KeyRequired
  {
    match apiKey
    case None => Err(KeyRequired)
    case Some(k) => if k == "" then Err(KeyRequired) else Ok(())
  }

  /** A `None` history counts as the empty one. */
  function Base(history: Option<seq<Turn>>): seq<Turn> {
    history.GetOr([])
  }

  /** The history returned: the old one, unchanged, with exactly one more turn. */
  function Record(history: Option<seq<Turn>>, prompt: string, answer: string): (r: seq<Turn>)
    ensures |r| == |Base(history)| + 1
    ensures r[..|Base(history)|] == Base(history)
    ensures r[|Base(history)|] == Turn(prompt, answer)
  {
    Base(history) + [Turn(prompt, answer)]
  }

  /** The text `process_query` returns: the agent's answer, or the error prefix and the message
      of whatever raised (the key check or the agent run). */
  function Answer(prompt: string, file: Option<string>, history: Option<seq<Turn>>, agent: Agent, files: Files): string {
    match InitializeAgent(agent.apiKey)
    case Err(e) => ErrorPrefix + e
    case Ok(_) =>
      match agent.run(FullPrompt(Base(history), prompt, file, files))
      case Err(e) => ErrorPrefix + e
      case Ok(result) => result
  }

  /** `process_query(prompt, file_input, history)`: it never raises; it returns the answer and the
      history extended by the pair (prompt, answer). */
  method ProcessQuery(prompt: string, file: Option<string>, history: Option<seq<Turn>>, agent: Agent, files: Files)
    returns (answer: string, newHistory: seq<Turn>)
    ensures answer == Answer(prompt, file, history, agent, files)
    ensures newHistory == Record(history, prompt, answer)
  {
    var init := InitializeAgent(agent.apiKey);
    if init.Err? {
      answer := ErrorPrefix + init.msg;
      newHistory := Record(history, prompt, answer);
      return;
    }
    var past := if history.None? then [] else history.value;
    var fullPrompt := AssemblePrompt(past, prompt, file, files);
    var result := agent.run(fullPrompt);
    answer := if result.Err? then ErrorPrefix + result.msg else result.value;
    newHistory := Record(history, prompt, answer);
  }

  /** A missing or empty API key gives the key-required error turn; nothing raises. */
  lemma MissingKeyTurn(prompt: string, file: Option<string>, history: Option<seq<Turn>>, agent: Agent, files: Files)
    requires agent.apiKey == None || agent.apiKey == Some("")
    ensures Answer(prompt, file, history, agent, files) == ErrorPrefix + KeyRequired
    ensures Record(history, prompt, Answer(prompt, file, history, agent, files))[|Base(history)|]
      == Turn(prompt, ErrorPrefix + KeyRequired)
  {
  }

  /** With a key, the agent always receives the full prompt, whatever happened to the file, and
      the answer is its reply or the error prefix with the message it raised. */
  lemma RequestReachesAgent(prompt: string, file: Option<string>, history: Option<seq<Turn>>, agent: Agent, files: Files)
    requires agent.apiKey.Some? && agent.apiKey.value != ""
    ensures var sent := FullPrompt(Base(history), prompt, file, files);
      Answer(prompt, file, history, agent, files) ==
        (if agent.run(sent).Ok? then agent.run(sent).value else ErrorPrefix + agent.run(sent).msg)
  {
  }

  /** The next request's transcript shows the old turns, then the turn just recorded, then the
      next prompt: the history only ever grows at its end. */
  lemma ConversationContinues(history: Option<seq<Turn>>, prompt: string, answer: string, next: string)
    ensures Transcript(Record(history, prompt, answer), next) ==
      TurnsText(Base(history)) + TurnLine(Turn(prompt, answer)) + PromptLine(next)
  {
    var h := Record(history, prompt, answer);
    assert h[..|h| - 1] == Base(history);
  }
}
