# GGSAgent core, modelled in Dafny

GGSAgent connects a conversational code agent to a web form and a handful of lookup tools. Most of
the repository calls libraries whose code is not here. This project models the three pieces of
logic the repository implements itself, and proves what each one promises:

- **`process_query`** (`app.py`) renders the conversation history, oldest turn first, into a
  transcript and appends the new prompt. If a file is given, it adds the file path and then either
  the file's content (for PDFs, the page texts joined in order) or a note saying why there is none.
  It sends the prompt to the agent and returns the answer, or an `Error: …` text. In both cases the
  returned history is the old one with exactly one more turn (module `App`).
- **The shared truncation rule**: text longer than 5000 characters is cut to its first 5000 and
  `"\n... (truncated)"` is appended. The rule is written out three times in the source: for PDF
  text, for file content and for the Selenium page text. Here it is defined once and used at all
  three sites (module `Truncation`).
- **`WikipediaSearchTool.forward`** is a total function of the search and summary replies. It
  returns the no-results text, the title with its summary, or an error text (module `Wikipedia`).
- **`SeleniumWebpageTool.forward`** checks that the driver binary is present. It then opens a
  browser session, loads the URL, waits, reads the body text and truncates it. It ends the session
  in a `finally` block and turns every failure into an error text (module `Selenium`). The driver
  is a class, `ChromeDriver`. Its fields are a session flag, counters of sessions created and
  quits, the last URL requested, and a log of every step. `Forward` is a module-level method that
  takes a `ChromeDriver` and drives it; it is proved against the pure `ForwardSpec`.

Everything outside the repository is passed in as a parameter. Each such oracle gives back a value
or a raised error, and only the error's text (`str(e)`) is kept (`Outcomes.Result`):

- the agent run (`App.Agent.run`);
- reading a file as text, and opening a PDF with its pages (`App.Files`);
- the Wikipedia search and summary calls (`Wikipedia.Service`);
- the browser's answers to each driver call (`Selenium.Machine`).

Python's `len` counts code points, and so does `|s|` on a Dafny `string`, so the 5000-character
cut means the same thing in both.

Files: `outcomes.dfy`, `truncation.dfy`, `app.dfy`, `wikipedia.dfy`, `selenium.dfy`.

Two behaviours worth noting:

- The truncation marker is `"\n... (truncated)"`, with a leading line break, so a cut text is
  5016 characters long.
- `main` refuses to start without the key (app.py:146-150). Inside `process_query`, a missing key
  raises from `initialize_agent` (app.py:28-29), is caught at app.py:100, and comes back as the
  turn `"Error: GEMINI_API_KEY environment variable is required"`.

The method `Selenium.SuccessfulFetchExample` replays the tool's successful-fetch test
(seleniumWebpageTool/test_seleniumWebpageTool.py:23-30). With a body of `"Hello World"`, the
text comes back unchanged, the given URL is the one requested, and the session is quit once.

## Model

| member | source | states |
|---|---|---|
| `Truncation.Truncate` | app.py:81-82 | a text of at most 5000 characters is returned unchanged; a longer one becomes exactly 5016 characters, keeps its first 5000 and ends with the marker. The same rule is applied at app.py:91-92 and seleniumWebpageTool/seleniumWebpageTool.py:33-34 |
| `Truncation.TruncateIdempotent` | app.py:91-92 | applying the rule a second time changes nothing |
| `Truncation.TruncateSeesOnlyPrefix` | seleniumWebpageTool/seleniumWebpageTool.py:33-34 | two long texts that agree on their first 5000 characters are cut to the same result |
| `App.TurnsTextAppend` | app.py:61-62 | rendering a history split in two gives the two renderings one after the other, so every turn appears in its place |
| `App.TurnsTextOldestFirst` | app.py:60-62 | the oldest turn's `User: …\nAgent: …\n` lines come first, followed by the rest of the history's rendering |
| `App.BuildConversation` | app.py:59-64 | the loop gives the history rendering followed by `User: <prompt>\nAgent:`; with no history, just that final line |
| `App.PdfTextJoinsPages` | app.py:78-80 | when no page raises, the PDF text is every page's text joined in order, with a missing text counting as empty |
| `App.PdfTextErrorSticks` | app.py:79-87 | once a page raises, the pages after it do not change the outcome |
| `App.PdfTextFirstFailure` | app.py:79-87 | the first page that raises decides the error of the whole extraction |
| `App.ExtractPdfText` | app.py:78-80 | the page loop computes `PdfText`, and stops at the first page that raises |
| `App.IsPdfPathCaseInsensitive` | app.py:72 | a path counts as a PDF exactly when it ends with `.pdf` in any mix of cases |
| `App.PromptShape` | app.py:64-70 | without a file the prompt is the transcript; with a file it is the transcript, `\n\nFile provided: <path>`, then the file section |
| `App.FileSectionKind` | app.py:71-95 | exactly one of four sections follows the path. A PDF path gets the PDF content exactly when opening and extraction succeed, and the PDF note otherwise. Any other path gets the file content exactly when reading succeeds, and the read note otherwise |
| `App.PdfSectionContent` | app.py:78-85 | the PDF section is the header followed by the joined page texts, truncated after joining, so at most header plus 5016 characters |
| `App.FileFailureIsNoted` | app.py:86-95 | a failed read or extraction yields `(Could not read file content: <msg>)` or `(Could not extract PDF text: <msg>)` with the call's message; `App.RequestReachesAgent` shows the prompt carrying it still goes to the agent |
| `App.ReadFileSection` | app.py:71-95 | the file branch computes `FileSection` for the path |
| `App.AssemblePrompt` | app.py:59-95 | the successive appends build `FullPrompt` |
| `App.InitializeAgent` | app.py:22-29 | the key check fails exactly when the key is unset or empty, with the key-required message |
| `App.Record` | app.py:97-103 | the new history is one turn longer, its earlier turns are the old history (empty for `None`), and its last turn is (prompt, answer) |
| `App.ProcessQuery` | app.py:53-104 | never raises; the answer is `Answer(...)` and the new history is `Record(history, prompt, answer)`, on the success path and on the error path alike |
| `App.MissingKeyTurn` | app.py:100-104 | a missing or empty key gives `Error: GEMINI_API_KEY environment variable is required` as the answer and as the new turn |
| `App.RequestReachesAgent` | app.py:96-99 | with a key, the agent gets the full prompt whatever happened to the file, and the answer is its reply or `Error: ` and its message |
| `App.ConversationContinues` | app.py:59-63 | the next transcript is the old turns, the turn just recorded, then the next prompt |
| `Wikipedia.Forward` | wikipediaSearchTool/wikipediaSearchTool.py:15-27 | never raises and never returns an empty text. The search asks for one result. A summary of 3 sentences is requested, for the first title only, exactly when the search returns a non-empty list |
| `Wikipedia.NoResultsNamesQuery` | wikipediaSearchTool/wikipediaSearchTool.py:20-21 | the no-results text names the exact query, which can be read back from it |
| `Wikipedia.NoResultsIff` | wikipediaSearchTool/wikipediaSearchTool.py:19-21 | the no-results text comes back exactly when the search returns an empty list, and then no summary is requested |
| `Wikipedia.ErrorIff` | wikipediaSearchTool/wikipediaSearchTool.py:26-27 | the text starts with `Error searching Wikipedia: ` exactly when the search or the summary raised, and is exactly that prefix followed by the message of the call that raised (the search's, or the summary's for the first title) |
| `Wikipedia.FoundText` | wikipediaSearchTool/wikipediaSearchTool.py:24-25 | a found title gives `Wikipedia - <title>:\n<summary>` |
| `Wikipedia.OnlyFirstTitleUsed` | wikipediaSearchTool/wikipediaSearchTool.py:19-25 | searches that agree on the first title give the same outcome |
| `Selenium.ChromeDriver.Which` | seleniumWebpageTool/seleniumWebpageTool.py:20 | reports whether the binary is present and logs the check |
| `Selenium.ChromeDriver.Launch` | seleniumWebpageTool/seleniumWebpageTool.py:27 | opens a session and counts it when the launch succeeds; otherwise leaves no session |
| `Selenium.ChromeDriver.Get` | seleniumWebpageTool/seleniumWebpageTool.py:29 | records the requested URL as the last one requested |
| `Selenium.ChromeDriver.ImplicitlyWait` | seleniumWebpageTool/seleniumWebpageTool.py:31 | logs the wait inside the open session |
| `Selenium.ChromeDriver.FindBodyText` | seleniumWebpageTool/seleniumWebpageTool.py:32 | returns the body text or the error it raised |
| `Selenium.ChromeDriver.Quit` | seleniumWebpageTool/seleniumWebpageTool.py:37 | ends the session and counts one quit |
| `Selenium.ForwardSpec` | seleniumWebpageTool/seleniumWebpageTool.py:17-22 | the binary check comes first; without the binary the only step is that check and the text is the not-installed diagnostic |
| `Selenium.ForwardQuitsOnce` | seleniumWebpageTool/seleniumWebpageTool.py:27-37 | a launch is attempted exactly when the binary is present; a quit happens exactly once, as the last step, exactly when a session was created, and never otherwise |
| `Selenium.ForwardOrder` | seleniumWebpageTool/seleniumWebpageTool.py:20-37 | steps keep the fixed order (binary check, launch, load, wait, body, quit) and none repeats; only the given URL is requested, and it is requested whenever a session exists |
| `Selenium.ForwardNeverRaises` | seleniumWebpageTool/seleniumWebpageTool.py:17-39 | the text is the not-installed diagnostic, the truncated body, or `Error fetching page with Selenium: ` followed by the message of a call that raised |
| `Selenium.Forward` | seleniumWebpageTool/seleniumWebpageTool.py:17-39 | given a driver not yet in a session, takes exactly `ForwardSpec`'s steps on it and returns its text, so the three lemmas above hold of it. It leaves no session open and quits exactly as many times as it created a session. It records the URL as requested exactly when a session was created |
| `Selenium.RunSession` | seleniumWebpageTool/seleniumWebpageTool.py:28-35 | the inner block loads the URL, waits and reads the body, stopping at the first call that raises, and keeps the session open |
| `Selenium.SuccessText` | seleniumWebpageTool/seleniumWebpageTool.py:32-35 | when every call succeeds, the text is the body under the truncation rule: at most 5016 characters, and the body itself when it has at most 5000 |
| `Selenium.SessionFailureText` | seleniumWebpageTool/seleniumWebpageTool.py:28-39 | a load, wait or body failure comes back as the prefix and that call's message, and the session still ends with a quit |
| `Selenium.QuitFailureWins` | seleniumWebpageTool/seleniumWebpageTool.py:36-39 | a quit that raises in the `finally` replaces the session's text or error with its own message |
| `Selenium.LaunchFailureText` | seleniumWebpageTool/seleniumWebpageTool.py:27-39 | a launch that raises is reported with its message, and no quit is attempted |

## Left out

- The Gradio interface, `create_interface` and `main` (app.py:107-158): UI wiring and server launch.
- Environment handling (`load_dotenv`, `os.getenv`, the `os.environ` writes, the optional
  `HF_TOKEN`): process I/O. Only the value of the API key is an input (`App.Agent.apiKey`).
- The agent runtime: building the model and the `CodeAgent`, and `agent.run`. Building them is
  assumed to succeed once the key is set. Any failure of the run surfaces through the `run`
  oracle. A construction failure would produce the same error turn.
- The library tools (DuckDuckGo search, page visit, Python interpreter) are not implemented in the
  repository.
- File and PDF reading (`open`, `PyPDF2.PdfReader`, importing `PyPDF2`) are oracles. A PDF is
  given as its pages, each of whose `extract_text()` returns a text or nothing, or raises.
- `file_input.name if hasattr(file_input, "name") else str(file_input)`: the model takes the
  resolved path as a string.
- `str(result)` on the agent's answer: the `run` oracle already returns text.
- `App.IsPdfPath`: lower-cases only ASCII letters. Python's full Unicode `lower()` can yield the
  characters `.`, `p`, `d` and `f` only from those characters and their upper-case forms, so the
  suffix test agrees.
- The real `shutil.which`, `webdriver.Chrome`, the Chrome `Options` arguments and the Wikipedia
  network calls. They are the `Selenium.Machine` and `Wikipedia.Service` oracles. The timing
  meaning of `implicitly_wait(5)` is left out; only the call and its possible failure are kept.
- Selenium.ChromeDriver.Quit: the session counts as ended even when `quit` raises, because the
  model has no state for a half-closed browser.
- Selenium.ForwardSpec: every driver call answers the same way each time it is made, which is
  enough because `forward` makes each call at most once.
- The tool metadata (`name`, `description`, `inputs`, `output_type`): constants for the agent
  framework.
- `test_setup.py`: import smoke checks that only print.
