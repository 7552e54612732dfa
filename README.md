# Gemini chat client: history, session loop and CSV logger

This project models the core of the gemini-chat-client console program in Dafny. That core has two parts.

The first is the `Client` of `src/lib/gemini_tool.py`. It keeps a history dictionary per chat title: a `title`, a `history_index` counter, and one `{prompt, response}` entry per turn, keyed by the turn number. The history is saved as a JSON file. The client builds a context list from the history's items. Each prompt carries the newest `context_window` items of that list, a fixed block of instructions and the user's text. After every turn, the client stores the turn and saves the file. It ends the session once the session's question budget is used up.

The second is the `Log` class of `src/lib/log.py`. It writes CSV lines of the form date, level, message under the header `DATE,LEVEL,MESSAGE,ERROR,FILE,LINE`. For errors the message is itself four values: the error's name, the error message, the file and the line. It turns commas in messages into dots and puts a fixed text in place of an empty message. For an error record it picks the traceback frame from the logger's own file, or else the last frame. It writes the header line when the log file is missing or empty.

Modules:

- `Wrappers` (`wrappers.dfy`): `Option` and `Result`.
- `History` (`history.dfy`): the history dictionary as a value.
  - Dictionary assignment (`Put`).
  - What a save and a load through JSON do to it (`Reload`).
  - The fresh-or-saved choice of `load_history` (`LoadRecord`).
  - The context list and its window (`context[-context_window:]`).
  - The prompt text and the exit test.
  - The fallback for an empty model response.
- `GeminiTool` (`gemini_tool.dfy`): the class `Client`, whose fields are the mutable state of the Python object.
  - `LoadHistory`, `SaveHistory` and `UpdateHistory` change those fields in place.
  - `ChatTurn` is one pass of the `start_chat` loop, and `RunSession` is the loop itself.
  - `StartChat` loads a history and runs the loop.
  - The console, the remote model and the disk are inputs:
    - an `Exchange` is the user's line together with the model's reply;
    - the disk is a map from chat title to stored file.
- `CsvLog` (`csv_log.dfy`): the line shaping of the logger.
  - `Split` and `Join` with their round trips.
  - Comma sanitising, frame selection and the error record.
  - The class `Log`, whose `content` is the log file's text and grows by one line per call.

Points where the code behaves differently from its own documentation, modelled as the code does it:

- **Typing `exit` does not end the chat.** The welcome text says "Type 'exit' to end the chat", but line 188 tests `prompt.lower() == "exit"` on the built prompt, not on the user's `text`. The built prompt always starts with `chat history: `, so that test never holds (`AugmentedNeverExits`). In the model, a session therefore ends only by the question limit or by the input running out; in the program, an exception from the remote call or the disk also ends it.
- **The limit counts every stored entry.** `update_history` compares `len(history) - 2`, the number of stored turns including those loaded from the file, with `questions + history_index`, where `history_index` is the index read at the start of the session. A history is *numbered* when it holds as many turns as its index says, numbered 1, 2, ... in order. A missing or empty file loads as a numbered history, and so does a file holding one (`LoadNumbered`). A session started from a numbered history saves a numbered one (`SessionNumbered`, `StartChat`), and that file loads back numbered (`SavedNumbered`). So for every history this client writes, from one session to the next, a session with limit `L` exits on its max(`L`, 1)-th turn, after recording and saving it (`Budget`, `RunSession`, `StartChat`).
- **A save and a load change the keys.** JSON turns the integer turn keys into strings. A reloaded history therefore keeps every turn under a string key, while new turns are added under integer keys. Save-then-load is not the identity once an integer key is present (`SaveLoadRoundTrip`). Two keys that print alike collapse into one.
- **Error lines do not match the header.** The header names the third and fourth columns MESSAGE and ERROR. An error line puts the error's name third and the message fourth (`ErrorColumnsSwapped`).

## Model

| member | source | states |
|---|---|---|
| History.ProcessResponse | gemini-chat-client/src/lib/gemini_tool.py:53-57 | the response text when the model returned something, otherwise the fixed text "No response received." |
| History.Put | gemini-chat-client/src/lib/gemini_tool.py:126-131 | dictionary assignment: a new key is appended at the end; an existing key keeps the position of its first pair, which gets the new value, and every other pair stays where it was |
| History.PutLooksUp | gemini-chat-client/src/lib/gemini_tool.py:126-131 | after assignment, looking up the key gives the new value |
| History.PutOthers | gemini-chat-client/src/lib/gemini_tool.py:126-131 | assignment leaves the value under every other key unchanged |
| History.PutElements | gemini-chat-client/src/lib/gemini_tool.py:126-131 | every pair after assignment is the new pair or one that was there before |
| History.PutKeepsDistinct | gemini-chat-client/src/lib/gemini_tool.py:126-131 | assignment never creates a repeated key |
| History.Reload | gemini-chat-client/src/lib/gemini_tool.py:88-92 | the dictionary `json.load` rebuilds: every key is a string, no key repeats, and it is no larger than what was saved |
| History.ReloadStringifies | gemini-chat-client/src/lib/gemini_tool.py:88-92 | when no two keys print alike, the reloaded dictionary is the saved one in the same order, with each key turned into its string |
| History.ReloadIdempotent | gemini-chat-client/src/lib/gemini_tool.py:88-92 | loading a history that was itself loaded and saved again gives the same entries |
| History.SaveLoadRoundTrip | gemini-chat-client/src/lib/gemini_tool.py:101-107 | a save then a load keeps the title, the index, the number of turns and each turn with its number, and is not the identity when an integer key was stored |
| History.LoadRecord | gemini-chat-client/src/lib/gemini_tool.py:88-96 | a missing or empty file gives the fresh history (title = chat title, index 0, no turns); otherwise the saved record as JSON gives it back (`Reloaded`): the saved title and index, with distinct string keys |
| History.LoadAfterSave | gemini-chat-client/src/lib/gemini_tool.py:88-92 | loading right after a save gives the saved title, index and every turn in order, each under the string form of its key |
| History.ContextOf | gemini-chat-client/src/lib/gemini_tool.py:98 | `list(history.items())`: the title pair, the index pair, then every turn in order |
| History.Clamp | gemini-chat-client/src/lib/gemini_tool.py:122-123 | a limit below 1 becomes exactly 1; a limit of 1 or more is unchanged |
| History.Window | gemini-chat-client/src/lib/gemini_tool.py:173 | `context[-w:]`: for w > 0 the newest min(w, size) items; for w = 0 the whole list; for w < 0 all but the first -w items |
| History.SlidingWindow | gemini-chat-client/src/lib/gemini_tool.py:173 | appending a turn adds it at the end of the window and drops the oldest item once the window is full |
| History.BuildPrompt | gemini-chat-client/src/lib/gemini_tool.py:173-179 | the prompt starts with "chat history: " and ends with the instructions followed by the user's text; its length is the sum of its parts |
| History.Lower | gemini-chat-client/src/lib/gemini_tool.py:188 | `str.lower()`: same length, each letter lowered |
| History.PromptSaysExit | gemini-chat-client/src/lib/gemini_tool.py:188 | the test `prompt.lower() == "exit"`; only a four-character prompt can pass it |
| History.AugmentedNeverExits | gemini-chat-client/src/lib/gemini_tool.py:188 | no built prompt passes the `prompt.lower() == "exit"` test, whatever the user typed |
| GeminiTool.Budget | gemini-chat-client/src/lib/gemini_tool.py:143 | the turns left before the test `len(history) - 2 == questions + history_index` holds; when the stored turns number the starting index, it is exactly the enforced limit, at least 1 |
| GeminiTool.RecordTurn | gemini-chat-client/src/lib/gemini_tool.py:125-137 | storing a turn under the incremented index appends it: the key is new, keys stay distinct, and the context still lists the bookkeeping pairs then every turn |
| GeminiTool.ExtendSession | gemini-chat-client/src/lib/gemini_tool.py:171-191 | one more recorded round extends the session's record of turns by one |
| GeminiTool.Client.constructor | gemini-chat-client/src/lib/gemini_tool.py:21-38 | the model name, the limit and the context window are stored as given |
| GeminiTool.Client.Default | gemini-chat-client/src/lib/gemini_tool.py:21-24 | the defaults `questions=100` and `context_window=15`, with which the entry script builds the client |
| GeminiTool.Client.LoadHistory | gemini-chat-client/src/lib/gemini_tool.py:87-99 | the history becomes the fresh or reloaded record for the chat title, the context becomes its items, and the state invariant holds |
| GeminiTool.Client.SaveHistory | gemini-chat-client/src/lib/gemini_tool.py:101-107 | the file for the chat title now holds the current history, and no other file changes |
| GeminiTool.Client.UpdateHistory | gemini-chat-client/src/lib/gemini_tool.py:109-146 | the limit is clamped; the index goes up by one; the turn is appended under the new index to both the history and the context; the file is saved; "exit" is returned exactly when the stored turns number limit + starting index; the invariant is kept |
| GeminiTool.Client.ChatTurn | gemini-chat-client/src/lib/gemini_tool.py:172-191 | one loop pass: the prompt stored is built from the window of the context as it was before the turn; the context gains exactly the new turn's pair at its end; the response file holds the processed reply; the pass stops exactly when `update_history` says "exit" |
| GeminiTool.Client.PlayRound | gemini-chat-client/src/lib/gemini_tool.py:171-191 | playing exchange i extends the session's turns by that exchange, numbered next, with the prompt built from the context before it; the context gains exactly that turn's pair and keeps the bookkeeping pairs it was loaded with |
| GeminiTool.Client.RunSession | gemini-chat-client/src/lib/gemini_tool.py:171-191 | the loop stops by the limit exactly when the budget (limit + starting index - loaded turns) is between 1 and the number of exchanges, after that many turns, otherwise when the input runs out; the j-th new turn has number start + j + 1, the processed reply, and the prompt built from the window of the starting context followed by the j turns before it; the final context is the starting one followed by the new turns; the file holds the final history, and with no turn the file, the limit and the response file are unchanged |
| GeminiTool.Client.StartChat | gemini-chat-client/src/lib/gemini_tool.py:148-191 | the same as `RunSession`, stated from the stored file: the session starts from `LoadRecord` of the chat title and keeps its title and index; the final context is `ContextOf` that record followed by the new turns, so each prompt is determined by the file, the window and the inputs; from a numbered history (a missing or empty file, or one this client wrote) it saves a numbered history and exits exactly when there are at least max(L, 1) exchanges, after that many turns |
| GeminiTool.ExtendPrompted | gemini-chat-client/src/lib/gemini_tool.py:172-179 | a turn whose prompt was built from the window of the context before it extends the session's prompts by one |
| GeminiTool.ExtendRound | gemini-chat-client/src/lib/gemini_tool.py:171-191 | one round played from a context that mirrors the history extends both the session's turns and its prompts |
| GeminiTool.MirroredContext | gemini-chat-client/src/lib/gemini_tool.py:132-137 | a context made by `list(history.items())` and then one append per stored turn is the loaded context followed by the new turns |
| GeminiTool.SessionNumbered | gemini-chat-client/src/lib/gemini_tool.py:125-131 | a session started from a numbered history (as many turns as the index, numbered 1, 2, ...) leaves a numbered history |
| History.LoadNumbered | gemini-chat-client/src/lib/gemini_tool.py:88-96 | a missing or empty file, or one holding a numbered history, loads as a numbered history |
| History.SavedNumbered | gemini-chat-client/src/lib/gemini_tool.py:88-107 | a numbered history saved under a title loads back numbered, so the property carries from one session to the next |
| CsvLog.Split | gemini-chat-client/src/lib/log.py:42 | `str.split(',')`: at least one piece, and no piece holds the separator |
| CsvLog.JoinSplit | gemini-chat-client/src/lib/log.py:42 | joining the pieces of a split gives the text back |
| CsvLog.SplitJoin | gemini-chat-client/src/lib/log.py:42 | splitting a join of separator-free pieces gives the pieces back |
| CsvLog.DefaultHeaderFields | gemini-chat-client/src/lib/log.py:24 | the default header splits into DATE, LEVEL, MESSAGE, ERROR, FILE, LINE |
| CsvLog.Sanitize | gemini-chat-client/src/lib/log.py:73 | `replace(',', '.')`: same length, every comma becomes a dot, every other character is kept, no comma remains |
| CsvLog.SanitizeKeepsCommaFree | gemini-chat-client/src/lib/log.py:99-100 | a message without commas is logged unchanged |
| CsvLog.InfoMessage | gemini-chat-client/src/lib/log.py:85-89 | the sanitised message when it is non-empty, otherwise "No message provided." |
| CsvLog.InfoMessageIsOneField | gemini-chat-client/src/lib/log.py:85-89 | the logged info message is never empty and holds no comma |
| CsvLog.LastFrom | gemini-chat-client/src/lib/log.py:65-67 | the position of the last frame from the given file, and none when no frame is from it |
| CsvLog.SelectFrame | gemini-chat-client/src/lib/log.py:63-67 | an IndexError exactly when there are no frames; otherwise the last frame from the logger's file if any, else the last frame |
| CsvLog.BaseName | gemini-chat-client/src/lib/log.py:68 | `Path(...).name`: the longest suffix without '/', preceded by '/' unless it is the whole path |
| CsvLog.ErrorDetails | gemini-chat-client/src/lib/log.py:49-77 | an AttributeError with no exception being handled and an IndexError with no frames; otherwise the error's name, its sanitised text, and the base name and line of the selected frame |
| CsvLog.WithCustom | gemini-chat-client/src/lib/log.py:99-100 | a non-empty custom message, sanitised, replaces the exception's text; nothing else changes |
| CsvLog.Decimal | gemini-chat-client/src/lib/log.py:101-106 | the line number is written as a non-empty string of decimal digits |
| CsvLog.DecimalValue | gemini-chat-client/src/lib/log.py:101-106 | those digits read back as the line number |
| CsvLog.ErrorRecord | gemini-chat-client/src/lib/log.py:98-107 | fails exactly when the details fail; otherwise it is the four fields error, message, file and line joined by commas |
| CsvLog.ErrorTextStarts | gemini-chat-client/src/lib/log.py:101-106 | the record opens with the error's name, a comma and the message |
| CsvLog.ErrorRecordShows | gemini-chat-client/src/tests/log_test.py:49-51 | with an exception being handled and a comma-free custom message, the record names the exception type and then carries the custom message |
| CsvLog.ErrorMessageIsOneField | gemini-chat-client/src/lib/log.py:73 | the message column of an error record never holds a comma |
| CsvLog.ErrorLineColumns | gemini-chat-client/src/lib/log.py:38 | an error line splits into stamp, level, error name, message, file and line, six values like the header's six columns, given a comma-free stamp, level, error name and file name |
| CsvLog.ErrorColumnsSwapped | gemini-chat-client/src/lib/log.py:101-106 | the error's name lands in the column the header calls MESSAGE and the message in the one it calls ERROR |
| CsvLog.Line | gemini-chat-client/src/lib/log.py:38 | the `%(asctime)s,%(levelname)s,%(message)s` line: the stamp, a comma, the level, a comma, then the message unchanged |
| CsvLog.Log.constructor | gemini-chat-client/src/lib/log.py:22-47 | the file is `log/<name>`; the fields are the header split at commas; the header line is written exactly when the file is missing or empty, and a file with content is kept |
| CsvLog.Log.Default | gemini-chat-client/src/lib/log.py:22-47 | `Log()` with the defaults: file `log/log.csv`, fields DATE, LEVEL, MESSAGE, ERROR, FILE, LINE, the default header written when the file is missing or empty |
| CsvLog.Log.Info | gemini-chat-client/src/lib/log.py:79-90 | appends one INFO line carrying the info message |
| CsvLog.Log.Report | gemini-chat-client/src/lib/log.py:98-107 | appends one line with the level and the error record, or raises the details' error and writes nothing |
| CsvLog.Log.Error | gemini-chat-client/src/lib/log.py:92-108 | `Report` at level ERROR |
| CsvLog.Log.Critical | gemini-chat-client/src/lib/log.py:110-126 | `Report` at level CRITICAL |

## Left out

- The remote model and the `genai.Client` base class are not modelled. The reply to each prompt is an input (`Exchange.reply`), and `respond` is reduced to `ProcessResponse` of that reply.
- The console is not modelled. `input()` and `print` become the `exchanges` sequence, and running out of input stands for `input()` raising. `exit()` becomes the `SessionExit` outcome.
- JSON text, file paths, `mkdir` and encodings are not modelled. A history file is either empty or holds a record, keyed by chat title in the `disk` map. The response file is the `responseFile` field.
- Malformed history files are not modelled: bad JSON, a missing `title` or `history_index`, a non-integer index, or bookkeeping keys stored after the turns.
- The Python `repr` of the context slice inside the prompt is left abstract, as the `render` parameter of `ChatTurn`, `RunSession` and `StartChat`.
- `Lower`: lowers ASCII letters only; Unicode case mapping is not modelled.
- `BaseName`: does not strip trailing or repeated separators the way `pathlib` does.
- `ProcessResponse`: a truthy response whose `.text` is not a string is not modelled.
- The `logging` machinery is not modelled: `basicConfig`, handlers, `asctime` formatting. The timestamp is a parameter, and the file's content is a string that each call appends one line to.
- The entry script `src/gemini.py` is not part of this model. It logs a start line, runs the chat, and logs a normal exit or a critical error.
