# capsql in Dafny

A verified model of `CapSQL`, the capture session of the `capsql` package. A
session is attached to a SQLAlchemy engine. Inside a `with capsql:` block it
listens to two engine events:

- "before_execute" records each statement object in `elements`;
- "before_cursor_execute" records each driver-level SQL string in `statements`.

The SQL string may first be reindented by sqlparse and may be followed by a
`-- params:` comment. The session can also echo each statement to stderr or log
it, optionally colorized by pygments. The `text` property joins `statements`
with blank lines, and `clear()` empties both lists.

Files:

- `text.dfy`, module `Text`: the Python string operations the session uses. These are `str.join`, `str.splitlines(True)`, `str.isspace`, `str.strip` (with `lstrip` and `rstrip`) and `textwrap.indent`.
- `capsql.dfy`, module `Capsql`:
  - the settings and their defaults;
  - the pure pipeline from a raw statement to its entry and to what is written;
  - the value-level effect of each event on a session's capture;
  - class `Engine`, which holds one listener list per event;
  - class `CapSQL`, with its two lists, its handlers, `clear`, `__enter__` and `__exit__`.
- `scenarios.dfy`, module `Scenarios`: client methods that replay what the test suite checks (the defaults, capture across two scopes, `show_params`). Two more replay behaviours the source documents but no test checks: follow-up capture and `clear()` inside a block. They are proved from the contracts of `Engine` and `CapSQL` together with the lemmas `HandledRunAppends` and `QuietRun` about a run of statements.

Assumptions of the model:

- The engine is reduced to two ordered listener lists.
- `Engine.Execute` stands for one `Connection.execute`. It fires "before_execute" once for the statement object. It then fires "before_cursor_execute" once for each driver-level statement of its run: one for a plain execution, one per batch of an executemany. It calls exactly the handlers registered at that moment.
- A follow-up query that SQLAlchemy issues on its own, such as a `selectinload`, is modelled as an execution of its own, with its own statement object.
- sqlparse's formatter and pygments' highlighter are arbitrary functions, passed in as the two fields of `Libraries`.
- The `repr` of the bound parameters is given as a string.
- What is printed to stderr and passed to `logger.info` is recorded in the ghost trace `CapSQL.output`.

## Model

| member | source | states |
|---|---|---|
| `Capsql.CapSQL.constructor` | capsql/__init__.py:62-91 | a new session keeps its engine, its settings and the `elements` and `statements` it is given (the callers here pass `[]`, the default). It starts with nothing written and no handler registered |
| `Capsql.CapSQL.Text` | capsql/__init__.py:93-95 | the transcript is `""` with no statements and the statement itself with one; otherwise it starts with the first statement |
| `Text.Join` | capsql/__init__.py:95 | joining no statements gives `""`, and joining one gives that statement. With more, the text starts with the first statement and the separator |
| `Text.JoinConcat` | capsql/__init__.py:95 | joining two non-empty runs of statements puts exactly one separator between their two transcripts |
| `Text.JoinAppend` | capsql/__init__.py:95 | appending a statement to a non-empty list extends the transcript by the blank-line separator and that statement |
| `Text.JoinPrefix` | capsql/__init__.py:95 | the transcript of earlier captures is a prefix of the transcript after any later captures |
| `Text.JoinLength` | capsql/__init__.py:95 | the transcript's length is the total length of the statements plus one separator per neighbouring pair |
| `Capsql.CapSQL.Clear` | capsql/__init__.py:97-99 | both lists become empty and `text` becomes `""`; settings, output and handler registration are outside its frame and so unchanged |
| `Capsql.CapSQL.HandleBeforeExecute` | capsql/__init__.py:101-109 | appends exactly the given statement object to `elements`; nothing else changes |
| `Capsql.CapSQL.HandleBeforeCursorExecute` | capsql/__init__.py:140-161 | `statements` grows by exactly one entry and keeps its earlier entries, whatever `echo`, `log` and `color` are. The entry is the raw text when neither `pretty` nor `show_params` is set, and `Format(raw)` with `pretty` alone. With `show_params` it is the pre-formatted text, then `"\n-- params: "`, then the parameters. Output is written exactly when `echo` or `log` is set. `text` grows by the separator and the entry |
| `Capsql.DefaultSettings` | capsql/__init__.py:68-86 | the defaults of `Settings` (the keyword settings): `color` on; `echo`, `log` and `show_params` off; `pretty` on. So a statement is recorded pretty-printed and without parameters, and nothing is written |
| `Capsql.Entry` | capsql/__init__.py:149-156 | the recorded entry is the raw statement when neither `pretty` nor `show_params` is set, and `format(statement)` with `pretty` alone. With `show_params` it is the possibly formatted statement, followed by `"\n-- params: "` and the parameters |
| `Capsql.Message` | capsql/__init__.py:161 | the message handed to `_output` is the colorized entry when `color` is set and the entry itself otherwise |
| `Capsql.Emitted` | capsql/__init__.py:125-138 | `_output` writes one stderr line per `echo` and one log record per `log`. The stderr text is the message and a newline, and it comes first. The log record, last, is the log message |
| `Capsql.CapSQL.Emit` | capsql/__init__.py:121-138 | with `echo`, the message and a newline go to stderr; with `log`, the log message goes to the logger, stderr first |
| `Capsql.Outputs` | capsql/__init__.py:160-161 | one entry writes nothing exactly when neither `echo` nor `log` is set, and one write per flag that is set. With `echo`, the first write is the message (colorized exactly when `color` is set) and a newline, to stderr. With `log`, the last write is the log message of that same message |
| `Capsql.LogMessage` | capsql/__init__.py:128-138 | with `pretty`, the logged text is a newline and then the message. Its lines are the message's lines, each non-blank one preceded by four spaces. A single non-blank line becomes `"\n    " + message`, and whitespace-only text stays as it is. Without `pretty` the message is logged unchanged |
| `Text.IsSpace` | capsql/__init__.py:135 | Python's whitespace test; every line-break character counts as whitespace |
| `Text.LStrip` | capsql/__init__.py:135 | `lstrip()` drops a leading run made only of whitespace and leaves a text that is empty or starts with a non-whitespace character |
| `Text.RStrip` | capsql/__init__.py:135 | `rstrip()` drops a trailing run made only of whitespace and leaves a text that is empty or ends with a non-whitespace character |
| `Text.StripEmpty` | capsql/__init__.py:135 | `line.strip()`, textwrap's default predicate, is empty exactly when the line is all whitespace. So a line is left unprefixed exactly in that case |
| `Text.Lines` | capsql/__init__.py:135 | `splitlines(True)` gives no lines for empty text and at least one for any other, and never more lines than characters |
| `Text.LineEnd` | capsql/__init__.py:135 | the first line of a text ends just after its first line-break character, or at the end of the text when there is none |
| `Text.ConcatIsJoin` | capsql/__init__.py:135 | joining lines back together, as textwrap does with `''.join`, is `Join` with the empty separator |
| `Text.LinesConcat` | capsql/__init__.py:135 | splitting a text into lines loses nothing, and every line but the last ends with its line break |
| `Text.ConcatLines` | capsql/__init__.py:135 | re-splitting a well-formed list of lines after joining it gives back the same list |
| `Text.Indent` | capsql/__init__.py:135 | for a prefix without line breaks, the lines of the indented text are the original lines, with the prefix added to each non-blank one and each blank one unchanged |
| `Text.IndentSingleLine` | capsql/__init__.py:135 | one non-blank line without a line break gets the prefix in front of it |
| `Text.IndentAllBlank` | capsql/__init__.py:135 | text made only of whitespace is left as it is |
| `Capsql.Entries` | capsql/__init__.py:149-157 | a run of driver-level statements produces one entry per statement, in execution order |
| `Capsql.HandledRunAppends` | capsql/__init__.py:149-161 | handling a run one statement at a time appends the run's entries to `statements` and their writes to the output, and leaves `elements` alone |
| `Capsql.QuietRun` | capsql/__init__.py:160-161 | when neither `echo` nor `log` is set, a whole run writes nothing |
| `Capsql.Without` | capsql/__init__.py:183-192 | removing a listener takes it out of the list, keeps every other listener, and keeps the list free of duplicates |
| `Capsql.Engine.Listen` | capsql/__init__.py:165-174 | registering a handler appends it to that event's listener list and leaves the other event's list unchanged |
| `Capsql.Engine.Remove` | capsql/__init__.py:183-192 | removing a registered handler takes it out of that event's list and leaves the other event's list unchanged |
| `Capsql.CapSQL.Enter` | capsql/__init__.py:163-175 | registers both handlers, after any already registered, and returns the session itself |
| `Capsql.CapSQL.Exit` | capsql/__init__.py:177-192 | removes both handlers; afterwards neither is registered |
| `Capsql.Engine.Dispatch` | capsql/__init__.py:101-109 | every session registered for "before_execute" appends the statement object; its statements and output are unchanged |
| `Capsql.Engine.CursorExecute` | capsql/__init__.py:140-161 | every session registered for "before_cursor_execute" handles the statement under its own settings |
| `Capsql.Engine.CursorRun` | capsql/__init__.py:140-161 | every driver-level statement of one execution (one per executemany batch) reaches the handler of each registered session, in order. That one execution fires the event this way is the engine assumption stated above |
| `Capsql.Engine.Execute` | capsql/__init__.py:50-59 | a session takes part in an execution exactly through the events it is registered for. An unregistered session is left unchanged |
| `Scenarios.WithBlock` | tests/test__init__.py:55-57 | one `with` block around one execution appends the statement object and the run's entries, and leaves no handler registered |
| `Scenarios.CaptureAcrossScopes` | tests/test__init__.py:52-88 | a query run between two `with` blocks is not captured. The second block appends after the first without `clear()`, and `text` is the two entries joined by a blank line |
| `Scenarios.CaptureWithParams` | tests/test__init__.py:90-109 | with `show_params`, the captured entry is the formatted statement followed by `"\n-- params: "` and the parameters, and `text` is that entry |
| `Scenarios.CaptureFollowUp` | capsql/__init__.py:39-46 | a query and the follow-up load it triggers, both run inside one block, are both captured. Their two statement objects and two statements are recorded, the explicit query first |
| `Scenarios.ClearWhileActive` | capsql/__init__.py:97-99 | `clear()` inside a block keeps the handlers registered, so only what runs afterwards is captured |
| `Scenarios.DefaultsAreQuiet` | tests/test__init__.py:39-46 | the test asserts only the default values. Derived from them: with the defaults, statements are captured pretty-printed and nothing is printed or logged |

## Left out

- sqlparse's reindentation and pygments' colorizing are not specified. Each is an arbitrary function in `Libraries`, so the multi-line layout the tests show is not derived.
- Exceptions raised by the formatter or the highlighter are not modelled. In the source they propagate out of the handler into the engine's execution.
- Python's `repr` of the bound parameters is not modelled. It arrives as a string in `Driver.parameters`.
- SQLAlchemy's event bus, the async engine and its `sync_engine` are reduced to the two listener lists of `Engine`. That `Execute` calls exactly the registered handlers is an assumption about SQLAlchemy.
- How SQLAlchemy's loaders route follow-up queries is not modelled. That each follow-up is an execution of its own, firing "before_execute" again, is an assumption about SQLAlchemy. `capsql` itself only promises that follow-up queries reach `statements`.
- List aliasing is not modelled. In the source, `elements` and `statements` are shared Python lists. The handlers append to them in place, while `clear()` replaces both with new lists. So a list read from the session before a `with` block keeps receiving captures, and a list read before `clear()` does not. In the model each field is a sequence value, and reading it takes a snapshot.
- Capsql.CapSQL.constructor: the initial `elements` and `statements` are copied into the session as sequence values. A list passed in by the caller is therefore not shared with the session, unlike in the source.
- Capsql.CapSQL.Enter: requires that no handler of the session is registered. Entering a session twice is unguarded in the source, and that case is not modelled.
- Capsql.CapSQL.Exit: requires both handlers to be registered, as they are after `__enter__`. SQLAlchemy raises when asked to remove a handler that is not registered. The exception arguments of `__exit__` play no part and are dropped.
- The settings are constant after construction. The dataclass would let a caller reassign them, but the class itself never does.
- The `logger` setting is not modelled. Writes to stderr and `logger.info` calls go into the session's ghost trace `output`. Logger levels, handlers and formatting are not modelled.
- `Text.Lines` splits a `"\r\n"` pair into two lines, where `str.splitlines` keeps one. The indented text is the same either way, because a line holding only `"\n"` is blank and is never prefixed.
- Concurrency is not modelled. The source assumes one thread per engine and session.
