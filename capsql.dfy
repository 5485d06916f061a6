/**
 * `CapSQL`, a capture session fed by the two statement-execution events of a
 * database engine, and the part of that engine the session relies on: one
 * listener list per event.
 *
 * The foreign pieces are values handed in: sqlparse's reindenting formatter and
 * pygments' terminal highlighter are the two functions of `Libraries`, and the
 * `repr` of the bound parameters arrives as a string. What the session writes to
 * stderr and to its logger is kept in the ghost trace `output`.
 */
module Capsql {
  import opened Text

  /** The keyword settings of `CapSQL`. */
  datatype Settings = Settings(color: bool, echo: bool, log: bool, showParams: bool, pretty: bool)

  /** `CapSQL(engine)` with every keyword left at its default. */
  const Defaults := Settings(color := true, echo := false, log := false, showParams := false, pretty := true)

  /** `sqlparse.format(_, reindent=True, reindent_aligned=False)` and `pygments.highlight(_, SqlLexer(), TerminalFormatter())`. */
  datatype Libraries = Libraries(format: string -> string, colorize: string -> string)

  /** One write by `_output`: a `print` to stderr (which adds a newline) or an INFO record. */
  datatype Output = Stderr(text: string) | Info(text: string)

  /** One driver-level execution: the compiled SQL text and the `repr` of its parameters. */
  datatype Driver = Driver(statement: string, parameters: string)

  /** The two engine events the session listens to. */
  datatype Hook = BeforeExecute | BeforeCursorExecute

  const ParamsMarker := "\n-- params: "
  const Separator := "\n\n"
  const LogIndent := "    "

  // ---------------------------------------------------------------------------
  // What one driver-level statement turns into

  /** The string `_handle_before_cursor_execute` appends to `statements`. */
  function Entry(settings: Settings, libs: Libraries, statement: string, parameters: string): (r: string)
    ensures !settings.pretty && !settings.showParams ==> r == statement
    ensures settings.pretty && !settings.showParams ==> r == libs.format(statement)
    ensures settings.showParams ==>
      var formatted := if settings.pretty then libs.format(statement) else statement;
      |r| == |formatted| + |ParamsMarker| + |parameters|
      && r[..|formatted|] == formatted && r[|formatted|..] == ParamsMarker + parameters
  {
    var formatted := if settings.pretty then libs.format(statement) else statement;
    if settings.showParams then formatted + ParamsMarker + parameters else formatted
  }

  /** The message handed to `_output` for an entry. */
  function Message(settings: Settings, libs: Libraries, entry: string): (r: string)
    ensures settings.color ==> r == libs.colorize(entry)
    ensures !settings.color ==> r == entry
  {
    if settings.color then libs.colorize(entry) else entry
  }

  /**
   * The text `_output` passes to `logger.info`: with `pretty`, a leading newline
   * and then the message with every non-blank line indented by four spaces.
   */
  function LogMessage(pretty: bool, message: string): (r: string)
    ensures pretty ==> r != [] && r[0] == '\n'
    ensures pretty ==> Lines(r[1..]) == PrefixNonBlank(Lines(message), LogIndent)
    ensures pretty ==> Concat(Lines(r[1..])) == r[1..]
    ensures pretty && NoLineBreak(message) && NonBlank(message) ==> r == "\n" + LogIndent + message
    ensures pretty && AllSpace(message) ==> r == "\n" + message
    ensures !pretty ==> r == message
  {
    if pretty then
      IndentedLog(message);
      "\n" + Indent(message, LogIndent)
    else
      message
  }

  lemma IndentedLogLines(message: string)
    ensures Lines(Indent(message, LogIndent)) == PrefixNonBlank(Lines(message), LogIndent)
    ensures Concat(Lines(Indent(message, LogIndent))) == Indent(message, LogIndent)
  {
    assert NoLineBreak(LogIndent);
    LinesConcat(Indent(message, LogIndent));
  }

  /** What indenting a message by `LogIndent` gives, line by line and in the two simple cases. */
  lemma IndentedLog(message: string)
    ensures Lines(Indent(message, LogIndent)) == PrefixNonBlank(Lines(message), LogIndent)
    ensures Concat(Lines(Indent(message, LogIndent))) == Indent(message, LogIndent)
    ensures NoLineBreak(message) && NonBlank(message) ==> Indent(message, LogIndent) == LogIndent + message
    ensures AllSpace(message) ==> Indent(message, LogIndent) == message
  {
    IndentedLogLines(message);
    if NoLineBreak(message) && NonBlank(message) {
      IndentSingleLine(message, LogIndent);
    } else if AllSpace(message) {
      IndentAllBlank(message, LogIndent);
    }
  }

  /** What `_output(message)` writes, in order: stderr first, then the log. */
  function Emitted(settings: Settings, message: string): (r: seq<Output>)
    ensures |r| == (if settings.echo then 1 else 0) + (if settings.log then 1 else 0)
    ensures settings.echo ==> r[0] == Stderr(message + "\n")
    ensures settings.log ==> r[|r| - 1] == Info(LogMessage(settings.pretty, message))
  {
    (if settings.echo then [Stderr(message + "\n")] else [])
    + (if settings.log then [Info(LogMessage(settings.pretty, message))] else [])
  }

  /** What handling one entry writes: nothing unless `echo` or `log` is set. */
  function Outputs(settings: Settings, libs: Libraries, entry: string): (r: seq<Output>)
    ensures r == [] <==> !settings.echo && !settings.log
    ensures |r| == (if settings.echo then 1 else 0) + (if settings.log then 1 else 0)
    ensures settings.echo ==> r[0] == Stderr(Message(settings, libs, entry) + "\n")
    ensures settings.log ==> r[|r| - 1] == Info(LogMessage(settings.pretty, Message(settings, libs, entry)))
  {
    if settings.echo || settings.log then Emitted(settings, Message(settings, libs, entry)) else []
  }

  /**
   * The keyword defaults: `color` and `pretty` on, `echo`, `log` and `show_params`
   * off. So with the defaults a statement is recorded pretty-printed and without
   * its parameters, and nothing is written.
   */
  lemma DefaultSettings(libs: Libraries, statement: string, parameters: string)
    ensures Defaults.color && Defaults.pretty
    ensures !Defaults.echo && !Defaults.log && !Defaults.showParams
    ensures Entry(Defaults, libs, statement, parameters) == libs.format(statement)
    ensures Outputs(Defaults, libs, Entry(Defaults, libs, statement, parameters)) == []
  {
  }

  /** The entries a run of driver-level statements appends, in execution order. */
  function Entries(settings: Settings, libs: Libraries, run: seq<Driver>): (r: seq<string>)
    ensures |r| == |run|
    ensures forall i :: 0 <= i < |run| ==> r[i] == Entry(settings, libs, run[i].statement, run[i].parameters)
  {
    if run == [] then []
    else
      var init, last := run[..|run| - 1], run[|run| - 1];
      assert forall i :: 0 <= i < |init| ==> init[i] == run[i];
      Entries(settings, libs, init) + [Entry(settings, libs, last.statement, last.parameters)]
  }

  /** Everything a run of driver-level statements writes, in execution order. */
  function RunOutputs(settings: Settings, libs: Libraries, run: seq<Driver>): seq<Output>
  {
    if run == [] then []
    else
      var last := run[|run| - 1];
      RunOutputs(settings, libs, run[..|run| - 1]) + Outputs(settings, libs, Entry(settings, libs, last.statement, last.parameters))
  }

  /** A run writes nothing at all when neither `echo` nor `log` is set. */
  lemma {:induction false} QuietRun(settings: Settings, libs: Libraries, run: seq<Driver>)
    requires !settings.echo && !settings.log
    ensures RunOutputs(settings, libs, run) == []
  {
    if run != [] {
      QuietRun(settings, libs, run[..|run| - 1]);
    }
  }

  // ---------------------------------------------------------------------------
  // What the events do to a session's capture

  /** The captured state of a session: its two lists and what it has written. */
  datatype Capture<E> = Capture(elements: seq<E>, statements: seq<string>, output: seq<Output>)

  /** The capture after "before_execute" fired with `element`. */
  function Dispatched<E>(c: Capture<E>, element: E): Capture<E>
  {
    c.(elements := c.elements + [element])
  }

  /** The capture after "before_cursor_execute" fired once for `d`. */
  function Handled<E>(c: Capture<E>, settings: Settings, libs: Libraries, d: Driver): Capture<E>
  {
    var entry := Entry(settings, libs, d.statement, d.parameters);
    c.(statements := c.statements + [entry], output := c.output + Outputs(settings, libs, entry))
  }

  /** The capture after "before_cursor_execute" fired for each statement of a run, one after the other. */
  function HandledRun<E>(c: Capture<E>, settings: Settings, libs: Libraries, run: seq<Driver>): Capture<E>
  {
    if run == [] then c
    else Handled(HandledRun(c, settings, libs, run[..|run| - 1]), settings, libs, run[|run| - 1])
  }

  /**
   * The capture after the engine executed one logical statement, for a session
   * subscribed to "before_execute" (`onDispatch`) and to "before_cursor_execute"
   * (`onCursor`) or not.
   */
  function Executed<E>(c: Capture<E>, onDispatch: bool, onCursor: bool, settings: Settings, libs: Libraries,
                       element: E, run: seq<Driver>): Capture<E>
  {
    var d := if onDispatch then Dispatched(c, element) else c;
    if onCursor then HandledRun(d, settings, libs, run) else d
  }

  /**
   * Handling a run statement by statement appends the run's entries to
   * `statements` and everything they write to the output, and leaves `elements` alone.
   */
  lemma {:induction false} HandledRunAppends<E>(c: Capture<E>, settings: Settings, libs: Libraries, run: seq<Driver>)
    ensures HandledRun(c, settings, libs, run).elements == c.elements
    ensures HandledRun(c, settings, libs, run).statements == c.statements + Entries(settings, libs, run)
    ensures HandledRun(c, settings, libs, run).output == c.output + RunOutputs(settings, libs, run)
  {
    if run != [] {
      HandledRunAppends(c, settings, libs, run[..|run| - 1]);
    }
  }

  // ---------------------------------------------------------------------------
  // Listener lists

  predicate Distinct<T(==)>(xs: seq<T>) {
    forall i, j :: 0 <= i < j < |xs| ==> xs[i] != xs[j]
  }

  /** `xs` with `x` taken out. */
  function Without<T(==)>(xs: seq<T>, x: T): (r: seq<T>)
    ensures x !in r
    ensures forall i :: 0 <= i < |r| ==> r[i] in xs
    ensures forall i :: 0 <= i < |xs| && xs[i] != x ==> xs[i] in r
    ensures |r| <= |xs|
    ensures x in xs ==> |r| < |xs|
    ensures Distinct(xs) ==> Distinct(r)
  {
    if xs == [] then []
    else if xs[0] == x then Without(xs[1..], x)
    else [xs[0]] + Without(xs[1..], x)
  }

  /**
   * The engine, reduced to what the session observes: for each event, the
   * sessions whose handler is registered, in registration order. A listener is
   * registered at most once per event.
   */
  class Engine<E> {
    var beforeExecute: seq<CapSQL<E>>
    var beforeCursorExecute: seq<CapSQL<E>>

    ghost predicate Valid()
      reads this
    {
      Distinct(beforeExecute) && Distinct(beforeCursorExecute)
    }

    function Listeners(hook: Hook): seq<CapSQL<E>>
      reads this
    {
      match hook
      case BeforeExecute => beforeExecute
      case BeforeCursorExecute => beforeCursorExecute
    }

    ghost function Sessions(): set<CapSQL<E>>
      reads this
    {
      (set s | s in beforeExecute) + (set s | s in beforeCursorExecute)
    }

    constructor ()
      ensures Valid()
      ensures beforeExecute == [] && beforeCursorExecute == []
    {
      beforeExecute := [];
      beforeCursorExecute := [];
    }

    /** `sqlalchemy.event.listen(engine, hook, handler)`. */
    method Listen(hook: Hook, s: CapSQL<E>)
      requires Valid()
      requires s !in Listeners(hook)
      modifies this
      ensures Valid()
      ensures Listeners(hook) == old(Listeners(hook)) + [s]
      ensures forall h :: h != hook ==> Listeners(h) == old(Listeners(h))
    {
      match hook
      case BeforeExecute => beforeExecute := beforeExecute + [s];
      case BeforeCursorExecute => beforeCursorExecute := beforeCursorExecute + [s];
    }

    /** `sqlalchemy.event.remove(engine, hook, handler)`; removing an unregistered handler raises. */
    method Remove(hook: Hook, s: CapSQL<E>)
      requires Valid()
      requires s in Listeners(hook)
      modifies this
      ensures Valid()
      ensures Listeners(hook) == Without(old(Listeners(hook)), s)
      ensures s !in Listeners(hook)
      ensures forall h :: h != hook ==> Listeners(h) == old(Listeners(h))
    {
      match hook
      case BeforeExecute => beforeExecute := Without(beforeExecute, s);
      case BeforeCursorExecute => beforeCursorExecute := Without(beforeCursorExecute, s);
    }

    /** Fires "before_execute": every registered session records the statement object. */
    method Dispatch(element: E)
      requires Valid()
      modifies set s | s in beforeExecute
      ensures forall s | s in beforeExecute :: s.Captured() == Dispatched(old(s.Captured()), element)
    {
      var i := 0;
      while i < |beforeExecute|
        invariant 0 <= i <= |beforeExecute|
        invariant forall j :: 0 <= j < i ==>
          beforeExecute[j].Captured() == Dispatched(old(beforeExecute[j].Captured()), element)
        invariant forall j :: i <= j < |beforeExecute| ==>
          beforeExecute[j].Captured() == old(beforeExecute[j].Captured())
      {
        beforeExecute[i].HandleBeforeExecute(element);
        i := i + 1;
      }
    }

    /** Fires "before_cursor_execute": every registered session records the driver-level statement. */
    method CursorExecute(d: Driver)
      requires Valid()
      modifies set s | s in beforeCursorExecute
      ensures forall s | s in beforeCursorExecute :: s.Captured() == Handled(old(s.Captured()), s.settings, s.libs, d)
    {
      var i := 0;
      while i < |beforeCursorExecute|
        invariant 0 <= i <= |beforeCursorExecute|
        invariant forall j :: 0 <= j < i ==>
          var s := beforeCursorExecute[j];
          s.Captured() == Handled(old(s.Captured()), s.settings, s.libs, d)
        invariant forall j :: i <= j < |beforeCursorExecute| ==>
          beforeCursorExecute[j].Captured() == old(beforeCursorExecute[j].Captured())
      {
        beforeCursorExecute[i].HandleBeforeCursorExecute(d.statement, d.parameters);
        i := i + 1;
      }
    }

    /** Fires "before_cursor_execute" once per driver-level statement of a run, in order. */
    method CursorRun(run: seq<Driver>)
      requires Valid()
      modifies set s | s in beforeCursorExecute
      ensures forall s | s in beforeCursorExecute ::
        s.Captured() == HandledRun(old(s.Captured()), s.settings, s.libs, run)
    {
      var k := 0;
      while k < |run|
        invariant 0 <= k <= |run|
        invariant forall s | s in beforeCursorExecute ::
          s.Captured() == HandledRun(old(s.Captured()), s.settings, s.libs, run[..k])
      {
        CursorExecute(run[k]);
        assert run[..k + 1][..k] == run[..k];
        k := k + 1;
      }
      assert run[..|run|] == run;
    }

    /**
     * `Connection.execute` of one statement object: "before_execute" fires once,
     * then "before_cursor_execute" once per driver-level statement of `run` (one
     * for a plain execution, one per batch of an executemany). Sessions not
     * registered for an event are not touched by it.
     */
    method Execute(element: E, run: seq<Driver>)
      requires Valid()
      modifies Sessions()
      ensures forall s | s in Sessions() ::
        s.Captured() == Executed(old(s.Captured()), s in beforeExecute, s in beforeCursorExecute,
                                 s.settings, s.libs, element, run)
    {
      Dispatch(element);
      CursorRun(run);
    }
  }

  // ---------------------------------------------------------------------------
  // The capture session

  class CapSQL<E> {
    const engine: Engine<E>
    const settings: Settings
    const libs: Libraries

    /** The statement objects seen by "before_execute", in order. */
    var elements: seq<E>
    /** The rendered SQL strings seen by "before_cursor_execute", in order. */
    var statements: seq<string>
    /** What has been written to stderr and to the logger. */
    ghost var output: seq<Output>

    /** The captured state, as one value. */
    ghost function Captured(): Capture<E>
      reads this
    {
      Capture(elements, statements, output)
    }

    /** Some handler of this session is registered on the engine. */
    ghost predicate Listening()
      reads this, engine
    {
      this in engine.beforeExecute || this in engine.beforeCursorExecute
    }

    /** Both handlers are registered: inside a `with` block. */
    ghost predicate Active()
      reads this, engine
    {
      this in engine.beforeExecute && this in engine.beforeCursorExecute
    }

    /** `CapSQL(engine, ..., elements=..., statements=...)`; both lists default to `[]`. */
    constructor (engine: Engine<E>, settings: Settings, libs: Libraries, elements: seq<E>, statements: seq<string>)
      ensures this.engine == engine && this.settings == settings && this.libs == libs
      ensures this.elements == elements && this.statements == statements && output == []
      ensures !Listening()
    {
      this.engine := engine;
      this.settings := settings;
      this.libs := libs;
      this.elements := elements;
      this.statements := statements;
      output := [];
    }

    /** The `text` property: the captured statements separated by blank lines. */
    function Text(): (r: string)
      reads this
      ensures statements == [] ==> r == ""
      ensures |statements| == 1 ==> r == statements[0]
      ensures statements != [] ==> statements[0] <= r
    {
      if statements != [] then
        JoinPrefix([statements[0]], statements[1..], Separator);
        assert [statements[0]] + statements[1..] == statements;
        Join(statements, Separator)
      else
        Join(statements, Separator)
    }

    method Clear()
      modifies this`elements, this`statements
      ensures elements == [] && statements == []
      ensures Text() == ""
    {
      elements := [];
      statements := [];
    }

    /** The "before_execute" handler. */
    method HandleBeforeExecute(element: E)
      modifies this`elements
      ensures elements == old(elements) + [element]
      ensures Captured() == Dispatched(old(Captured()), element)
    {
      elements := elements + [element];
    }

    /** `_output`: print to stderr when `echo`, log at INFO when `log`. */
    method Emit(message: string)
      modifies this`output
      ensures output == old(output) + Emitted(settings, message)
    {
      if settings.echo {
        output := output + [Stderr(message + "\n")];
      }
      if settings.log {
        output := output + [Info(LogMessage(settings.pretty, message))];
      }
    }

    /** The "before_cursor_execute" handler. */
    method HandleBeforeCursorExecute(statement: string, parameters: string)
      modifies this`statements, this`output
      ensures |statements| == |old(statements)| + 1
      ensures statements[..|old(statements)|] == old(statements)
      ensures statements[|old(statements)|] == Entry(settings, libs, statement, parameters)
      ensures !settings.pretty && !settings.showParams ==> statements[|old(statements)|] == statement
      ensures settings.pretty && !settings.showParams ==> statements[|old(statements)|] == libs.format(statement)
      ensures settings.showParams ==>
        var formatted := if settings.pretty then libs.format(statement) else statement;
        statements[|old(statements)|] == formatted + ParamsMarker + parameters
      ensures output == old(output) + Outputs(settings, libs, statements[|old(statements)|])
      ensures Captured() == Handled(old(Captured()), settings, libs, Driver(statement, parameters))
      ensures output != old(output) <==> settings.echo || settings.log
      ensures Text() == if old(statements) == [] then statements[0]
                        else old(Text()) + Separator + statements[|old(statements)|]
    {
      var entry := statement;
      if settings.pretty {
        entry := libs.format(entry);
      }
      if settings.showParams {
        entry := entry + ParamsMarker + parameters;
      }
      if statements != [] {
        JoinAppend(statements, entry, Separator);
      }
      statements := statements + [entry];
      if settings.echo || settings.log {
        Emit(if settings.color then libs.colorize(entry) else entry);
      }
    }

    /** `__enter__`: registers both handlers and returns the session itself. */
    method Enter() returns (r: CapSQL<E>)
      requires engine.Valid()
      requires !Listening()
      modifies engine
      ensures r == this
      ensures engine.Valid() && Active()
      ensures engine.beforeExecute == old(engine.beforeExecute) + [this]
      ensures engine.beforeCursorExecute == old(engine.beforeCursorExecute) + [this]
    {
      engine.Listen(BeforeExecute, this);
      engine.Listen(BeforeCursorExecute, this);
      r := this;
    }

    /** `__exit__`: removes both handlers, whether or not the block raised. */
    method Exit()
      requires engine.Valid()
      requires Active()
      modifies engine
      ensures engine.Valid() && !Listening()
      ensures engine.beforeExecute == Without(old(engine.beforeExecute), this)
      ensures engine.beforeCursorExecute == Without(old(engine.beforeCursorExecute), this)
    {
      engine.Remove(BeforeExecute, this);
      engine.Remove(BeforeCursorExecute, this);
    }
  }
}
