/**
 * Client-side proofs: what tests/test__init__.py checks (the defaults, capture
 * across two scopes, `show_params`), plus two behaviours the session's own
 * documentation describes (follow-up capture, `clear()` inside a block), derived from
 * the contracts of `Capsql.Engine` and `Capsql.CapSQL` and the lemmas
 * `HandledRunAppends` and `QuietRun` about a run of statements.
 */
module Scenarios {
  import opened Text
  import opened Capsql

  /** One execution while `capsql` is the only session listening, to both events. */
  method ExecuteAlone<E>(capsql: CapSQL<E>, element: E, run: seq<Driver>)
    requires capsql.engine.beforeExecute == [capsql] && capsql.engine.beforeCursorExecute == [capsql]
    modifies capsql
    ensures capsql.elements == old(capsql.elements) + [element]
    ensures capsql.statements == old(capsql.statements) + Entries(capsql.settings, capsql.libs, run)
    ensures capsql.output == old(capsql.output) + RunOutputs(capsql.settings, capsql.libs, run)
  {
    var engine := capsql.engine;
    assert engine.Sessions() == {capsql};
    engine.Execute(element, run);
    HandledRunAppends(Dispatched(old(capsql.Captured()), element), capsql.settings, capsql.libs, run);
  }

  /**
   * One `with capsql:` block around one executed statement, on an engine no
   * other session listens to.
   */
  method WithBlock<E>(capsql: CapSQL<E>, element: E, run: seq<Driver>)
    requires capsql.engine.beforeExecute == [] && capsql.engine.beforeCursorExecute == []
    modifies capsql.engine, capsql
    ensures capsql.engine.beforeExecute == [] && capsql.engine.beforeCursorExecute == []
    ensures capsql.elements == old(capsql.elements) + [element]
    ensures capsql.statements == old(capsql.statements) + Entries(capsql.settings, capsql.libs, run)
    ensures capsql.output == old(capsql.output) + RunOutputs(capsql.settings, capsql.libs, run)
  {
    var engine := capsql.engine;
    var _ := capsql.Enter();
    ExecuteAlone(capsql, element, run);
    capsql.Exit();
  }

  /**
   * Capture inside two `with` blocks: the query run between them is not seen,
   * and the second block appends after the first without a `clear()`.
   */
  method CaptureAcrossScopes<E>(libs: Libraries, insert: E, select: E, filtered: E,
                                 insertSql: string, selectSql: string, filteredSql: string,
                                 insertParams: string, selectParams: string, filteredParams: string)
    returns (elements: seq<E>, statements: seq<string>, text: string)
    ensures elements == [insert, filtered]
    ensures statements == [libs.format(insertSql), libs.format(filteredSql)]
    ensures text == libs.format(insertSql) + "\n\n" + libs.format(filteredSql)
  {
    var engine := new Engine<E>();
    var capsql := new CapSQL(engine, Defaults, libs, [], []);

    WithBlock(capsql, insert, [Driver(insertSql, insertParams)]);
    assert capsql.statements == [libs.format(insertSql)];

    assert engine.Sessions() == {};
    engine.Execute(select, [Driver(selectSql, selectParams)]);

    WithBlock(capsql, filtered, [Driver(filteredSql, filteredParams)]);

    elements, statements, text := capsql.elements, capsql.statements, capsql.Text();
    assert statements == [libs.format(insertSql), libs.format(filteredSql)];
    assert statements[1..] == [libs.format(filteredSql)];
    assert text == Join(statements, Separator);
  }

  /** With `show_params`, the entry ends with the parameters comment; `text` is that one entry. */
  method CaptureWithParams<E>(libs: Libraries, insert: E, insertSql: string, insertParams: string)
    returns (statements: seq<string>, text: string)
    ensures statements == [libs.format(insertSql) + "\n-- params: " + insertParams]
    ensures text == statements[0]
  {
    var engine := new Engine<E>();
    var settings := Defaults.(showParams := true);
    var capsql := new CapSQL(engine, settings, libs, [], []);

    WithBlock(capsql, insert, [Driver(insertSql, insertParams)]);

    statements, text := capsql.statements, capsql.Text();
  }

  /**
   * A query whose relationship load issues a follow-up query as an execution of
   * its own inside the same block: both are captured, the explicit one first.
   */
  method CaptureFollowUp<E>(libs: Libraries, query: E, followUp: E, querySql: string, followUpSql: string,
                            queryParams: string, followUpParams: string)
    returns (elements: seq<E>, statements: seq<string>)
    ensures elements == [query, followUp]
    ensures statements == [libs.format(querySql), libs.format(followUpSql)]
  {
    var engine := new Engine<E>();
    var capsql := new CapSQL(engine, Defaults, libs, [], []);

    var _ := capsql.Enter();
    ExecuteAlone(capsql, query, [Driver(querySql, queryParams)]);
    ExecuteAlone(capsql, followUp, [Driver(followUpSql, followUpParams)]);
    capsql.Exit();

    elements, statements := capsql.elements, capsql.statements;
  }

  /** `clear()` inside a block empties both lists but keeps the handlers registered. */
  method ClearWhileActive<E>(settings: Settings, libs: Libraries, first: E, second: E,
                             firstRun: seq<Driver>, secondRun: seq<Driver>)
    returns (elements: seq<E>, statements: seq<string>)
    ensures elements == [second]
    ensures statements == Entries(settings, libs, secondRun)
  {
    var engine := new Engine<E>();
    var capsql := new CapSQL(engine, settings, libs, [], []);

    var _ := capsql.Enter();
    engine.Execute(first, firstRun);
    capsql.Clear();
    ghost var cleared := capsql.Captured();
    engine.Execute(second, secondRun);
    capsql.Exit();
    HandledRunAppends(Dispatched(cleared, second), settings, libs, secondRun);

    elements, statements := capsql.elements, capsql.statements;
  }

  /** With the default settings nothing is printed or logged, however much is captured. */
  method DefaultsAreQuiet<E>(libs: Libraries, element: E, run: seq<Driver>)
    returns (statements: seq<string>, ghost written: seq<Output>)
    ensures statements == Entries(Defaults, libs, run)
    ensures written == []
  {
    var engine := new Engine<E>();
    var capsql := new CapSQL(engine, Defaults, libs, [], []);

    WithBlock(capsql, element, run);

    QuietRun(Defaults, libs, run);
    statements, written := capsql.statements, capsql.output;
  }
}
