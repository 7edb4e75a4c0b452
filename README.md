# QGen decision logic in Dafny

QGen is a pseudo-random workload generator for MySQL. It picks SQL statement
templates by configured verb weights and fills their placeholders with names
and values taken from the live schema. It then runs the statements with
commit, rollback and halt policies, and yields one result record per
statement. This project models the decision and bookkeeping logic of the
`QGen` class. The database, the random draws and the Jinja2 renderer are
abstract inputs in the model. The model proves what that logic promises:

- **Executor** (`executor.dfy`): `_run_query` builds its result record entry
  by entry. It rolls back after a failure, commits after a statement that
  needs one, and raises the stop signal exactly when a failure meets
  `halt_on_errors`.
- **Schema** (`schema.dfy`): `_get_tables_schema` turns the catalog rows into
  table → column → (type, is-primary). `_get_random_table` and
  `_get_random_column` draw from the result.
- **Synthesizer** (`synthesizer.dfy`): `_get_appropriate_value` dispatches on
  the column type. `_get_random_value` reads a value from a table.
- **Selector** (`selector.dfy`): `_get_allowed_queries` filters the template
  document. `pick_query` builds the weighted verb population and picks a verb
  and a template from it.
- **Renderer** (`renderer.dfy`): `valorize_query` builds the placeholder
  context, including its `random_value` retry loop.
- **QGen** (`qgen.dfy`): engine construction and the `batch_run` generator.
  The generator is a method over per-iteration inputs. It is proved to produce
  exactly the records and the ending of a reference run, `Upto`.

Shared pieces:

- `results.dfy`: `Option` and `Result`, plus one `Error` constructor per
  failure the model covers.
- `dicts.dfy`: Python dicts as insertion-ordered association lists.
  `random.choice(list(d.keys()))` depends on that order.
- `random.dfy`: `random.choice` with the draw supplied as a number.
- `text.dfy`: `str.lower` and the substring test `in`.

Every random call is a supplied natural number or real:

- `random.choice(s)` picks `s[n % |s|]` with the draw `n`.
- `random.randint(0,100)` is `n % 101`.
- `random.randint(1,20)` is `1 + n % 20`.

A database statement is a supplied `Execution`: it either failed or returned
rows. `Template(query).render(ctx)` is a supplied function of the template
and the context.

Notes on what the code does, which the model follows:

- Allowed verbs are compared as given. Only the template's verb is
  lower-cased (`qgen/qgen.py:202`), so an allowed list written in upper case
  matches nothing.
- A failed catalog query is absorbed by `_run_query`, which leaves `output`
  as `None`. Iterating that `None` raises TypeError, which is `NotIterable`
  here (`qgen/qgen.py:129-135`). The `except mdb.Error` around it
  (`qgen/qgen.py:137`) does not catch that TypeError. It fires only for a
  database error that escapes `_run_query` itself, which the model does not
  cover (see "## Left out").
- The `batch_run` docstring calls `max_queries` the "number of queries to run
  before stop" (`qgen/qgen.py:282`). The loop `range(1, max_queries)` at
  `qgen/qgen.py:294` runs `max_queries - 1` iterations, and none when
  `max_queries` is below 2.
- In dry-run mode each iteration yields its record twice: once in the
  dry-run branch and once after it (`qgen/qgen.py:307`, `311`).
- Dry-run mode does not execute the rendered statement. `valorize_query`
  still issues its `_get_random_value` lookups through `_run_query`
  (`qgen/qgen.py:257`, `160`). The model counts them in each prepared
  statement.
- On the stop signal, the failing statement is written into `res`
  (`qgen/qgen.py:302`). In normal mode, from the second iteration on, `res`
  is the record yielded last, so the source rewrites that already yielded
  record's `last_executed`. At the first iteration the assignment at
  `qgen/qgen.py:300` never completes, so `res` is still the initial record
  of `qgen/qgen.py:292`, which is never yielded. The model yields records as
  values, so this write is not visible in them (see "## Left out").
- The docstring says `allowed_verbs` is optional and "Defauts to ['select']"
  (`qgen/qgen.py:54-55`). The constructor reads `kwargs['allowed_verbs']`
  (`qgen/qgen.py:74`), so leaving the keyword out raises KeyError. Only an
  explicit falsy value gives `['select']`. `None` in `QGen.NewEngine` stands
  for that falsy value.
- Weights are not required to be positive. A verb of weight 0 or less
  contributes nothing to the population. If every allowed verb has such a
  weight, the draw raises IndexError.

## Model

| member | source | states |
|---|---|---|
| Random.Choice | qgen/qgen.py:145 | `random.choice` succeeds exactly on a non-empty list, returns one of its elements, and raises IndexError on an empty list |
| Random.ChoiceReaches | qgen/qgen.py:227 | every element of a non-empty list is selected by some draw |
| Dicts.Put | qgen/qgen.py:203 | `d[k] = v`: an existing key keeps its position, a new key is appended; afterwards `k` maps to `v`, the other keys keep their values, and distinct keys stay distinct |
| Dicts.FromEntries | qgen/qgen.py:129 | a dict comprehension has no repeated key, and its keys are exactly the keys of the entries it iterates |
| Dicts.FromEntriesLastWins | qgen/qgen.py:132-136 | a dict comprehension keeps, for each key, the value of the last entry with that key |
| Text.ContainsOccurs | qgen/qgen.py:249 | the `in` test on strings holds exactly when the marker occurs at some position of the template |
| Executor.ExecuteQuery | qgen/qgen.py:94-121 | the record built entry by entry, with the transaction call made, is the reference outcome `RunQuery` |
| Executor.RunQueryShape | qgen/qgen.py:99-120 | rollback iff the statement failed; commit iff it succeeded and needs a commit; stop raised iff it failed with `halt_on_errors`. Otherwise `results_number` is 0 after a failure or a commit and the row count after a fetch; `output` is `None`, the commit result or the rows; `last_executed` is the statement; the elapsed time is the measured one |
| Schema.TableNames | qgen/qgen.py:129 | the table names are the first values of the listing rows, in order; a row with no value raises IndexError |
| Schema.ColumnsOfShape | qgen/qgen.py:132-136 | the columns of a table are exactly the distinct column names of its rows; each maps to the data type of its last row, and `is_primary` holds exactly when that row's key is `PRI` |
| Schema.FillColumnsShape | qgen/qgen.py:130-136 | filling the tables succeeds iff every table's column query succeeded (possibly with no rows); the keys stay in order and each table maps to the columns of its own query |
| Schema.TablesSchemaShape | qgen/qgen.py:127-141 | the schema is built iff every catalog query succeeded (possibly with no rows, so an empty `SHOW TABLES` gives an empty schema) and every listing row has a value; its keys are then exactly the listed table names, each once, each mapped to its own columns |
| Schema.RandomTable | qgen/qgen.py:143-146 | draws a name of a schema table; raises IndexError exactly when the schema is empty |
| Schema.RandomColumn | qgen/qgen.py:148-151 | draws a column of the given table; KeyError for a table not in the schema; IndexError for a table without columns |
| Synthesizer.ConvertMap | qgen/qgen.py:171-185 | the conversion table has an entry exactly for the thirteen listed MySQL types |
| Synthesizer.RandomString | qgen/qgen.py:191 | the joined string has the drawn length and every character is an ASCII lower-case letter |
| Synthesizer.AppropriateValue | qgen/qgen.py:185-193 | integer types give an int in [0, 100]; `decimal` gives a float; string types give 1 to 20 lower-case ASCII letters; `date`, `datetime`, `timestamp`, `enum` and `set` give `None`; any other type raises KeyError |
| Synthesizer.RandomValueOfLookup | qgen/qgen.py:153-165 | the value lookup never stops or commits; the value is `None` when the statement failed or found no row, the first value of the first row otherwise, and IndexError for a first row without values |
| Selector.GetAllowedQueries | qgen/qgen.py:199-206 | the loop's dictionary is the reference filter `AllowedQueries` |
| Selector.AllowedQueriesShape | qgen/qgen.py:199-206 | the allowed queries are exactly the template entries whose lower-cased verb is in the allowed list, with their values unchanged, and no verb twice |
| Selector.Repeat | qgen/qgen.py:224 | `[v] * n` holds `v` `n` times, and nothing when `n` is not positive |
| Selector.BuildPopulation | qgen/qgen.py:222-225 | the loop's population is the allowed verbs, in order, each repeated by its weight |
| Selector.PopulationOfCounts | qgen/qgen.py:222-225 | a population over distinct verbs holds each verb exactly its weight times, nothing else, and its length is the total weight |
| Selector.PopulationShape | qgen/qgen.py:222-227 | the weighted population holds each allowed verb exactly its (non-negative) weight times and no other string; its length is the sum of the allowed weights |
| Selector.PopulationMembers | qgen/qgen.py:227-232 | every verb in the population is a key of the allowed queries |
| Selector.PickDrawn | qgen/qgen.py:217-233 | with a verb allowed, the returned verb is the population element the verb draw selects and the query is the template the query draw selects from that verb's list; an empty population or template list raises IndexError |
| Selector.PickQuery | qgen/qgen.py:216-233 | the imperative `pick_query` returns the reference outcome `Pick` |
| Selector.PickOutcome | qgen/qgen.py:216-233 | QGenNoQueriesException iff no template verb is allowed; a drawn verb that lower-cases to `insert` raises NotImplementedError; a returned verb is an allowed, non-`insert` key of positive weight and the query is one of its templates |
| Renderer.TryAttempt | qgen/qgen.py:255-257 | a retry pass that reaches the value query uses a table of the schema and a column of that table |
| Renderer.RetryFromShape | qgen/qgen.py:252-257 | the retry loop leaves only with a truthy value, found by its last pass after passes that all found falsy values; when every pass is falsy it never leaves |
| Renderer.RetryFromFirst | qgen/qgen.py:252-257 | the first pass that does not find a falsy value decides the loop: a truthy value ends it with that pass's table, column and value after one value query per pass; a draw or lookup that raises ends it with that error |
| Renderer.ValorizeQuery | qgen/qgen.py:244-275 | the imperative `valorize_query`, with its retry loop, builds the reference context `Valorize` and issues the same number of value queries |
| Renderer.ValorizeWithoutRandomValue | qgen/qgen.py:244-275 | without the `random_value` marker: `random_value` is `None`, no value query is issued, the first table and column drawn are kept, and the retry passes have no effect; a failing first table or column draw raises its error; once both succeed a context is produced — exactly `all`, those two and `None` elsewhere without the `appropriate_value` marker, and with it only the KeyError of an unknown column type can stop it |
| Renderer.ValorizeWithRandomValue | qgen/qgen.py:249-257 | with the marker: a context is produced only with a truthy value, taken with its table and column from the last pass, every earlier pass having found 0, `''` or `None`; one value query per pass; no context when every pass is falsy |
| Renderer.ValorizeSettles | qgen/qgen.py:247-274 | with the marker and a successful first column draw, a truthy value found by pass `j` after falsy passes produces a context with that pass's table, column and value after `j + 1` value queries; without the `appropriate_value` marker it is exactly that context, and with it only the KeyError of an unknown column type can stop it; a failing first column draw raises before any value query |
| Renderer.ValorizeAppropriateValue | qgen/qgen.py:247-274 | in a produced context the table is in the schema and the column in that table; `second_random_column` and `appropriate_value` are `None` without the `appropriate_value` marker; with it, the second column is drawn from the final `random_table` and the value is synthesized for that column |
| QGen.NewEngine | qgen/qgen.py:73-84 | construction keeps the template document, uses `['select']` when `allowed_verbs` is falsy, and, with `rollback()` and `fetchall()` taken to succeed, succeeds exactly when schema inspection succeeds, with its schema |
| QGen.PrepareShape | qgen/qgen.py:295-297 | iteration `i` prepares the verb and template `pick_query` returns, the rendering of `valorize_query`'s context and its count of value queries, with `needs_commit` set exactly when the verb is not `select`; it raises what either raises |
| QGen.StepShape | qgen/qgen.py:295-311 | an iteration raises exactly what preparing its statement raised; it stops exactly when, outside dry-run mode with `halt_on_errors`, its statement fails; otherwise it yields the statement's `_run_query` record (counted, naming the statement), or in dry-run mode the bare record twice |
| QGen.Iterate | qgen/qgen.py:295-311 | the imperative loop body, threading `res`, does what the reference step `Step` says; in dry-run mode `res` keeps every entry but `last_executed` unset |
| QGen.BatchRun | qgen/qgen.py:292-316 | the generator yields exactly the records of the reference run `Run(b)` over `max_queries - 1` iterations and ends as it does |
| QGen.UptoEnded | qgen/qgen.py:301-303 | once the run has stopped or raised, later iterations change nothing |
| QGen.UptoAgree | qgen/qgen.py:294-311 | the run depends only on the flags and on the prepared statements and executions of its own iterations |
| QGen.AllYieldEach | qgen/qgen.py:294-311 | the recursive "all iterations yielded" agrees with the quantified statement |
| QGen.UptoShape | qgen/qgen.py:294-311 | a run yields exactly the records of its completed iterations; it completes iff all of them complete; if it ended early it did so at the next iteration, with that iteration's stop or exception |
| QGen.DryYields | qgen/qgen.py:304-311 | completed dry-run iterations yield two records each, both the bare record naming the rendered statement |
| QGen.NormalYields | qgen/qgen.py:298-311 | completed normal iterations yield one record each, in iteration order |
| QGen.RunLength | qgen/qgen.py:294-311 | the run completes iff every iteration yields; it then holds one record per iteration (two in dry-run mode), and never more |
| QGen.DryRun | qgen/qgen.py:298-311 | in dry-run mode the rendered statements are not executed: the run does not depend on their execution outcomes, never halts, and yields each iteration's bare record twice, naming its rendered statement |
| QGen.NormalRecords | qgen/qgen.py:296-311 | in normal mode, for any per-iteration plan, record `i` is the `_run_query` record of iteration `i`'s prepared statement, run with its `needs_commit`; it names that statement and counts its rows |
| QGen.RunRecords | qgen/qgen.py:294-311 | in normal mode record `i` of `batch_run` is the `_run_query` record of iteration `i`'s rendered statement, run with `needs_commit` set exactly when its verb is not `select`; it names that statement and counts its rows |
| QGen.NormalHalt | qgen/qgen.py:299-303 | a run halts only in normal mode with `halt_on_errors` set, at an iteration whose statement failed; that iteration yields nothing and fewer than `max_queries - 1` records are yielded |

## Left out

- The MySQL connection, `USE db`, the cursor and its errors. Also the
  `self._cur = self._con.cursor()` call with its logged exception, and
  driver exceptions other than database errors. Executing a statement is a
  supplied `Execution`.
- A database error raised by `self._con.rollback()` in the failure branch,
  or by `self._con.commit()` or `fetchall()` in the success branch of
  `_run_query` (`qgen/qgen.py:101`, `110`, `114`), for example on a dropped
  connection. The model takes all three calls to succeed. In the source
  such an error is not caught by `except mdb.Error` at `qgen/qgen.py:99`
  (commit and fetchall run in the `else` clause, rollback inside the
  handler). It leaves `_run_query` after the `finally` part, with no
  rollback after a failed commit, and then leaves `batch_run`, which
  catches only QGenStopException (`qgen/qgen.py:301`), whatever
  `halt_on_errors` says.
- QGen.NewEngine: does not model schema inspection swallowing such an error.
  Raised by a column query inside the `try` of `_get_tables_schema`, it is
  caught at `qgen/qgen.py:137`; the method then returns `None` and the
  constructor succeeds with `tables = None`. Raised by the `SHOW TABLES`
  query (`qgen/qgen.py:127`, outside that `try`), it leaves the constructor.
- The driver's `_cur._last_executed`. The driver is taken to report the
  statement it was given.
- `time.time`, the elapsed-time rounding and the total elapsed time of
  `batch_run`. The elapsed time is a supplied, already rounded `real`.
- `time.sleep(interval)`. For a non-negative interval, pacing has no effect
  on what is yielded. A negative interval makes `time.sleep` raise
  ValueError (`qgen/qgen.py:312`) right after the first iteration's
  record(s) are yielded, ending the run; the model has no interval and does
  not cover that ending.
- Logging, and the `NullHandler` shim.
- Jinja2 `Template.render`. The renderer is a supplied function, taken
  never to raise. In the source, `Template(query)` (`qgen/qgen.py:244`)
  raises TemplateSyntaxError for a malformed template before any draw or
  lookup, and `render` (`qgen/qgen.py:269`) can raise too. The model
  covers the context the renderer receives, not the text substitution.
- `random.random()` is a supplied `real`, with no bound stated. Floating
  point is not modelled.
- Renderer.RetryFrom: the source's `while not random_value` loop may run
  forever. The model supplies a finite sequence of passes and reports
  `RetryUnresolved` when they run out without a truthy value.
- `str.lower()` is modelled for ASCII letters only.
- Python's truth value of driver values is modelled for `None`, int, float
  (and Decimal), str, date and datetime values (always true), and TIME
  values as durations (false exactly when zero). Other driver types, such as
  bytes for BLOB columns, are not modelled.
- The `except Exception` of `_get_allowed_queries` is not modelled. It fires
  for a document key that is not a string, for an `allowed_verbs` that is
  not a container, and for a `queries_template` without `.keys()` (a
  top-level JSON array, for example). The model's document type (string
  keys) and verb-list type (a sequence of strings) exclude all of these.
- Dict order is modelled as the insertion order of Python 3.7 and later.
  The module also supports Python 2 (`qgen/qgen.py:24-25`), where
  `dict.keys()` comes in an arbitrary order. The lists the draws index
  (the population at `qgen/qgen.py:223`, the tables at `144` and the
  columns at `149`) follow that order, so which element a given draw
  selects holds for insertion order only. The counts and membership
  facts hold for any order.
- Documents and verb lists of other shapes. Each template entry is a
  `weight` that is an integer and a list of `queries`. An entry without
  `weight` or `queries` (KeyError at `qgen/qgen.py:224` or `232`) and a
  weight that is not an integer (TypeError from `[v] * 2.0` at
  `qgen/qgen.py:224`) are not modelled. Neither is an `allowed_verbs` given
  as a string, where `k.lower() in allowed_verbs` at `qgen/qgen.py:202` is
  a substring test. The document is a parsed dict, so no verb appears twice
  (`Selector.TemplateDocument`).
- The generator is modelled eagerly. The source runs iteration `i` only when
  its caller asks for the next record, and a caller that stops consuming
  stops the work. The model computes every iteration up to the end of the
  run.
- The records of the `_get_random_value` lookups are not part of the model's
  output. The source does not yield them either. The model counts them in
  each prepared statement (`Prepared.lookups`).
- Records are values. In dry-run mode the source yields the same `res` dict
  object again and again, mutating its `last_executed` each iteration. A
  caller that keeps earlier records sees them change. The model yields a
  snapshot per yield. The same applies to the write on the stop path into
  the record yielded last (from the second iteration on; at the first
  iteration it goes into the initial record, which is never yielded).
- Synthesizer.AppropriateValue: requires the column to be a column of the
  table in the schema. Every call site draws the column from that table, so
  the source's own KeyError for an unknown table or column cannot occur.
- The KeyError the constructor raises when the `allowed_verbs`,
  `queries_template`, `db_host`, `db_user`, `db_pass` or `db_name` keyword is
  left out (`qgen/qgen.py:69-74`). `QGen.NewEngine` takes the document and
  an optional allowed-verb list.
- Argument handling in the constructor beyond `allowed_verbs`
  (`db_host`, `db_user`, `db_pass`, `db_name`). These only feed the
  connection.
- A failed `mdb.connect` is logged and the engine goes on to inspect the
  schema through a missing connection. That AttributeError path is not
  modelled.
