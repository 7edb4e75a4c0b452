/** The statement executor `QGen._run_query`: run one statement, commit or
    roll back, and shape the result record. The database driver is abstract:
    what executing the statement does is supplied as an `Execution`. */
module Executor {
  import opened Results

  /** What the driver did with one statement: it raised a database error, or
      it ran and `fetchall()` would return `rows`. `elapsedMs` is the measured
      wall-clock time, already rounded. */
  datatype Execution<R> =
    | Failed(elapsedMs: real)
    | Succeeded(elapsedMs: real, rows: seq<R>)

  /** The `output` entry of a record: nothing (`None` after a failure), what
      `commit()` returned, or the fetched rows. */
  datatype Output<R> = NoOutput | CommitReturn | Fetched(rows: seq<R>)

  /** A result record; each entry is `None` until it is set. */
  datatype Record<R> = Record(
    resultsNumber: Option<nat>,
    output: Output<R>,
    lastExecuted: Option<string>,
    elapsedMs: Option<real>)

  /** The transaction call `_run_query` makes on the connection. */
  datatype Transaction = NoTransaction | Commit | Rollback

  /** The transaction call and the outcome of one `_run_query`. */
  datatype QueryRun<R> = QueryRun(transaction: Transaction, result: Result<Record<R>>)

  /** `results_number` always counts the rows in `output`, and is 0 when
      `output` holds no rows. */
  predicate Counted<R>(rec: Record<R>)
  {
    rec.resultsNumber == Some(if rec.output.Fetched? then |rec.output.rows| else 0)
  }

  /** `_run_query(query, needs_commit, halt_on_errors)`, with `needs_commit` and
      `halt_on_errors` read for their truth value. The driver is taken to record
      in `_last_executed` the statement it was given. */
  function RunQuery<R>(query: string, e: Execution<R>, needsCommit: bool, haltOnErrors: bool): QueryRun<R>
  {
    match e
    case Failed(ms) =>
      if haltOnErrors then QueryRun(Rollback, Failure(Stop))
      else QueryRun(Rollback, Success(Record(Some(0), NoOutput, Some(query), Some(ms))))
    case Succeeded(ms, rows) =>
      if needsCommit then QueryRun(Commit, Success(Record(Some(0), CommitReturn, Some(query), Some(ms))))
      else QueryRun(NoTransaction, Success(Record(Some(|rows|), Fetched(rows), Some(query), Some(ms))))
  }

  /** `_run_query` as the source writes it: the record starts empty and its
      entries are set one by one along the branch taken; the `finally` part
      sets the elapsed time and `last_executed` on every path, but on the stop
      path the record is dropped with the exception. */
  method ExecuteQuery<R>(query: string, e: Execution<R>, needsCommit: bool, haltOnErrors: bool)
    returns (transaction: Transaction, result: Result<Record<R>>)
    ensures QueryRun(transaction, result) == RunQuery(query, e, needsCommit, haltOnErrors)
  {
    transaction := NoTransaction;
    var res: Record<R> := Record(None, NoOutput, None, None);
    var stop := false;
    match e {
      case Failed(_) =>
        transaction := Rollback;
        res := res.(resultsNumber := Some(0));
        res := res.(output := NoOutput);
        stop := haltOnErrors;
      case Succeeded(_, rows) =>
        if needsCommit {
          transaction := Commit;
          res := res.(output := CommitReturn);
          res := res.(resultsNumber := Some(0));
        } else {
          res := res.(output := Fetched(rows));
          res := res.(resultsNumber := Some(|res.output.rows|));
        }
    }
    res := res.(elapsedMs := Some(e.elapsedMs));
    res := res.(lastExecuted := Some(query));
    if stop {
      return transaction, Failure(Stop);
    }
    result := Success(res);
  }

  /** A rollback happens exactly when the statement failed, a commit exactly
      when it succeeded and needs a commit; the stop signal is raised exactly
      on a failure with `halt_on_errors` set. Otherwise the record names the
      statement, carries the elapsed time, and holds nothing after a failure,
      what `commit()` returned after a committed statement, or the fetched rows
      and their count. */
  lemma RunQueryShape<R>(query: string, e: Execution<R>, needsCommit: bool, haltOnErrors: bool)
    ensures var r := RunQuery(query, e, needsCommit, haltOnErrors);
      && (r.transaction == Rollback <==> e.Failed?)
      && (r.transaction == Commit <==> e.Succeeded? && needsCommit)
      && (r.result.Failure? <==> e.Failed? && haltOnErrors)
      && (r.result.Failure? ==> r.result.error == Stop)
      && (r.result.Success? ==>
            var rec := r.result.value;
            && Counted(rec)
            && rec.lastExecuted == Some(query)
            && rec.elapsedMs == Some(e.elapsedMs)
            && (e.Failed? ==> rec.output == NoOutput)
            && (e.Succeeded? && needsCommit ==> rec.output == CommitReturn)
            && (e.Succeeded? && !needsCommit ==> rec.output == Fetched(e.rows) && rec.resultsNumber == Some(|e.rows|)))
  {
  }
}
