/** The `QGen` engine: its construction and the `batch_run` control loop.
    The engine's fields are set once, by the constructor, and only read
    afterwards (apart from the driver's cursor, which the model leaves out),
    so the engine is a value. */
module QGen {
  import opened Results
  import opened Text
  import opened Executor
  import opened Schema
  import opened Synthesizer
  import opened Selector
  import opened Renderer

  datatype Engine = Engine(queriesTemplate: TemplateDocument, allowedVerbs: seq<string>, tables: Tables)

  /** `allowed_verbs or ['select']`. */
  function DefaultVerbs(allowedVerbs: Option<seq<string>>): seq<string>
  {
    if allowedVerbs.None? || allowedVerbs.value == [] then ["select"] else allowedVerbs.value
  }

  /** `QGen(...)` after the connection is open: keep the document and the
      allowed verbs (`['select']` when none are given) and inspect the schema. */
  function NewEngine(doc: TemplateDocument, allowedVerbs: Option<seq<string>>,
                     listing: Output<TableRow>, catalog: string -> Output<ColumnRow>): (r: Result<Engine>)
    ensures r.Success? <==> TablesSchema(listing, catalog).Success?
    ensures r.Failure? ==> r.error == TablesSchema(listing, catalog).error
    ensures r.Success? ==>
      && r.value.queriesTemplate == doc
      && r.value.tables == TablesSchema(listing, catalog).value
      && r.value.allowedVerbs != []
      && (allowedVerbs.Some? && allowedVerbs.value != [] ==> r.value.allowedVerbs == allowedVerbs.value)
      && (allowedVerbs.None? || allowedVerbs.value == [] ==> r.value.allowedVerbs == ["select"])
  {
    match TablesSchema(listing, catalog)
    case Failure(e) => Failure(e)
    case Success(tables) => Success(Engine(doc, DefaultVerbs(allowedVerbs), tables))
  }

  /** The random draws of one iteration of `batch_run`. */
  datatype Draws = Draws(verbDraw: nat, queryDraw: nat, render: RenderDraws)

  /** One call `batch_run(max_queries, interval, halt_on_errors, dry_run)`:
      iteration `i` uses `draws(i)`, and its statement, when executed, does
      what `executions(i)` says. `render` is the template renderer. */
  datatype Batch = Batch(
    engine: Engine,
    maxQueries: int,
    haltOnErrors: bool,
    dryRun: bool,
    draws: nat -> Draws,
    executions: nat -> Execution<Row>,
    render: (string, Context) -> string)

  /** `needs_commit = None if verb.lower() == 'select' else True`. */
  function NeedsCommit(verb: string): bool
  {
    Lower(verb) != "select"
  }

  /** The number of iterations of `range(1, max_queries)`. */
  function Iterations(maxQueries: int): nat
  {
    if maxQueries > 1 then maxQueries - 1 else 0
  }

  /** The record dry-run mode yields: the initial `res` with only
      `last_executed` set. */
  function DryRecord(query: string): Record<Row>
  {
    Record(None, NoOutput, Some(query), None)
  }

  /** A statement ready to run: its verb, whether it needs a commit, its
      rendered text, and the number of `_get_random_value` queries preparing
      it issued (in dry-run mode too). */
  datatype Prepared = Prepared(verb: string, needsCommit: bool, query: string, lookups: nat)

  /** `pick_query()` and `valorize_query()` of iteration `i`, then rendering. */
  function Prepare(b: Batch, i: nat): Result<Prepared>
  {
    var d := b.draws(i);
    match Pick(b.engine.queriesTemplate, b.engine.allowedVerbs, d.verbDraw, d.queryDraw)
    case Failure(e) => Failure(e)
    case Success((verb, template)) =>
      var v := Valorize(b.engine.tables, template, d.render);
      match v.result
      case Failure(e) => Failure(e)
      case Success(ctx) => Success(Prepared(verb, NeedsCommit(verb), b.render(template, ctx), v.lookups))
  }

  /** Iteration `i` prepares the verb and template `pick_query()` returns,
      with `needs_commit` set exactly when the verb is not `select`, and the
      text the renderer makes of `valorize_query()`'s context, after as many
      value queries as `valorize_query()` issued; it raises whatever either of
      them raises. */
  lemma PrepareShape(b: Batch, i: nat)
    ensures var d := b.draws(i);
      var pk := Pick(b.engine.queriesTemplate, b.engine.allowedVerbs, d.verbDraw, d.queryDraw);
      var p := Prepare(b, i);
      && (pk.Failure? ==> p == Failure(pk.error))
      && (pk.Success? ==>
            var v := Valorize(b.engine.tables, pk.value.1, d.render);
            && (v.result.Failure? ==> p == Failure(v.result.error))
            && (v.result.Success? ==>
                  && p.Success?
                  && p.value.verb == pk.value.0
                  && p.value.query == b.render(pk.value.1, v.result.value)
                  && p.value.lookups == v.lookups))
      && (p.Success? ==> p.value.needsCommit == (Lower(p.value.verb) != "select"))
  {
  }

  /** How one iteration ends: it yields records, it stops on
      QGenStopException, or an exception leaves the generator. */
  datatype StepResult = Yielded(records: seq<Record<Row>>) | Stopped | Raised(error: Error)

  /** The per-iteration inputs of the loop, once the statements are prepared:
      `prepared(i)` is iteration `i`'s statement (or the exception preparing
      it raised) and `executions(i)` what running it would do. */
  datatype Plan = Plan(
    dryRun: bool,
    haltOnErrors: bool,
    prepared: nat -> Result<Prepared>,
    executions: nat -> Execution<Row>)

  /** `pl` is the plan of batch `b`: same flags, same executions, and
      iteration `i` prepares what `Prepare(b, i)` does. */
  ghost predicate PlanFor(b: Batch, pl: Plan)
  {
    && pl.dryRun == b.dryRun
    && pl.haltOnErrors == b.haltOnErrors
    && pl.executions == b.executions
    && forall i: nat {:trigger Prepare(b, i)} :: pl.prepared(i) == Prepare(b, i)
  }

  /** The plan of batch `b`. */
  function PlanOf(b: Batch): Plan
  {
    Plan(b.dryRun, b.haltOnErrors, (i: nat) => Prepare(b, i), b.executions)
  }

  /** One iteration of the `batch_run` loop. */
  function Step(pl: Plan, i: nat): StepResult
  {
    match pl.prepared(i)
    case Failure(e) => Raised(e)
    case Success(p) =>
      if pl.dryRun then Yielded([DryRecord(p.query), DryRecord(p.query)])
      else match RunQuery(p.query, pl.executions(i), p.needsCommit, pl.haltOnErrors).result
        case Failure(_) => Stopped
        case Success(rec) => Yielded([rec])
  }

  /** An iteration raises exactly the exception preparing its statement
      raised; it stops exactly when, outside dry-run mode and with
      `halt_on_errors` set, its statement fails; otherwise it yields the
      prepared statement's record, twice in dry-run mode. */
  lemma StepShape(pl: Plan, i: nat)
    ensures var r := Step(pl, i);
      && (r.Raised? <==> pl.prepared(i).Failure?)
      && (r.Raised? ==> r.error == pl.prepared(i).error)
      && (r.Stopped? <==> !pl.dryRun && pl.haltOnErrors && pl.prepared(i).Success? && pl.executions(i).Failed?)
      && (pl.dryRun && r.Yielded? ==>
            r.records == [DryRecord(pl.prepared(i).value.query), DryRecord(pl.prepared(i).value.query)])
      && (!pl.dryRun && r.Yielded? ==>
            var p := pl.prepared(i).value;
            && r.records == [RunQuery(p.query, pl.executions(i), p.needsCommit, pl.haltOnErrors).result.value]
            && r.records[0].lastExecuted == Some(p.query)
            && Counted(r.records[0]))
  {
    match pl.prepared(i)
    case Failure(_) =>
    case Success(p) => RunQueryShape(p.query, pl.executions(i), p.needsCommit, pl.haltOnErrors);
  }

  /** How a run ends: the loop finished, a statement failed with
      `halt_on_errors` set, or an exception left the generator. */
  datatype Ending = Completed | Halted | Raising(error: Error)

  /** The records the generator has yielded and how it ended. */
  datatype Progress = Progress(records: seq<Record<Row>>, ending: Ending)

  /** The run after its first `n` iterations. */
  function Upto(pl: Plan, n: nat): Progress
  {
    if n == 0 then Progress([], Completed)
    else
      var p := Upto(pl, n - 1);
      if p.ending != Completed then p
      else match Step(pl, n)
        case Yielded(rs) => Progress(p.records + rs, Completed)
        case Stopped => Progress(p.records, Halted)
        case Raised(e) => Progress(p.records, Raising(e))
  }

  /** `batch_run(...)`: everything it yields, and how it ends. */
  function Run(b: Batch): Progress
  {
    Upto(PlanOf(b), Iterations(b.maxQueries))
  }

  lemma {:induction false} UptoEnded(pl: Plan, k: nat, n: nat)
    requires k <= n
    requires Upto(pl, k).ending != Completed
    ensures Upto(pl, n) == Upto(pl, k)
    decreases n - k
  {
    if k < n {
      UptoEnded(pl, k, n - 1);
    }
  }

  /** An iteration that yields extends the records. */
  lemma UptoYields(pl: Plan, i: nat, records: seq<Record<Row>>, rs: seq<Record<Row>>)
    requires i >= 1 && Upto(pl, i - 1) == Progress(records, Completed)
    requires Step(pl, i) == Yielded(rs)
    ensures Upto(pl, i) == Progress(records + rs, Completed)
  {
  }

  /** An iteration that stops or raises ends the run there. */
  lemma UptoStops(pl: Plan, i: nat, n: nat, records: seq<Record<Row>>, ending: Ending)
    requires 1 <= i <= n && Upto(pl, i - 1) == Progress(records, Completed)
    requires (Step(pl, i) == Stopped && ending == Halted)
          || (Step(pl, i).Raised? && ending == Raising(Step(pl, i).error))
    ensures Upto(pl, n) == Progress(records, ending)
  {
    UptoEnded(pl, i, n);
  }

  lemma PlanExists(b: Batch)
    ensures exists pl :: PlanFor(b, pl)
  {
    assert PlanFor(b, PlanOf(b));
  }

  /** Two plans that agree on the first `n` iterations run them alike. */
  lemma {:induction false} UptoAgree(p1: Plan, p2: Plan, n: nat)
    requires p1.dryRun == p2.dryRun && p1.haltOnErrors == p2.haltOnErrors
    requires forall i :: 1 <= i <= n ==> p1.prepared(i) == p2.prepared(i) && p1.executions(i) == p2.executions(i)
    ensures Upto(p1, n) == Upto(p2, n)
  {
    if n > 0 {
      UptoAgree(p1, p2, n - 1);
      assert Step(p1, n) == Step(p2, n);
    }
  }

  /** The `res` of dry-run mode: the initial record, of which only
      `last_executed` is ever set. */
  predicate Blank(res: Record<Row>)
  {
    res.resultsNumber == None && res.output == NoOutput && res.elapsedMs == None
  }

  /** The body of the `batch_run` loop, iteration `i`, with `res` the record
      left by the previous iteration: pick a statement, valorize and render
      it, then run it and keep its record, or in dry-run mode set only
      `last_executed` of `res`. On the stop signal the failing statement is
      written into `res`, which is not yielded again. */
  method Iterate(b: Batch, i: nat, res: Record<Row>) returns (s: StepResult, next: Record<Row>)
    requires b.dryRun ==> Blank(res)
    ensures forall pl :: PlanFor(b, pl) ==> s == Step(pl, i)
    ensures b.dryRun ==> Blank(next)
  {
    next := res;
    var d := b.draws(i);
    var picked := PickQuery(b.engine.queriesTemplate, b.engine.allowedVerbs, d.verbDraw, d.queryDraw);
    if picked.Failure? {
      assert Prepare(b, i) == Failure(picked.error);
      return Raised(picked.error), next;
    }
    var (verb, template) := picked.value;
    var needsCommit := Lower(verb) != "select";
    var context, lookups := ValorizeQuery(b.engine.tables, template, d.render);
    if context.Failure? {
      assert Prepare(b, i) == Failure(context.error);
      return Raised(context.error), next;
    }
    var query := b.render(template, context.value);
    assert Prepare(b, i) == Success(Prepared(verb, needsCommit, query, lookups));
    if !b.dryRun {
      var transaction, result := ExecuteQuery(query, b.executions(i), needsCommit, b.haltOnErrors);
      if result.Failure? {
        next := next.(lastExecuted := Some(query));
        return Stopped, next;
      }
      next := result.value;
      s := Yielded([next]);
    } else {
      next := next.(lastExecuted := Some(query));
      s := Yielded([next, next]);
    }
  }

  /** `batch_run(...)`: everything it yields, and how it ends, is what the
      batch's plan yields over `max_queries - 1` iterations. */
  method BatchRun(b: Batch) returns (records: seq<Record<Row>>, ending: Ending)
    ensures forall pl :: PlanFor(b, pl) ==> Progress(records, ending) == Upto(pl, Iterations(b.maxQueries))
    ensures Progress(records, ending) == Run(b)
  {
    records, ending := [], Completed;
    var res := Record(None, NoOutput, None, None);
    if b.maxQueries <= 1 {
      return;
    }
    ghost var n := Iterations(b.maxQueries);
    PlanExists(b);
    ghost var pl0: Plan :| PlanFor(b, pl0);
    for i := 1 to b.maxQueries
      invariant ending == Completed && Progress(records, ending) == Upto(pl0, i - 1)
      invariant b.dryRun ==> Blank(res)
    {
      var s;
      s, res := Iterate(b, i, res);
      match s
      case Yielded(rs) =>
        UptoYields(pl0, i, records, rs);
        records := records + rs;
      case Stopped =>
        ending := Halted;
        UptoStops(pl0, i, n, records, ending);
        AllPlansAgree(b, pl0, n, Progress(records, ending));
        return;
      case Raised(e) =>
        ending := Raising(e);
        UptoStops(pl0, i, n, records, ending);
        AllPlansAgree(b, pl0, n, Progress(records, ending));
        return;
    }
    AllPlansAgree(b, pl0, n, Progress(records, ending));
  }

  /** Every plan of a batch runs like any other. */
  lemma AllPlansAgree(b: Batch, pl0: Plan, n: nat, p: Progress)
    requires PlanFor(b, pl0) && p == Upto(pl0, n)
    ensures forall pl :: PlanFor(b, pl) ==> p == Upto(pl, n)
  {
    forall pl | PlanFor(b, pl) ensures p == Upto(pl, n) {
      forall i | 1 <= i <= n ensures pl.prepared(i) == pl0.prepared(i) {
        assert pl.prepared(i) == Prepare(b, i);
      }
      UptoAgree(pl, pl0, n);
    }
  }

  /** The records iterations `1..k` yield when all of them complete. */
  function Yields(pl: Plan, k: nat): seq<Record<Row>>
  {
    if k == 0 then []
    else Yields(pl, k - 1) + (match Step(pl, k) case Yielded(rs) => rs case _ => [])
  }

  /** Iterations `1..k` all yield. */
  predicate AllYield(pl: Plan, k: nat)
  {
    k == 0 || (AllYield(pl, k - 1) && Step(pl, k).Yielded?)
  }

  lemma {:induction false} AllYieldEach(pl: Plan, k: nat)
    ensures AllYield(pl, k) <==> forall i :: 1 <= i <= k ==> Step(pl, i).Yielded?
  {
    if k > 0 {
      AllYieldEach(pl, k - 1);
    }
  }

  /** The number of iterations among the first `n` that completed. */
  function Done(pl: Plan, n: nat): nat
  {
    if n == 0 then 0
    else if Upto(pl, n - 1).ending == Completed && Step(pl, n).Yielded? then n
    else Done(pl, n - 1)
  }

  /** After `n` iterations: the first `Done(pl, n)` of them completed and the
      run yielded exactly their records; a run that has ended ended at the
      next iteration, with that iteration's stop or exception. */
  lemma {:induction false} UptoShape(pl: Plan, n: nat)
    ensures var p := Upto(pl, n);
      var done := Done(pl, n);
      && done <= n
      && p.records == Yields(pl, done)
      && AllYield(pl, done)
      && (p.ending == Completed <==> done == n)
      && (p.ending == Halted ==> Step(pl, done + 1) == Stopped)
      && (p.ending.Raising? ==> Step(pl, done + 1) == Raised(p.ending.error))
  {
    if n > 0 {
      UptoShape(pl, n - 1);
      var prev := Upto(pl, n - 1);
      if prev.ending == Completed {
        assert Done(pl, n - 1) == n - 1;
        if Step(pl, n).Yielded? {
          assert Done(pl, n) == n;
          assert Upto(pl, n).records == Yields(pl, n - 1) + Step(pl, n).records;
        } else {
          assert Done(pl, n) == n - 1;
          assert Upto(pl, n).records == prev.records;
        }
      } else {
        assert Upto(pl, n) == prev;
        assert Done(pl, n) == Done(pl, n - 1);
      }
    }
  }

  /** In dry-run mode, completed iterations yield their record twice. */
  lemma {:induction false} DryYields(pl: Plan, k: nat)
    requires pl.dryRun
    requires AllYield(pl, k)
    ensures |Yields(pl, k)| == 2 * k
    ensures forall i :: 1 <= i <= k ==>
      && pl.prepared(i).Success?
      && Yields(pl, k)[2 * i - 2] == Yields(pl, k)[2 * i - 1] == DryRecord(pl.prepared(i).value.query)
  {
    if k > 0 {
      DryYields(pl, k - 1);
      assert Yields(pl, k) == Yields(pl, k - 1) + Step(pl, k).records;
    }
  }

  /** In normal mode, completed iteration `i` yields record `i - 1`. */
  lemma {:induction false} NormalYields(pl: Plan, k: nat)
    requires !pl.dryRun
    requires AllYield(pl, k)
    ensures |Yields(pl, k)| == k
    ensures forall i :: 1 <= i <= k ==> Step(pl, i) == Yielded([Yields(pl, k)[i - 1]])
  {
    if k > 0 {
      NormalYields(pl, k - 1);
      assert Yields(pl, k) == Yields(pl, k - 1) + Step(pl, k).records;
    }
  }

  /** Records per completed iteration: two in dry-run mode, one otherwise. */
  function PerIteration(pl: Plan): nat
  {
    if pl.dryRun then 2 else 1
  }

  /** A run of `n` iterations (`batch_run` runs `max_queries - 1`, none when
      `max_queries` is below 2) yields one record per completed iteration, two
      in dry-run mode; it completes exactly when every iteration yields. */
  lemma RunLength(pl: Plan, n: nat)
    ensures var p := Upto(pl, n);
      && (p.ending == Completed <==> forall i :: 1 <= i <= n ==> Step(pl, i).Yielded?)
      && (p.ending == Completed ==> |p.records| == PerIteration(pl) * n)
      && |p.records| <= PerIteration(pl) * n
  {
    UptoShape(pl, n);
    var done := Done(pl, n);
    AllYieldEach(pl, done);
    if pl.dryRun { DryYields(pl, done); } else { NormalYields(pl, done); }
  }

  /** In dry-run mode no statement is executed: the run does not depend on
      what executing would do, it never halts on a statement error, and each
      completed iteration yields the same record twice, with `last_executed`
      the rendered statement and nothing else set. */
  lemma DryRun(pl: Plan, otherExecutions: nat -> Execution<Row>, n: nat)
    requires pl.dryRun
    ensures Upto(pl, n) == Upto(pl.(executions := otherExecutions), n)
    ensures Upto(pl, n).ending != Halted
    ensures var p := Upto(pl, n);
      && |p.records| % 2 == 0
      && forall i :: 1 <= i <= |p.records| / 2 ==>
           && pl.prepared(i).Success?
           && p.records[2 * i - 2] == p.records[2 * i - 1] == DryRecord(pl.prepared(i).value.query)
  {
    DryRunUpto(pl, otherExecutions, n);
    UptoShape(pl, n);
    DryYields(pl, Done(pl, n));
  }

  lemma {:induction false} DryRunUpto(pl: Plan, otherExecutions: nat -> Execution<Row>, n: nat)
    requires pl.dryRun
    ensures Upto(pl, n) == Upto(pl.(executions := otherExecutions), n)
    ensures Upto(pl, n).ending != Halted
  {
    if n > 0 {
      DryRunUpto(pl, otherExecutions, n - 1);
      assert Step(pl, n) == Step(pl.(executions := otherExecutions), n);
    }
  }

  /** In normal mode each completed iteration yields the record of
      `_run_query` on its rendered statement, with `needs_commit` set exactly
      for verbs that are not `select`; that record names the statement in
      `last_executed` and counts its rows. */
  lemma NormalRecords(pl: Plan, n: nat)
    requires !pl.dryRun
    ensures var p := Upto(pl, n);
      forall i :: 1 <= i <= |p.records| ==>
        && pl.prepared(i).Success?
        && RunQuery(pl.prepared(i).value.query, pl.executions(i),
                    pl.prepared(i).value.needsCommit, pl.haltOnErrors).result == Success(p.records[i - 1])
        && p.records[i - 1].lastExecuted == Some(pl.prepared(i).value.query)
        && Counted(p.records[i - 1])
  {
    UptoShape(pl, n);
    NormalYields(pl, Done(pl, n));
    var p := Upto(pl, n);
    forall i | 1 <= i <= |p.records|
      ensures pl.prepared(i).Success?
      ensures RunQuery(pl.prepared(i).value.query, pl.executions(i),
                       pl.prepared(i).value.needsCommit, pl.haltOnErrors).result == Success(p.records[i - 1])
      ensures p.records[i - 1].lastExecuted == Some(pl.prepared(i).value.query) && Counted(p.records[i - 1])
    {
      assert Step(pl, i) == Yielded([p.records[i - 1]]);
      StepShape(pl, i);
    }
  }

  /** A run halts only in normal mode with `halt_on_errors` set, at an
      iteration whose statement was prepared and failed; that iteration's
      record is not yielded, and the run stops there. */
  lemma NormalHalt(pl: Plan, n: nat)
    ensures var p := Upto(pl, n);
      p.ending == Halted ==>
        && !pl.dryRun
        && pl.haltOnErrors
        && |p.records| < n
        && pl.prepared(|p.records| + 1).Success?
        && pl.executions(|p.records| + 1).Failed?
  {
    UptoShape(pl, n);
    var done := Done(pl, n);
    if Upto(pl, n).ending == Halted {
      StepShape(pl, done + 1);
      if pl.dryRun { DryYields(pl, done); } else { NormalYields(pl, done); }
    }
  }

  /** In normal mode, record `i` of `batch_run` is the `_run_query` record of
      iteration `i`'s rendered statement, run with `needs_commit` set exactly
      when the statement's verb is not `select`; it names that statement in
      `last_executed` and counts its rows. */
  lemma RunRecords(b: Batch)
    requires !b.dryRun
    ensures var p := Run(b);
      forall i :: 1 <= i <= |p.records| ==>
        && Prepare(b, i).Success?
        && Prepare(b, i).value.needsCommit == (Lower(Prepare(b, i).value.verb) != "select")
        && RunQuery(Prepare(b, i).value.query, b.executions(i), Prepare(b, i).value.needsCommit,
                    b.haltOnErrors).result == Success(p.records[i - 1])
        && p.records[i - 1].lastExecuted == Some(Prepare(b, i).value.query)
        && Counted(p.records[i - 1])
  {
    var pl := PlanOf(b);
    var p := Run(b);
    NormalRecords(pl, Iterations(b.maxQueries));
    forall i | 1 <= i <= |p.records|
      ensures Prepare(b, i).Success?
      ensures Prepare(b, i).value.needsCommit == (Lower(Prepare(b, i).value.verb) != "select")
    {
      assert pl.prepared(i) == Prepare(b, i);
      PrepareShape(b, i);
    }
  }
}
