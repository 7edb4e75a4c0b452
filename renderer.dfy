/** The template renderer `QGen.valorize_query`, up to the placeholder
    context: which entries are filled and with what. The Jinja2 substitution
    itself is not modelled. */
module Renderer {
  import opened Results
  import opened Dicts
  import opened Text
  import opened Executor
  import opened Schema
  import opened Synthesizer

  /** The dictionary passed to `Template.render`. */
  datatype Context = Context(
    all: string,
    randomTable: string,
    randomColumn: string,
    randomValue: Value,
    appropriateValue: Value,
    secondRandomColumn: Option<string>)

  /** The draws of one pass of the `random_value` loop and the `output` entry
      of the record of that pass's `_get_random_value` query. */
  datatype Attempt = Attempt(tableDraw: nat, columnDraw: nat, fetched: Output<Row>)

  /** Everything random that one `valorize_query` call may consume, in order:
      the first table and column draws, the passes of the retry loop, the
      second column draw and the draws of `_get_appropriate_value`. */
  datatype RenderDraws = RenderDraws(
    tableDraw: nat,
    columnDraw: nat,
    retries: seq<Attempt>,
    secondColumnDraw: nat,
    valueDraws: ValueDraws)

  /** The outcome of a call and the number of `_get_random_value` queries it
      issued. */
  datatype Rendering = Rendering(result: Result<Context>, lookups: nat)

  const RandomValueMarker: string := "random_value"
  const AppropriateValueMarker: string := "appropriate_value"

  /** One pass of the retry loop: a draw raised, or a table and column were
      drawn and their value query returned. */
  datatype Pass = DrawFailed(error: Error) | Looked(table: string, column: string, value: Result<Value>)

  function TryAttempt(tables: Tables, a: Attempt): (p: Pass)
    ensures p.Looked? ==> p.table in Keys(tables) && p.column in Keys(Get(tables, p.table))
  {
    match RandomTable(tables, a.tableDraw)
    case Failure(e) => DrawFailed(e)
    case Success(t) =>
      match RandomColumn(tables, t, a.columnDraw)
      case Failure(e) => DrawFailed(e)
      case Success(c) => Looked(t, c, RandomValue(a.fetched))
  }

  /** A pass that found a falsy value, so the loop goes on. */
  predicate Falsy(p: Pass)
  {
    p.Looked? && p.value.Success? && !Truthy(p.value.value)
  }

  datatype Found = Found(table: string, column: string, value: Value)

  datatype Retried = Retried(result: Result<Found>, lookups: nat)

  /** The passes the supplied attempts would make, one per attempt. */
  function Passes(tables: Tables, rs: seq<Attempt>): (ps: seq<Pass>)
    ensures |ps| == |rs|
    ensures forall j :: 0 <= j < |rs| ==> ps[j] == TryAttempt(tables, rs[j])
  {
    seq(|rs|, j requires 0 <= j < |rs| => TryAttempt(tables, rs[j]))
  }

  /** The `while not random_value` loop from pass `k` on, each earlier pass
      having issued one value query. It ends only on a truthy value or an
      exception; `RetryUnresolved` marks a loop that is still running when
      the supplied passes end. */
  function RetryFrom(ps: seq<Pass>, k: nat): Retried
    requires k <= |ps|
    decreases |ps| - k
  {
    if k == |ps| then Retried(Failure(RetryUnresolved), k)
    else match ps[k]
      case DrawFailed(e) => Retried(Failure(e), k)
      case Looked(t, c, Failure(e)) => Retried(Failure(e), k + 1)
      case Looked(t, c, Success(v)) =>
        if Truthy(v) then Retried(Success(Found(t, c, v)), k + 1)
        else RetryFrom(ps, k + 1)
  }

  /** The retry loop leaves with a truthy value, found by the last pass it
      ran, after passes that all found falsy values (0, '' and None alike);
      if every supplied pass is falsy it has not left at all. */
  lemma {:induction false} RetryFromShape(ps: seq<Pass>, k: nat)
    requires k <= |ps|
    ensures var r := RetryFrom(ps, k);
      && k <= r.lookups <= |ps|
      && (r.result.Success? ==>
            && Truthy(r.result.value.value)
            && k < r.lookups
            && ps[r.lookups - 1] == Looked(r.result.value.table, r.result.value.column, Success(r.result.value.value))
            && forall j :: k <= j < r.lookups - 1 ==> Falsy(ps[j]))
      && ((forall j :: k <= j < |ps| ==> Falsy(ps[j])) ==> r == Retried(Failure(RetryUnresolved), |ps|))
    decreases |ps| - k
  {
    if k < |ps| && Falsy(ps[k]) {
      RetryFromShape(ps, k + 1);
    }
  }

  /** The converse: the first pass from `k` on that does not find a falsy
      value decides the loop. A truthy value ends it with that table, column
      and value; a draw or a value lookup that raises ends it with that error. */
  lemma {:induction false} RetryFromFirst(ps: seq<Pass>, k: nat, j: nat)
    requires k <= j < |ps|
    requires forall m :: k <= m < j ==> Falsy(ps[m])
    requires !Falsy(ps[j])
    ensures ps[j].DrawFailed? ==> RetryFrom(ps, k) == Retried(Failure(ps[j].error), j)
    ensures ps[j].Looked? && ps[j].value.Failure? ==>
      RetryFrom(ps, k) == Retried(Failure(ps[j].value.error), j + 1)
    ensures ps[j].Looked? && ps[j].value.Success? ==>
      && Truthy(ps[j].value.value)
      && RetryFrom(ps, k) == Retried(Success(Found(ps[j].table, ps[j].column, ps[j].value.value)), j + 1)
    decreases j - k
  {
    if k < j {
      RetryFromFirst(ps, k + 1, j);
    }
  }

  /** The `appropriate_value` part and the context, given the table, column
      and value the first part settled on. */
  function Fill(tables: Tables, query: string, f: Found, d: RenderDraws): Result<Context>
  {
    if Contains(query, AppropriateValueMarker) then
      match RandomColumn(tables, f.table, d.secondColumnDraw)
      case Failure(e) => Failure(e)
      case Success(c2) =>
        match AppropriateValue(tables, f.table, c2, d.valueDraws)
        case Failure(e) => Failure(e)
        case Success(v) => Success(Context("*", f.table, f.column, f.value, v, Some(c2)))
    else Success(Context("*", f.table, f.column, f.value, Null, None))
  }

  /** `valorize_query(query)`, up to the context handed to the renderer. */
  function Valorize(tables: Tables, query: string, d: RenderDraws): Rendering
  {
    match RandomTable(tables, d.tableDraw)
    case Failure(e) => Rendering(Failure(e), 0)
    case Success(t0) =>
      match RandomColumn(tables, t0, d.columnDraw)
      case Failure(e) => Rendering(Failure(e), 0)
      case Success(c0) =>
        var base :=
          if Contains(query, RandomValueMarker) then RetryFrom(Passes(tables, d.retries), 0)
          else Retried(Success(Found(t0, c0, Null)), 0);
        match base.result
        case Failure(e) => Rendering(Failure(e), base.lookups)
        case Success(f) => Rendering(Fill(tables, query, f, d), base.lookups)
  }

  method ValorizeQuery(tables: Tables, query: string, d: RenderDraws) returns (r: Result<Context>, lookups: nat)
    ensures Rendering(r, lookups) == Valorize(tables, query, d)
  {
    lookups := 0;
    var drawnTable := RandomTable(tables, d.tableDraw);
    if drawnTable.Failure? {
      return Failure(drawnTable.error), 0;
    }
    var randomTable := drawnTable.value;
    var drawnColumn := RandomColumn(tables, randomTable, d.columnDraw);
    if drawnColumn.Failure? {
      return Failure(drawnColumn.error), 0;
    }
    var randomColumn := drawnColumn.value;
    var randomValue := Null;
    if Contains(query, RandomValueMarker) {
      var k := 0;
      while !Truthy(randomValue)
        invariant k <= |d.retries| && lookups == k
        invariant randomTable in Keys(tables) && randomColumn in Keys(Get(tables, randomTable))
        invariant !Truthy(randomValue) ==> RetryFrom(Passes(tables, d.retries), 0) == RetryFrom(Passes(tables, d.retries), k)
        invariant Truthy(randomValue) ==>
          RetryFrom(Passes(tables, d.retries), 0) == Retried(Success(Found(randomTable, randomColumn, randomValue)), lookups)
        decreases |d.retries| - k
      {
        if k == |d.retries| {
          return Failure(RetryUnresolved), lookups;
        }
        var a := d.retries[k];
        // The schema has a table, so this draw cannot raise.
        var t := RandomTable(tables, a.tableDraw);
        var c := RandomColumn(tables, t.value, a.columnDraw);
        if c.Failure? {
          return Failure(c.error), lookups;
        }
        lookups := lookups + 1;
        var v := RandomValue(a.fetched);
        if v.Failure? {
          return Failure(v.error), lookups;
        }
        randomTable, randomColumn, randomValue := t.value, c.value, v.value;
        k := k + 1;
      }
    }
    var secondRandomColumn: Option<string> := None;
    var appropriateValue := Null;
    if Contains(query, AppropriateValueMarker) {
      // `random_column` is a column of `random_table`, so this draw cannot raise.
      var c2 := RandomColumn(tables, randomTable, d.secondColumnDraw);
      var v := AppropriateValue(tables, randomTable, c2.value, d.valueDraws);
      if v.Failure? {
        return Failure(v.error), lookups;
      }
      secondRandomColumn, appropriateValue := Some(c2.value), v.value;
    }
    r := Success(Context("*", randomTable, randomColumn, randomValue, appropriateValue, secondRandomColumn));
  }

  /** Without the `random_value` marker, `random_value` is None, the context
      keeps the first table and column drawn, no value query is issued, and
      the result does not depend on the retry passes at all. A failing first
      table or column draw raises its error; once both succeed, a context is
      produced: exactly `all`, the two draws and None everywhere else without
      the `appropriate_value` marker, and with it only the KeyError of an
      unknown column type can stop it. */
  lemma ValorizeWithoutRandomValue(tables: Tables, query: string, d: RenderDraws, otherRetries: seq<Attempt>)
    requires !Contains(query, RandomValueMarker)
    ensures var v := Valorize(tables, query, d);
      && v.lookups == 0
      && v == Valorize(tables, query, d.(retries := otherRetries))
      && (v.result.Success? ==>
            && v.result.value.randomValue == Null
            && RandomTable(tables, d.tableDraw) == Success(v.result.value.randomTable)
            && RandomColumn(tables, v.result.value.randomTable, d.columnDraw) == Success(v.result.value.randomColumn))
    ensures var v := Valorize(tables, query, d);
      var first := RandomTable(tables, d.tableDraw);
      && (first.Failure? ==> v == Rendering(Failure(first.error), 0))
      && (first.Success? && RandomColumn(tables, first.value, d.columnDraw).Failure? ==>
            v == Rendering(Failure(RandomColumn(tables, first.value, d.columnDraw).error), 0))
      && (first.Success? && RandomColumn(tables, first.value, d.columnDraw).Success? ==>
            var t0 := first.value;
            var c0 := RandomColumn(tables, t0, d.columnDraw).value;
            && v == Rendering(Fill(tables, query, Found(t0, c0, Null), d), 0)
            && (!Contains(query, AppropriateValueMarker) ==>
                  v.result == Success(Context("*", t0, c0, Null, Null, None)))
            && (v.result.Failure? ==> Contains(query, AppropriateValueMarker) && v.result.error.KeyError?))
  {
  }

  /** The retry loop settled on the table, column and value of `ctx` after
      `lookups` of the passes `ps`: the last of them found that truthy value,
      every earlier one a falsy value. */
  predicate SettledBy(ps: seq<Pass>, lookups: nat, ctx: Context)
  {
    && 1 <= lookups <= |ps|
    && Truthy(ctx.randomValue)
    && ps[lookups - 1] == Looked(ctx.randomTable, ctx.randomColumn, Success(ctx.randomValue))
    && forall j :: 0 <= j < lookups - 1 ==> Falsy(ps[j])
  }

  /** With the `random_value` marker, a context is produced only with a
      truthy value, taken with its table and column from the last pass, all
      earlier passes having found falsy values; one value query is issued
      per pass. When every pass is falsy, no context is produced. */
  lemma ValorizeWithRandomValue(tables: Tables, query: string, d: RenderDraws)
    requires Contains(query, RandomValueMarker)
    ensures var v := Valorize(tables, query, d);
      var ps := Passes(tables, d.retries);
      && v.lookups <= |ps|
      && (v.result.Success? ==> SettledBy(ps, v.lookups, v.result.value))
      && ((forall j :: 0 <= j < |ps| ==> Falsy(ps[j])) ==> v.result.Failure?)
  {
    ValorizeRetried(tables, query, d);
    var ps := Passes(tables, d.retries);
    if forall j :: 0 <= j < |ps| ==> Falsy(ps[j]) {
      ValorizeUnresolved(tables, query, d);
    }
  }

  lemma ValorizeRetried(tables: Tables, query: string, d: RenderDraws)
    requires Contains(query, RandomValueMarker)
    ensures var v := Valorize(tables, query, d);
      var ps := Passes(tables, d.retries);
      && v.lookups <= |ps|
      && (v.result.Success? ==> SettledBy(ps, v.lookups, v.result.value))
  {
    var ps := Passes(tables, d.retries);
    RetryFromShape(ps, 0);
    var base := RetryFrom(ps, 0);
    var v := Valorize(tables, query, d);
    if v.result.Success? {
      var f := base.result.value;
      assert v.result == Fill(tables, query, f, d);
      FillShape(tables, query, f, d);
    }
  }

  lemma ValorizeUnresolved(tables: Tables, query: string, d: RenderDraws)
    requires Contains(query, RandomValueMarker)
    requires forall j :: 0 <= j < |d.retries| ==> Falsy(Passes(tables, d.retries)[j])
    ensures Valorize(tables, query, d).result.Failure?
  {
    RetryFromShape(Passes(tables, d.retries), 0);
  }

  /** With the `random_value` marker, once the first table and column draws
      succeed, a truthy value found by pass `j` after falsy passes settles the
      call: `j + 1` value queries are issued, and the context carries that
      pass's table, column and value. It is exactly that context when the
      `appropriate_value` marker is absent; otherwise only the KeyError of an
      unknown column type can still stop it. A failing first column draw
      raises its error before any value query. */
  lemma ValorizeSettles(tables: Tables, query: string, d: RenderDraws, j: nat)
    requires Contains(query, RandomValueMarker)
    requires j < |d.retries|
    requires forall m :: 0 <= m < j ==> Falsy(Passes(tables, d.retries)[m])
    requires Passes(tables, d.retries)[j].Looked?
    requires Passes(tables, d.retries)[j].value.Success? && Truthy(Passes(tables, d.retries)[j].value.value)
    ensures var p := Passes(tables, d.retries)[j];
      var v := Valorize(tables, query, d);
      var first := RandomTable(tables, d.tableDraw);
      && first.Success?
      && (RandomColumn(tables, first.value, d.columnDraw).Failure? ==>
            v == Rendering(Failure(RandomColumn(tables, first.value, d.columnDraw).error), 0))
      && (RandomColumn(tables, first.value, d.columnDraw).Success? ==>
            && v.lookups == j + 1
            && v.result == Fill(tables, query, Found(p.table, p.column, p.value.value), d)
            && (!Contains(query, AppropriateValueMarker) ==>
                  v.result == Success(Context("*", p.table, p.column, p.value.value, Null, None)))
            && (v.result.Failure? ==> Contains(query, AppropriateValueMarker) && v.result.error.KeyError?)
            && (v.result.Success? ==>
                  && v.result.value.randomTable == p.table
                  && v.result.value.randomColumn == p.column
                  && v.result.value.randomValue == p.value.value))
  {
    var ps := Passes(tables, d.retries);
    var p := ps[j];
    assert p == TryAttempt(tables, d.retries[j]);
    RetryFromFirst(ps, 0, j);
    var f := Found(p.table, p.column, p.value.value);
    FillShape(tables, query, f, d);
    if Contains(query, AppropriateValueMarker) {
      assert RandomColumn(tables, f.table, d.secondColumnDraw).Success?;
    }
  }

  /** What `Fill` puts in the context. */
  predicate FilledBy(tables: Tables, query: string, f: Found, d: RenderDraws, ctx: Context)
  {
    && ctx.all == "*"
    && ctx.randomTable == f.table && ctx.randomColumn == f.column && ctx.randomValue == f.value
    && (!Contains(query, AppropriateValueMarker) ==>
          ctx.secondRandomColumn == None && ctx.appropriateValue == Null)
    && (Contains(query, AppropriateValueMarker) ==>
          && ctx.secondRandomColumn.Some?
          && RandomColumn(tables, f.table, d.secondColumnDraw) == Success(ctx.secondRandomColumn.value)
          && ctx.secondRandomColumn.value in Keys(Get(tables, f.table))
          && AppropriateValue(tables, f.table, ctx.secondRandomColumn.value, d.valueDraws)
             == Success(ctx.appropriateValue))
  }

  lemma FillShape(tables: Tables, query: string, f: Found, d: RenderDraws)
    ensures Fill(tables, query, f, d).Success? ==> FilledBy(tables, query, f, d, Fill(tables, query, f, d).value)
  {
    if Contains(query, AppropriateValueMarker) {
      var c2 := RandomColumn(tables, f.table, d.secondColumnDraw);
      if c2.Success? {
        assert c2.value in Keys(Get(tables, f.table));
      }
    }
  }

  /** `second_random_column` and `appropriate_value` are None without the
      `appropriate_value` marker; with it, the second column is drawn from the
      final `random_table` and the value is synthesized for that column. */
  lemma ValorizeAppropriateValue(tables: Tables, query: string, d: RenderDraws)
    ensures var v := Valorize(tables, query, d);
      v.result.Success? ==>
        var ctx := v.result.value;
        && ctx.randomTable in Keys(tables)
        && ctx.randomColumn in Keys(Get(tables, ctx.randomTable))
        && FilledBy(tables, query, Found(ctx.randomTable, ctx.randomColumn, ctx.randomValue), d, ctx)
  {
    var v := Valorize(tables, query, d);
    if v.result.Success? {
      var t0 := RandomTable(tables, d.tableDraw).value;
      var c0 := RandomColumn(tables, t0, d.columnDraw).value;
      var ps := Passes(tables, d.retries);
      RetryFromShape(ps, 0);
      var base :=
        if Contains(query, RandomValueMarker) then RetryFrom(ps, 0)
        else Retried(Success(Found(t0, c0, Null)), 0);
      var f := base.result.value;
      if Contains(query, RandomValueMarker) {
        assert ps[base.lookups - 1] == TryAttempt(tables, d.retries[base.lookups - 1]);
      }
      assert f.table in Keys(tables) && f.column in Keys(Get(tables, f.table));
      FillShape(tables, query, f, d);
    }
  }
}
