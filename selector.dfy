/** The template selector: `QGen._get_allowed_queries` and `QGen.pick_query`.
    The two `random.choice` draws are supplied. */
module Selector {
  import opened Results
  import opened Dicts
  import opened Text
  import opened Random

  /** One verb's entry in the query template document. */
  datatype Entry = Entry(weight: int, queries: seq<string>)

  /** The query template document: verb to entry. */
  type Document = Dict<Entry>

  /** A document as the engine holds it: a parsed dict, so no verb twice. */
  type TemplateDocument = doc: Document | Valid(doc) witness []

  /** The dictionary `_get_allowed_queries` has built after visiting the
      first `n` keys of the document. The allowed verbs are compared as given:
      only the template's key is lower-cased. */
  function AllowedPrefix(doc: Document, verbs: seq<string>, n: nat): Document
    requires n <= |doc|
  {
    if n == 0 then []
    else
      var rest := AllowedPrefix(doc, verbs, n - 1);
      var k := Keys(doc)[n - 1];
      if Lower(k) in verbs then Put(rest, k, Get(doc, k)) else rest
  }

  /** `_get_allowed_queries()`. */
  function AllowedQueries(doc: Document, verbs: seq<string>): Document
  {
    AllowedPrefix(doc, verbs, |doc|)
  }

  method GetAllowedQueries(doc: Document, verbs: seq<string>) returns (allowed: Document)
    ensures allowed == AllowedQueries(doc, verbs)
  {
    allowed := [];
    var keys := Keys(doc);
    for i := 0 to |keys|
      invariant allowed == AllowedPrefix(doc, verbs, i)
    {
      var k := keys[i];
      if Lower(k) in verbs {
        allowed := Put(allowed, k, Get(doc, k));
      }
    }
  }

  lemma {:induction false} AllowedPrefixShape(doc: Document, verbs: seq<string>, n: nat)
    requires Valid(doc) && n <= |doc|
    ensures var r := AllowedPrefix(doc, verbs, n);
      && Valid(r)
      && (forall k :: k in Keys(r) <==> k in Keys(doc)[..n] && Lower(k) in verbs)
      && (forall k :: k in Keys(r) ==> Get(r, k) == Get(doc, k))
  {
    if n > 0 {
      AllowedPrefixShape(doc, verbs, n - 1);
      assert Keys(doc)[..n] == Keys(doc)[..n - 1] + [Keys(doc)[n - 1]];
    }
  }

  /** `_get_allowed_queries()` returns exactly the document's entries whose
      lower-cased verb is in the allowed list, with their values unchanged. */
  lemma AllowedQueriesShape(doc: Document, verbs: seq<string>)
    requires Valid(doc)
    ensures var r := AllowedQueries(doc, verbs);
      && Valid(r)
      && (forall k :: k in Keys(r) <==> k in Keys(doc) && Lower(k) in verbs)
      && (forall k :: k in Keys(r) ==> Get(r, k) == Get(doc, k))
  {
    AllowedPrefixShape(doc, verbs, |doc|);
    assert Keys(doc)[..|doc|] == Keys(doc);
  }

  lemma {:induction false} AllowedPrefixKeys(doc: Document, verbs: seq<string>, n: nat)
    requires n <= |doc|
    ensures forall k :: k in Keys(AllowedPrefix(doc, verbs, n)) ==> k in Keys(doc)
  {
    if n > 0 { AllowedPrefixKeys(doc, verbs, n - 1); }
  }

  /** `[v] * n`: empty when `n` is not positive. */
  function Repeat(v: string, n: int): (r: seq<string>)
    ensures |r| == if n > 0 then n else 0
    ensures forall i :: 0 <= i < |r| ==> r[i] == v
  {
    if n <= 0 then [] else [v] + Repeat(v, n - 1)
  }

  /** The population after extending it with the verbs `ks`, in order, each
      repeated as often as its weight in the document says. */
  function PopulationOf(doc: Document, ks: seq<string>): seq<string>
    requires forall k :: k in ks ==> k in Keys(doc)
  {
    if |ks| == 0 then []
    else PopulationOf(doc, ks[..|ks| - 1]) + Repeat(ks[|ks| - 1], Get(doc, ks[|ks| - 1]).weight)
  }

  /** The weighted population `pick_query` draws a verb from. */
  function Population(doc: Document, verbs: seq<string>): seq<string>
  {
    var allowed := AllowedQueries(doc, verbs);
    AllowedPrefixKeys(doc, verbs, |doc|);
    PopulationOf(doc, Keys(allowed))
  }

  /** The population loop of `pick_query`; the weight is read from the whole
      document, as the source does. */
  method BuildPopulation(doc: Document, allowed: Document) returns (population: seq<string>)
    requires forall k :: k in Keys(allowed) ==> k in Keys(doc)
    ensures population == PopulationOf(doc, Keys(allowed))
  {
    population := [];
    var keys := Keys(allowed);
    for i := 0 to |keys|
      invariant population == PopulationOf(doc, keys[..i])
    {
      var v := keys[i];
      assert keys[..i + 1][..i] == keys[..i];
      population := population + Repeat(v, Get(doc, v).weight);
    }
    assert keys[..|keys|] == keys;
  }

  function Max0(n: int): nat { if n > 0 then n else 0 }

  /** The sum of the (non-negative parts of the) weights of the verbs `ks`. */
  function TotalWeight(doc: Document, ks: seq<string>): nat
  {
    if |ks| == 0 then 0
    else
      var k := ks[|ks| - 1];
      TotalWeight(doc, ks[..|ks| - 1]) + (if k in Keys(doc) then Max0(Get(doc, k).weight) else 0)
  }

  /** The population holds each verb of `ks` exactly weight times and nothing
      else, so its length is the total weight. */
  lemma {:induction false} PopulationOfCounts(doc: Document, ks: seq<string>)
    requires forall k :: k in ks ==> k in Keys(doc)
    requires Distinct(ks)
    ensures |PopulationOf(doc, ks)| == TotalWeight(doc, ks)
    ensures forall v :: multiset(PopulationOf(doc, ks))[v] == if v in ks then Max0(Get(doc, v).weight) else 0
  {
    if |ks| > 0 {
      var init := ks[..|ks| - 1];
      var last := ks[|ks| - 1];
      assert Distinct(init);
      assert forall k :: k in ks <==> k in init || k == last;
      assert last !in init by {
        forall j | 0 <= j < |init| ensures init[j] != last { assert init[j] == ks[j]; }
      }
      PopulationOfCounts(doc, init);
      var rep := Repeat(last, Get(doc, last).weight);
      RepeatCount(last, Get(doc, last).weight);
      assert multiset(PopulationOf(doc, ks)) == multiset(PopulationOf(doc, init)) + multiset(rep);
    }
  }

  lemma {:induction false} RepeatCount(v: string, n: int)
    ensures forall w :: multiset(Repeat(v, n))[w] == if w == v then Max0(n) else 0
  {
    if n > 0 {
      RepeatCount(v, n - 1);
      assert multiset(Repeat(v, n)) == multiset{v} + multiset(Repeat(v, n - 1));
    }
  }

  /** The weighted population of `pick_query`: every allowed verb appears
      exactly its weight times (none when the weight is not positive), no
      other string appears, and its length is the sum of the allowed weights.
      A uniform draw therefore picks a verb with probability weight / total. */
  lemma PopulationShape(doc: Document, verbs: seq<string>)
    requires Valid(doc)
    ensures |Population(doc, verbs)| == TotalWeight(doc, Keys(AllowedQueries(doc, verbs)))
    ensures
      forall v :: multiset(Population(doc, verbs))[v] ==
           if v in Keys(doc) && Lower(v) in verbs then Max0(Get(doc, v).weight) else 0
  {
    AllowedQueriesShape(doc, verbs);
    AllowedPrefixKeys(doc, verbs, |doc|);
    PopulationOfCounts(doc, Keys(AllowedQueries(doc, verbs)));
  }

  /** `pick_query()` with `verbDraw` and `queryDraw` the two random draws. */
  function Pick(doc: Document, verbs: seq<string>, verbDraw: nat, queryDraw: nat): Result<(string, string)>
  {
    var allowed := AllowedQueries(doc, verbs);
    if |allowed| == 0 then Failure(NoQueries)
    else match Choice(Population(doc, verbs), verbDraw)
      case Failure(e) => Failure(e)
      case Success(verb) =>
        if Lower(verb) == "insert" then Failure(NotImplemented)
        else
          assert verb in Keys(allowed) by { PopulationMembers(doc, verbs); }
          match Choice(Get(allowed, verb).queries, queryDraw)
          case Failure(e) => Failure(e)
          case Success(query) => Success((verb, query))
  }

  lemma PopulationMembers(doc: Document, verbs: seq<string>)
    ensures forall v :: v in Population(doc, verbs) ==> v in Keys(AllowedQueries(doc, verbs))
  {
    AllowedPrefixKeys(doc, verbs, |doc|);
    PopulationOfMembers(doc, Keys(AllowedQueries(doc, verbs)));
  }

  lemma {:induction false} PopulationOfMembers(doc: Document, ks: seq<string>)
    requires forall k :: k in ks ==> k in Keys(doc)
    ensures forall v :: v in PopulationOf(doc, ks) ==> v in ks
  {
    if |ks| > 0 {
      var init := ks[..|ks| - 1];
      PopulationOfMembers(doc, init);
      assert forall k :: k in init ==> k in ks;
    }
  }

  method PickQuery(doc: Document, verbs: seq<string>, verbDraw: nat, queryDraw: nat)
    returns (r: Result<(string, string)>)
    ensures r == Pick(doc, verbs, verbDraw, queryDraw)
  {
    var allowed := GetAllowedQueries(doc, verbs);
    if |allowed| == 0 {
      return Failure(NoQueries);
    }
    AllowedPrefixKeys(doc, verbs, |doc|);
    var population := BuildPopulation(doc, allowed);
    var drawn := Choice(population, verbDraw);
    if drawn.Failure? {
      return Failure(drawn.error);
    }
    var verb := drawn.value;
    if Lower(verb) == "insert" {
      return Failure(NotImplemented);
    }
    PopulationMembers(doc, verbs);
    var query := Choice(Get(allowed, verb).queries, queryDraw);
    if query.Failure? {
      return Failure(query.error);
    }
    return Success((verb, query.value));
  }

  /** What `pick_query()` promises: it raises QGenNoQueriesException exactly
      when no document verb is allowed; a drawn verb that lower-cases to
      `insert` raises NotImplementedError; otherwise the verb returned is an
      allowed key of positive weight and the query is one of its templates. */
  lemma PickOutcome(doc: Document, verbs: seq<string>, verbDraw: nat, queryDraw: nat)
    requires Valid(doc)
    ensures var r := Pick(doc, verbs, verbDraw, queryDraw);
      && (r == Failure(NoQueries) <==> forall k :: k in Keys(doc) ==> Lower(k) !in verbs)
      && (var pop := Population(doc, verbs);
          |pop| > 0 && Lower(pop[verbDraw % |pop|]) == "insert" ==> r == Failure(NotImplemented))
      && (r.Success? ==>
            var (verb, query) := r.value;
            && verb in Keys(doc) && Lower(verb) in verbs && Lower(verb) != "insert"
            && Get(doc, verb).weight > 0
            && query in Get(doc, verb).queries)
  {
    var allowed := AllowedQueries(doc, verbs);
    AllowedQueriesShape(doc, verbs);
    PopulationShape(doc, verbs);
    if |allowed| == 0 {
      assert Keys(allowed) == [];
    } else {
      assert Keys(allowed)[0] in Keys(allowed);
      var pop := Population(doc, verbs);
      if |pop| > 0 {
        var verb := pop[verbDraw % |pop|];
        assert multiset(pop)[verb] > 0;
      }
    }
  }

  /** How the two draws decide `pick_query()` once a verb is allowed: the verb
      is the population element the verb draw selects, and the query is the
      template the query draw selects from that verb's list. An empty
      population or an empty template list raises IndexError. With
      `PickOutcome` this fixes the result for every document and draw. */
  lemma PickDrawn(doc: Document, verbs: seq<string>, verbDraw: nat, queryDraw: nat)
    requires Valid(doc)
    ensures var r := Pick(doc, verbs, verbDraw, queryDraw);
      var pop := Population(doc, verbs);
      && (|AllowedQueries(doc, verbs)| > 0 && |pop| == 0 ==> r == Failure(EmptySequence))
      && (|pop| > 0 ==>
            var v := pop[verbDraw % |pop|];
            && v in Keys(doc)
            && (Lower(v) != "insert" ==>
                  var qs := Get(doc, v).queries;
                  && (|qs| == 0 ==> r == Failure(EmptySequence))
                  && (|qs| > 0 ==> r == Success((v, qs[queryDraw % |qs|])))))
  {
    var pop := Population(doc, verbs);
    AllowedQueriesShape(doc, verbs);
    PopulationMembers(doc, verbs);
    if |pop| > 0 {
      var v := pop[verbDraw % |pop|];
      assert v in pop;
    }
  }
}
