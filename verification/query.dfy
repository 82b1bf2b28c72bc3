/**
 The query translator of the `q2m` query language (`getMongoQuery`): turns a
 request's query object into the descriptor handed to the storage backend,
 either from raw JSON in `q`/`h` or from the query-to-mongo DSL.
 */
module Query {
  import opened Wrappers
  import opened Json

  /** What the query-to-mongo library returns: `{criteria, options}`. */
  datatype Q2mResult = Q2mResult(criteria: Value, options: map<string, Value>)

  /** The object `getMongoQuery` returns; `None` is a property it never set. */
  datatype Descriptor = Descriptor(
    filter: Value,
    hints: Value,
    limit: Option<Value>,
    offset: Option<Value>,
    fields: Option<Value>)

  /** The query-to-mongo library, a collaborator whose code is not part of this model. */
  type Q2m = map<string, Value> -> Q2mResult

  /** `JSON.parse`: a value or the message of the SyntaxError it throws. */
  type Parser = Value -> Result<Value, string>

  /** The literal `"{}"` parsed in place of an absent `q` or `h`. */
  const EmptyJson: Value := Str("{}")

  /** The one thing the model assumes of `JSON.parse`: `"{}"` is the empty object. */
  predicate JsonParseSane(parse: Parser) {
    parse(EmptyJson) == Success(Obj(map[]))
  }

  /** Raw mode is chosen when `query.q || query.h` is truthy. */
  predicate RawRequested(query: map<string, Value>) {
    Truthy(Get(Obj(query), "q")) || Truthy(Get(Obj(query), "h"))
  }

  /** The text handed to `JSON.parse` for a raw parameter: `param || "{}"`. */
  function RawText(param: Value): (t: Value)
    ensures Truthy(t)
  {
    if Truthy(param) then param else EmptyJson
  }

  // ---------------------------------------------------------------------
  // Reference definitions: what a descriptor promises about its sources.
  // ---------------------------------------------------------------------

  /** `dst` is what `if (src) dst = src` leaves behind on a fresh object. */
  ghost predicate GuardedCopy(src: Value, dst: Option<Value>) {
    if Truthy(src) then dst == Some(src) else dst == None
  }

  /** A raw-mode descriptor: the filter is `q` parsed (or `{}`), the hints are
      `h` parsed or, without `h`, the DSL options; `limit`, `offset` and
      `fields` are the truthy ones among the hints' properties. */
  ghost predicate RawSpec(mq: Q2mResult, parse: Parser, q: Value, h: Value, d: Descriptor) {
    && parse(RawText(q)) == Success(d.filter)
    && parse(RawText(h)).Success?
    && (if Truthy(h) then parse(h) == Success(d.hints) else d.hints == Obj(mq.options))
    && !Nullish(d.hints)
    && GuardedCopy(Get(d.hints, "limit"), d.limit)
    && GuardedCopy(Get(d.hints, "offset"), d.offset)
    && GuardedCopy(Get(d.hints, "fields"), d.fields)
  }

  /** A DSL-mode descriptor: filter = criteria, hints = options with
      `projection` set from a truthy `fields`, `limit` from `limit`, `offset`
      from `skip`, each copied only when truthy, and no top-level `fields`. */
  ghost predicate DslSpec(mq: Q2mResult, d: Descriptor) {
    var opts := mq.options;
    && d.filter == mq.criteria
    && d.hints.Obj?
    && d.hints.fields - {"projection"} == opts - {"projection"}
    && (if Truthy(Get(Obj(opts), "fields"))
        then "projection" in d.hints.fields && d.hints.fields["projection"] == opts["fields"]
        else ("projection" in d.hints.fields <==> "projection" in opts)
             && ("projection" in opts ==> d.hints.fields["projection"] == opts["projection"]))
    && GuardedCopy(Get(Obj(opts), "limit"), d.limit)
    && GuardedCopy(Get(Obj(opts), "skip"), d.offset)
    && d.fields == None
  }

  /** The descriptor for a query object, by mode. */
  ghost predicate DescribesQuery(q2m: Q2m, parse: Parser, query: map<string, Value>, d: Descriptor) {
    if RawRequested(query)
    then RawSpec(q2m(query), parse, Get(Obj(query), "q"), Get(Obj(query), "h"), d)
    else DslSpec(q2m(query), d)
  }

  // ---------------------------------------------------------------------
  // The translator
  // ---------------------------------------------------------------------

  /** Raw mode, including the `catch` that rethrows with the original message. */
  function RawDescriptor(mq: Q2mResult, parse: Parser, q: Value, h: Value): (r: Result<Descriptor, string>)
    ensures r.Success? ==> RawSpec(mq, parse, q, h, r.value)
    ensures parse(RawText(q)).Failure? ==> r == Failure(parse(RawText(q)).error)
    ensures parse(RawText(q)).Success? && parse(RawText(h)).Failure? ==> r == Failure(parse(RawText(h)).error)
    ensures (parse(RawText(q)).Success? && Truthy(h) && parse(h) == Success(Null))
              ==> r == Failure(ReadErrorMessage(Null, "limit"))
  {
    var filter :- parse(RawText(q));
    var parsedHints :- parse(RawText(h));
    var hints := if Truthy(h) then parsedHints else Obj(mq.options);
    // `options.hints.limit` is the first property read; on null it throws.
    if Nullish(hints) then Failure(ReadErrorMessage(hints, "limit"))
    else
      var limit := Get(hints, "limit");
      var offset := Get(hints, "offset");
      var fields := Get(hints, "fields");
      Success(Descriptor(filter, hints, IfTruthy(limit), IfTruthy(offset), IfTruthy(fields)))
  }

  /** DSL mode: the query-to-mongo result reshaped; it cannot fail. */
  function DslDescriptor(mq: Q2mResult): (d: Descriptor)
    ensures DslSpec(mq, d)
  {
    var opts := mq.options;
    var hints := if Truthy(Get(Obj(opts), "fields")) then opts["projection" := opts["fields"]] else opts;
    Descriptor(mq.criteria, Obj(hints), IfTruthy(Get(Obj(opts), "limit")), IfTruthy(Get(Obj(opts), "skip")), None)
  }

  /** `getMongoQuery(query, headers)`; the headers are never read. */
  function GetMongoQuery(q2m: Q2m, parse: Parser, query: map<string, Value>): (r: Result<Descriptor, string>)
    ensures r.Success? ==> DescribesQuery(q2m, parse, query, r.value)
    ensures !RawRequested(query) ==> r.Success? && r.value.filter == q2m(query).criteria
    ensures r.Failure? ==> RawRequested(query)
    ensures (RawRequested(query) && parse(RawText(Get(Obj(query), "q"))).Failure?)
              ==> r == Failure(parse(RawText(Get(Obj(query), "q"))).error)
  {
    var mq := q2m(query);
    if RawRequested(query)
    then RawDescriptor(mq, parse, Get(Obj(query), "q"), Get(Obj(query), "h"))
    else Success(DslDescriptor(mq))
  }

  // ---------------------------------------------------------------------
  // Properties
  // ---------------------------------------------------------------------

  /** A DSL-mode descriptor is determined by its specification. */
  lemma DslSpecUnique(mq: Q2mResult, d: Descriptor)
    requires DslSpec(mq, d)
    ensures d == DslDescriptor(mq)
  {
    var opts := mq.options;
    var e := DslDescriptor(mq);
    var h := d.hints.fields;
    var eh := e.hints.fields;
    forall k
      ensures k in h <==> k in eh
    {
      if k != "projection" {
        assert k in h <==> k in h - {"projection"};
        assert k in eh <==> k in eh - {"projection"};
      }
    }
    forall k | k in h
      ensures h[k] == eh[k]
    {
      if k != "projection" {
        assert h[k] == (h - {"projection"})[k];
        assert eh[k] == (eh - {"projection"})[k];
      }
    }
    assert h == eh;
  }

  /** A raw-mode descriptor is determined by its specification. */
  lemma RawSpecUnique(mq: Q2mResult, parse: Parser, q: Value, h: Value, d: Descriptor)
    requires RawSpec(mq, parse, q, h, d)
    ensures RawDescriptor(mq, parse, q, h) == Success(d)
  {
  }

  /** The translator returns exactly the descriptor its specification describes. */
  lemma {:induction false} GetMongoQueryMatchesSpec(q2m: Q2m, parse: Parser, query: map<string, Value>, d: Descriptor)
    ensures GetMongoQuery(q2m, parse, query) == Success(d) <==> DescribesQuery(q2m, parse, query, d)
  {
    if DescribesQuery(q2m, parse, query, d) {
      if RawRequested(query) {
        RawSpecUnique(q2m(query), parse, Get(Obj(query), "q"), Get(Obj(query), "h"), d);
      } else {
        DslSpecUnique(q2m(query), d);
      }
    }
  }

  /** In raw mode the filter comes from `q` alone, or is `{}` without it. */
  lemma RawFilterFromQ(q2m: Q2m, parse: Parser, query: map<string, Value>)
    requires JsonParseSane(parse)
    requires RawRequested(query)
    requires GetMongoQuery(q2m, parse, query).Success?
    ensures var f := GetMongoQuery(q2m, parse, query).value.filter;
            if Truthy(Get(Obj(query), "q")) then parse(Get(Obj(query), "q")) == Success(f) else f == Obj(map[])
  {
  }

  /** In raw mode the DSL criteria never reach the descriptor, and with `h`
      the DSL result is not consulted at all. */
  lemma RawModeIgnoresCriteria(q2m: Q2m, q2m': Q2m, parse: Parser, query: map<string, Value>)
    requires RawRequested(query)
    requires Truthy(Get(Obj(query), "h")) || q2m(query).options == q2m'(query).options
    ensures GetMongoQuery(q2m, parse, query) == GetMongoQuery(q2m', parse, query)
  {
  }

  /** No hidden state: two query objects with the same `q`, the same `h` and
      the same query-to-mongo reading yield the same descriptor. */
  lemma TranslationDeterministic(q2m: Q2m, parse: Parser, query: map<string, Value>, query': map<string, Value>)
    requires Get(Obj(query), "q") == Get(Obj(query'), "q") && Get(Obj(query), "h") == Get(Obj(query'), "h")
    requires q2m(query) == q2m(query')
    ensures GetMongoQuery(q2m, parse, query) == GetMongoQuery(q2m, parse, query')
  {
  }
}
