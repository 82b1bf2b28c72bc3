/**
 The schema map handed to `crudlify`, the decision whether a request's
 collection is admitted, the choice of create path, the resolution of the
 `schema`/`query` options and the json-schema compile loop run at setup.
 */
module Schemas {
  import opened Wrappers

  /** What a schema map holds for a collection it names: an explicit `null`
      (collection allowed, nothing to validate) or a schema object. A name
      that is not a key of the map reads as `undefined`. */
  datatype Entry<S> = NullSchema | Schema(schema: S)

  type SchemaMap<S> = map<string, Entry<S>>

  /** A collection is admitted when the map is empty (anything goes) or names it. */
  predicate Admits<S>(schemas: SchemaMap<S>, coll: string) {
    |schemas| == 0 || coll in schemas
  }

  /** The three ways a create request can go. */
  datatype CreatePath = ValidateThenCast | InsertRaw | RejectUnknown

  /** The create path for a collection: a schema entry is validated and cast,
      an explicit `null` entry or an empty map inserts the body as it came,
      and an unknown name under a non-empty map is refused. */
  function CreatePathFor<S>(schemas: SchemaMap<S>, coll: string): (p: CreatePath)
    ensures p == RejectUnknown <==> !Admits(schemas, coll)
    ensures p == ValidateThenCast <==> coll in schemas && schemas[coll].Schema?
    ensures p == InsertRaw <==> (coll in schemas && schemas[coll].NullSchema?) || |schemas| == 0
  {
    if coll in schemas then
      if schemas[coll].Schema? then ValidateThenCast else InsertRaw
    else if |schemas| == 0 then InsertRaw
    else RejectUnknown
  }

  // ---------------------------------------------------------------------
  // The lookup as JavaScript performs it. `_schema[collection]` on an
  // ordinary object also finds the properties every object inherits, so
  // those names never read as `undefined`.
  // ---------------------------------------------------------------------

  /** The properties an ordinary object inherits from `Object.prototype`. */
  const ObjectPrototypeNames: set<string> := {
    "constructor", "__proto__", "hasOwnProperty", "isPrototypeOf",
    "propertyIsEnumerable", "toString", "toLocaleString", "valueOf",
    "__defineGetter__", "__defineSetter__", "__lookupGetter__", "__lookupSetter__"
  }

  /** What `_schema[collection]` evaluates to. */
  datatype PropertyRead<S> = Missing | Own(entry: Entry<S>) | Inherited

  function LookupAsWritten<S>(schemas: SchemaMap<S>, coll: string): (r: PropertyRead<S>)
    ensures r.Own? <==> coll in schemas
    ensures r.Own? ==> r.entry == schemas[coll]
    ensures r.Missing? <==> coll !in schemas && coll !in ObjectPrototypeNames
  {
    if coll in schemas then Own(schemas[coll])
    else if coll in ObjectPrototypeNames then Inherited
    else Missing
  }

  /** The guard of every handler but create, as written:
      `Object.keys(_schema).length > 0 && _schema[collection] === undefined` refuses. */
  function AdmitsAsWritten<S>(schemas: SchemaMap<S>, coll: string): (admitted: bool)
    ensures admitted <==> |schemas| == 0 || coll in schemas || coll in ObjectPrototypeNames
  {
    !(|schemas| > 0 && LookupAsWritten(schemas, coll).Missing?)
  }

  /** The create branching as written: any value other than `undefined` and
      `null`, an inherited property included, is handed to the validator. */
  function CreatePathAsWritten<S>(schemas: SchemaMap<S>, coll: string): (p: CreatePath)
    ensures p == ValidateThenCast <==> (coll in schemas && schemas[coll].Schema?)
                                       || (coll !in schemas && coll in ObjectPrototypeNames)
    ensures p == InsertRaw <==> (coll in schemas && schemas[coll].NullSchema?)
                                || (|schemas| == 0 && coll !in ObjectPrototypeNames)
    ensures p == RejectUnknown <==> !AdmitsAsWritten(schemas, coll)
  {
    match LookupAsWritten(schemas, coll)
    case Own(NullSchema) => InsertRaw
    case Own(Schema(_)) => ValidateThenCast
    case Inherited => ValidateThenCast
    case Missing => if |schemas| == 0 then InsertRaw else RejectUnknown
  }

  /** The written guard admits everything the intended one does, and more only
      for names inherited from `Object.prototype` that the map does not hold. */
  lemma AdmitsAsWrittenExceedsOnlyOnPrototypeNames<S>(schemas: SchemaMap<S>, coll: string)
    ensures Admits(schemas, coll) ==> AdmitsAsWritten(schemas, coll)
    ensures (AdmitsAsWritten(schemas, coll) && !Admits(schemas, coll))
              <==> |schemas| > 0 && coll !in schemas && coll in ObjectPrototypeNames
  {
  }

  /** The written create branching differs from the intended one exactly on
      inherited names, which it sends to the validator instead of refusing
      (or, with an empty map, instead of inserting raw). */
  lemma CreatePathAsWrittenDiffersOnlyOnPrototypeNames<S>(schemas: SchemaMap<S>, coll: string)
    ensures (CreatePathAsWritten(schemas, coll) != CreatePathFor(schemas, coll))
              <==> coll !in schemas && coll in ObjectPrototypeNames
    ensures (CreatePathAsWritten(schemas, coll) != CreatePathFor(schemas, coll))
              ==> CreatePathAsWritten(schemas, coll) == ValidateThenCast
  {
  }

  /** The counterexample: with only `books` declared, a request for
      `constructor` passes the written guard and reaches the validator on
      create; with the empty map, create hands `constructor` to the validator
      instead of inserting the body raw. */
  lemma PrototypeNameBypassesAdmission<S>()
    ensures var schemas: SchemaMap<S> := map["books" := NullSchema];
            && AdmitsAsWritten(schemas, "constructor")
            && !Admits(schemas, "constructor")
            && CreatePathAsWritten(schemas, "constructor") == ValidateThenCast
            && CreatePathFor(schemas, "constructor") == RejectUnknown
    ensures var empty: SchemaMap<S> := map[];
            && CreatePathAsWritten(empty, "constructor") == ValidateThenCast
            && CreatePathFor(empty, "constructor") == InsertRaw
  {
  }

  // ---------------------------------------------------------------------
  // Options and setup
  // ---------------------------------------------------------------------

  /** The `options` argument of `crudlify`; a missing property is `None`. */
  datatype Options = Options(schema: Option<string>, query: Option<string>)

  /** The default used when `options` is not passed at all. */
  const DefaultOptions: Options := Options(Some("yup"), Some("q2m"))

  function EffectiveOptions(opts: Option<Options>): Options {
    if opts.Some? then opts.value else DefaultOptions
  }

  /** `x || fallback` on an optional string. */
  function OrElse(x: Option<string>, fallback: string): (r: string)
    ensures r == fallback || (x.Some? && r == x.value)
    ensures x.Some? && x.value != "" ==> r == x.value
  {
    if x.Some? && x.value != "" then x.value else fallback
  }

  /** Name of the validation backend loaded from `lib/schema/`. */
  function SchemaModule(opts: Option<Options>): (name: string)
    ensures name != ""
    ensures opts.None? ==> name == "yup"
    ensures opts.Some? && opts.value.schema.Some? && opts.value.schema.value != "" ==> name == opts.value.schema.value
    ensures opts.Some? && (opts.value.schema.None? || opts.value.schema.value == "") ==> name == "yup"
  {
    OrElse(EffectiveOptions(opts).schema, "yup")
  }

  /** Name of the query language loaded from `lib/query/`. */
  function QueryModule(opts: Option<Options>): (name: string)
    ensures name != ""
    ensures opts.None? ==> name == "q2m"
    ensures opts.Some? && opts.value.query.Some? && opts.value.query.value != "" ==> name == opts.value.query.value
    ensures opts.Some? && (opts.value.query.None? || opts.value.query.value == "") ==> name == "q2m"
  {
    OrElse(EffectiveOptions(opts).query, "q2m")
  }

  /** Whether setup compiles the schema map: `options.schema === 'json-schema'`. */
  predicate CompilesJsonSchema(opts: Option<Options>) {
    EffectiveOptions(opts).schema == Some("json-schema")
  }

  /** The compile step runs exactly when the json-schema backend is the one loaded. */
  lemma CompilesJsonSchemaIffBackend(opts: Option<Options>)
    ensures CompilesJsonSchema(opts) <==> SchemaModule(opts) == "json-schema"
  {
  }

  /** The setup loop over the schema map: under the json-schema option every
      non-null entry is replaced by its compiled form (`compile` stands for
      wrapping `ajv.compile(value)`); `null` entries and the key set stay. */
  method PrepareSchemas<S>(opts: Option<Options>, schemas: SchemaMap<S>, compile: S -> S)
    returns (prepared: SchemaMap<S>)
    ensures prepared.Keys == schemas.Keys
    ensures forall k :: k in schemas && schemas[k].NullSchema? ==> prepared[k] == NullSchema
    ensures forall k :: k in schemas && schemas[k].Schema? && CompilesJsonSchema(opts)
              ==> prepared[k] == Schema(compile(schemas[k].schema))
    ensures !CompilesJsonSchema(opts) ==> prepared == schemas
  {
    prepared := schemas;
    if CompilesJsonSchema(opts) {
      var pending := schemas.Keys;
      while pending != {}
        invariant pending <= schemas.Keys
        invariant prepared.Keys == schemas.Keys
        invariant forall k :: k in pending ==> prepared[k] == schemas[k]
        invariant forall k :: k in schemas && k !in pending && schemas[k].NullSchema? ==> prepared[k] == NullSchema
        invariant forall k :: k in schemas && k !in pending && schemas[k].Schema?
                    ==> prepared[k] == Schema(compile(schemas[k].schema))
        decreases pending
      {
        var k :| k in pending;
        if prepared[k].Schema? {
          prepared := prepared[k := Schema(compile(prepared[k].schema))];
        }
        pending := pending - {k};
      }
    }
  }
}
