/**
 The eight request handlers `crudlify` registers, as one pure function from a
 request to its outcome: the storage primitive called (at most one, with its
 arguments) and the response written. The validator, the caster, the query
 translator and the storage backend are parameters.
 */
module Crud {
  import opened Wrappers
  import opened Json
  import opened Schemas
  import Query

  /** One handler per route. */
  datatype Handler =
    | Create      // POST   /:collection
    | ReadMany    // GET    /:collection
    | ReadOne     // GET    /:collection/:ID
    | Replace     // PUT    /:collection/:ID
    | PatchMany   // PATCH  /:collection/_byquery
    | PatchOne    // PATCH  /:collection/:ID
    | DeleteMany  // DELETE /:collection/_byquery
    | DeleteOne   // DELETE /:collection/:ID

  /** What a handler reads from the request: `params.collection`, `params.ID`,
      `body` and `query`. */
  datatype Request = Request(handler: Handler, coll: string, id: string, body: Value, query: map<string, Value>)

  /** A call of one storage primitive with its arguments. The constant `{}`
      options argument of `replaceOne`, `updateOne` and `removeOne` is omitted. */
  datatype StorageCall =
    | InsertOne(coll: string, doc: Value)
    | GetOne(coll: string, id: string)
    | GetMany(coll: string, query: Query.Descriptor)
    | ReplaceOne(coll: string, id: string, doc: Value)
    | UpdateOne(coll: string, id: string, doc: Value)
    | UpdateMany(coll: string, doc: Value, query: Query.Descriptor)
    | RemoveOne(coll: string, id: string)
    | RemoveMany(coll: string, query: Query.Descriptor)

  /** The handler each primitive belongs to. */
  function HandlerOf(call: StorageCall): Handler {
    match call
    case InsertOne(_, _) => Create
    case GetOne(_, _) => ReadOne
    case GetMany(_, _) => ReadMany
    case ReplaceOne(_, _, _) => Replace
    case UpdateOne(_, _, _) => PatchOne
    case UpdateMany(_, _, _) => PatchMany
    case RemoveOne(_, _) => DeleteOne
    case RemoveMany(_, _) => DeleteMany
  }

  /** How the response is written: `res.json(v)`, `res.send(text)` or `res.end(v)`. */
  datatype Body = JsonBody(value: Value) | TextBody(text: string) | EndBody(value: Value)

  /** A written response, or an exception that escapes the handler so that
      the handler itself writes nothing. */
  datatype Response = Reply(status: int, body: Body) | Unhandled(thrown: Value)

  datatype Outcome = Outcome(call: Option<StorageCall>, response: Response)

  /** `res.json` without an explicit status answers with the default status. */
  const Ok := 200
  const BadRequest := 400
  const NotFound := 404

  /** The validation backend: `validate` resolves to a value or rejects;
      `cast` returns a document or throws. */
  datatype Backend<!S> = Backend(validate: (S, Value) -> Result<Value, Value>, cast: (S, Value) -> Result<Value, Value>)

  /** Everything a handler depends on besides the request. `translate` is the
      loaded query language's `getMongoQuery`, failing with a message;
      `storage` answers a call with its result or the value it throws. */
  datatype Env<!S> = Env(
    schemas: SchemaMap<S>,
    backend: Backend<S>,
    translate: map<string, Value> -> Result<Query.Descriptor, string>,
    storage: StorageCall -> Result<Value, Value>)

  /** How a handler treats an exception from its storage call. */
  datatype Catch =
    | Uncaught            // no try around the call
    | EndNotFound         // catch (e) { res.status(404).end(e) }
    | EndMessageNotFound  // catch (e) { res.status(404).end(e.message) }
    | JsonBadRequest      // the create path's .catch: res.status(400).json(err)

  function Caught(c: Catch, e: Value): Response {
    match c
    case Uncaught => Unhandled(e)
    case EndNotFound => Reply(NotFound, EndBody(e))
    case EndMessageNotFound =>
      // reading `e.message` of a thrown null throws again inside the catch
      if Nullish(e) then Unhandled(ErrorObject(ReadErrorMessage(e, "message")))
      else Reply(NotFound, EndBody(Get(e, "message")))
    case JsonBadRequest => Reply(BadRequest, JsonBody(e))
  }

  /** Issue one storage call and answer with its result. */
  function Perform<S>(env: Env<S>, call: StorageCall, c: Catch): (out: Outcome)
    ensures out.call == Some(call)
  {
    match env.storage(call)
    case Success(result) => Outcome(Some(call), Reply(Ok, JsonBody(result)))
    case Failure(e) => Outcome(Some(call), Caught(c, e))
  }

  /** The body of the 400 answer to a create on an unknown collection. */
  function CollectionNotFound(coll: string): Value {
    Obj(map["error" := Str("Collection not found: " + coll)])
  }

  /** The 404 answer of every other handler to an unknown collection. */
  function NoCollection(coll: string): Response {
    Reply(NotFound, TextBody("No collection " + coll))
  }

  /** `createFunc`. */
  function CreateOne<S>(env: Env<S>, coll: string, body: Value): (out: Outcome)
    ensures out.call.Some? ==> out.call.value.InsertOne? && out.call.value.coll == coll && Admits(env.schemas, coll)
    ensures !Admits(env.schemas, coll) ==> out == Outcome(None, Reply(BadRequest, JsonBody(CollectionNotFound(coll))))
    ensures CreatePathFor(env.schemas, coll) == InsertRaw ==> out.call == Some(InsertOne(coll, body))
    ensures CreatePathFor(env.schemas, coll) == ValidateThenCast ==>
              var s := env.schemas[coll].schema;
              var checked := env.backend.validate(s, body);
              && (checked.Failure? ==> out == Outcome(None, Reply(BadRequest, JsonBody(checked.error))))
              && (checked.Success? && env.backend.cast(s, checked.value).Failure? ==>
                    out == Outcome(None, Reply(BadRequest, JsonBody(env.backend.cast(s, checked.value).error))))
              && (out.call.Some? <==> checked.Success? && env.backend.cast(s, checked.value).Success?)
              && (out.call.Some? ==> env.backend.cast(s, checked.value) == Success(out.call.value.doc))
    ensures out.call.Some? && env.storage(out.call.value).Failure? ==>
              out.response == (if CreatePathFor(env.schemas, coll) == InsertRaw
                               then Unhandled(env.storage(out.call.value).error)
                               else Reply(BadRequest, JsonBody(env.storage(out.call.value).error)))
  {
    match CreatePathFor(env.schemas, coll)
    case RejectUnknown => Outcome(None, Reply(BadRequest, JsonBody(CollectionNotFound(coll))))
    case InsertRaw => Perform(env, InsertOne(coll, body), Uncaught)
    case ValidateThenCast =>
      var s := env.schemas[coll].schema;
      match env.backend.validate(s, body)
      case Failure(e) => Outcome(None, Reply(BadRequest, JsonBody(e)))
      case Success(v) =>
        match env.backend.cast(s, v)
        case Failure(e) => Outcome(None, Reply(BadRequest, JsonBody(e)))
        case Success(doc) => Perform(env, InsertOne(coll, doc), JsonBadRequest)
  }

  /** `readManyFunc`: the translator runs outside any try, and so does the
      storage call. */
  function ReadManyDocs<S>(env: Env<S>, coll: string, query: map<string, Value>): (out: Outcome)
    ensures !Admits(env.schemas, coll) ==> out == Outcome(None, NoCollection(coll))
    ensures Admits(env.schemas, coll) && env.translate(query).Failure? ==>
              out == Outcome(None, Unhandled(ErrorObject(env.translate(query).error)))
    ensures Admits(env.schemas, coll) && env.translate(query).Success? ==>
              out.call == Some(GetMany(coll, env.translate(query).value))
    ensures out.call.Some? && env.storage(out.call.value).Failure? ==>
              out.response == Unhandled(env.storage(out.call.value).error)
  {
    if !Admits(env.schemas, coll) then Outcome(None, NoCollection(coll))
    else match env.translate(query)
      case Failure(m) => Outcome(None, Unhandled(ErrorObject(m)))
      case Success(d) => Perform(env, GetMany(coll, d), Uncaught)
  }

  /** `readOneFunc`: a storage exception ends the response with its message. */
  function ReadOneDoc<S>(env: Env<S>, coll: string, id: string): (out: Outcome)
    ensures !Admits(env.schemas, coll) ==> out == Outcome(None, NoCollection(coll))
    ensures Admits(env.schemas, coll) ==> out.call == Some(GetOne(coll, id))
    ensures out.call.Some? && env.storage(out.call.value).Failure? && !Nullish(env.storage(out.call.value).error) ==>
              out.response == Reply(NotFound, EndBody(Get(env.storage(out.call.value).error, "message")))
  {
    if !Admits(env.schemas, coll) then Outcome(None, NoCollection(coll))
    else Perform(env, GetOne(coll, id), EndMessageNotFound)
  }

  /** `updateFunc`: the body replaces the document unvalidated. */
  function ReplaceOneDoc<S>(env: Env<S>, coll: string, id: string, body: Value): (out: Outcome)
    ensures !Admits(env.schemas, coll) ==> out == Outcome(None, NoCollection(coll))
    ensures Admits(env.schemas, coll) ==> out.call == Some(ReplaceOne(coll, id, body))
    ensures out.call.Some? && env.storage(out.call.value).Failure? ==>
              out.response == Reply(NotFound, EndBody(env.storage(out.call.value).error))
  {
    if !Admits(env.schemas, coll) then Outcome(None, NoCollection(coll))
    else Perform(env, ReplaceOne(coll, id, body), EndNotFound)
  }

  /** `patchFunc`: the body patches the document unvalidated. */
  function PatchOneDoc<S>(env: Env<S>, coll: string, id: string, body: Value): (out: Outcome)
    ensures !Admits(env.schemas, coll) ==> out == Outcome(None, NoCollection(coll))
    ensures Admits(env.schemas, coll) ==> out.call == Some(UpdateOne(coll, id, body))
    ensures out.call.Some? && env.storage(out.call.value).Failure? ==>
              out.response == Reply(NotFound, EndBody(env.storage(out.call.value).error))
  {
    if !Admits(env.schemas, coll) then Outcome(None, NoCollection(coll))
    else Perform(env, UpdateOne(coll, id, body), EndNotFound)
  }

  /** `patchManyFunc`: the translator runs inside the try. */
  function PatchManyDocs<S>(env: Env<S>, coll: string, body: Value, query: map<string, Value>): (out: Outcome)
    ensures !Admits(env.schemas, coll) ==> out == Outcome(None, NoCollection(coll))
    ensures Admits(env.schemas, coll) && env.translate(query).Failure? ==>
              out == Outcome(None, Reply(NotFound, EndBody(ErrorObject(env.translate(query).error))))
    ensures Admits(env.schemas, coll) && env.translate(query).Success? ==>
              out.call == Some(UpdateMany(coll, body, env.translate(query).value))
    ensures out.call.Some? && env.storage(out.call.value).Failure? ==>
              out.response == Reply(NotFound, EndBody(env.storage(out.call.value).error))
  {
    if !Admits(env.schemas, coll) then Outcome(None, NoCollection(coll))
    else match env.translate(query)
      case Failure(m) => Outcome(None, Reply(NotFound, EndBody(ErrorObject(m))))
      case Success(d) => Perform(env, UpdateMany(coll, body, d), EndNotFound)
  }

  /** `deleteFunc`. */
  function DeleteOneDoc<S>(env: Env<S>, coll: string, id: string): (out: Outcome)
    ensures !Admits(env.schemas, coll) ==> out == Outcome(None, NoCollection(coll))
    ensures Admits(env.schemas, coll) ==> out.call == Some(RemoveOne(coll, id))
    ensures out.call.Some? && env.storage(out.call.value).Failure? ==>
              out.response == Reply(NotFound, EndBody(env.storage(out.call.value).error))
  {
    if !Admits(env.schemas, coll) then Outcome(None, NoCollection(coll))
    else Perform(env, RemoveOne(coll, id), EndNotFound)
  }

  /** `deleteManyFunc`: the translator runs inside the try. */
  function DeleteManyDocs<S>(env: Env<S>, coll: string, query: map<string, Value>): (out: Outcome)
    ensures !Admits(env.schemas, coll) ==> out == Outcome(None, NoCollection(coll))
    ensures Admits(env.schemas, coll) && env.translate(query).Failure? ==>
              out == Outcome(None, Reply(NotFound, EndBody(ErrorObject(env.translate(query).error))))
    ensures Admits(env.schemas, coll) && env.translate(query).Success? ==>
              out.call == Some(RemoveMany(coll, env.translate(query).value))
    ensures out.call.Some? && env.storage(out.call.value).Failure? ==>
              out.response == Reply(NotFound, EndBody(env.storage(out.call.value).error))
  {
    if !Admits(env.schemas, coll) then Outcome(None, NoCollection(coll))
    else match env.translate(query)
      case Failure(m) => Outcome(None, Reply(NotFound, EndBody(ErrorObject(m))))
      case Success(d) => Perform(env, RemoveMany(coll, d), EndNotFound)
  }

  /** The handlers whose storage exceptions end in a 404. */
  predicate CatchesAsNotFound(h: Handler) {
    h in {ReadOne, Replace, PatchOne, PatchMany, DeleteOne, DeleteMany}
  }

  /** The handlers that run the query translator. */
  predicate UsesQuery(h: Handler) {
    h in {ReadMany, PatchMany, DeleteMany}
  }

  /** Any request, routed to its handler. */
  function Handle<S>(env: Env<S>, req: Request): (out: Outcome)
    // an unknown collection under a non-empty schema map touches no storage
    ensures !Admits(env.schemas, req.coll) ==> out.call.None?
    ensures !Admits(env.schemas, req.coll) && req.handler != Create ==> out.response == NoCollection(req.coll)
    // at most one call: the handler's own primitive, on the requested collection
    ensures out.call.Some? ==> Admits(env.schemas, req.coll) && out.call.value.coll == req.coll
    ensures out.call.Some? ==> HandlerOf(out.call.value) == req.handler
    // single-document handlers always reach storage once admitted, with the request's ID
    ensures Admits(env.schemas, req.coll) && req.handler in {ReadOne, Replace, PatchOne, DeleteOne} ==>
              out.call.Some? && out.call.value.id == req.id
    // every handler but create forwards the body untouched
    ensures out.call.Some? && req.handler in {Replace, PatchOne, PatchMany} ==> out.call.value.doc == req.body
    // the query handlers send exactly the translated descriptor, or nothing
    ensures out.call.Some? && UsesQuery(req.handler) ==> env.translate(req.query) == Success(out.call.value.query)
    ensures Admits(env.schemas, req.coll) && UsesQuery(req.handler) && env.translate(req.query).Failure? ==>
              out.call.None?
              && out.response == (if req.handler == ReadMany
                                  then Unhandled(ErrorObject(env.translate(req.query).error))
                                  else Reply(NotFound, EndBody(ErrorObject(env.translate(req.query).error))))
    // a storage result is always relayed, and the default status means one was
    ensures out.call.Some? && env.storage(out.call.value).Success? ==>
              out.response == Reply(Ok, JsonBody(env.storage(out.call.value).value))
    ensures out.response.Reply? && out.response.status == Ok ==>
              out.call.Some? && env.storage(out.call.value).Success?
    // storage exceptions collapse to 404 in six handlers
    ensures out.call.Some? && env.storage(out.call.value).Failure? && CatchesAsNotFound(req.handler) ==>
              (out.response.Reply? && out.response.status == NotFound)
              || (req.handler == ReadOne && Nullish(env.storage(out.call.value).error))
  {
    match req.handler
    case Create => CreateOne(env, req.coll, req.body)
    case ReadMany => ReadManyDocs(env, req.coll, req.query)
    case ReadOne => ReadOneDoc(env, req.coll, req.id)
    case Replace => ReplaceOneDoc(env, req.coll, req.id, req.body)
    case PatchOne => PatchOneDoc(env, req.coll, req.id, req.body)
    case PatchMany => PatchManyDocs(env, req.coll, req.body, req.query)
    case DeleteOne => DeleteOneDoc(env, req.coll, req.id)
    case DeleteMany => DeleteManyDocs(env, req.coll, req.query)
  }

  // ---------------------------------------------------------------------
  // Properties relating several runs
  // ---------------------------------------------------------------------

  /** Only a create on a schema-governed collection consults the validation
      backend: every other request has the same outcome under any backend. */
  lemma BackendOnlyGuardsSchemaCreates<S>(env: Env<S>, backend': Backend<S>, req: Request)
    requires req.handler != Create || CreatePathFor(env.schemas, req.coll) != ValidateThenCast
    ensures Handle(env, req) == Handle(env.(backend := backend'), req)
  {
  }

  /** With an empty schema map every collection is admitted: a create inserts
      the body as it came, and every other handler reaches storage unless the
      query translator fails. */
  lemma EmptySchemaMapAdmitsAll<S>(env: Env<S>, req: Request)
    requires |env.schemas| == 0
    ensures req.handler == Create ==> Handle(env, req).call == Some(InsertOne(req.coll, req.body))
    ensures req.handler != Create ==>
              (Handle(env, req).call.Some? <==> !UsesQuery(req.handler) || env.translate(req.query).Success?)
  {
  }

  /** Validation guards create: the stored document is the cast of what the
      validator accepted, and a rejected document never reaches storage. */
  lemma CreateStoresOnlyCastOfValidated<S>(env: Env<S>, coll: string, body: Value)
    requires coll in env.schemas && env.schemas[coll].Schema?
    ensures var s := env.schemas[coll].schema;
            var out := Handle(env, Request(Create, coll, "", body, map[]));
            && (out.call.Some? ==> exists v :: env.backend.validate(s, body) == Success(v)
                                                && env.backend.cast(s, v) == Success(out.call.value.doc))
            && (env.backend.validate(s, body).Failure? ==> out.call.None? && out.response.status == BadRequest)
  {
  }

  /** DELETE `/anything/_byquery?limit=5` with an empty schema map removes by
      the descriptor `{filter: {}, limit: 5}`. */
  lemma DeleteByQueryScenario<S>(env: Env<S>, q2m: Query.Q2m, parse: Query.Parser, query: map<string, Value>)
    requires env.schemas == map[]
    requires forall qs :: env.translate(qs) == Query.GetMongoQuery(q2m, parse, qs)
    requires query == map["limit" := Str("5")]
    requires q2m(query) == Query.Q2mResult(Obj(map[]), map["limit" := Num(5)])
    ensures Handle(env, Request(DeleteMany, "anything", "", Undefined, query)).call
            == Some(RemoveMany("anything", Query.Descriptor(Obj(map[]), Obj(map["limit" := Num(5)]), Some(Num(5)), None, None)))
  {
  }

  /** GET `/anything?q={"a":1}` with an empty schema map reads by the filter `{a: 1}`. */
  lemma ReadByRawFilterScenario<S>(env: Env<S>, q2m: Query.Q2m, parse: Query.Parser, query: map<string, Value>)
    requires env.schemas == map[]
    requires forall qs :: env.translate(qs) == Query.GetMongoQuery(q2m, parse, qs)
    requires query == map["q" := Str("{\"a\":1}")]
    requires parse(Str("{\"a\":1}")) == Success(Obj(map["a" := Num(1)]))
    requires Query.JsonParseSane(parse)
    requires q2m(query) == Query.Q2mResult(Obj(map[]), map[])
    ensures var out := Handle(env, Request(ReadMany, "anything", "", Undefined, query));
            out.call.Some? && out.call.value.query.filter == Obj(map["a" := Num(1)])
            && out.call.value.query.limit.None?
  {
  }
}
