# crudlify, modelled in Dafny

`crudlify` generates REST CRUD routes for named collections on top of a
Codehooks-style app and document datastore. This project models its core as
pure Dafny functions:

- **Admission and dispatch** (`index.js`): each of the eight handlers first
  decides whether the collection is admitted by the schema map. `createFunc`
  then goes one of three ways: validate and cast, insert raw, or refuse. The
  other handlers pass the body or query to exactly one storage primitive, and
  storage exceptions become responses as each handler's `try`/`catch` dictates.
  `Crud.Handle` maps a request to an `Outcome`: the storage call made (at most
  one, with its arguments) and the response written, or an exception that
  escapes the handler.
- **Setup** (`index.js`): option defaults (`yup`, `q2m`), and the loop that
  replaces every non-null schema with its compiled form under the
  `json-schema` option (`Schemas.PrepareSchemas`).
- **Query translator** (`lib/query/q2m/index.js`): `getMongoQuery` picks raw
  mode (JSON in `q`/`h`) or DSL mode (the query-to-mongo library's
  `{criteria, options}`). It copies `limit`, `offset` and `fields` only when
  they are truthy, and rethrows parse errors with the parser's message
  (`Query.GetMongoQuery`, specified by `Query.DescribesQuery`).
- **Hook registry** (`lib/eventhooks.js`): listeners are kept under the
  string key `"<collection> <phase><VERB>"`. The five registration operations
  overwrite one key. `fireBefore`/`fireAfter` call the stored callback or do
  nothing. `EventHooks.Run` plays a trace of registrations and firings.

The collaborators are parameters:
- the validator and caster (`Crud.Backend`);
- the query translator the handlers call (`Env.translate`);
- the storage backend (`Env.storage`), which returns a result or the value it throws;
- the query-to-mongo library (`Query.Q2m`);
- `JSON.parse` (`Query.Parser`), of which only `JSON.parse("{}") == {}` is assumed (`Query.JsonParseSane`);
- `ajv.compile` (the `compile` argument of `PrepareSchemas`).

JavaScript values are `Json.Value`, with JavaScript truthiness (`Json.Truthy`).

The model follows the code, with one exception: the admission rule. The code decides whether a
collection is unknown with `_schema[collection] === undefined`, and that test
also lets through the names every JavaScript object inherits (see
"## Findings"). The handlers use the evidently intended rule instead
(`Schemas.Admits`, `Schemas.CreatePathFor`), and the rule as written is
modelled separately (`Schemas.AdmitsAsWritten`, `Schemas.CreatePathAsWritten`).
Behaviour of the code that the model keeps:
- A successful create answers through `res.json` with the default status (`Crud.Ok`, 200).
- The handlers never fire hooks. `crudlify` does not return an `EventHooks` instance, so the registry is modelled on its own.
- A malformed raw query is not a client error:
  - in `readManyFunc` the translator's exception escapes the handler (`Unhandled`);
  - `patchManyFunc` and `deleteManyFunc` catch it and answer 404.
- Storage exceptions are treated differently depending on the path:
  - on the validated create path they end in 400 through the promise's `.catch`;
  - on the raw create path and in `readManyFunc` they are not caught;
  - elsewhere they give 404.
- The validation backend is chosen by `options.schema` alone.

## Model

| member | source | states |
|---|---|---|
| `Schemas.CreatePathFor` | index.js:73-104 | (the corrected rule) create refuses exactly the names a non-empty map lacks; validates exactly when the entry is a schema; inserts raw exactly for an explicit `null` entry or an empty map |
| `Schemas.AdmitsAsWritten` | index.js:111-113 | the guard as written admits a name exactly when the map is empty, holds the name, or the name is an inherited `Object.prototype` property |
| `Schemas.CreatePathAsWritten` | index.js:73-104 | the create branching as written validates for a schema entry and for any inherited name the map lacks, even when the map is empty; inserts raw for a `null` entry, or for an empty map and a name that is not inherited; refuses exactly what the written guard refuses |
| `Schemas.LookupAsWritten` | index.js:111 | `_schema[collection]` is an own entry exactly for the map's keys, and is `undefined` only for names that are neither keys nor inherited `Object.prototype` properties |
| `Schemas.AdmitsAsWrittenExceedsOnlyOnPrototypeNames` | index.js:111-113 | the written guard admits everything the intended one does; it admits more only for inherited names missing from a non-empty map |
| `Schemas.CreatePathAsWrittenDiffersOnlyOnPrototypeNames` | index.js:73-75 | the written create branching differs from the intended one exactly on inherited names missing from the map, which it sends to the validator |
| `Schemas.PrototypeNameBypassesAdmission` | index.js:127-129 | with only `books` declared, `constructor` passes the written guard and reaches the validator on create; the intended rule refuses it; with the empty map, create as written hands `constructor` to the validator where the intended rule inserts raw |
| `Schemas.SchemaModule` | index.js:43-44 | the validation backend is `options.schema` when it is a non-empty string, else `yup` (also when no options are passed); never empty |
| `Schemas.QueryModule` | index.js:39 | the query language is `options.query` when it is a non-empty string, else `q2m`; never empty |
| `Schemas.CompilesJsonSchemaIffBackend` | index.js:43-45 | the compile loop runs exactly when the loaded validation backend is `json-schema` |
| `Schemas.PrepareSchemas` | index.js:45-51 | under `json-schema`, every non-null entry becomes `compile` of it, `null` entries stay, the key set is unchanged; under any other option the map is untouched |
| `Query.RawDescriptor` | lib/query/q2m/index.js:14-27 | a raw-mode result satisfies `RawSpec`; a failing parse of `q`, then of `h`, yields that parser message; `h` parsing to `null` yields the TypeError of reading `limit` |
| `Query.DslDescriptor` | lib/query/q2m/index.js:28-43 | a DSL-mode result satisfies `DslSpec`: filter = criteria, hints = options plus `projection` from a truthy `fields`, `limit` from `limit`, `offset` from `skip`, each only when truthy, no top-level `fields` |
| `Query.GetMongoQuery` | lib/query/q2m/index.js:9-46 | every success satisfies the mode's specification; without a truthy `q`/`h` it never fails and the filter is the DSL criteria; failures occur only in raw mode; a failing parse of `q` is reported with its message |
| `Query.DslSpecUnique` | lib/query/q2m/index.js:30-42 | `DslSpec` pins the DSL descriptor down completely |
| `Query.RawSpecUnique` | lib/query/q2m/index.js:15-23 | `RawSpec` pins the raw descriptor down completely |
| `Query.GetMongoQueryMatchesSpec` | lib/query/q2m/index.js:9-46 | the translator returns `d` if and only if `d` satisfies the specification of the mode the query selects |
| `Query.RawFilterFromQ` | lib/query/q2m/index.js:16 | in raw mode the filter is `q` parsed, or `{}` when `q` is falsy |
| `Query.RawModeIgnoresCriteria` | lib/query/q2m/index.js:16-20 | in raw mode the DSL criteria never matter; with `h` the DSL result is not consulted at all |
| `Query.TranslationDeterministic` | lib/query/q2m/index.js:9-45 | two query objects with equal `q`, equal `h` and equal query-to-mongo readings give equal descriptors |
| `EventHooks.New` | lib/eventhooks.js:7-9 | a new registry holds no listener for any key |
| `EventHooks.ListenerKeyInjective` | lib/eventhooks.js:13-53 | for space-free verbs, equal listener keys mean equal collection, phase and verb, even for collection names with spaces |
| `EventHooks.PhaseKeysDistinct` | lib/eventhooks.js:13-22 | for one collection and verb, the before key and the after key differ |
| `EventHooks.OtherSlotKeysDiffer` | lib/eventhooks.js:29-55 | the five registrations for distinct (collection, slot) pairs write distinct keys |
| `EventHooks.Register` | lib/eventhooks.js:29-55 | a registration stores the callback under its key, adds only that key, and leaves the value of every other key unchanged |
| `EventHooks.RegisterLeavesOtherFiringsAlone` | lib/eventhooks.js:11-55 | after a registration, firing any other (collection, phase, space-free verb) calls what it called before |
| `EventHooks.BeforePut` | lib/eventhooks.js:29-33 | afterwards the before-PUT callback of the collection is the one given |
| `EventHooks.BeforePost` | lib/eventhooks.js:35-39 | afterwards the before-POST callback of the collection is the one given |
| `EventHooks.AfterPost` | lib/eventhooks.js:40-44 | afterwards the after-POST callback of the collection is the one given |
| `EventHooks.BeforePatch` | lib/eventhooks.js:46-50 | afterwards the before-PATCH callback of the collection is the one given |
| `EventHooks.BeforeDelete` | lib/eventhooks.js:51-55 | afterwards the before-DELETE callback of the collection is the one given |
| `EventHooks.Fire` | lib/eventhooks.js:11-27 | firing calls something exactly when a callback is stored for the key, and then calls that callback with the given data |
| `EventHooks.FireBefore` | lib/eventhooks.js:11-18 | `fireBefore` calls the before callback of (collection, verb) with the data, or nothing when none is stored |
| `EventHooks.FireAfter` | lib/eventhooks.js:19-27 | `fireAfter` calls the after callback of (collection, verb) with the data, or nothing when none is stored |
| `EventHooks.FireIgnoresOtherPhase` | lib/eventhooks.js:13-22 | registering an after-hook never changes what `fireBefore` calls for a space-free verb; registering a before-hook never changes `fireAfter` |
| `EventHooks.LastRegistrationWins` | lib/eventhooks.js:29-55 | after any trace, the stored callback of a slot is that of its last registration, or the initial one if the trace never registers it |
| `EventHooks.FiringNeverMutates` | lib/eventhooks.js:11-27 | a trace of firings leaves the registry as it was |
| `EventHooks.CallsOnlyRegistered` | lib/eventhooks.js:11-55 | along any trace of registrations and firings, every stored and every invoked callback was in the initial registry or was stored by a registration of the trace |
| `EventHooks.FreshRegistryNeverCalls` | lib/eventhooks.js:7-27 | firing on a registry nobody registered into calls nothing |
| `Crud.CreateOne` | index.js:69-105 | unknown name under a non-empty map: 400 `Collection not found: <name>`, no insert; raw path inserts the body as it came; schema path inserts only the cast of a validated body and answers a rejection, or a cast that throws, with 400 and the thrown value; storage errors give 400 on the schema path and escape on the raw path |
| `Crud.ReadManyDocs` | index.js:108-120 | unknown collection: 404 `No collection <name>` and no call; otherwise `getMany` with the translated descriptor; a translator or storage exception escapes |
| `Crud.ReadOneDoc` | index.js:122-137 | unknown collection: 404 and no call; otherwise `getOne(collection, ID)`; a storage exception ends a 404 with its message (a thrown `null`/`undefined` escapes, since reading its `message` throws) |
| `Crud.ReplaceOneDoc` | index.js:139-155 | unknown collection: 404 and no call; otherwise `replaceOne` gets the body unchanged; a storage exception gives 404 |
| `Crud.PatchOneDoc` | index.js:157-172 | unknown collection: 404 and no call; otherwise `updateOne` gets the body unchanged; a storage exception gives 404 |
| `Crud.PatchManyDocs` | index.js:174-191 | unknown collection: 404 and no call; a translator failure gives 404 with the error and no call; otherwise `updateMany` gets the body and the descriptor; a storage exception gives 404 |
| `Crud.DeleteOneDoc` | index.js:193-207 | unknown collection: 404 and no call; otherwise `removeOne(collection, ID)`; a storage exception gives 404 |
| `Crud.DeleteManyDocs` | index.js:209-225 | unknown collection: 404 and no call; a translator failure gives 404 with the error and no call; otherwise `removeMany` with the descriptor; a storage exception gives 404 |
| `Crud.Handle` | index.js:69-225 | for every handler: an unknown collection touches no storage; a call is the handler's own primitive on the requested collection; non-create writes forward the body; query handlers send exactly the translated descriptor; storage results are relayed with the default status, which only they produce; storage exceptions give 404 in the six handlers that catch them |
| `Crud.BackendOnlyGuardsSchemaCreates` | index.js:139-172 | only a create on a schema-governed collection consults the validator or caster; every other request has the same outcome under any backend |
| `Crud.EmptySchemaMapAdmitsAll` | index.js:95-99 | (the corrected rule) with an empty map every name is admitted: create inserts the body raw, and every other handler reaches storage unless translation fails |
| `Crud.CreateStoresOnlyCastOfValidated` | index.js:76-88 | an inserted document is the cast of a value the validator accepted; a rejected body gets 400 and no call |
| `Crud.DeleteByQueryScenario` | index.js:209-218 | DELETE `/anything/_byquery?limit=5` on an empty map removes by `{filter: {}, limit: 5}` |
| `Crud.ReadByRawFilterScenario` | index.js:108-119 | GET `/anything?q={"a":1}` on an empty map reads by the filter `{a: 1}` with no limit |

## Left out

- Datastore acquisition (`DB`, `app.addListener`, `setDatastore`) and `Datastore.open()` are left out as process-wide I/O. So is the failure of `open()` itself.
- Route registration (index.js:54-61) belongs to the host framework. Each route is a `Crud.Handler`, and the ordering of `_byquery` before `:ID` is not modelled.
- The response sink (`res.json`, `.send`, `.end`) is left out beyond the status and the kind of body written.
- Dynamic `import()` of backends is a foreign call. Only the resolved module names are modelled.
- Ajv compilation is a foreign call and is reduced to an opaque `compile` function.
- The yup, zod and json-schema wrappers are thin calls into libraries whose code is not part of this model. They become the `validate`/`cast` parameters.
- The query-to-mongo library and `JSON.parse` are abstract parameters.
- The `headers` argument of `getMongoQuery` is never read by it, so it is dropped.
- Promise scheduling is not modelled: the un-awaited `.then` chain in `createFunc`, and `fireBefore`/`fireAfter` not awaiting their callbacks. Each outcome is the final one.
- `EventHooks.Register` returns the updated registry. Returning the same instance for chaining is aliasing, which a value model does not have.
- Callbacks are assumed to be functions, hence truthy. A falsy or non-callable value registered as a hook is not modelled.
- JavaScript numbers are integers here. NaN, fractions and `-0` are not modelled.
- A thrown value's `message` is read as an own field. Getters and prototype chains of error objects are not modelled.
- A schema map whose own key holds `undefined` is not modelled; every key holds `null` or a schema.
- `Schemas.PrepareSchemas` returns the prepared map rather than mutating `_schema` in place, and assumes `_schema` is an object.
- Debug and console logging are left out.
- `Crud.ReadManyDocs`: `getMany` answers through `.json(res)` on the stream it returns, so the storage layer writes the response itself; the model relays its result as `res.json(result)` with the default status.
- `Crud.CreateOne`: the validator is assumed to report failure by rejecting its promise. A validator that throws synchronously (index.js:76) would escape `createFunc` before `.catch` is attached; that case is not modelled.

## Findings

| source | as written | input that shows it | evidently intended | confidence | as-written member | corrected member |
|---|---|---|---|---|---|---|
| index.js:111 | `_schema[collection] === undefined` decides that a collection is unknown; the same test guards every handler but create (lines 127, 143, 160, 176, 195, 211), and create branches on it (line 73) | schema map `{books: null}`, `GET /constructor/1`: `_schema["constructor"]` is the inherited `Object` function, so the request reaches `getOne("constructor", "1")`; `POST /constructor` hands that function to the validator; with the default empty map `{}`, `POST /constructor` also goes to the validator (index.js:73-76) with the inherited `Object` instead of inserting the body raw (index.js:95-98) | a name that is not a key of a non-empty schema map is refused: 404 for reads, writes and deletes, 400 for create; under an empty map every create inserts raw | medium, not executed | `Schemas.PrototypeNameBypassesAdmission` | `Crud.Handle` |

The dispatcher (`Crud.Handle`) uses the corrected rule `Schemas.Admits`: an
empty map, or a name that is a key of the map. `Schemas.CreatePathFor` is the
corrected create branching.
