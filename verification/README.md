# restycorn, modelled in Dafny

restycorn serves REST resources over HTTP. A resource is an object with eight
asynchronous operations: `list`, `get`, `replace_all`, `create`,
`delete_all`, `create_or_replace`, `update` and `delete`. The server routes
each resource under three URL templates. A request handler maps the HTTP verb
to an operation. It binds the request's path, body and query-string arguments
to the operation's declared parameters, calls the operation and wraps the
outcome in a JSON envelope with a status code. A resource can ask for its
responses to be kept in a time-limited cache shared by all handlers.

This project models that core. Each source file has a module:

- `RestycornTypes`: the `uint` type that the `page` parameter is declared with.
- `PostgreSQLSerializer`: the row serializer. Declared fields (`"src as
  alias"`) become a source-to-alias map, and `serialize` renames a row's
  columns and checks it is complete.
- `PostgreSQLReadOnlyResource`: the query compiler behind `list` and `get`.
  - Untrusted text becomes an abstract `QueryPlan`: the sort field and
    direction, the escaped search pattern, the `&&`-separated filter clauses,
    paging and count mode.
  - The database is a pair of functions from plans to rows.
  - The compiler is proved equal to a method that builds the plan step by
    step, as the source does.
- `ReadOnlyResource`: the base class whose mutators refuse.
- `InMemoryResource`: the `TestResource` of `main.py`, a class whose dict and
  id counter change in place. Its methods are proved to follow step
  functions on a `Store` value. Properties over whole sequences of calls are
  proved on those step functions.
- `ParamBinder`: `_prepare_params`. The binding is proved equal to a method
  with the source's loops. The schema `inspect.signature` reports is an
  explicit list of parameters (name, declared kind, default).
- `ResourceRequestHandler`: routing by verb, `make_request` (envelope and
  exception mapping) and `pre_request` (the cache). The handler is a class
  over a shared `RequestCache` object. Its methods are proved equal to pure
  specification functions, and the cache properties are proved once for any
  computation.
- `Server`: the port check and the route table that `register_resource`
  appends to.

Four modules support the others:

- `Wrappers`: Option, Result, and an in-order map over a fallible step.
- `PyStrings`: Python's `strip`, `find`, `split`, `replace` and `int()`
  parsing.
- `Values`: Python values, string-keyed dicts as ordered pairs, `int()`,
  `bool()` and `str()`.
- `BaseResource`: the operation names, the parameter schema and the result
  shapes. base_resource.py is not part of this model.

Exceptions are values of `Values.Exc`. An operation that raises returns
`Failure`.

A `uint` is a subset type of `int`. Its six comparisons are therefore those
of the underlying integer, as the overrides in
`restycorn/restycorn_types.py:23-39` promise.

Two behaviours of the code are modelled as written:

- **Cache overflow.** `pre_request` inserts the new entry, then clears the
  whole cache when it is over its bound, then reads the entry back. After a
  clear that read raises `KeyError`, so the request fails and no response
  comes back (`OverflowRaises`). The model does not clear first and answer.
- **Expired entries.** An expired entry is recomputed and stored, but the
  request is answered with the stale response read just before
  (`StaleHit`). It is not answered with the fresh one.

## Model

| member | source | states |
|---|---|---|
| `RestycornTypes.Checked` | restycorn/restycorn_types.py:4-6 | The range check accepts exactly the non-negative integers, keeping the value. Anything else raises `ValueError("Value of uint type cannot be negative")`. |
| `RestycornTypes.New` | restycorn/restycorn_types.py:2-6 | `uint(v)` passes on the error of `int(v)`. Otherwise it succeeds exactly when `int(v) >= 0`, and its value is `int(v)`. Below zero it raises the negative-value `ValueError`. |
| `RestycornTypes.Add` | restycorn/restycorn_types.py:8-9 | `a + b` succeeds exactly when the integer sum is non-negative, and gives that sum. |
| `RestycornTypes.Sub` | restycorn/restycorn_types.py:11-12 | `a - b` raises the negative-value `ValueError` exactly when `b > a`. Otherwise it gives the difference. |
| `RestycornTypes.Mul` | restycorn/restycorn_types.py:14-15 | `a * b` gives the integer product and never fails for a non-negative factor. |
| `RestycornTypes.FloorMod` | restycorn/restycorn_types.py:17-18 | Python's remainder: in `[0, b)` for a positive divisor and in `(b, 0]` for a negative one. For a positive divisor it agrees with the Euclidean `%`. |
| `RestycornTypes.Mod` | restycorn/restycorn_types.py:17-18 | `a % b` raises `ZeroDivisionError` exactly when `b == 0`. A positive divisor gives the plain remainder. A negative divisor succeeds exactly when `a` is a multiple of it. |
| `RestycornTypes.Hash` | restycorn/restycorn_types.py:41-42 | `hash(u)` is Python's integer hash of the value. It lies in `[0, 2**61 - 1)` and equals the value below that modulus. |
| `PostgreSQLSerializer.SourceAndAlias` | restycorn/postgresql_serializer.py:7-11 | A field without `' as '` is both source and alias. |
| `PostgreSQLSerializer.AliasedField` | restycorn/postgresql_serializer.py:8-9 | For a field with `' as '`, the source is the text before the first `' as '` and the alias is the next segment. Neither contains `' as '`. The field reads source, `' as '`, alias, then nothing or another `' as '`. |
| `PostgreSQLSerializer.Declared` | restycorn/postgresql_serializer.py:10 | There is one (source, alias) pair per declared field, in declaration order. |
| `PostgreSQLSerializer.PairMapKeys` | restycorn/postgresql_serializer.py:7-11 | The comprehension's keys are exactly the sources of the pairs. |
| `PostgreSQLSerializer.AliasMap` | restycorn/postgresql_serializer.py:7-11 | The serializer's map has exactly the declared fields' sources as keys. |
| `PostgreSQLSerializer.PairMapDistinct` | restycorn/postgresql_serializer.py:7-11 | When no two pairs share a source, each source maps to its own alias and there is one entry per pair. |
| `PostgreSQLSerializer.AliasMapDistinct` | restycorn/postgresql_serializer.py:7-11 | When no two declared fields share a source, each field's source maps to its own alias and there is one entry per field. |
| `PostgreSQLSerializer.Renamed` | restycorn/postgresql_serializer.py:15-18 | Exactly the row columns that are mapped sources are copied, each under its alias. All other columns are dropped. |
| `PostgreSQLSerializer.Serialize` | restycorn/postgresql_serializer.py:14-23 | The loop that fills `result` ends with the renamed row as a dict. It raises `SerializationError` exactly when that dict's size differs from the map's. |
| `PostgreSQLSerializer.MissingFieldFails` | restycorn/postgresql_serializer.py:20-21 | A declared source missing from the row makes `serialize` raise `SerializationError`. |
| `PostgreSQLSerializer.CompleteRowSerializes` | restycorn/postgresql_serializer.py:14-23 | For a row holding every source, with distinct aliases, `serialize` succeeds. Its keys are exactly the aliases, each with the row's value for its source. |
| `PostgreSQLSerializer.RenamedFinal` | restycorn/postgresql_serializer.py:15-18 | Each alias carries the value of the last occurrence of its source in the row. |
| `PostgreSQLReadOnlyResource.New` | restycorn/postgresql_read_only_resource.py:16-27 | The constructor turns an absent `search_by` or `filter_by` into an empty one and builds the serializer from the declared fields. The other settings are stored as given. |
| `PostgreSQLReadOnlyResource.Convert` | restycorn/postgresql_read_only_resource.py:89-92 | `python_type(text)`: a string column keeps the text and a boolean column takes its truth value. An integer column parses the text, and fails exactly when `int()` would. |
| `PostgreSQLReadOnlyResource.SortResolution` | restycorn/postgresql_read_only_resource.py:33-47 | The stripped `order_by`, less one leading `-`, must be an allowed field, or the sort message is raised. Otherwise it must be a column, or `AttributeError` is raised. Otherwise the `-` selects descending order. |
| `PostgreSQLReadOnlyResource.DefaultSort` | restycorn/postgresql_read_only_resource.py:30-31 | A missing `order_by` acts as the first allowed field. With no allowed field, `list` raises `IndexError`. |
| `PostgreSQLReadOnlyResource.PlainFieldSort` | restycorn/postgresql_read_only_resource.py:33-43 | An allowed column named without surrounding spaces or a `-` sorts ascending by that column. |
| `PostgreSQLReadOnlyResource.DisallowedSortFails` | restycorn/postgresql_read_only_resource.py:35-36 | A disallowed sort field fails the whole call with the sort message, before anything else is checked. |
| `PostgreSQLReadOnlyResource.EscapeIsEscapeEach` | restycorn/postgresql_read_only_resource.py:65 | The four successive `replace` calls prefix each `!`, `%`, `_` and `[` with exactly one `!` and keep every other character. |
| `PostgreSQLReadOnlyResource.UnescapeEscapeEach` | restycorn/postgresql_read_only_resource.py:65 | Reading `!` as "next character is literal" undoes the escaping. |
| `PostgreSQLReadOnlyResource.SearchPattern` | restycorn/postgresql_read_only_resource.py:63-65 | The pattern is wrapped in `%` on both sides. |
| `PostgreSQLReadOnlyResource.SearchPatternRoundTrip` | restycorn/postgresql_read_only_resource.py:63-65 | Removing the wrapping `%` and un-escaping gives back the stripped search text. |
| `PostgreSQLReadOnlyResource.MissingColumn` | restycorn/postgresql_read_only_resource.py:68-69 | It finds the first search field that is not a column, or reports that every field is a column. |
| `PostgreSQLReadOnlyResource.SearchPlan` | restycorn/postgresql_read_only_resource.py:62-71 | Absent or empty text adds no search. Other text adds the escaped pattern, matched against every search field. |
| `PostgreSQLReadOnlyResource.SearchConditions` | restycorn/postgresql_read_only_resource.py:62-71 | The loop adding one `ilike` per search field yields the same search or the same `AttributeError` as the specification. |
| `PostgreSQLReadOnlyResource.Scan` | restycorn/postgresql_read_only_resource.py:75 | The match positions of the filter pattern lie inside the clause. |
| `PostgreSQLReadOnlyResource.ScanSound` | restycorn/postgresql_read_only_resource.py:75 | A successful scan is a match of `([a-zA-Z0-9_]+)\s*?([><=])\s*?([a-zA-Z0-9_]+)` at the start of the clause. Its value runs as far as the word characters do. |
| `PostgreSQLReadOnlyResource.ScanComplete` | restycorn/postgresql_read_only_resource.py:75-77 | Whenever the pattern can match at the start, the scan succeeds with the same field, spaces and operator. So "Bad filter expression" is raised exactly when no match exists. |
| `PostgreSQLReadOnlyResource.ClauseAllowed` | restycorn/postgresql_read_only_resource.py:79-101 | A matched clause compiles exactly when its field is in `filter_by`, its operator is in that field's tuple, the field is a column and the column type accepts the value. The predicate is then the clause's own field and operator with the converted value. |
| `PostgreSQLReadOnlyResource.ClauseRejected` | restycorn/postgresql_read_only_resource.py:81-92 | Checked in this order: a field outside `filter_by` raises "It's not allowed to filter by this field"; an operator outside the field's tuple raises "... using this operator"; a field that is not a column raises `AttributeError`; a value the column type refuses raises `Bad value for filter by field "table.field"`. |
| `PostgreSQLReadOnlyResource.CompileClauseSpec` | restycorn/postgresql_read_only_resource.py:75-101 | A clause whose stripped text does not match the pattern raises "Bad filter expression". A matched one gives the outcome of the checks on its groups, and a compiled one is that clause's predicate. |
| `PostgreSQLReadOnlyResource.CompileFiltersEach` | restycorn/postgresql_read_only_resource.py:74-101 | A list of clause texts compiles exactly when each clause does. Predicate `k` is then clause `k` compiled, with one predicate per clause. |
| `PostgreSQLReadOnlyResource.FiltersAllowed` | restycorn/postgresql_read_only_resource.py:73-101 | No filter or empty filter text gives no predicates. Other text is split on `&&`, and it compiles exactly when every clause does. Predicate `k` is then clause `k`'s field and operator with its value converted by the column type. |
| `PostgreSQLReadOnlyResource.FilterFirstFailure` | restycorn/postgresql_read_only_resource.py:74-92 | The first clause that does not compile decides the error the whole filter raises. |
| `PostgreSQLReadOnlyResource.NoFilterFieldsRejectAll` | restycorn/postgresql_read_only_resource.py:81-82 | A resource declared without `filter_by` rejects every non-empty filter with a validation error. |
| `PostgreSQLReadOnlyResource.CompileClauses` | restycorn/postgresql_read_only_resource.py:74-101 | The loop over the `&&`-separated clauses gives the predicates in order, or the first clause's error. |
| `PostgreSQLReadOnlyResource.FilterPredicates` | restycorn/postgresql_read_only_resource.py:73-74 | Absent or empty filter text gives no predicates. Other text is split on `&&` and compiled. |
| `PostgreSQLReadOnlyResource.PlanShape` | restycorn/postgresql_read_only_resource.py:49-109 | Counting selects the count and drops the ordering. A paginated resource limits to its page size and offsets by `page * page_size` exactly when the page is not zero. An unpaginated resource does neither. Search and filters are those of their compilers. |
| `PostgreSQLReadOnlyResource.SerializeRowsEach` | restycorn/postgresql_read_only_resource.py:133 | Serializing the rows succeeds exactly when each row does, giving one dict per row in order. Otherwise it raises `SerializationError`. |
| `PostgreSQLReadOnlyResource.SerializeAll` | restycorn/postgresql_read_only_resource.py:133 | The comprehension, row by row, equals its specification. |
| `PostgreSQLReadOnlyResource.List` | restycorn/postgresql_read_only_resource.py:29-133 | `list` builds the plan step by step, runs it, and returns `([], {'count': first cell})` in count mode or the serialized rows otherwise. The outcome equals the compiled specification. |
| `PostgreSQLReadOnlyResource.GetPlan` | restycorn/postgresql_read_only_resource.py:136-144 | An id field that is not a column raises `AttributeError`. Otherwise the id is converted by the id column's type. A refused id raises the bad-value validation error, and an accepted one is looked up in that column of the table as the converted value. |
| `PostgreSQLReadOnlyResource.GetResult` | restycorn/postgresql_read_only_resource.py:135-156 | An id that the integer id column cannot parse gives the bad-value validation error. A missing row gives `ResourceItemDoesNotExistException`. A found row gives its serialization. |
| `PostgreSQLReadOnlyResource.Signature` | restycorn/postgresql_read_only_resource.py:29 | The declared parameters of `list` (with their types and defaults), `get` and the mutators name no parameter twice. |
| `PostgreSQLReadOnlyResource.Invoke` | restycorn/postgresql_read_only_resource.py:158-174 | All six mutators raise `MethodIsNotAllowedException`. `list` and `get` give their specified outcomes for the bound arguments. |
| `ReadOnlyResource.Signature` | restycorn/read_only_resource.py:9-44 | These are the declared parameters: `list()`, `get(item_id)` and the six mutators. `list()` and `get(item_id)` are stated exactly. |
| `ReadOnlyResource.Invoke` | restycorn/read_only_resource.py:9-44 | Every call raises: `NotImplementedError` exactly for `list` and `get`, and `MethodIsNotAllowedException` exactly for the six mutators. |
| `InMemoryResource.GetItem` | main.py:66-71 | `get` passes the id through `int()` and passes on its error. An integer id that is absent raises `ResourceItemDoesNotExistException`. Otherwise the stored item is returned. |
| `InMemoryResource.CreateThenGet` | main.py:57-71 | An item `create` stores is returned by `get` given the decimal text of its id. |
| `InMemoryResource.CreateOrReplaceInvisibleToGet` | main.py:66-75 | `create_or_replace` stores under the raw text id, so `get` of the same text does not find it. |
| `InMemoryResource.CreatedNotDeletableByText` | main.py:83-84 | A created item is stored under an integer, so `delete` given its id as text raises `KeyError`. |
| `InMemoryResource.IdsNeverReused` | main.py:57-64 | Over any sequence of calls, including `delete_all` and `replace_all`, the counter grows by the number of creates. The ids handed out are consecutive and strictly increasing, so none is reused. |
| `InMemoryResource.Signature` | main.py:52-84 | The declared parameters of `list()`, `get(item_id)` and the mutators name no parameter twice. |
| `InMemoryResource.TestResource.constructor` | main.py:16-18 | A new resource has an empty dict and counter 0. |
| `InMemoryResource.TestResource.Create` | main.py:57-61 | The counter goes up by exactly one and the item is stored under the new id and returned. Nothing else changes. |
| `InMemoryResource.TestResource.ReplaceAll` | main.py:52-55 | All entries are discarded. The creates are not awaited, so nothing is inserted and the counter is unchanged. |
| `InMemoryResource.TestResource.DeleteAll` | main.py:63-64 | The dict is emptied and the counter kept. |
| `InMemoryResource.TestResource.Get` | main.py:66-71 | This is the `get` above, on the object's state, which it does not change. A returned item is one of the stored values. |
| `InMemoryResource.TestResource.CreateOrReplace` | main.py:73-75 | The item is stored under the raw id, replacing any earlier entry, and returned. The counter is unchanged. |
| `InMemoryResource.TestResource.Delete` | main.py:83-84 | Exactly the given key is removed. An absent key raises `KeyError` and changes nothing. |
| `InMemoryResource.TestResource.Invoke` | main.py:29-84 | Calling an operation with bound arguments goes through the methods. The result and the new state are those of the step functions. |
| `Values.FirstWins` | restycorn/resource_request_handler.py:112 | `dict(request.query)` has each query key once, holding the value of its first occurrence, as `request.query[key]` gives it. |
| `Values.UniqueFinal` | restycorn/resource_request_handler.py:112 | In a dict without repeated keys, the last value stored for a key is its only value. |
| `Values.Update` | restycorn/resource_request_handler.py:112 | After `d.update(e)`, the keys are the union, keys in `e` take `e`'s last value, and the others keep `d`'s. |
| `Values.IntOf` | main.py:67 | `int(v)` keeps an integer, and fails only with `TypeError` or `ValueError`. |
| `Values.IntOfToStr` | main.py:67 | `int(str(i)) == i` for every integer. |
| `ParamBinder.UnknownKey` | restycorn/resource_request_handler.py:160-162 | It finds a supplied key that is not a parameter and that every earlier key is, so the first one in order. It finds none exactly when all keys are parameters. |
| `ParamBinder.MissingParam` | restycorn/resource_request_handler.py:164-166 | It finds a parameter without a default that was not supplied and before which every such parameter was, so the first one in declaration order. It finds none exactly when all of them were supplied. |
| `ParamBinder.DictPair` | restycorn/resource_request_handler.py:185 | An element given to `dict()` succeeds exactly when iterating it yields two items and the first is hashable. The pair is then (first item as key, second item as value). Otherwise `dict()` raises `TypeError` or the wrong-length `ValueError`. |
| `ParamBinder.Chars` | restycorn/resource_request_handler.py:185 | `list(s)` of a string is its one-character strings. |
| `ParamBinder.KeyValues` | restycorn/resource_request_handler.py:185 | `list(d)` of a dict is its keys. |
| `ParamBinder.Convert` | restycorn/resource_request_handler.py:185 | The declared type's constructor either gives a value of that type or raises `TypeError` or `ValueError`. `str` gives `str(v)` and `bool` gives the truth value. `uint` agrees with `RestycornTypes.New`. `list` succeeds exactly on an iterable and gives the items iterating it yields. |
| `ParamBinder.Coerce` | restycorn/resource_request_handler.py:177-188 | Without an annotation, for a value already of the declared type, and for `None` with a `None` default, the value is kept. Otherwise the result is the declared type's constructor applied to the value, which has the declared kind. A `ValueError` becomes the validation error naming the key and type. Other exceptions pass through. |
| `ParamBinder.RejectsUnknownKey` | restycorn/resource_request_handler.py:160-162 | An unknown supplied key fails the binding with `key "k" is not allowed here`, where `k` is the first unknown key in the order given. |
| `ParamBinder.RejectsMissingParam` | restycorn/resource_request_handler.py:164-166 | Once all keys are allowed, a missing parameter without a default fails the binding with `param "p" is required`, where `p` is the first such parameter in declaration order. |
| `ParamBinder.BoundArguments` | restycorn/resource_request_handler.py:155-190 | A successful binding had only allowed keys and every required parameter. It has one entry per parameter, in order, holding the coercion of the supplied value or the default. Unannotated parameters keep that value, and annotated ones hold their declared kind. |
| `ParamBinder.BoolFromText` | restycorn/resource_request_handler.py:183-185 | A boolean parameter given any non-empty text, `"false"` included, is bound to `True`. |
| `ParamBinder.NegativePage` | restycorn/resource_request_handler.py:183-188 | A negative `page` is refused with the message naming `page` and the `uint` type. |
| `ParamBinder.PrepareParams` | restycorn/resource_request_handler.py:155-190 | The key loop, the required loop and the coercion loop give the specified binding. |
| `ParamBinder.CoerceAll` | restycorn/resource_request_handler.py:177-190 | The coercion loop gives the arguments in declaration order, or the first error. |
| `ResourceRequestHandler.Json` | restycorn/resource_request_handler.py:22 | `request.json()` succeeds exactly when there is a JSON body. |
| `ResourceRequestHandler.VerbsToOperations` | restycorn/resource_request_handler.py:15-65 | The collection endpoint maps GET/OPTIONS to `list`, PUT to `replace_all(items)`, POST to the tuple, and DELETE to `delete_all`. The item endpoint needs an id, then maps GET/OPTIONS to `get`, PUT to `create_or_replace`, PATCH to `update` and DELETE to `delete`. Any other verb gets the not-allowed envelope. |
| `ResourceRequestHandler.RoutesFitSignatures` | restycorn/resource_request_handler.py:15-65 | The arguments routing supplies are declared parameters and include every parameter without a default. |
| `ResourceRequestHandler.OkReply` | restycorn/resource_request_handler.py:117-127 | Status 200 and `'status': 'ok'`. `data` is the result, or the first half of a pair whose second half is merged into the top level. |
| `ResourceRequestHandler.Caught` | restycorn/resource_request_handler.py:128-153 | A missing item gives 404, a refused method 404, and a validation error 400 with its own message. Anything else gives 500 naming the URL and verb. |
| `ResourceRequestHandler.Params` | restycorn/resource_request_handler.py:112 | Query-string keys are merged over the path and body arguments, and query keys win. A key repeated in the query string takes its first value. |
| `ResourceRequestHandler.MakeRequestOutcome` | restycorn/resource_request_handler.py:110-153 | The status is 200, 400, 404 or 500. It is 200 exactly when binding and the call succeed. The state is unchanged when the call is not made. |
| `ResourceRequestHandler.PostAlwaysFails` | restycorn/resource_request_handler.py:23-25 | POST to a collection binds a tuple, which is not callable. It always answers 500 and creates nothing. |
| `ResourceRequestHandler.ReadOnlyRefusesMutators` | restycorn/resource_request_handler.py:133-137 | On a read-only resource, a mutator that gets through binding answers 404 with the not-allowed message. |
| `ResourceRequestHandler.Respond` | restycorn/resource_request_handler.py:96-105 | The envelope and status become the response. OPTIONS adds `Allow: GET, PUT, POST, DELETE`. |
| `ResourceRequestHandler.Fill` | restycorn/resource_request_handler.py:77-84 | A hit changes nothing. On a miss the computation runs. Below the bound its response is stored with `now + ttl` and every other entry is kept; at the bound the whole cache is cleared. A cache within its bound stays within it. |
| `ResourceRequestHandler.CacheStaysBounded` | restycorn/resource_request_handler.py:77-92 | A cache within its bound stays within it after a request. |
| `ResourceRequestHandler.OverflowRaises` | restycorn/resource_request_handler.py:77-86 | A miss that fills the cache past its bound clears everything, the new entry included. The computation has run, but the read that follows raises `KeyError`. |
| `ResourceRequestHandler.MissStores` | restycorn/resource_request_handler.py:77-86 | A miss below the bound stores the fresh response with its expiry, keeps every other entry, and answers with that response. |
| `ResourceRequestHandler.FreshHit` | restycorn/resource_request_handler.py:86-88 | An unexpired hit answers from the cache. Nothing is computed and nothing changes. |
| `ResourceRequestHandler.StaleHit` | restycorn/resource_request_handler.py:86-92 | An expired hit recomputes and refreshes the entry, but answers with the stale response. |
| `ResourceRequestHandler.CachedSpecIsCacheLookup` | restycorn/resource_request_handler.py:69-92 | The cached path of a request is the cache lookup above, with `make_request` as the computation. |
| `ResourceRequestHandler.UncachedRecomputes` | restycorn/resource_request_handler.py:93-94 | An uncached resource runs `make_request` on every request and leaves the cache alone. |
| `ResourceRequestHandler.PreRequestBounded` | restycorn/resource_request_handler.py:68-107 | Over a whole request, the shared cache stays within its bound. |
| `ResourceRequestHandler.UnsupportedVerbUntouched` | restycorn/resource_request_handler.py:28-32 | An unsupported verb is answered with status 200 and an error envelope, and neither the resource nor the cache is touched. |
| `ResourceRequestHandler.CachedReplaceAllRaises` | restycorn/resource_request_handler.py:70-75 | For a cached resource, PUT with a JSON list body raises `TypeError`, because the list cannot be put into the frozen cache key. |
| `ResourceRequestHandler.RequestCache.constructor` | restycorn/resource_request_handler.py:67 | The class-level cache starts empty. |
| `ResourceRequestHandler.Handler.constructor` | restycorn/resource_request_handler.py:12-13 | A handler holds its resource. All handlers hold the one cache. |
| `ResourceRequestHandler.Handler.Call` | restycorn/resource_request_handler.py:115 | `await func(**kwargs)` on the resource gives the specified outcome and new resource state. |
| `ResourceRequestHandler.Handler.MakeRequest` | restycorn/resource_request_handler.py:110-153 | `make_request` gives the specified reply and resource state. |
| `ResourceRequestHandler.Handler.FillCache` | restycorn/resource_request_handler.py:77-84 | On a miss, `make_request` runs and its reply is stored. The cache is cleared past the bound. On a hit nothing changes. |
| `ResourceRequestHandler.Handler.ReadBack` | restycorn/resource_request_handler.py:86-92 | The entry is read back, with `KeyError` when it is absent. An expired entry is refreshed by `make_request`, and the reply read is returned. |
| `ResourceRequestHandler.Handler.CachedRequest` | restycorn/resource_request_handler.py:69-92 | The cached path on the shared cache follows the cache lookup specification. |
| `ResourceRequestHandler.Handler.PreRequest` | restycorn/resource_request_handler.py:68-107 | `pre_request` gives the specified response, resource state and cache. |
| `ResourceRequestHandler.Handler.RequestResource` | restycorn/resource_request_handler.py:15-34 | The collection endpoint gives the specified response, resource state and cache. |
| `ResourceRequestHandler.Handler.RequestResourceItem` | restycorn/resource_request_handler.py:36-65 | The item endpoint gives the specified response, resource state and cache. |
| `ResourceRequestHandler.Handler.Handle` | restycorn/resource_request_handler.py:28-34 | A refusal is answered with its envelope, and a call goes through `pre_request`. |
| `Server.CheckPort` | restycorn/server.py:10-11 | A port is accepted exactly when it lies in 0..65535, ends included. Otherwise `ValueError("Port should be in range 0 - 65535")` is raised. |
| `Server.Templates` | restycorn/server.py:24-28 | `register_resource` adds three distinct `'*'` routes under the URL `base + '/' + name`. Two go to the collection: exactly the URL, and the URL plus `/`. One goes to the item: the URL plus `/{id}`. |
| `Server.DefaultBaseDoubleSlash` | restycorn/server.py:24 | Under the default base `'/'`, every route starts with `//`. |
| `Server.RoutesKeepTheirBase` | restycorn/server.py:22-31 | Routes are only appended. Each route starts with the base address in force when its resource was registered, whatever `set_base_address` did later. |
| `Server.Server.constructor` | restycorn/server.py:13-17 | The fields are set, with base address `'/'` and no routes. |
| `Server.Server.New` | restycorn/server.py:9-17 | The defaults are `localhost` and `4444`. The constructor fails exactly when the port check does, and otherwise gives a fresh server with those settings. |
| `Server.Server.RegisterResource` | restycorn/server.py:22-28 | The three templates under the current base are appended. Nothing else changes. |
| `Server.Server.SetBaseAddress` | restycorn/server.py:30-31 | Only the base address changes. Registered routes are kept. |

## Left out

- I/O is left out: the HTTP server (`web.run_app`, aiohttp request and response objects, header objects), JSON parsing and rendering, SQL execution through asyncpg and sqlalchemy, printing and timing diagnostics, and `settings.DEBUG` logging.
  - A request is a value: verb, URL, optional path id, query pairs and an optional parsed JSON body. An absent body stands for one that is not JSON.
  - The database is a pair of functions from query plans to rows.
- The clock is a parameter `now` (an integer), read once per request. The source reads `time.time()` separately for the insert, the expiry check and the refresh, and uses fractional seconds.
- Concurrency is left out. The `await` inside `pre_request` lets requests interleave on the shared cache; requests here run one after another.
- `ilike` matching is left out. The pattern is passed without `ESCAPE '!'`, so only properties of the string transform are stated, not what the database matches.
- Unicode digits accepted by `int()` are left out; only ASCII digits and `_` separators are modelled. Whitespace is Python's full `str.isspace` set.
- `repr` escaping of quotes inside strings is left out; this affects only the text of one `ValueError` message.
- Column types other than integer, string and boolean are left out.
- ParamBinder.DictPair: `dict()` keyed by a non-string hashable value stores it under its `str()`, because dict keys here are strings.
- `TestResource.list` is left out: it runs a hard-coded database fetch. Its outcome is a parameter of the in-memory resource.
- `TestResource.update` is left out: it iterates a dict as pairs and sets attributes on stored values, which has no statable behaviour. Its outcome is a parameter of the in-memory resource.
- `uint.__truediv__` is left out: it goes through float division.
- restycorn/postgresql.py is left out: it is a connection-pool holder.
- base_resource.py is not part of this model. Three things the handler reads from it are parameters of the handler:
  - the cache settings (`time_cached`, `time_cache_seconds`, `time_cache_size`);
  - the operation schema;
  - the identity of the bound method in the cache key, which is the resource's number and the operation.
- The `'Not enough params'` branch of `_prepare_params` is left out. It cannot be reached once the key and required checks have passed.
- The router is a list of (verb, pattern, resource name, endpoint) entries. aiohttp's matching of patterns to URLs is left out.
- PostgreSQLReadOnlyResource.Scan: its own contract only bounds the match positions; what the scan finds is stated by `ScanSound` and `ScanComplete`.
- PostgreSQLReadOnlyResource.Signature: the contract states only that no parameter name repeats; the exact lists are in the function body.
- InMemoryResource.Signature: the contract states only that no parameter name repeats; the exact lists are in the function body.
- ParamBinder.Convert: `uint(v)` keeps only the integer, not the subclass. `type(v) is uint` never holds for an incoming value, so this changes nothing the handler can observe.
