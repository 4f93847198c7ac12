# WebAnt CoreBundle query and hydration core, in Dafny

This project models the part of the WebAnt CoreBundle (a Symfony/Doctrine
REST bundle) that turns request data into Doctrine queries and entity
updates, and proves what that code promises.

- **Search translation** (`Helpers`, and the controller's own copy in
  `AbstractController`). A flat search array becomes where clauses, bound
  parameters and one ordering on a query builder.
  - For every property of the entity class in which the search has a key,
    the value is split on `|`. A single piece collapses back to a string.
  - The value then gives an `IS NULL`, `IN(:alias___prop)` or
    `= :alias___prop` clause.
  - A property equal to `orderby` (or else to `orderbydesc`) replaces the
    ordering.
- **Query pairs** (`QueryBuilders`, `AbstractController::getQueryBuilders`).
  The bundle keeps a data query and a count query. Both get the same
  conditions. Only the data query gets `start`/`limit` pagination, so the
  count is the total number of matching rows.
- **The legacy list builder** (`AbstractController::getListObject`). It
  builds the `findBy` criteria, the `orderArray`, `limit`/`offset` and the
  count query.
- **getObject**. It adds the key criterion to the criteria and reports a
  miss as a 404.
- **Entity hydration** (`DatabaseService`).
  - `parsePropertyAnnotation` gives each property:
    - its snake_case serialized name;
    - its setter;
    - its classification as a Doctrine field, an association, or neither.
  - `appendDataToObject` copies an input array onto an entity through its
    setters. It follows per-field rules for excluded, absent, setter-less,
    date, primitive and association fields.
  - `getObject` dispatches between `find` and `findOneBy`.

Modelling choices:

- A Doctrine QueryBuilder is the class `QueryModel.QueryBuilder`. Each
  builder call is a method `Apply(op)` proved against the pure
  `ApplyOp`, which follows Doctrine's semantics:
  - `select` replaces the select list;
  - `from`, `join` and `andWhere` append;
  - `setParameter` overwrites by name;
  - `orderBy` replaces the ordering.
- Loops that drive builders are `while` loops. Their invariants tie the
  builder to a specification function over the properties seen so far,
  such as `Helpers.SearchOps` or `AbstractController.QueryOps`. The
  properties are then proved about those functions.
- PHP reflection and Doctrine class metadata become a `Reflection.Schema`
  table. It maps a class name to the class's:
  - properties in declaration order;
  - public methods;
  - field mappings;
  - association mappings.

  A class missing from the table stands for the `ReflectionException`.
  The methods then return `ok == false` before anything changes.
- PHP values are `Common.Value`. PHP's `explode`, truthiness, loose `==`
  against a property name, `is_numeric`, `(int)` and the `^[0-9]+$`
  pattern are written out in `Common`.
  - PCRE's `$` also matches before a final newline, so `"12\n"` passes.
  - `getKeyIfExists` exists twice, in Component/Helpers.php:22-28 and in
    Controller/AbstractController.php:70-76. The two bodies are the same,
    so `Common.GetKeyIfExists` models both.
  - PHP's `(int)` on a numeric string whose value does not fit 64 bits
    gives `PHP_INT_MAX` or `PHP_INT_MIN`. `Common.Saturate` writes this out,
    and `IntCast` and `DigitsCast` use it.
- The count query receives the same `orderBy` as the data query.
  `appendSearchToQueryBuilder` runs on both queries, in
  Component/QueryBuilders.php:96-97 and in
  Controller/AbstractController.php:119-120. `Scenario.SampleRequest` shows
  a count query with the ordering and without pagination.
- In `getListObject` the query values are strings, the `map<string, string>`
  of the model. `explode` on a string always returns an array, so for
  string values the `=` branch at Controller/AbstractController.php:248-250
  cannot run. The model has only the `IN` clause there. Array-valued query
  parameters are listed under "Left out".
- In `getListObject`, a `findArray` key with a scalar value that is also a
  property with a truthy query value gets two conditions on the count
  query: `x.k = :k` and `x.k IN(:k)`. Both share one parameter `k`, which
  holds the split list. `AbstractController.ListCountDoubleConstraint`
  states this.

## Model

| member | source | states |
|---|---|---|
| Common.GetKeyIfExists | Component/Helpers.php:22-28 | The stored value whenever the key is present, even a null one. The default only when the key is absent. Equivalently, a lookup in the array merged over `[key => default]`. |
| Common.Explode | Component/Helpers.php:66-67 | `explode` on the pipe character is never empty, and no piece contains the separator. |
| Common.ImplodeExplode | Component/Helpers.php:66-67 | Joining the pieces of a split string with the pipe character gives the string back. |
| Common.ExplodeImplode | Component/Helpers.php:66-67 | Splitting a join of separator-free pieces gives the pieces back. |
| Common.ExplodeSingle | Component/Helpers.php:67-69 | A split gives one piece exactly when the string has no pipe character, and that piece is the string itself. |
| Common.Truthy | Controller/AbstractController.php:244 | A value is falsy exactly when it is null, false, 0, `""`, `"0"` or an empty array. |
| Common.IsNumeric | Component/QueryBuilders.php:100-105 | A numeric value is an integer, or a non-empty string starting with a digit or a sign. |
| Common.IntCast | Component/QueryBuilders.php:101-105 | An integer converts to itself. A numeric string converts to a value within the 64-bit range. |
| Common.Saturate | Component/QueryBuilders.php:101-105 | The result lies in the 64-bit range, and a value already in the range is unchanged. |
| Common.IntCastDecimal | Controller/AbstractController.php:110-115 | Every integer written in decimal, with or without a sign, is numeric, and `(int)` reads it back, saturated to 64 bits. |
| Common.MatchesDigits | Controller/AbstractController.php:260-265 | A matching string is non-empty and starts with a digit. |
| Common.DigitsCast | Controller/AbstractController.php:261-267 | The integer read from a matching string is non-negative and at most `PHP_INT_MAX`. |
| Common.DecimalStringValue | Controller/AbstractController.php:260-267 | The decimal representation of a natural number is a non-empty digit string that reads back as the number. |
| Common.DigitsCastDecimal | Controller/AbstractController.php:260-267 | `^[0-9]+$` accepts every natural number in decimal, also followed by one newline, and `(int)` reads it back, saturated. |
| Common.LooseEqualsName | Component/Helpers.php:89-91 | For a name other than `""` and `"0"`, a value equals it loosely exactly when it is that string or `true`. For `""`, exactly when it is null, `""` or `false`. |
| Common.Put | Controller/AbstractController.php:245 | `$a[k] = v`: `k` then maps to `v` and no other key changes. A new key goes last; an existing key keeps its place. |
| QueryModel.QueryBuilder.constructor | Component/QueryBuilders.php:62-63 | A fresh builder from `createQueryBuilder()` holds no select, from, join, clause, parameter, ordering or pagination. |
| QueryModel.QueryBuilder.Apply | Component/Helpers.php:82-92 | Each builder call changes the builder exactly as Doctrine's call does, as given by `ApplyOp`. |
| QueryModel.ApplyOpsKeepsSameConditions | Component/QueryBuilders.php:120-123 | The same calls on two queries with the same conditions leave them with the same conditions. |
| QueryModel.ApplyOpsKeepsPagination | Component/QueryBuilders.php:120-123 | Calls other than setFirstResult/setMaxResults never change a query's pagination. |
| QueryModel.PaginationKeepsConditions | Component/QueryBuilders.php:99-106 | setFirstResult/setMaxResults calls change neither the conditions nor the select list. |
| Helpers.ParameterNameInjective | Component/Helpers.php:60-61 | Distinct properties never share a parameter name `alias___prop`. |
| Helpers.ClauseFor | Component/Helpers.php:73-80 | Null gives `alias.prop IS NULL`, an array `alias.prop IN(:alias___prop)`, and any other value `alias.prop  = :alias___prop `. |
| Helpers.OrderFor | Component/Helpers.php:89-93 | For a name other than `""` and `"0"`: ascending exactly when `orderby` is the name or `true`; otherwise descending exactly when `orderbydesc` is. |
| Helpers.Normalize | Component/Helpers.php:66-71 | A string with the pipe character becomes the list of its pieces; there are at least two of them. Any other value, a string without a pipe included, is unchanged. |
| Helpers.AppendSearchShape | Component/Helpers.php:40-98 | The translation appends exactly the search clauses, binds exactly the search parameters and sets the search ordering. Select, from, joins and pagination are untouched. |
| Helpers.PropertyCallsEffect | Component/Helpers.php:58-94 | One property's calls append its clause when it is a search key, bind its parameter unless the value is null, and set the ordering when `orderby` or `orderbydesc` names it. Nothing else changes. |
| Helpers.SearchShapeStep | Component/Helpers.php:58-94 | Each further property extends the clauses, parameters and ordering exactly as the search parts prescribe. |
| Helpers.SearchClausesOfKeyed | Component/Helpers.php:58-82 | There is exactly one clause per property that is a key of the search, in property order, and it is the clause for that property's value. |
| Helpers.KeyedAreKeys | Component/Helpers.php:58-63 | A name contributes a clause once per occurrence among the properties if it is a search key, and never otherwise. |
| Helpers.NonPropertyKeyAddsNoClause | Component/Helpers.php:63-87 | Adding a search key that is not a property changes neither the clauses nor the parameters. |
| Helpers.SearchOpsIgnoreKey | Component/Helpers.php:49-93 | A search key that is neither a property nor `orderby`/`orderbydesc` (e.g. `start`, `limit`) changes no builder call at all. |
| Helpers.SearchParamOf | Component/Helpers.php:84-86 | A property's parameter is bound to the normalised value when the property is a search key with a non-null value. Otherwise it is exactly as before. |
| Helpers.SearchParamsOutside | Component/Helpers.php:84-86 | Parameters that belong to no property keep their earlier binding. |
| Helpers.SearchOrderNoMatch | Component/Helpers.php:89-93 | When no property matches `orderby` or `orderbydesc`, the ordering is unchanged. |
| Helpers.SearchOrderLastMatch | Component/Helpers.php:89-93 | The last matching property decides the ordering, with its direction. |
| Helpers.OrderByWinsOverDesc | Component/Helpers.php:89-92 | A property named by both `orderby` and `orderbydesc` is ordered ascending. |
| Helpers.PipeValueGivesIn | Component/Helpers.php:66-85 | A string value with the pipe character yields `alias.prop IN(:alias___prop)`, bound to the list of its pieces. |
| Helpers.PlainValueGivesEq | Component/Helpers.php:66-85 | A string value without a pipe (the empty string included) yields `alias.prop = :alias___prop`, bound to the string itself. |
| Helpers.NullValueGivesIsNull | Component/Helpers.php:73-86 | A null value yields `alias.prop IS NULL` and binds no parameter. |
| Helpers.AppendSearchToQueryBuilder | Component/Helpers.php:40-98 | The builder ends in `AppendSearchState` of its old state. With no configured class, or an unknown one, it fails and the builder is untouched. |
| Helpers.AppendFilter | Component/Helpers.php:63-87 | The builder ends in the state after the property's filter calls: a clause for a present key, plus its parameter unless the value is null. |
| Helpers.AppendOrder | Component/Helpers.php:89-93 | The builder ends in the state after the property's ordering call: ascending when `orderby` names it, otherwise descending when `orderbydesc` does. |
| QueryBuilders.PaginationFromSearch | Component/QueryBuilders.php:99-106 | A numeric `start`/`limit` sets first/max result to its integer value. A missing or non-numeric one leaves them as they were. Conditions and select are unchanged. |
| QueryBuilders.AppendSearchKeepsPairing | Component/QueryBuilders.php:88-107 | Searching both queries alike and paginating only the data query keeps them on the same conditions. It also keeps the count query unpaginated. |
| QueryBuilders.MergedConfig | Component/QueryBuilders.php:90-95 | `objectClass` and `alias` given in the config override the stored ones. Otherwise the stored ones are used. |
| QueryBuilders.QueryBuilders.Init | Component/QueryBuilders.php:62-63 | The two queries are distinct fresh builders, both empty. |
| QueryBuilders.QueryBuilders.Create | Component/QueryBuilders.php:48-75 | With a class name, the class is set with alias `x` and the search is appended. Without one, both queries stay empty. Either way the pair has the same conditions and an unpaginated count query; an unknown class fails. |
| QueryBuilders.QueryBuilders.SetObjectClass | Component/QueryBuilders.php:77-85 | The data query selects `alias` and the count query `count(alias) as num`, both from the class under `alias`. The pairing invariants are kept. |
| QueryBuilders.QueryBuilders.AppendSearch | Component/QueryBuilders.php:88-107 | The same search goes on both queries, then `start`/`limit` on the data query only. The pair keeps the same conditions and an unpaginated count query. |
| QueryBuilders.QueryBuilders.Modify | Component/QueryBuilders.php:120-123 | The same call is made on both queries. The pair keeps the same conditions, and the count query stays unpaginated unless the call is a pagination call. |
| QueryBuilders.CountIgnoresPagination | Component/QueryBuilders.php:96-106 | The count query is the same whatever `start` and `limit` are, unless the entity has properties of those names. |
| AbstractController.AppendSearchToQueryBuilder | Controller/AbstractController.php:142-197 | The alias defaults to `x` and the class to the controller's own. Otherwise the rules are the same IS NULL / IN / = rules as the helper's. |
| AbstractController.GetQueryBuildersPair | Controller/AbstractController.php:99-120 | The data query selects `x` and the count query `count(x) as num`, both from the class. Both have the search translation's clauses, parameters and ordering. Only the data query is paginated, from numeric `limit`/`start`. |
| AbstractController.GetQueryBuilders | Controller/AbstractController.php:88-127 | The search is merged over the defaults (search keys win), then the pair is built as `GetQueryBuildersPair` describes. An unknown class fails. |
| AbstractController.StartLimitCommute | Controller/AbstractController.php:108-116 | Setting max and first result in either order gives the same query. |
| AbstractController.GetQueryBuildersMatchesQueryBuilders | Controller/AbstractController.php:88-127 | `getQueryBuilders` paginates before the search and `QueryBuilders` after it. Both give the same data query. |
| AbstractController.QueryCriterion | Controller/AbstractController.php:244-245 | A property gets a criterion exactly when its query value is present and truthy. The criterion is a non-empty list, and the one-element list of the value when it has no pipe character. |
| AbstractController.ListDirection | Controller/AbstractController.php:254-258 | For a name other than `""` and `"0"`: ASC exactly when `orderby` names the property; otherwise DESC exactly when `orderbydesc` does. |
| AbstractController.FindClause | Controller/AbstractController.php:233-237 | An array value gives `x.key IN(:key)`; any other value `x.key  = :key `. |
| AbstractController.FindClauses | Controller/AbstractController.php:232-240 | One clause per `findArray` entry, in order, each the clause for that entry. |
| AbstractController.FindArrayWheres | Controller/AbstractController.php:232-240 | The `findArray` loop appends exactly its entries' clauses to the conditions. |
| AbstractController.PropertyOpsEffect | Controller/AbstractController.php:244-253 | A property with a criterion appends `x.p IN(:p)` and binds `p` to its list. A property without one changes nothing. |
| AbstractController.QueryClausesOfKeyed | Controller/AbstractController.php:242-253 | The property loop's clauses are one `IN` clause per property with a criterion, in property order. |
| AbstractController.QueryOpsWheres | Controller/AbstractController.php:242-253 | The property loop appends exactly those `IN` clauses to the conditions. |
| AbstractController.ListCountWheres | Controller/AbstractController.php:225-253 | The count query's conditions are the `findArray` clauses in order, then the `IN` clauses of the properties with a criterion. |
| AbstractController.ListCountFindClause | Controller/AbstractController.php:232-240 | Every `findArray` entry's clause is among the count query's conditions. |
| AbstractController.ListCountQueryClause | Controller/AbstractController.php:242-253 | Every property with a criterion has its `IN` clause among the count query's conditions. |
| AbstractController.ListCountDoubleConstraint | Controller/AbstractController.php:232-253 | A scalar `findArray` key that is also a property with a criterion gets both `x.k = :k` and `x.k IN(:k)`. The one parameter `k` holds the split list, which is also its final `findArray` value. |
| AbstractController.GetObjectCriteria | Controller/AbstractController.php:61 | The key value is stored under the controller's key unless it is exactly `false`. Every other criterion is kept. |
| AbstractController.GetObject | Controller/AbstractController.php:57-68 | The object `findOneBy` returns for those criteria. A falsy result is a 404 error. |
| AbstractController.AppendFindArray | Controller/AbstractController.php:232-240 | Each `findArray` entry, in order, appends an IN clause for an array and an = clause otherwise. Its parameter is set even when null. |
| AbstractController.ListObject | Controller/AbstractController.php:215-268 | It gives the final `findArray`, `orderArray` and count query. `limit` is set only when it matches `^[0-9]+$`, and `offset` only when both `start` and `limit` match. An unknown class fails. |
| AbstractController.ListFindLookup | Controller/AbstractController.php:242-253 | A property with a truthy query value ends in `findArray` as that value split on a pipe, always as a list. Every other key keeps the caller's value; falsy values (`""`, `"0"`) add nothing. |
| AbstractController.ListOrderLookup | Controller/AbstractController.php:254-258 | `orderArray` holds exactly the properties named by `orderby` (ASC) or, failing that, by `orderbydesc` (DESC). |
| AbstractController.ListOrderTwoDirections | Controller/AbstractController.php:254-258 | `orderArray` can hold an ASC and a DESC entry at once, for different properties. |
| AbstractController.FindArrayParams | Controller/AbstractController.php:232-240 | With unique keys, every `findArray` entry binds its value, null included, and nothing else changes. |
| AbstractController.QueryOpsParams | Controller/AbstractController.php:242-253 | Every property with a truthy query value binds its split value under its own name, and nothing else changes. |
| AbstractController.ListCountParamsMatchFind | Controller/AbstractController.php:229-253 | The count query binds a parameter for exactly the keys of the final `findArray`, each with the value `findBy` receives. |
| DatabaseService.SerializedName | Services/DatabaseService.php:216 | The result is one character longer than the name per capital letter. |
| DatabaseService.SetterName | Services/DatabaseService.php:214 | `set` followed by the name with its first character capitalised and the rest unchanged. |
| DatabaseService.HasPublicMethod | Services/DatabaseService.php:222 | A public method with exactly the name is found. |
| DatabaseService.HasPublicMethodIgnoresCase | Services/DatabaseService.php:222 | Two names that differ only in case find the same methods. |
| DatabaseService.SerializedNameShape | Services/DatabaseService.php:216 | The result has no capitals and is one character longer per capital. A name without capitals is unchanged. |
| DatabaseService.SerializedNameConcat | Services/DatabaseService.php:216 | The serialized name of a concatenation is the concatenation of the serialized names. |
| DatabaseService.SerializedNameOneHump | Services/DatabaseService.php:216 | A capital between lower-case runs becomes `_` plus its lower case. |
| DatabaseService.FromSnakeSerializedName | Services/DatabaseService.php:216 | For names without `_`, snake_case back to camelCase recovers the property name. |
| DatabaseService.SerializedNameInjective | Services/DatabaseService.php:216 | Two underscore-free property names never share a serialized name. |
| DatabaseService.SerializedNameCollision | Services/DatabaseService.php:216 | With underscores allowed they can: `aB` and `a_b` both read the input key `a_b`. |
| DatabaseService.DefaultExcludedNames | Services/DatabaseService.php:134 | The default excluded keys `id` and `date_create` are the serialized names of `id` and `dateCreate`. |
| DatabaseService.Ucfirst | Services/DatabaseService.php:214 | Only the first character changes, to its capital. |
| DatabaseService.SetterNameLowered | Services/DatabaseService.php:222 | Since PHP method names ignore case, the setter looked up is "set" followed by the lowered property name. |
| DatabaseService.AssociationTypeKinds | Services/DatabaseService.php:234-235 | One-to-one and many-to-one are single objects, one-to-many and many-to-many are collections, and no type is both. |
| DatabaseService.ParsePropertyAnnotation | Services/DatabaseService.php:208-243 | It gives the snake_case name and a setter exactly when a public `set` + ucfirst(name) method exists. A Doctrine field is primitive; otherwise a Doctrine association is an association, never both. `isSingleObject`/`isObjectsArray` are the TO_ONE/TO_MANY bits of the association type. |
| DatabaseService.DbGetObject | Services/DatabaseService.php:35-41 | Array criteria go to `findOneBy` together with the ordering; any other value is an identifier for `find`. |
| DatabaseService.DbGetObjectOrderOnlyForArrays | Services/DatabaseService.php:35-41 | The ordering never changes a lookup by identifier. For array criteria, an ordering that changes `findOneBy`'s answer changes the result. |
| DatabaseService.ApplyCallsLookup | Services/DatabaseService.php:139-196 | Each visited property ends with the last value its setter received. Every other key keeps its value. |
| DatabaseService.HydrateLookup | Services/DatabaseService.php:139-196 | After `appendDataToObject`, a property ends with the last value of its setter calls; properties whose setter was not called keep their values. |
| DatabaseService.HydrateIdempotent | Services/DatabaseService.php:129-199 | Applying the same data twice gives the same entity as applying it once. |
| DatabaseService.ExcludedFieldUnchanged | Services/DatabaseService.php:143-145 | A property whose serialized name is excluded keeps its value. |
| DatabaseService.DefaultExcludedProtectsIdAndDateCreate | Services/DatabaseService.php:134 | With the default exclusion list, `id` and `dateCreate` are never written. |
| DatabaseService.UnsetFieldUnchanged | Services/DatabaseService.php:147-159 | A property absent from the data, or without a public setter, keeps its value. |
| DatabaseService.UnmappedOrToManyUnchanged | Services/DatabaseService.php:161-195 | A property that is neither a Doctrine field nor a single-valued association (to-many included) keeps its value. |
| DatabaseService.PrimitiveCalls | Services/DatabaseService.php:161-173 | At most two setter calls, and when two the first is null. A non-date field ends with the value. A date field ends with the `fixDate` result when there is one; otherwise only a null value on a nullable field calls the setter, with null. |
| DatabaseService.SingleObjectCalls | Services/DatabaseService.php:174-193 | Null gives one call with null. An integer gives the `find` result, or null on a miss. An instance of the target gives itself. An array with an `id` gives the lookup of that id, or null. Anything else gives no call. |
| DatabaseService.PrimitiveFieldTakesValue | Services/DatabaseService.php:161-173 | A writable non-date field ends with exactly the input value, null included. |
| DatabaseService.DatetimeFieldRule | Services/DatabaseService.php:161-170 | A writable date field takes the `fixDate` result when there is one. Otherwise null clears a nullable field, and any other value leaves it unchanged. |
| DatabaseService.SingleAssociationRule | Services/DatabaseService.php:174-193 | Null clears the association. An integer is looked up with `find`, an array with an `id` by that id, and a miss gives null. An instance of the target is stored as is; anything else leaves it unchanged. |
| DatabaseService.Entity.constructor | Services/DatabaseService.php:130-132 | A new entity of the class, with the property values it declares. |
| DatabaseService.Entity.Set | Services/DatabaseService.php:156 | A setter call assigns its property and nothing else. |
| DatabaseService.CallSetter | Services/DatabaseService.php:161-195 | The setter is called, in order, with exactly the values `SetterCalls` lists for the property's kind and input value. |
| DatabaseService.AppendDataToObject | Services/DatabaseService.php:129-199 | The entity ends as `Hydrate` of its old properties, visiting the class's properties in order with the configured or default exclusions. An unknown class fails with the entity untouched. |
| Scenario.SplitAB | Component/Helpers.php:67 | `explode` splits `"A" pipe "B"` into `["A", "B"]`. |
| Scenario.SampleRequest | Controller/AbstractController.php:88-127 | The request `status=A pipe B, orderby=name, start=10, limit=5` is worked through. The data query filters `x.status IN(:x___status)` bound to ["A","B"], orders by `x.name` ascending, and starts at 10 with 5 rows. The count query has the same filter, parameter and ordering, and no pagination. |

## Left out

- Query execution and timing are not modelled. This covers `QueryBuilders::exec`, `execQueryBuildersPair`, and the `findBy`/`getResult`/`microtime` calls at the end of `getListObject`: database I/O and wall-clock times.
- The `global $kernel` container lookup in the `QueryBuilders` constructor is not modelled. The entity manager is implicit in `new QueryBuilder()`.
- Array-valued query parameters in `getListObject` (`?status[]=A`) are not modelled: the query string is a `map<string, string>`. For such a value `explode` would not receive a string.
- The `Request` to array conversions are not modelled. Searches are given as arrays, and the `getListObject` query string as a `map<string, string>`.
- `AbstractController` members outside the query core are left out: `arrayToObject`, `createObject`, `updateObject`, `updateOrCreateObject`, `deleteObject`, `validate`, `checkJson` and `getObjectGroup`. They rest on doc-comment reflection, the ORM's flush/remove, the validator, JSON decoding and the serializer. Util/CamelCase.php is not part of this model.
- `DatabaseService::saveObject`, `createObject`, `updateObject` and `updateObjectById` are left out. They are persist/flush wrappers around `appendDataToObject`.
- `Helpers::fixDate` is a function parameter returning `Option<Value>` (None for a falsy result). Its date and timezone parsing is not modelled.
- The repository lookups `find`/`findOneBy` (`Store`) and the controller's `findOneBy` are function parameters.
- DatabaseService.AppendDataToObject: creating the object from a class name (`new $object()`) is the `Entity` constructor. The caller supplies the declared default values.
- DatabaseService.Entity.Set: real setter bodies are not visible. Each setter is taken to assign the property it is named after.
- DatabaseService.ParsePropertyAnnotation: it reads the metadata of the property's own class. Inherited properties, whose declaring class is a parent, are not distinguished.
- DatabaseService.IsInstance: `instanceof` is exact class equality; subclasses of the target entity are not modelled.
- Common.IsNumeric: it accepts optionally signed decimal integers only. Leading whitespace, trailing whitespace (accepted since PHP 8), fractions and exponents, which PHP's `is_numeric` also accepts, are not modelled. Floats are not modelled anywhere.
- Common.LooseEqualsName: it follows PHP 8 `==` against a property name and is exact for non-numeric names. PHP identifiers never are numeric.
- QueryBuilders.QueryBuilders.Modify: `modify` forwards any method name by `call_user_func_array`. The model covers the builder calls in `QueryModel.Op`: select, addSelect, from, join, andWhere, setParameter, orderBy, setFirstResult and setMaxResults.
- Tests/RestWebTestCase.php (an HTTP test harness) and Generator/BundleGenerator.php (code generation from templates) are not part of this model.
