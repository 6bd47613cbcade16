# Abstract CRUD repository, modelled in Dafny

This project models `AbstractRepository`, the base class of the Laravel CRUD
repository package. A repository holds one loaded Eloquent model, the name of
its model class and the name of its transformer class. Its operations load a
model (by uuid, by id, or as given), create one, update, refresh or delete the
loaded one, list models, and paginate them. It also has two pieces of logic of
its own, which carry most of the proofs:

- `findBy` turns a criteria array, an order-by array, a limit and an offset
  into a chain of query-builder calls.
- The magic method `__call` turns a name such as `findByEmail` or
  `findOneByEmail` into a `findBy`/`findOneBy` call with the criteria
  `[['email', '=', $argument]]`.

Beside those, `getModelAttributes` lists the loaded model's attribute names
without the hidden ones, and `updateOrCreate` builds its search criteria from
chosen keys of the data array.

The files:

- `php.dfy` holds `Wrappers` (Option, Result) and `Php`. `Php` models the PHP
  values the repository touches: ordered arrays with int or string keys,
  `isset`, `empty`, reads of a missing key as null, element assignment,
  `substr`, `lcfirst`/`ucfirst`, and the exceptions thrown.
- `query_builder.dfy` models a query builder as where it started (a fresh model
  of the class, or a caller's query) plus the calls made on it, in order. It
  also proves the layout of the calls `findBy` appends.
- `dynamic_finder.dfy` covers the name parsing of `__call`. It proves the round
  trip from a column to its finder name and back, and the one case where that
  round trip fails.
- `attributes.dfy` covers `array_keys` / `array_search` / `unset` over attribute
  names. It proves that the search-and-unset loop removes exactly the hidden
  names and keeps every other name at its original key.
- `repository.dfy` holds the `Repository` class. Its methods update its fields
  as the PHP methods do, and every ORM call goes through an `Orm` value of
  opaque functions passed in as a parameter.

A PHP `throw` is modelled as a `Failure` result. The exceptions are the ones
the source throws itself, plus the errors PHP itself raises: `new $cls` or
`$cls::f()` with a class name that is not a string, and a method called on a
null model.

## Model

| member | source | states |
|---|---|---|
| Php.Lookup | src/Repositories/AbstractRepository.php:293 | reading a missing key gives null; with unique keys, reading a key gives the value stored under it |
| Php.Put | src/Repositories/AbstractRepository.php:293 | `$a[$k] = $v` leaves the keys of `a` plus `k`; on a present key the length is unchanged (PutInPlace says where the entry goes), on a new key `(k, v)` is appended at the end |
| Php.PutInPlace | src/Repositories/AbstractRepository.php:293 | with unique keys, assigning to a present key replaces that entry at its own position and leaves every other entry unchanged |
| Php.PutUnique | src/Repositories/AbstractRepository.php:290-294 | element assignment never creates a duplicate key |
| Php.PutLookup | src/Repositories/AbstractRepository.php:293 | after `$a[$k] = $v`, `k` reads `v` and every other key reads as before |
| Php.LcFirst | src/Repositories/AbstractRepository.php:276 | `lcfirst` keeps the length and the tail; the first character is no capital letter afterwards; it changes only when it was one, and then by exactly the ASCII case offset |
| Php.LcFirstUndoesUcFirst | src/Repositories/AbstractRepository.php:276 | `lcfirst(ucfirst(s)) == s` exactly when `s` is empty or does not start with a capital letter |
| Php.Substr | src/Repositories/AbstractRepository.php:263-267 | `substr` with a non-negative start and length: empty past the end, length clipped to what remains, characters taken from position `start` on |
| Php.SubstrPrefix | src/Repositories/AbstractRepository.php:263-266 | `substr($s, 0, strlen($p)) == $p` holds exactly when `s` begins with `p` |
| Php.SubstrSuffix | src/Repositories/AbstractRepository.php:264 | `substr($s, n, strlen($s))` is everything after the first `n` characters |
| QueryBuilder.CriteriaOps | src/Repositories/AbstractRepository.php:162-168 | the criteria loop makes exactly one builder call per criteria entry |
| QueryBuilder.OrderOps | src/Repositories/AbstractRepository.php:171-173 | the order-by loop makes exactly one `orderBy` call per order-by entry |
| QueryBuilder.CriteriaOpsStep | src/Repositories/AbstractRepository.php:162-168 | one more loop turn appends that entry's call to the calls made so far |
| QueryBuilder.OrderOpsStep | src/Repositories/AbstractRepository.php:171-173 | one more loop turn appends that entry's `orderBy` to the calls made so far |
| QueryBuilder.CriteriaOpsAt | src/Repositories/AbstractRepository.php:162-168 | the `i`-th call is `where($v[0], $v[1], $v[2])` for an array entry and `where($key, $v)` otherwise |
| QueryBuilder.OrderOpsAt | src/Repositories/AbstractRepository.php:171-173 | the `j`-th call is `orderBy` of the `j`-th entry's key and value, in array order |
| QueryBuilder.BuildLayout | src/Repositories/AbstractRepository.php:157-182 | the query keeps its origin and the base's calls in front, then has one call per criteria entry, then the order-by calls at their positions, then at most the two paging calls |
| QueryBuilder.BuildWhereAt | src/Repositories/AbstractRepository.php:162-168 | the `i`-th criteria entry becomes the `i`-th call after the base's own calls |
| QueryBuilder.BuildPaging | src/Repositories/AbstractRepository.php:175-179 | `take($limit)` comes right after the order-by calls exactly when the limit is set; `skip($offset)` comes last exactly when the offset is set; no other appended call is a `take` or a `skip` |
| DynamicFinder.ParseFinder | src/Repositories/AbstractRepository.php:257-277 | a missing or null first argument throws whatever the name is; otherwise a `findBy` prefix selects `findBy`, a `findOneBy` prefix selects `findOneBy`, and any other name throws "Undefined method" (each case an if-and-only-if); the criteria are `[[lcfirst(rest of name), '=', first argument]]` |
| DynamicFinder.FindOneByIsNotFindBy | src/Repositories/AbstractRepository.php:263-268 | a `findOneBy...` name never passes the `findBy` test, so the order of the two tests does not matter |
| DynamicFinder.FinderNameRoundTrip | src/Repositories/AbstractRepository.php:263-276 | for a column that does not start with a capital letter and a non-null argument, calling `findBy`/`findOneBy` + `ucfirst(column)` forwards exactly `[[column, '=', argument]]` to that finder |
| DynamicFinder.CapitalColumnLost | src/Repositories/AbstractRepository.php:263-276 | for a column starting with a capital letter, no method name and no arguments make `__call` forward criteria on that column to either finder, because `lcfirst` lowers the letter |
| DynamicFinder.ParseFinderMessage | src/Repositories/AbstractRepository.php:259-273 | a missing or null first argument throws "You must have one argument"; a name with neither prefix throws "Undefined method '<name>'. The method name must start with either findBy or findOneBy!" |
| DynamicFinder.CriterionQuery | src/Repositories/AbstractRepository.php:162-164 | `findBy` over a dynamic finder's criteria adds exactly one `where(column, '=', argument)` to its base, with no ordering or paging |
| Attributes.KeyList | src/Repositories/AbstractRepository.php:186 | `array_keys` gives one entry per attribute; entry `i` holds key `i` and the `i`-th name |
| Attributes.SearchKey | src/Repositories/AbstractRepository.php:189 | `array_search` finds a key that holds the name, and it finds nothing exactly when no entry holds the name |
| Attributes.Unset | src/Repositories/AbstractRepository.php:190 | `unset` removes exactly the entries with that key; the others stay, each with its key |
| Attributes.WithoutMembers | src/Repositories/AbstractRepository.php:188-192 | an entry survives hiding exactly when it was there and its name is not hidden |
| Attributes.WithoutNone | src/Repositories/AbstractRepository.php:188 | an empty hidden list removes nothing |
| Attributes.WithoutAscending | src/Repositories/AbstractRepository.php:188-192 | hiding keeps the surviving keys in increasing order |
| Attributes.WithoutAbsent | src/Repositories/AbstractRepository.php:189 | hiding a name that no entry has changes nothing |
| Attributes.UnsetAbsent | src/Repositories/AbstractRepository.php:190 | unsetting a key that no entry has changes nothing |
| Attributes.HideStep | src/Repositories/AbstractRepository.php:189-191 | one loop turn (search, and unset when found) is the same as adding that name to the hidden ones, since attribute names are unique |
| Attributes.VisibleAttributes | src/Repositories/AbstractRepository.php:184-195 | the result holds `(i, n)` exactly when `n` is the `i`-th attribute name and is not hidden, and it keeps the original order |
| Repositories.QueryCriteriaKeys | src/Repositories/AbstractRepository.php:290-294 | the criteria built by `updateOrCreate` have exactly the query keys as keys |
| Repositories.QueryCriteriaUnique | src/Repositories/AbstractRepository.php:290-294 | no key occurs twice in those criteria, even when a query key is repeated |
| Repositories.QueryCriteriaValues | src/Repositories/AbstractRepository.php:290-294 | each query key reads, in the criteria, what the data array holds under it (null when the array holds nothing there) |
| Repositories.Repository.constructor | src/Repositories/AbstractRepository.php:13-23 | a new repository has a null model, a null model class and a null transformer class |
| Repositories.Repository.Load | src/Repositories/AbstractRepository.php:40-46 | each class name is replaced unless its argument is empty; the model becomes `findUuid` of the uuid on the (new) model class; a class name that is not a string throws after the names were assigned; no class name ever becomes an empty value |
| Repositories.Repository.LoadModel | src/Repositories/AbstractRepository.php:53-57 | the given model, null included, becomes the loaded one and the repository itself is returned; nothing else changes |
| Repositories.Repository.Find | src/Repositories/AbstractRepository.php:119-122 | the model class's `find` of the id, or a throw when the class name is not a string |
| Repositories.Repository.FindAll | src/Repositories/AbstractRepository.php:129-132 | the model class's `all`, or a throw when the class name is not a string |
| Repositories.Repository.FindAndLoad | src/Repositories/AbstractRepository.php:74-79 | what `find` returns, null included, becomes the loaded model and is returned |
| Repositories.Repository.FindBy | src/Repositories/AbstractRepository.php:157-182 | it fails exactly when there is no custom query and the class name is not a string; otherwise both loops and the paging steps build `Build(base, criteria, orderBy, limit, offset)`, the query whose layout BuildLayout, BuildWhereAt and BuildPaging state |
| Repositories.Repository.FindOneBy | src/Repositories/AbstractRepository.php:141-144 | the first match of the criteria query on a fresh model, with no ordering or paging |
| Repositories.Repository.ModelAttributes | src/Repositories/AbstractRepository.php:184-195 | with no model loaded, the result is empty; otherwise it holds `(i, n)` exactly when `n` is the `i`-th attribute name and is not hidden, with keys ascending (keys are not renumbered) |
| Repositories.Repository.Create | src/Repositories/AbstractRepository.php:205-208 | the model class's `create` of the data becomes the loaded model and is returned |
| Repositories.Repository.FirstOrCreate | src/Repositories/AbstractRepository.php:217-220 | the model class's `firstOrCreate` of the data becomes the loaded model and is returned |
| Repositories.Repository.Show | src/Repositories/AbstractRepository.php:227-230 | the loaded model is refreshed, stored and returned; a null model throws and leaves everything as it was |
| Repositories.Repository.Update | src/Repositories/AbstractRepository.php:239-243 | the loaded model is updated with the data, stored and returned; a null model throws |
| Repositories.Repository.Delete | src/Repositories/AbstractRepository.php:250-254 | the loaded model is returned as it was before deletion; a null model throws |
| Repositories.Repository.Call | src/Repositories/AbstractRepository.php:257-277 | a missing argument throws first and an unknown prefix throws next; `findBy<Column>(v)` returns a fresh model's builder with the single condition `where(lcfirst(Column), '=', v)`; `findOneBy<Column>(v)` returns the first match of that builder |
| Repositories.Repository.UpdateOrCreate | src/Repositories/AbstractRepository.php:288-303 | the loop builds `QueryCriteria` of the query keys; when the first match of those criteria exists it becomes the loaded model, updated with the whole array; otherwise the array is created as the new loaded model |
| Repositories.Repository.Index | src/Repositories/AbstractRepository.php:91-98 | null or empty criteria give every model of the class; otherwise the result is `get` of the `findBy` query with the order-by, limit and offset |
| Repositories.Repository.Paginate | src/Repositories/AbstractRepository.php:108-111 | pages the `findBy` query over the criteria (null meaning none) on the custom query or a fresh model, with a null page size meaning 10 |

## Left out

- `transformedArray` and `transformedPagination` are left out. They hand the model to the Fractal library, which is not part of this model.
- `validate` is left out. It delegates entirely to Laravel's `Validator` facade, which is not part of this model.
- Eloquent's own behaviour is not modelled. This covers `findUuid`, `find`, `all`, `create`, `firstOrCreate`, `first`, `get`, `paginate`, `update` and `refresh`. Each one is an opaque function of an `Orm` parameter, so the database and its I/O are not modelled either. The contracts state which call is made, with which arguments, and where the answer is stored.
- Repositories.Repository.Delete: does not model the row's removal from the database, because that removal happens inside Eloquent. The contract states only what the method returns.
- Repositories.Repository.Update: uses the ORM's model after `update` as the loaded model. PHP instead mutates the same object in place, and the ORM's boolean result is ignored.
- Repositories.Repository.Show: stores the ORM's refreshed model in `model`. The source does not assign the field: Eloquent's `refresh()` reloads the same object in place, so the field already holds the refreshed model. The model represents that in-place reload as an assignment.
- Repositories.Repository.Call: models only the body of `__call`. PHP's dispatch is not modelled: PHP reaches `__call` only for names the class does not declare, and it matches declared names case-insensitively.
- Repositories.Repository.Load: does not model a class-name string that names no existing class, since that would be an autoloading failure in PHP; only a class name that is not a string fails. The same holds for every method that uses the model class: Find, FindAll, FindAndLoad, FindBy, FindOneBy, Create, FirstOrCreate, Call, UpdateOrCreate, Index and Paginate treat any string as a loadable class.
- Php.Lookup: does not model the warning PHP emits when reading a missing key. It does not model PHP's conversion of numeric-string keys to integer keys either.
- Attributes.SearchKey: does not model the loose `==` comparison of `array_search`. Attribute names and hidden names are both strings here, so the comparison is plain string equality.
- Values are limited to null, booleans, integers, strings and arrays. Floats and objects other than models are not modelled.
- `lcfirst`, `ucfirst` and `substr` are modelled over characters with ASCII case mapping. They are not modelled over bytes, and locale-dependent case mapping is not modelled.
