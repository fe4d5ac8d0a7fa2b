# MongoDB access layer: decision and shaping logic

This project models the logic of the `MongoDB` class of the theo database
package that does not depend on the driver. That class opens one `pymongo`
client and gives other components database and collection existence checks,
drops, an upsert-capable `save_data`, a filtered and sorted `load_data`,
`get_keys` and `get_range`. Nearly all of that passes straight through to
the driver. What the class decides itself is modelled here:

- the argument checks: `check_connection` must be a bool, database and
  collection names must be str, and a range must be None or a dict with
  `'key'` and at least one of `'min'` and `'max'`;
- `get_projection`, which builds `{'_id': False, key: True, ...}` in place;
- the single `find` request that `load_data` sends: a range condition built
  step by step, the ascending sort, and the projection;
- the writes that `save_data` sends, in order, for each combination of
  "the collection exists" and "a unique key was given";
- how `get_keys` and `get_range` turn the driver's answers into a result.

The driver does not appear in the model. These become inputs:

- what the server holds: the `Server` value, mapping each database to
  its collection names;
- what it answers: the records that `find_one` returns;
- whether `insert_many` is rejected with a bulk write error.

These become outputs:

- the `find` and `find_one` calls, as `Request` values;
- the `create_index`, `insert_many` and `find_one_and_update` calls, as
  `Action` values.

The `collection_names()` lookup behind every existence check is the
`Server` input, not an output. Client construction (`MongoClient()`) and
the `ismaster` probe are not modelled. So "sends no request" below means
no `find` or `find_one` is sent.

Exceptions become error results: the `Error` datatype has one variant per
reason. Python values that pass through an `isinstance` check are modelled
as the dynamic `Value` datatype. Dicts are lists of (key, value) pairs in
insertion order (module `Values`). `Put` has the semantics of Python's
`d[k] = v`: an existing key keeps its position and a new key goes at the end.

Modules: `Wrappers` (option, outcome, result), `Values` (dynamic values and
ordered dicts), `MongoDB` (the layer).

The model follows the code in these behaviours:

- `get_range` returns `{'key', 'start', 'end'}`, with start and end names,
  not min and max;
- invalid arguments raise; errors are not logged and turned into empty
  results;
- `get_keys` and `get_range` on an existing but empty collection fail,
  because `find_one` answers None there; the model states this as a
  precondition.

## Model

| member | source | states |
|---|---|---|
| Values.Keys | theo/src/database/MongoDB.py:121 | `list(d.keys())` lists the dict's keys one per entry, in insertion order |
| Values.Get | theo/src/database/MongoDB.py:104-108 | `d.get(k)` is present exactly when `k in d`, and then it is one of the dict's own pairs |
| Values.Put | theo/src/database/MongoDB.py:147 | `d[k] = v` keeps the key order if `k` was present and appends `k` otherwise; afterwards `k` reads `v` and every other key reads what it read before |
| Values.PutKeepsKeysDistinct | theo/src/database/MongoDB.py:147 | an assignment never makes a key occur twice |
| MongoDB.CheckConnection | theo/src/database/MongoDB.py:29-37 | the constructor accepts `check_connection` exactly when it is a bool, raising the check_connection error otherwise; the reachability probe is sent exactly when the flag is True |
| MongoDB.ValidateMongoDB | theo/src/database/MongoDB.py:155-162 | passes exactly when both names are str; a non-str database is reported before the collection is looked at; a str database with a non-str collection is reported as a collection error |
| MongoDB.ValidateRange | theo/src/database/MongoDB.py:165-174 | None passes; a non-dict is rejected as not a dict; a dict passes exactly when it has `'key'` and at least one of `'min'`, `'max'`, and is otherwise rejected as malformed |
| MongoDB.ValidateRangeAsWritten | theo/src/database/MongoDB.py:171-174 | as written, the layer accepts and rejects the same ranges as ValidateRange, but a malformed range dict raises AttributeError (from `filter.keys()`) in place of the intended error |
| MongoDB.MalformedRangeRaisesAttributeError | theo/src/database/MongoDB.py:171-174 | for `{'key': 'n'}` the code as written raises AttributeError where the corrected check reports a malformed range |
| MongoDB.IsCollectionExist | theo/src/database/MongoDB.py:57-60 | validates the names first and propagates their error; otherwise answers whether the server lists the collection under the database |
| MongoDB.GetProjection | theo/src/database/MongoDB.py:140-149 | the dict built by the loop is the projection "`'_id'` excluded, then each listed key included in order" (ProjectionFor) |
| MongoDB.IncludeAllFacts | theo/src/database/MongoDB.py:146-147 | marking keys as included sets exactly the listed keys to true and leaves the other entries alone; it only appends keys and keeps each key once |
| MongoDB.ProjectionShape | theo/src/database/MongoDB.py:140-149 | the projection has `'_id'` and the listed keys and no other entry; every listed key maps to true; `'_id'` maps to false unless it is listed, because the later assignment wins; `'_id'` comes first; no key repeats; with no keys it is exactly `{'_id': False}` |
| MongoDB.RangeCondition | theo/src/database/MongoDB.py:101-108 | the condition filled step by step has `'$gte'` exactly when the range has `'min'` and `'$lte'` exactly when it has `'max'`, each with the given value, and nothing else; without a range dict it stays empty |
| MongoDB.LoadData | theo/src/database/MongoDB.py:94-115 | the names are checked, then the range, before existence, so either error is reported even for a missing collection; an absent collection sends no request; on an existing collection a `range['key']` that is a list or dict raises TypeError while the filter is built, and nothing is sent; otherwise one `find` is sent with the sort None or a single ascending key, the projection of `keys`, and no filter exactly when the range is None. Any filter is keyed on `range['key']`, and its condition has `'$gte'` exactly when `'min'` is given and `'$lte'` exactly when `'max'` is given, each with the given value, and nothing else |
| MongoDB.SaveData | theo/src/database/MongoDB.py:70-92 | invalid names raise before any write; otherwise the writes sent are SavePlan for the collection's existence, and the result is the duplication error exactly when a bulk insert was sent and the server rejected it |
| MongoDB.UpsertsShape | theo/src/database/MongoDB.py:82-84 | the upsert loop sends exactly one `UpsertSet(key, datum[key], datum)` per datum, in input order |
| MongoDB.UpsertPath | theo/src/database/MongoDB.py:73-84 | an existing collection with a unique key gets one upsert per datum, in order, and no index creation or bulk insert |
| MongoDB.IndexAndBulkInsert | theo/src/database/MongoDB.py:73-92 | a unique index is created exactly when the collection is absent and a unique key is given, and then it comes before the one `insert_many`; with no unique key the whole batch goes in a single `insert_many`; a bulk insert is sent exactly when the collection is absent or no unique key is given |
| MongoDB.GetKeys | theo/src/database/MongoDB.py:117-121 | invalid names raise; an absent collection gives an empty list and sends no request; otherwise one `find_one` with projection exactly `{'_id': False}` is sent, and the result is the sampled record's field names in order |
| MongoDB.RangeProbes | theo/src/database/MongoDB.py:129-132 | get_range sends two `find_one` requests, sorted ascending and descending on the key, both with the projection `{'_id': False, key: True}` (`{'_id': True}` when the key is `'_id'`) |
| MongoDB.GetRange | theo/src/database/MongoDB.py:123-137 | invalid names raise; an absent collection gives None and sends no request; otherwise the two probes are sent, and the result is None exactly when the key is missing from either extremal record, and otherwise `{'key': key, 'start': <ascending-first value>, 'end': <descending-first value>}` (named start and end, not min and max) |

## Left out

- Every `pymongo` call and what the server does with it. This covers
  `MongoClient`, `database_names`, `collection_names`, `find`, `find_one`,
  `insert_many`, `find_one_and_update`, `create_index`, index enforcement,
  drops and result order. It is a foreign library talking to a server. The
  `find`, `find_one`, `create_index`, `insert_many` and
  `find_one_and_update` calls become `Request`/`Action` values. The
  `collection_names()` lookup becomes the `Server` input. The answers
  become inputs.
- `get_databases`, `get_collections`, `is_database_exist` and
  `drop_database`: each is a single driver call with no logic of its own.
- `drop_collection`: it runs ValidateMongoDB and then one driver call.
- The connection lifecycle, because it is I/O and resource handling. This
  covers the `ismaster` reachability probe and its failure, and the
  `close` in `__del__`. Only the bool check on `check_connection` is
  modelled.
- Error message text: rejections are error variants only.
- The records that `load_data` returns (`list(cursor)`): which records
  match is server behaviour. The model stops at the request.
- Errors that `find_one_and_update` raises in the upsert loop: the source
  does not translate them.
- The batches that `insert_many` itself refuses, such as an empty batch: that is driver behaviour.
- Arguments the source never type-checks: `unique_key` and `sorting_key`
  are modelled as optional strings, `keys` as an optional list of strings,
  and `data` as a list of records; `get_range`'s `key` is modelled as a
  string. Dict keys are strings, except the filter's key, which is any
  hashable value `range['key']` holds. A dict's entries are assumed to
  have distinct keys, as every Python dict's do; the model does not require
  it of its inputs, and on a repeated key `Get` reads the first entry.
- LoadData: reports a range dict lacking `'key'` or both bounds as the corrected RangeLacksKeyOrBound error, where the code raises AttributeError (see Findings: ValidateRangeAsWritten models the code as written).
- SaveData: requires every datum to carry the unique key when the collection exists and a unique key is given; the source raises KeyError there partway through the loop, and that crash is not modelled.
- GetKeys: requires a sampled record whenever the collection exists; on an existing but empty collection the source fails calling `.keys()` on None, and that crash is not modelled.
- GetRange: requires the ascending record whenever the collection exists, and the descending record once the ascending one has the key; on an existing but empty collection the source fails testing `key not in None`, and that crash is not modelled.
- theo/src/comp/MongoDBCtrl.py: it registers names and arities with a
  host framework that is not part of this model, and forwards calls. Its
  forwarders `insert`, `select`, `keys` and `get_range_filter` call
  methods that `MongoDB` does not define; the real names are `save_data`,
  `load_data`, `get_keys` and `get_range`.
- setup.py: packaging metadata only.

## Findings

| source | as written | input that shows it | evidently intended | confidence | as-written member | corrected member |
|---|---|---|---|---|---|---|
| theo/src/database/MongoDB.py:171-174 | the malformed-range error message is built from `list(filter.keys())`, where `filter` is the builtin function, so the `AttributeError` of that call is raised | `range = {'key': 'n'}` | raise the descriptive AssertionError about the range's keys (the message evidently meant `range.keys()`) | high; not executed | MongoDB.ValidateRangeAsWritten (shown by MongoDB.MalformedRangeRaisesAttributeError) | MongoDB.ValidateRange |
