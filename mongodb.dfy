/** The decision and shaping logic of the MongoDB access layer
    (theo/src/database/MongoDB.py): argument checks, the projection builder,
    the query that load_data issues, the writes that save_data issues, and the
    results of get_keys and get_range. The driver is not modelled. The
    collection lookup (collection_names) is the Server parameter, and what
    find_one and insert_many answer are parameters too. The find, find_one,
    create_index, insert_many and find_one_and_update calls are returned as
    Request and Action values. Client construction and the reachability
    probe are not modelled. */
module MongoDB {
  import opened Wrappers
  import opened Values

  /** The exceptions the layer raises, one per reason. */
  datatype Error =
    | CheckConnectionNotBool   // check_connection is not a bool
    | DatabaseNotStr           // the database name is not a str
    | CollectionNotStr         // the collection name is not a str
    | RangeNotDict             // a range that is neither None nor a dict
    | RangeLacksKeyOrBound     // a range dict without 'key', or without both 'min' and 'max'
    | AttributeError           // what the malformed-range branch raises as written
    | Duplication              // insert_many hit a unique index
    | UnhashableFilterKey      // TypeError: range['key'] is a list or dict, so it cannot key the filter dict

  /** The databases on the server, each with the names of its collections. */
  datatype Server = Server(collections: map<string, set<string>>)

  /** A sort direction (pymongo.ASCENDING / pymongo.DESCENDING). */
  datatype Order = Ascending | Descending

  /** A projection document: field name to include flag. */
  type Projection = Fields<bool>

  /** A filter `{field: condition}`; the field is whatever hashable value range['key'] holds. */
  datatype Filter = Filter(field: Value, condition: Fields<Value>)

  /** A read the layer hands to the driver. */
  datatype Request =
    | Find(filter: Option<Filter>, sort: Option<seq<(string, Order)>>, projection: Projection)
    | FindOne(sort: Option<seq<(string, Order)>>, projection: Projection)

  /** A write the layer hands to the driver. */
  datatype Action =
    | CreateUniqueIndex(key: string)                         // create_index([(key, ASCENDING)], unique=True)
    | InsertMany(docs: seq<Record>)                          // insert_many(docs)
    | UpsertSet(key: string, value: Value, datum: Record)    // find_one_and_update({key: value}, {'$set': datum}, upsert=True)

  /** What a read on the driver issued, and what the layer returns from it. */
  datatype Answer<T> = Answer(issued: seq<Request>, value: T)

  // ---------------------------------------------------------------------
  // Argument checks

  /** The constructor's check of check_connection. On success the result
      says whether the reachability probe is sent. */
  function CheckConnection(checkConnection: Value): (r: Result<bool, Error>)
    ensures r.Success? <==> checkConnection.Bool?
    ensures r.Success? ==> (r.value <==> checkConnection == Bool(true))
    ensures r.Failure? ==> r.error == CheckConnectionNotBool
  {
    match checkConnection
    case Bool(b) => Success(b)
    case _ => Failure(CheckConnectionNotBool)
  }

  /** validate_mongodb: both names must be str; the database is checked first. */
  function ValidateMongoDB(database: Value, collection: Value): (r: Outcome<Error>)
    ensures r.Pass? <==> database.Str? && collection.Str?
    ensures !database.Str? ==> r == Fail(DatabaseNotStr)
    ensures database.Str? && !collection.Str? ==> r == Fail(CollectionNotStr)
  {
    if !database.Str? then Fail(DatabaseNotStr)
    else if !collection.Str? then Fail(CollectionNotStr)
    else Pass
  }

  /** A range descriptor usable as a filter: a dict with 'key' and at least one of 'min', 'max'. */
  predicate IsRangeDescriptor(range: Value) {
    range.Dict? && Has(range.entries, "key") && (Has(range.entries, "min") || Has(range.entries, "max"))
  }

  /** validate_range: None passes, a non-dict fails, a dict passes exactly
      when it is a range descriptor. */
  function ValidateRange(range: Value): (r: Outcome<Error>)
    ensures range.Null? ==> r == Pass
    ensures !range.Null? ==> (r.Pass? <==> IsRangeDescriptor(range))
    ensures !range.Null? && !range.Dict? ==> r == Fail(RangeNotDict)
    ensures range.Dict? && !IsRangeDescriptor(range) ==> r == Fail(RangeLacksKeyOrBound)
  {
    if range.Null? then Pass
    else if !range.Dict? then Fail(RangeNotDict)
    else if !IsRangeDescriptor(range) then Fail(RangeLacksKeyOrBound)
    else Pass
  }

  /** validate_range as written: building the message of the malformed-range
      error calls keys() on the builtin filter, so AttributeError is raised
      in place of the intended error. Every other branch is as intended. */
  function ValidateRangeAsWritten(range: Value): (r: Outcome<Error>)
    ensures r.Pass? <==> ValidateRange(range).Pass?
    ensures ValidateRange(range) == Fail(RangeLacksKeyOrBound) ==> r == Fail(AttributeError)
    ensures ValidateRange(range) != Fail(RangeLacksKeyOrBound) ==> r == ValidateRange(range)
  {
    if range.Null? then Pass
    else if !range.Dict? then Fail(RangeNotDict)
    else if !IsRangeDescriptor(range) then Fail(AttributeError)
    else Pass
  }

  /** A range dict with 'key' and no bound shows the discrepancy. */
  lemma MalformedRangeRaisesAttributeError()
    ensures ValidateRangeAsWritten(Dict([("key", Str("n"))])) == Fail(AttributeError)
    ensures ValidateRange(Dict([("key", Str("n"))])) == Fail(RangeLacksKeyOrBound)
  {
  }

  // ---------------------------------------------------------------------
  // Collection existence

  /** Whether the server lists the collection under the database. */
  predicate HasCollection(server: Server, database: string, collection: string) {
    database in server.collections && collection in server.collections[database]
  }

  /** is_collection_exist: validate the names, then look the collection up. */
  function IsCollectionExist(database: Value, collection: Value, server: Server): (r: Result<bool, Error>)
    ensures r.Failure? <==> ValidateMongoDB(database, collection).Fail?
    ensures r.Failure? ==> r.error == ValidateMongoDB(database, collection).error
    ensures r.Success? ==> (r.value <==> HasCollection(server, database.s, collection.s))
  {
    match ValidateMongoDB(database, collection)
    case Fail(e) => Failure(e)
    case Pass => Success(HasCollection(server, database.s, collection.s))
  }

  /** The names are valid and the collection exists. */
  predicate Present(database: Value, collection: Value, server: Server) {
    database.Str? && collection.Str? && HasCollection(server, database.s, collection.s)
  }

  // ---------------------------------------------------------------------
  // Projection

  /** Mark each of keys as included, left to right. */
  function IncludeAll(p: Projection, keys: seq<string>): Projection
    decreases |keys|
  {
    if keys == [] then p else IncludeAll(Put(p, keys[0], true), keys[1..])
  }

  /** The projection get_projection builds: '_id' excluded, then each key
      included, the later assignment winning. */
  function ProjectionFor(keys: Option<seq<string>>): Projection {
    IncludeAll([("_id", false)], if keys.None? then [] else keys.value)
  }

  /** get_projection: the dict is built in place, one key per iteration. */
  method GetProjection(keys: Option<seq<string>>) returns (projection: Projection)
    ensures projection == ProjectionFor(keys)
  {
    projection := [("_id", false)];
    var ks := if keys.None? then [] else keys.value;
    for i := 0 to |ks|
      invariant IncludeAll(projection, ks[i..]) == ProjectionFor(keys)
    {
      assert ks[i..][1..] == ks[i + 1..];
      projection := Put(projection, ks[i], true);
    }
    assert ks[|ks|..] == [];
  }

  /** Including keys sets each of them to true, leaves other entries alone,
      only appends keys, and keeps every key once. */
  lemma {:induction false} IncludeAllFacts(p: Projection, keys: seq<string>)
    ensures forall k :: Get(IncludeAll(p, keys), k) == if k in keys then Some(true) else Get(p, k)
    ensures |Keys(p)| <= |Keys(IncludeAll(p, keys))|
    ensures Keys(IncludeAll(p, keys))[..|Keys(p)|] == Keys(p)
    ensures DistinctKeys(p) ==> DistinctKeys(IncludeAll(p, keys))
    decreases |keys|
  {
    if keys != [] {
      var p' := Put(p, keys[0], true);
      IncludeAllFacts(p', keys[1..]);
      if DistinctKeys(p) {
        PutKeepsKeysDistinct(p, keys[0], true);
      }
      forall k ensures Get(IncludeAll(p, keys), k) == if k in keys then Some(true) else Get(p, k) {
        assert k in keys <==> k == keys[0] || k in keys[1..];
      }
      var full := Keys(IncludeAll(p, keys));
      assert full[..|Keys(p')|] == Keys(p');
      assert Keys(p')[..|Keys(p)|] == Keys(p);
    }
  }

  /** get_projection(keys) maps '_id' to false unless '_id' is listed, every
      listed key to true, and has no other entry; '_id' comes first and no
      key occurs twice. Without keys it is exactly {'_id': False}. */
  lemma ProjectionShape(keys: Option<seq<string>>)
    ensures var p := ProjectionFor(keys);
      var ks := if keys.None? then [] else keys.value;
      && (forall k :: Has(p, k) <==> k == "_id" || k in ks)
      && (forall k :: k in ks ==> Get(p, k) == Some(true))
      && Get(p, "_id") == Some("_id" in ks)
      && Keys(p)[0] == "_id"
      && DistinctKeys(p)
      && (keys.None? ==> p == [("_id", false)])
  {
    var ks := if keys.None? then [] else keys.value;
    var base: Projection := [("_id", false)];
    assert Keys(base) == ["_id"];
    IncludeAllFacts(base, ks);
    var p := ProjectionFor(keys);
    forall k ensures Has(p, k) <==> k == "_id" || k in ks {
      assert Get(p, k).Some? <==> Has(p, k);
      assert Get(base, k).Some? <==> Has(base, k);
    }
    assert Keys(p)[..1] == ["_id"];
  }

  // ---------------------------------------------------------------------
  // load_data

  /** The sort load_data asks for: none, or the one key ascending. */
  function AscendingOn(sortingKey: Option<string>): Option<seq<(string, Order)>> {
    if sortingKey.None? then None else Some([(sortingKey.value, Ascending)])
  }

  /** A range condition built from a range dict: '$gte' holds the value of
      'min' and '$lte' that of 'max', each present exactly when its bound is,
      and nothing else. */
  ghost predicate BoundsOf(range: Fields<Value>, condition: Fields<Value>) {
    && Get(condition, "$gte") == Get(range, "min")
    && Get(condition, "$lte") == Get(range, "max")
    && (forall k :: Has(condition, k) ==> k == "$gte" || k == "$lte")
  }

  /** The range condition of load_data, filled step by step: '$gte' when
      the range has 'min', then '$lte' when it has 'max'. */
  method RangeCondition(range: Value) returns (condition: Fields<Value>)
    ensures range.Dict? ==> BoundsOf(range.entries, condition)
    ensures !range.Dict? ==> condition == []
  {
    condition := [];
    if range.Dict? {
      var entries := range.entries;
      if Has(entries, "min") {
        condition := Put(condition, "$gte", Get(entries, "min").value);
      }
      if Has(entries, "max") {
        condition := Put(condition, "$lte", Get(entries, "max").value);
      }
    }
  }

  /** range['key'] is present but cannot be a dict key, so building the
      filter `{range['key']: condition}` raises TypeError. */
  predicate UnhashableRangeKey(range: Value) {
    range.Dict? && Get(range.entries, "key").Some? && !Hashable(Get(range.entries, "key").value)
  }

  /** load_data: validate the names, then the range, then check existence;
      an absent collection yields no request (the layer returns an empty
      list), otherwise the one find request shown, unless range['key'] is
      unhashable: then building the find's filter argument raises before
      the request is sent. */
  method LoadData(database: Value, collection: Value, sortingKey: Option<string>,
                  keys: Option<seq<string>>, range: Value, server: Server)
    returns (r: Result<Option<Request>, Error>)
    ensures ValidateMongoDB(database, collection).Fail? ==> r == Failure(ValidateMongoDB(database, collection).error)
    ensures ValidateMongoDB(database, collection).Pass? && ValidateRange(range).Fail? ==>
      r == Failure(ValidateRange(range).error)
    ensures (&& ValidateMongoDB(database, collection).Pass? && ValidateRange(range).Pass?
             && Present(database, collection, server) && UnhashableRangeKey(range)) ==>
      r == Failure(UnhashableFilterKey)
    ensures r.Success? <==>
      && ValidateMongoDB(database, collection).Pass? && ValidateRange(range).Pass?
      && (!Present(database, collection, server) || !UnhashableRangeKey(range))
    ensures r.Success? ==> (r.value.None? <==> !Present(database, collection, server))
    ensures r.Success? && r.value.Some? ==>
      var q := r.value.value;
      && q.Find?
      && q.sort == AscendingOn(sortingKey)
      && q.projection == ProjectionFor(keys)
      && (q.filter.None? <==> range.Null?)
      && (q.filter.Some? ==>
            && Get(range.entries, "key") == Some(q.filter.value.field)
            && Hashable(q.filter.value.field)
            && BoundsOf(range.entries, q.filter.value.condition))
  {
    match ValidateMongoDB(database, collection) {
      case Fail(e) => return Failure(e);
      case Pass =>
    }
    match ValidateRange(range) {
      case Fail(e) => return Failure(e);
      case Pass =>
    }
    assert range.Null? || IsRangeDescriptor(range);
    if !HasCollection(server, database.s, collection.s) {
      return Success(None);
    }

    var condition := RangeCondition(range);
    // Keyword arguments are evaluated in order: sort, projection, filter.
    var projection := GetProjection(keys);
    if UnhashableRangeKey(range) {
      return Failure(UnhashableFilterKey);
    }
    var filter := if range.Null? then None else Some(Filter(Get(range.entries, "key").value, condition));
    r := Success(Some(Find(filter, AscendingOn(sortingKey), projection)));
  }

  // ---------------------------------------------------------------------
  // save_data

  /** Every datum carries the unique key (the upsert loop indexes it). */
  predicate EveryDatumHas(data: seq<Record>, key: string) {
    forall i :: 0 <= i < |data| ==> Has(data[i], key)
  }

  /** One upsert per datum, keyed on its value of key, in input order. */
  function Upserts(key: string, data: seq<Record>): seq<Action>
    requires EveryDatumHas(data, key)
  {
    if data == [] then []
    else
      var last := data[|data| - 1];
      Upserts(key, data[..|data| - 1]) + [UpsertSet(key, Get(last, key).value, last)]
  }

  /** The writes save_data issues for valid names, given whether the
      collection already exists. */
  function SavePlan(present: bool, uniqueKey: Option<string>, data: seq<Record>): seq<Action>
    requires present && uniqueKey.Some? ==> EveryDatumHas(data, uniqueKey.value)
  {
    if present then
      if uniqueKey.None? then [InsertMany(data)] else Upserts(uniqueKey.value, data)
    else
      (if uniqueKey.Some? then [CreateUniqueIndex(uniqueKey.value)] else []) + [InsertMany(data)]
  }

  /** save_data. bulkWriteFails says whether the server rejects the
      insert_many batch; that rejection becomes one Duplication error. */
  method SaveData(database: Value, collection: Value, data: seq<Record>, uniqueKey: Option<string>,
                  server: Server, bulkWriteFails: bool)
    returns (issued: seq<Action>, outcome: Outcome<Error>)
    requires Present(database, collection, server) && uniqueKey.Some? ==> EveryDatumHas(data, uniqueKey.value)
    ensures ValidateMongoDB(database, collection).Fail? ==>
      issued == [] && outcome == ValidateMongoDB(database, collection)
    ensures ValidateMongoDB(database, collection).Pass? ==>
      && issued == SavePlan(HasCollection(server, database.s, collection.s), uniqueKey, data)
      && outcome == if InsertMany(data) in issued && bulkWriteFails then Fail(Duplication) else Pass
  {
    issued := [];
    outcome := ValidateMongoDB(database, collection);
    if outcome.Fail? {
      return;
    }
    var present := HasCollection(server, database.s, collection.s);
    if present && uniqueKey.Some? {
      var key := uniqueKey.value;
      for i := 0 to |data|
        invariant issued == Upserts(key, data[..i])
      {
        assert data[..i + 1][..i] == data[..i];
        issued := issued + [UpsertSet(key, Get(data[i], key).value, data[i])];
      }
      assert data[..|data|] == data;
      UpsertsShape(key, data);
    } else {
      if !present && uniqueKey.Some? {
        issued := [CreateUniqueIndex(uniqueKey.value)];
      }
      issued := issued + [InsertMany(data)];
      if bulkWriteFails {
        outcome := Fail(Duplication);
      }
    }
  }

  /** The upsert loop issues exactly one UpsertSet(key, datum[key], datum)
      per datum, in input order, and nothing else. */
  lemma {:induction false} UpsertsShape(key: string, data: seq<Record>)
    requires EveryDatumHas(data, key)
    ensures |Upserts(key, data)| == |data|
    ensures forall i :: 0 <= i < |data| ==>
      Upserts(key, data)[i] == UpsertSet(key, Get(data[i], key).value, data[i])
  {
    if data != [] {
      var front := data[..|data| - 1];
      assert EveryDatumHas(front, key) by {
        forall i | 0 <= i < |front| ensures Has(front[i], key) {
          assert front[i] == data[i];
        }
      }
      UpsertsShape(key, front);
      forall i | 0 <= i < |data|
        ensures Upserts(key, data)[i] == UpsertSet(key, Get(data[i], key).value, data[i])
      {
        if i < |front| {
          assert front[i] == data[i];
        }
      }
    }
  }

  /** An existing collection with a unique key: one upsert per datum in
      order, no index and no bulk insert. */
  lemma UpsertPath(key: string, data: seq<Record>)
    requires EveryDatumHas(data, key)
    ensures var plan := SavePlan(true, Some(key), data);
      && |plan| == |data|
      && (forall i :: 0 <= i < |data| ==> plan[i] == UpsertSet(key, Get(data[i], key).value, data[i]))
      && (forall a :: a in plan ==> a.UpsertSet?)
  {
    UpsertsShape(key, data);
    var plan := SavePlan(true, Some(key), data);
    forall a | a in plan ensures a.UpsertSet? {
      var i :| 0 <= i < |plan| && plan[i] == a;
    }
  }

  /** A unique index is created only for an absent collection with a unique
      key, and then before the one bulk insert; without a unique key the
      whole batch goes in one insert_many. */
  lemma IndexAndBulkInsert(present: bool, uniqueKey: Option<string>, data: seq<Record>)
    requires present && uniqueKey.Some? ==> EveryDatumHas(data, uniqueKey.value)
    ensures var plan := SavePlan(present, uniqueKey, data);
      && ((exists a :: a in plan && a.CreateUniqueIndex?) <==> !present && uniqueKey.Some?)
      && (!present && uniqueKey.Some? ==> plan == [CreateUniqueIndex(uniqueKey.value), InsertMany(data)])
      && (uniqueKey.None? ==> plan == [InsertMany(data)])
      && (InsertMany(data) in plan <==> !present || uniqueKey.None?)
  {
    var plan := SavePlan(present, uniqueKey, data);
    if present && uniqueKey.Some? {
      UpsertPath(uniqueKey.value, data);
    } else if uniqueKey.Some? {
      assert plan[0] in plan;
    }
  }

  // ---------------------------------------------------------------------
  // get_keys and get_range

  /** get_keys. sample is the record find_one answers with (under the
      projection {'_id': False}); the driver answers None only for an empty
      collection, where the source fails, so it must be present. */
  function GetKeys(database: Value, collection: Value, server: Server, sample: Option<Record>)
    : (r: Result<Answer<seq<string>>, Error>)
    requires Present(database, collection, server) ==> sample.Some?
    ensures r.Failure? <==> ValidateMongoDB(database, collection).Fail?
    ensures r.Failure? ==> r.error == ValidateMongoDB(database, collection).error
    ensures r.Success? && !Present(database, collection, server) ==> r.value == Answer([], [])
    ensures r.Success? && Present(database, collection, server) ==>
      && r.value.issued == [FindOne(None, [("_id", false)])]
      && |r.value.value| == |sample.value|
      && (forall i :: 0 <= i < |sample.value| ==> r.value.value[i] == sample.value[i].0)
  {
    match ValidateMongoDB(database, collection)
    case Fail(e) => Failure(e)
    case Pass =>
      if !HasCollection(server, database.s, collection.s) then Success(Answer([], []))
      else
        ProjectionShape(None);
        Success(Answer([FindOne(None, ProjectionFor(None))], Keys(sample.value)))
  }

  /** The two find_one requests get_range sends: the record first by key
      ascending and the record first by key descending, each projected on key. */
  function RangeProbes(key: string): (qs: seq<Request>)
    ensures |qs| == 2 && qs[0].FindOne? && qs[1].FindOne?
    ensures qs[0].sort == Some([(key, Ascending)]) && qs[1].sort == Some([(key, Descending)])
    ensures qs[0].projection == qs[1].projection
    ensures key != "_id" ==> qs[0].projection == [("_id", false), (key, true)]
    ensures key == "_id" ==> qs[0].projection == [("_id", true)]
  {
    var projection := ProjectionFor(Some([key]));
    assert [key][1..] == [];
    assert projection == IncludeAll(Put([("_id", false)], key, true), []);
    assert projection == Put([("_id", false)], key, true);
    [FindOne(Some([(key, Ascending)]), projection), FindOne(Some([(key, Descending)]), projection)]
  }

  /** get_range. start and end are the records the two probes answer with;
      the driver answers None only for an empty collection, where the source
      fails, so start must be present, and end too once start has the key
      (the `or` of the source does not look at end otherwise). */
  function GetRange(database: Value, collection: Value, key: string, server: Server,
                    start: Option<Record>, end: Option<Record>): (r: Result<Answer<Value>, Error>)
    requires Present(database, collection, server) ==> start.Some? && (Has(start.value, key) ==> end.Some?)
    ensures r.Failure? <==> ValidateMongoDB(database, collection).Fail?
    ensures r.Failure? ==> r.error == ValidateMongoDB(database, collection).error
    ensures r.Success? && !Present(database, collection, server) ==> r.value == Answer([], Null)
    ensures r.Success? && Present(database, collection, server) ==>
      && r.value.issued == RangeProbes(key)
      && (r.value.value == Null <==> !Has(start.value, key) || !Has(end.value, key))
      && (r.value.value != Null ==>
            && r.value.value.Dict?
            && Keys(r.value.value.entries) == ["key", "start", "end"]
            && Get(r.value.value.entries, "key") == Some(Str(key))
            && Get(r.value.value.entries, "start") == Get(start.value, key)
            && Get(r.value.value.entries, "end") == Get(end.value, key))
  {
    match ValidateMongoDB(database, collection)
    case Fail(e) => Failure(e)
    case Pass =>
      if !HasCollection(server, database.s, collection.s) then Success(Answer([], Null))
      else if !Has(start.value, key) || !Has(end.value, key) then Success(Answer(RangeProbes(key), Null))
      else
        var entries := [("key", Str(key)), ("start", Get(start.value, key).value), ("end", Get(end.value, key).value)];
        assert Keys(entries) == ["key", "start", "end"];
        Success(Answer(RangeProbes(key), Dict(entries)))
  }
}
