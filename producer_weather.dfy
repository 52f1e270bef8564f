/** The weather producer: a producer of the `weather` topic whose construction picks
    the starting temperature from the month and loads the key and value schemas into
    class attributes the first time a weather producer is built. */
module WeatherProducer {
  import opened Wrappers
  import opened Producers

  /** The members of the `status` enumeration, numbered from 0 in declaration order. */
  datatype Status = Sunny | PartlyCloudy | Cloudy | Windy | Precipitation

  const Statuses: seq<Status> := [Sunny, PartlyCloudy, Cloudy, Windy, Precipitation]

  /** The integer value of a status member. */
  function Value(s: Status): (v: nat)
    ensures v < |Statuses| && Statuses[v] == s
  {
    match s
    case Sunny => 0
    case PartlyCloudy => 1
    case Cloudy => 2
    case Windy => 3
    case Precipitation => 4
  }

  /** Looking a member up by its value, `status(v)`; no member has a value outside 0..4. */
  function StatusOf(v: int): (r: Option<Status>)
    ensures r.Some? <==> 0 <= v < |Statuses|
    ensures r.Some? ==> Value(r.value) == v
  {
    if 0 <= v < |Statuses| then Some(Statuses[v]) else None
  }

  /** Value and lookup are inverse. */
  lemma StatusValueRoundTrip(s: Status)
    ensures StatusOf(Value(s)) == Some(s)
  {
  }

  const WinterMonths: set<int> := {0, 1, 2, 3, 10, 11}
  const SummerMonths: set<int> := {6, 7, 8}

  /** No month is in both seasons, so the order of the season tests does not matter. */
  lemma SeasonsDisjoint()
    ensures WinterMonths !! SummerMonths
  {
  }

  /** The temperature a new weather producer starts from. */
  function InitialTemp(month: int): (temp: real)
    ensures temp == 40.0 <==> month in WinterMonths
    ensures temp == 85.0 <==> month in SummerMonths
    ensures temp == 70.0 <==> month !in WinterMonths && month !in SummerMonths
  {
    if month in WinterMonths then 40.0
    else if month in SummerMonths then 85.0
    else 70.0
  }

  /** The mode of the triangular step of each weather update. */
  function Mode(month: int): (mode: real)
    ensures mode == -1.0 <==> month in WinterMonths
    ensures mode == 1.0 <==> month in SummerMonths
    ensures mode == 0.0 <==> month !in WinterMonths && month !in SummerMonths
  {
    if month in WinterMonths then -1.0
    else if month in SummerMonths then 1.0
    else 0.0
  }

  /** The drift of the updates points the same way as the starting temperature departs
      from 70. */
  lemma ModeFollowsInitialTemp(month: int)
    ensures Mode(month) < 0.0 <==> InitialTemp(month) < 70.0
    ensures Mode(month) > 0.0 <==> InitialTemp(month) > 70.0
  {
  }

  const KeySchemaFile: string := "schemas/weather_key.json"
  const ValueSchemaFile: string := "schemas/weather_value.json"

  /** The class attributes `key_schema` and `value_schema`, with the schema files read
      so far. */
  datatype CacheState = CacheState(keySchema: Option<Schema>, valueSchema: Option<Schema>, filesRead: seq<string>)

  const EmptyCache: CacheState := CacheState(None, None, [])

  /** The schema loading at the end of construction, given what the two files hold: a
      schema is read only while its attribute is unset. */
  function LoadSchemas(c: CacheState, keyFile: Schema, valueFile: Schema): (r: CacheState)
    ensures r.keySchema.Some? && r.valueSchema.Some?
    ensures c.keySchema.Some? ==> r.keySchema == c.keySchema
    ensures c.valueSchema.Some? ==> r.valueSchema == c.valueSchema
    ensures c.keySchema.None? ==> r.keySchema == Some(keyFile)
    ensures c.valueSchema.None? ==> r.valueSchema == Some(valueFile)
    ensures |c.filesRead| <= |r.filesRead| <= |c.filesRead| + 2 && r.filesRead[..|c.filesRead|] == c.filesRead
  {
    var afterKey :=
      if c.keySchema.None? then c.(keySchema := Some(keyFile), filesRead := c.filesRead + [KeySchemaFile])
      else c;
    if afterKey.valueSchema.None? then
      afterKey.(valueSchema := Some(valueFile), filesRead := afterKey.filesRead + [ValueSchemaFile])
    else afterKey
  }

  /** The loading of a sequence of constructions, given what the files hold each time:
      after one construction both schemas are set, and a set schema is never replaced. */
  function LoadAll(c: CacheState, files: seq<(Schema, Schema)>): (r: CacheState)
    decreases |files|
    ensures files != [] ==> r.keySchema.Some? && r.valueSchema.Some?
    ensures c.keySchema.Some? ==> r.keySchema == c.keySchema
    ensures c.valueSchema.Some? ==> r.valueSchema == c.valueSchema
  {
    if files == [] then c
    else
      var last := files[|files| - 1];
      LoadSchemas(LoadAll(c, files[..|files| - 1]), last.0, last.1)
  }

  /** Once loaded, the schemas are never read again, whatever the files hold later. */
  lemma LoadSchemasIdempotent(c: CacheState, keyFile: Schema, valueFile: Schema,
                              laterKey: Schema, laterValue: Schema)
    ensures LoadSchemas(LoadSchemas(c, keyFile, valueFile), laterKey, laterValue) ==
            LoadSchemas(c, keyFile, valueFile)
  {
  }

  /** In a fresh process the first construction loads both schemas, reading each file
      once, and no later construction changes the cache. */
  lemma {:induction false} LoadAllFirstWins(files: seq<(Schema, Schema)>)
    requires files != []
    ensures LoadAll(EmptyCache, files) ==
      CacheState(Some(files[0].0), Some(files[0].1), [KeySchemaFile, ValueSchemaFile])
    decreases |files|
  {
    if |files| > 1 {
      var prefix := files[..|files| - 1];
      LoadAllFirstWins(prefix);
      assert prefix[0] == files[0];
    } else {
      assert files[..0] == [];
    }
  }

  /** The cache as a value. */
  class SchemaCache {
    var keySchema: Option<Schema>
    var valueSchema: Option<Schema>
    var filesRead: seq<string>

    constructor ()
      ensures keySchema == None && valueSchema == None && filesRead == []
    {
      keySchema := None;
      valueSchema := None;
      filesRead := [];
    }

    function State(): CacheState
      reads this
    {
      CacheState(keySchema, valueSchema, filesRead)
    }
  }

  class Weather {
    const base: Producer
    var status: Status
    var temp: real

    constructor Init(base: Producer)
      ensures this.base == base && status == Sunny && temp == 70.0
    {
      this.base := base;
      status := Sunny;
      temp := 70.0;
    }

    /** Construction: the producer part first, with the schemas the cache holds at that
        moment (none, for the first weather producer of the process), then the status,
        the temperature, and the schema loading. */
    static method New(cache: SchemaCache, registry: TopicRegistry, admin: Admin,
                      answer: FutureResult, month: int, keyFile: Schema, valueFile: Schema)
      returns (r: Result<Weather, Exception>)
      modifies cache, registry, admin
      ensures Snapshot(registry, admin) ==
        Provision(old(Snapshot(registry, admin)), Construction("weather", 3, 1, answer))
      ensures r.Failure? <==> "weather" !in old(registry.existingTopics) && answer.Raised?
      ensures r.Failure? ==> cache.State() == old(cache.State())
      ensures r.Success? ==> cache.State() == LoadSchemas(old(cache.State()), keyFile, valueFile)
      ensures r.Success? ==>
        && fresh(r.value)
        && r.value.status == Sunny && Value(r.value.status) == 0
        && r.value.temp == InitialTemp(month)
        && r.value.base.topicName == "weather"
        && r.value.base.numPartitions == 3 && r.value.base.numReplicas == 1
        && r.value.base.keySchema == old(cache.keySchema)
        && r.value.base.valueSchema == old(cache.valueSchema)
        && r.value.base.producer != null
        && r.value.base.producer.defaultKeySchema == old(cache.keySchema)
        && r.value.base.producer.defaultValueSchema == old(cache.valueSchema)
    {
      var p := Producer.New(registry, admin, answer, "weather", cache.keySchema,
                            valueSchema := cache.valueSchema, numPartitions := 3, numReplicas := 1);
      if p.Failure? {
        return Failure(p.error);
      }
      var w := new Weather.Init(p.value);
      if month in WinterMonths {
        w.temp := 40.0;
      } else if month in SummerMonths {
        w.temp := 85.0;
      }
      if cache.keySchema.None? {
        cache.filesRead := cache.filesRead + [KeySchemaFile];
        cache.keySchema := Some(keyFile);
      }
      if cache.valueSchema.None? {
        cache.filesRead := cache.filesRead + [ValueSchemaFile];
        cache.valueSchema := Some(valueFile);
      }
      return Success(w);
    }
  }

  /** Two weather producers in a fresh process whose topic creation succeeds: the first
      hands its producer no key schema, the second hands it the loaded one, and the
      broker gets one creation request in all. */
  method TwoWeathers(month: int, keyFile: Schema, valueFile: Schema)
    returns (firstKey: Option<Schema>, secondKey: Option<Schema>, requests: nat)
    ensures firstKey == None && secondKey == Some(keyFile)
    ensures requests == 1
  {
    var cache := new SchemaCache();
    var registry := new TopicRegistry();
    var admin := new Admin();
    var first := Weather.New(cache, registry, admin, Done, month, keyFile, valueFile);
    assert first.Success?;
    firstKey := first.value.base.keySchema;
    var second := Weather.New(cache, registry, admin, Done, month, keyFile, valueFile);
    assert second.Success?;
    secondKey := second.value.base.keySchema;
    requests := |admin.attempts|;
  }
}
