# Kafka pipeline core, modelled in Dafny

This project models the deterministic core of a small Kafka pipeline for Chicago
transit data:

- **Station stream** (`FaustStream`): the Faust agent that reads station records,
  picks each station's line colour (red, then green, then blue, else none), writes
  it into the `processed_stations` table under the station id, and sends one
  reduced record per input record to the `processed_stations` topic.
- **Producer base class** (`Producers`): every producer construction provisions
  its topic at most once per process. The check goes through a class-level
  registry of topic names. The creation request always carries the same
  compaction configuration. A failed creation raises, and the name stays
  unregistered.
- **Weather producer** (`WeatherProducer`): the starting temperature depends on
  the month, and the starting status is `sunny`. The key and value schemas are
  loaded into class attributes once per process, after the base constructor has
  already been handed the attributes' earlier values.
- **Consumer weather model** (`WeatherConsumer`): two fields, overwritten from
  messages whose topic name contains `arrivals`.
- **Control-plane configuration** (`Connector`, `Ksql`): a check-then-create
  decision over HTTP status codes. A failing connector creation exits with
  status 1. A failing KSQL statement is printed and swallowed.

Network calls are replaced by abstract inputs:
- the broker's answer to a topic creation is a `FutureResult` parameter;
- the contents of the schema files are `Schema` parameters;
- HTTP responses are integer status codes;
- the topic-existence oracle is a function parameter.

The shared registry, the schema cache, the broker's administrative log and the
Faust table are objects whose fields the methods update. The rules behind them
are pure functions (`Apply`, `Emitted`, `Provision`, `LoadSchemas`,
`CheckThenCreate`, `ExecuteStatement`), and the lemmas are about those functions.

The `requests` library is not part of this model. Its `raise_for_status` is taken
to raise for statuses 400 to 599 only (`Http.RaisesForStatus`).

Where the code and the system's design description differ, the model follows the
code, with one exception: the exception raised when a topic creation fails is the
corrected one (see "## Findings" and "## Left out"). The differences:
- the broker's "topic already exists" failure is re-raised like any other; it is
  not counted as success;
- the connector skips creation only on status 200 exactly;
- a creation counts as failed only on a 4xx or 5xx status, not on every non-2xx;
- KSQL errors are swallowed, not fatal;
- the connector's lookup and creation use different names;
- nothing guards the check-then-create sequence with a lock.

## Model

| member | source | states |
|---|---|---|
| `FaustStream.Line` | consumers/faust_stream.py:47-53 | red wins over the other flags; green exactly when not red and green, even if blue is set; blue exactly when only blue is set; none exactly when no flag is set |
| `FaustStream.FirstSet` | consumers/faust_stream.py:47-53 | reference definition of a fixed-precedence choice: none exactly when no flag is set, otherwise the colour of the first set flag |
| `FaustStream.LineIsFirstSet` | consumers/faust_stream.py:47-53 | the nested conditional equals the first-set choice over the table red, green, blue |
| `FaustStream.Transform` | consumers/faust_stream.py:56-61 | the output record copies the station's id, name and order, and its line is the colour of the first set flag in the order red, green, blue |
| `FaustStream.Apply` | consumers/faust_stream.py:54 | writing records into the table never removes a key, and every station seen has an entry |
| `FaustStream.Emitted` | consumers/faust_stream.py:56-63 | one output record per input record, in order; each copies station id, station name and order and carries the computed line (no other field exists in the output) |
| `FaustStream.ApplyStep` | consumers/faust_stream.py:54 | one record sets its own key to its line, present even when the line is none; every other key keeps its presence and value |
| `FaustStream.ApplyLastWriteWins` | consumers/faust_stream.py:44-54 | after a sequence, the entry of a key is the line of the last record with that station id |
| `FaustStream.ApplyUnseenKey` | consumers/faust_stream.py:44-54 | a key no record carries keeps its initial entry or its absence |
| `FaustStream.ApplyKeys` | consumers/faust_stream.py:44-54 | the keys are the initial keys plus the station ids seen, so from an empty table ids never seen are absent |
| `FaustStream.ReplayEmitted` | consumers/faust_stream.py:37-63 | replaying the sent records' (station id, line) pairs in order rebuilds the table that processing built |
| `FaustStream.EmittedAgreesWithTable` | consumers/faust_stream.py:54-63 | the record sent for a station's last input carries the line its table entry holds |
| `FaustStream.App.constructor` | consumers/faust_stream.py:36-42 | a new application has an empty table and has sent nothing |
| `FaustStream.App.ProcessStation` | consumers/faust_stream.py:44-63 | the agent loop leaves the table equal to the old table with each record written in order, and appends exactly the emitted records, in consumption order, to the output topic |
| `Producers.TopicRegistry.constructor` | producers/models/producer.py:19 | the registry starts empty |
| `Producers.TopicRequest` | producers/models/producer.py:59-69 | the request names the producer's topic, partitions and replicas, and its config is exactly cleanup.policy=compact, delete.retention.ms=2000, file.delete.delay.ms=2000 |
| `Producers.Provision` | producers/models/producer.py:45-47 | a construction never unregisters a name and registers at most its own; its name is registered afterwards exactly when it already was or the creation succeeded; the broker's log is extended by one request exactly when the name was unregistered, and that request carries the construction's settings and answer |
| `Producers.ProvisionAll` | producers/models/producer.py:45-47 | a sequence of constructions sends at most one request per construction |
| `Producers.Admin.CreateTopics` | producers/models/producer.py:59-70 | the broker logs the request with its answer and returns one future, keyed by the topic name |
| `Producers.AwaitAll` | producers/models/producer.py:72-78 | no exception exactly when every future succeeded; otherwise the exception raised comes from one of the failed futures and is the corrected one, the broker's own (the code as written raises `ReraisedAsWritten` instead) |
| `Producers.ReraisedAsWritten` | producers/models/producer.py:76-78 | as written, a failed future leaves create_topic as an AttributeError on `topic_name`, never as the broker's exception |
| `Producers.Reraised` | producers/models/producer.py:72-78 | corrected: the exception re-raised is the broker's, with its reason |
| `Producers.AvroProducer.constructor` | producers/models/producer.py:49-54 | the Avro producer keeps the key and value schemas it was given |
| `Producers.AvroProducer.Flush` | producers/models/producer.py:88 | a flush is recorded |
| `Producers.Producer.Init` | producers/models/producer.py:30-34 | the constructor's arguments become the instance's fields |
| `Producers.Producer.CreateTopic` | producers/models/producer.py:57-78 | exactly one request with the instance's name, partitions, replicas and the config cleanup.policy=compact, delete.retention.ms=2000, file.delete.delay.ms=2000; raises exactly when the future failed, "already exists" included, with the corrected exception, the broker's own |
| `Producers.Producer.New` | producers/models/producer.py:21-54 | defaults of 1 partition and 1 replica; a registered name sends no request; otherwise one request, and the name is registered only on success; a normal return leaves the name registered; a failure raises the corrected exception, the broker's own, and registers nothing |
| `Producers.Producer.Close` | producers/models/producer.py:85-88 | flushes when the Avro producer is set, and changes nothing otherwise (the truthiness test is read as a test for a set field) |
| `Producers.ProvisionKeepsCoherent` | producers/models/producer.py:45-47 | one construction keeps two facts: the registry equals the set of names created, and no request for a name follows a successful one |
| `Producers.ProvisionAllCoherent` | producers/models/producer.py:19-47 | any sequence of constructions in a fresh process leaves the registry coherent with the broker's log |
| `Producers.AtMostOneCreationPerName` | producers/models/producer.py:45-47 | over any sequence of constructions, at most one successful creation per name, with no request for that name after it |
| `Producers.ProvisionAllGrows` | producers/models/producer.py:19-47 | the registry only grows and the broker's log is only extended |
| `Producers.RegisteredNameIgnoresSettings` | producers/models/producer.py:45-47 | for a registered name a construction changes nothing, whatever partitions and replicas it asks for |
| `Producers.FailedCreationIsRetried` | producers/models/producer.py:45-47 | after a failed creation the name is unregistered and the next construction of it sends a new request |
| `Producers.TwoConstructionsOneRequest` | producers/models/producer.py:45-47 | two constructions of one unregistered name, the first successful, send exactly one request |
| `WeatherProducer.Value` | producers/models/weather.py:20-22 | each status member's value is its position in the order sunny, partly_cloudy, cloudy, windy, precipitation, counted from 0 |
| `WeatherProducer.StatusOf` | producers/models/weather.py:20-22 | lookup by value succeeds exactly for 0 to 4 and gives the member with that value |
| `WeatherProducer.StatusValueRoundTrip` | producers/models/weather.py:20-22 | value and lookup are inverse |
| `WeatherProducer.SeasonsDisjoint` | producers/models/weather.py:29-30 | the winter and summer month sets are disjoint |
| `WeatherProducer.InitialTemp` | producers/models/weather.py:42-46 | 40 exactly for months 0, 1, 2, 3, 10, 11; 85 exactly for 6, 7, 8; 70 exactly otherwise |
| `WeatherProducer.Mode` | producers/models/weather.py:58-62 | the random-walk mode is -1 exactly for winter months, +1 exactly for summer months, 0 exactly otherwise |
| `WeatherProducer.ModeFollowsInitialTemp` | producers/models/weather.py:42-62 | the mode is negative exactly when the starting temperature is below 70, and positive exactly when it is above |
| `WeatherProducer.LoadSchemas` | producers/models/weather.py:48-54 | afterwards both schemas are set; an unset schema is taken from its file and a set one is kept; at most the two files are read, after those read before |
| `WeatherProducer.LoadAll` | producers/models/weather.py:26-27 | after any non-empty sequence of constructions both schemas are set, and a schema already set is never replaced |
| `WeatherProducer.LoadSchemasIdempotent` | producers/models/weather.py:48-54 | once loaded, the schemas are never re-read or replaced, whatever the files hold later |
| `WeatherProducer.LoadAllFirstWins` | producers/models/weather.py:26-27 | in a fresh process, any non-empty sequence of constructions leaves the schemas read at the first one, each file read exactly once |
| `WeatherProducer.SchemaCache.constructor` | producers/models/weather.py:26-27 | both class schemas start unset |
| `WeatherProducer.Weather.Init` | producers/models/weather.py:41-42 | status sunny and temperature 70 before the month is looked at |
| `WeatherProducer.Weather.New` | producers/models/weather.py:32-54 | topic "weather", 3 partitions and 1 replica through the shared registry; the base producer gets the cache's schemas from before loading; status sunny (value 0); temperature by month; schemas loaded only while unset; nothing loaded when the base constructor raises |
| `WeatherProducer.TwoWeathers` | producers/models/weather.py:33-54 | in a fresh process the first weather producer passes no key schema and the second passes the loaded one; one creation request in all |
| `WeatherConsumer.Contains` | consumers/models/weather.py:19 | substring containment: true exactly when the pattern occurs at some position |
| `WeatherConsumer.Handles` | consumers/models/weather.py:19 | a topic is handled exactly when "arrivals" occurs in its name, so only names of 8 or more characters |
| `WeatherConsumer.WeatherTopicNotHandled` | consumers/models/weather.py:19 | messages of the topic `weather`, to which the weather producer posts its readings, do not update the model |
| `WeatherConsumer.HandlesAnyContainingName` | consumers/models/weather.py:19 | any topic name with "arrivals" anywhere in it is handled, not only the exact name |
| `WeatherConsumer.Weather.constructor` | consumers/models/weather.py:7-15 | a new model has temperature 70.0 and status "sunny" |
| `WeatherConsumer.Weather.ProcessMessage` | consumers/models/weather.py:17-22 | on a handled topic both fields become the message's values or, for missing keys, the defaults, never the previous values; any other topic leaves both fields unchanged |
| `Connector.CheckThenCreate` | producers/connector.py:18-54 | the lookup always comes first; status 200 exactly means no post; otherwise exactly one post; exit with status 1 exactly when the post's status is 4xx or 5xx; normal return otherwise |
| `Connector.ConfigureConnector` | producers/connector.py:12-54 | the lookup asks for "stations" while the post creates "cta"; skip exactly on 200; exit 1 exactly on a failing post |
| `Connector.AsWrittenRepostsAndFails` | producers/connector.py:12-29 | against a Kafka Connect service without "stations", every run posts, and the second run is refused and exits with status 1 |
| `Connector.ConfigureConnectorIntended` | producers/connector.py:12-29 | corrected: the lookup asks for the created name "cta" |
| `Connector.IntendedIsIdempotent` | producers/connector.py:19-29 | corrected: after any run, the next run only looks up and posts nothing |
| `Ksql.CheckTargetsSummaryTable` | consumers/ksql.py:15-37 | the existence check names the table the second statement creates, turnstile_summary, not turnstile |
| `Ksql.ExecuteStatement` | consumers/ksql.py:35-60 | no post exactly when the oracle says True for turnstile_summary; otherwise one post with the statement and auto.offset.reset=earliest; an HTTP error is printed and the function returns normally |
| `Ksql.ErrorPolicies` | consumers/ksql.py:57-60 | on the same failing status KSQL returns normally while the connector exits with status 1 |

## Left out

- Faust runtime: async iteration, partition assignment and changelog replication and recovery are library internals. So is the table's `default=TransformedStation` factory.
- The table's changelog topic is the same topic the agent sends to. Faust's own changelog writes to that topic are not modelled; `App.outTopic` holds only the agent's sends.
- A new `App` starts with an empty table (the in-memory store); recovery on restart is not modelled.
- The internals of confluent-kafka's `AdminClient`, `AvroProducer` and `CachedSchemaRegistryClient`, and Avro serialisation:
  - the broker's answer is a parameter;
  - the Avro producer is reduced to its default schemas and a flush count;
  - the schema registry client and the broker properties are not modelled.
- The futures map of create_topic always has one entry (one topic per request). `AwaitAll` handles any map.
- The log and `print` lines, including create_topic's messages, are not modelled, except for the exception raised while formatting one of them (`Producers.ReraisedAsWritten`).
- Producers.AwaitAll: on a failed future it gives the corrected exception, the broker's own (`Producers.Reraised`), where the code as written raises the AttributeError of `Producers.ReraisedAsWritten` (see "## Findings"). When it raises is as written.
- Producers.Producer.CreateTopic: a failed creation raises the corrected exception, as `Producers.AwaitAll` does. The request it sends and when it raises are as written.
- Producers.Producer.New: a failed creation raises the corrected exception, as `Producers.AwaitAll` does. Its failure condition, the registry and the broker's log are as written.
- Producers.Producer.Close: the Avro producer's send queue is not modelled. The source's `if self.producer:` also depends on the queue's length, because the Avro producer defines `__len__`; the model reads it as a test for a set field. Flushing an empty queue delivers nothing, so what is delivered is the same.
- The weather update's `random.triangular` step, its clamp and the random status choice are random floating-point work. Only the mode selection is modelled.
- `time_millis` and `run`, which post a reading to the REST proxy, are left out: they depend on the clock, on float truncation and on HTTP.
- Schema file reads and JSON parsing: a file's parsed contents are a `Schema` parameter.
- The name of the topic ksqlDB creates for `turnstile_summary` (it may be upper-cased) is not modelled. The model only fixes the name the existence check asks for.
- `topic_check.topic_exists` is not part of this model. It is an oracle parameter, and only its literal `True` answer counts as "exists".
- HTTP requests are reduced to their URL and the name or statement they carry. Headers, JSON bodies and the connector configuration map are opaque.
- In the connector's failure branch, `resp.json()` could itself raise on a non-JSON body. The model assumes it does not and the process exits.
- Consumer weather messages: temperature is a real number and status a string. Other JSON types stored under those keys are not modelled.
- Concurrency: constructions are sequential. The unguarded check-then-create race between threads or processes is not modelled.
- Entry points (`__main__`) and logging setup.

## Findings

| source | as written | input that shows it | evidently intended | confidence | as-written member | corrected member |
|---|---|---|---|---|---|---|
| producers/connector.py:12-29 | the lookup asks for connector "stations" but the payload creates "cta", so a successful creation never satisfies a later lookup | a second run after a first run that created "cta": the lookup of "stations" answers 404, the post of "cta" is refused with 409, and the process exits with status 1 (`Connector.AsWrittenRepostsAndFails`; the 409 is Kafka Connect's answer for a taken name) | look up the name that is created, so a later run only looks up (`Connector.IntendedIsIdempotent`) | high; not executed | `Connector.ConfigureConnector` | `Connector.ConfigureConnectorIntended` |
| producers/models/producer.py:76-78 | the log line in the except branch reads `topic.topic_name`, but the futures are keyed by topic-name strings, so an AttributeError leaves create_topic and the bare `raise` is never reached | any failed future, for instance the broker reporting that the topic already exists: the constructor raises AttributeError rather than the broker's error | print the topic name and re-raise the broker's exception | medium (rests on confluent-kafka keying the futures by name); not executed | `Producers.ReraisedAsWritten` | `Producers.Reraised` |
