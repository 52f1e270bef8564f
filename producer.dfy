/** The producer base class: every producer construction makes sure its topic exists,
    at most once per process, through a registry of topic names shared by all
    producers, and then builds its Avro producer. */
module Producers {
  import opened Wrappers

  /** A parsed Avro schema; its contents play no part here. */
  datatype Schema = Schema(definition: string)

  /** A value of a topic configuration entry. */
  datatype ConfigValue = Text(text: string) | Number(number: int)

  /** A topic-creation request for the broker's administrative interface. */
  datatype NewTopic = NewTopic(
    topic: string,
    numPartitions: int,
    replicationFactor: int,
    config: map<string, ConfigValue>)

  /** The configuration of every topic a producer creates: compacted, with a two-second
      deletion retention and file deletion delay. */
  const TopicConfig: map<string, ConfigValue> := map[
    "cleanup.policy" := Text("compact"),
    "delete.retention.ms" := Number(2000),
    "file.delete.delay.ms" := Number(2000)]

  const DefaultPartitions: int := 1
  const DefaultReplicas: int := 1

  /** What waiting on the broker's future for one requested topic gives: success, or an
      exception with the broker's reason ("already exists" is one such reason). */
  datatype FutureResult = Done | Raised(reason: string)

  /** Exceptions that leave topic creation. */
  datatype Exception =
    | BrokerError(reason: string)
    | AttributeError(owner: string, attribute: string)

  /** One creation request the broker received, with the broker's answer. */
  datatype Attempt = Attempt(request: NewTopic, result: FutureResult)

  /** The request create_topic sends for a topic: the producer's own settings, and a
      compacted topic whatever the settings. */
  function TopicRequest(topicName: string, numPartitions: int, numReplicas: int): (r: NewTopic)
    ensures r.topic == topicName
    ensures r.numPartitions == numPartitions && r.replicationFactor == numReplicas
    ensures r.config.Keys == {"cleanup.policy", "delete.retention.ms", "file.delete.delay.ms"}
    ensures r.config["cleanup.policy"] == Text("compact")
    ensures r.config["delete.retention.ms"] == Number(2000) && r.config["file.delete.delay.ms"] == Number(2000)
  {
    NewTopic(topicName, numPartitions, numReplicas, TopicConfig)
  }

  /** The exception that leaves create_topic as written when a future fails: formatting
      the log line reads `topic_name` from the topic, but the keys of the futures map are
      plain strings, so an AttributeError is raised before the bare `raise` is reached. */
  function ReraisedAsWritten(topic: string, reason: string): (e: Exception)
    ensures e.AttributeError? && e.attribute == "topic_name"
    ensures e != BrokerError(reason)
  {
    AttributeError("str", "topic_name")
  }

  /** The exception the bare `raise` is meant to re-raise: the broker's own. */
  function Reraised(topic: string, reason: string): (e: Exception)
    ensures e.BrokerError? && e.reason == reason
  {
    BrokerError(reason)
  }

  // ----- The shared provisioning state, as values -----

  /** One producer construction: the requested topic settings and the broker's answer,
      should a creation request be sent. */
  datatype Construction = Construction(
    topicName: string,
    numPartitions: int,
    numReplicas: int,
    answer: FutureResult)

  /** The registry of provisioned topic names and the requests the broker received. */
  datatype ProvisionState = ProvisionState(existingTopics: set<string>, attempts: seq<Attempt>)

  const Initial: ProvisionState := ProvisionState({}, [])

  /** What one construction does to the registry and the broker: nothing when the name is
      registered; otherwise one request, and the name is registered only on success. */
  function Provision(st: ProvisionState, c: Construction): (r: ProvisionState)
    ensures st.existingTopics <= r.existingTopics && r.existingTopics - st.existingTopics <= {c.topicName}
    ensures c.topicName in r.existingTopics <==> c.topicName in st.existingTopics || c.answer.Done?
    ensures |st.attempts| <= |r.attempts| <= |st.attempts| + 1 && r.attempts[..|st.attempts|] == st.attempts
    ensures |r.attempts| == |st.attempts| + 1 <==> c.topicName !in st.existingTopics
    ensures |r.attempts| == |st.attempts| + 1 ==>
      r.attempts[|st.attempts|] == Attempt(TopicRequest(c.topicName, c.numPartitions, c.numReplicas), c.answer)
  {
    if c.topicName in st.existingTopics then st
    else
      var attempt := Attempt(TopicRequest(c.topicName, c.numPartitions, c.numReplicas), c.answer);
      ProvisionState(
        if c.answer.Done? then st.existingTopics + {c.topicName} else st.existingTopics,
        st.attempts + [attempt])
  }

  /** A sequence of constructions, in order: each sends at most one request. */
  function ProvisionAll(st: ProvisionState, cs: seq<Construction>): (r: ProvisionState)
    decreases |cs|
    ensures |r.attempts| <= |st.attempts| + |cs|
  {
    if cs == [] then st else Provision(ProvisionAll(st, cs[..|cs| - 1]), cs[|cs| - 1])
  }

  /** The names of the topics the broker reported as created. */
  ghost function Created(attempts: seq<Attempt>): set<string> {
    set i | 0 <= i < |attempts| && attempts[i].result.Done? :: attempts[i].request.topic
  }

  /** The registry holds exactly the names created, and no request for a name follows a
      successful one. */
  ghost predicate Coherent(st: ProvisionState) {
    && st.existingTopics == Created(st.attempts)
    && forall i, j ::
         (0 <= i < j < |st.attempts| &&
          st.attempts[i].request.topic == st.attempts[j].request.topic) ==>
         !st.attempts[i].result.Done?
  }

  lemma CreatedAppend(attempts: seq<Attempt>, a: Attempt)
    ensures Created(attempts + [a]) ==
      Created(attempts) + (if a.result.Done? then {a.request.topic} else {})
  {
    var all := attempts + [a];
    forall x | x in Created(all)
      ensures x in Created(attempts) + (if a.result.Done? then {a.request.topic} else {})
    {
      var i :| 0 <= i < |all| && all[i].result.Done? && all[i].request.topic == x;
      if i < |attempts| { assert attempts[i] == all[i]; }
    }
    forall x | x in Created(attempts) ensures x in Created(all) {
      var i :| 0 <= i < |attempts| && attempts[i].result.Done? && attempts[i].request.topic == x;
      assert all[i] == attempts[i];
    }
    if a.result.Done? {
      assert all[|attempts|] == a;
    }
  }

  /** One construction keeps the registry coherent with the broker. */
  lemma ProvisionKeepsCoherent(st: ProvisionState, c: Construction)
    requires Coherent(st)
    ensures Coherent(Provision(st, c))
  {
    if c.topicName !in st.existingTopics {
      var next := Provision(st, c);
      var a := next.attempts[|st.attempts|];
      CreatedAppend(st.attempts, a);
      assert forall k :: 0 <= k < |st.attempts| && st.attempts[k].result.Done? ==>
        st.attempts[k].request.topic in Created(st.attempts);
      forall i, j | 0 <= i < j < |next.attempts| &&
                    next.attempts[i].request.topic == next.attempts[j].request.topic
        ensures !next.attempts[i].result.Done?
      {
        assert next.attempts[i] == st.attempts[i];
        if j < |st.attempts| {
          assert next.attempts[j] == st.attempts[j];
        }
      }
    }
  }

  /** Any sequence of constructions in a fresh process leaves a coherent state. */
  lemma {:induction false} ProvisionAllCoherent(cs: seq<Construction>)
    ensures Coherent(ProvisionAll(Initial, cs))
    decreases |cs|
  {
    if cs != [] {
      ProvisionAllCoherent(cs[..|cs| - 1]);
      ProvisionKeepsCoherent(ProvisionAll(Initial, cs[..|cs| - 1]), cs[|cs| - 1]);
    }
  }

  /** Over any sequence of constructions in one process, the broker reports at most one
      successful creation per topic name, and no request for a name follows it. */
  lemma AtMostOneCreationPerName(cs: seq<Construction>)
    ensures var att := ProvisionAll(Initial, cs).attempts;
      forall i, j :: 0 <= i < j < |att| && att[i].request.topic == att[j].request.topic ==>
        !att[i].result.Done?
    ensures ProvisionAll(Initial, cs).existingTopics == Created(ProvisionAll(Initial, cs).attempts)
  {
    ProvisionAllCoherent(cs);
  }

  /** The registry only grows and the broker's log only gets longer. */
  lemma {:induction false} ProvisionAllGrows(st: ProvisionState, cs: seq<Construction>)
    ensures st.existingTopics <= ProvisionAll(st, cs).existingTopics
    ensures |st.attempts| <= |ProvisionAll(st, cs).attempts|
    ensures ProvisionAll(st, cs).attempts[..|st.attempts|] == st.attempts
    decreases |cs|
  {
    if cs != [] {
      var mid := ProvisionAll(st, cs[..|cs| - 1]);
      ProvisionAllGrows(st, cs[..|cs| - 1]);
      var next := Provision(mid, cs[|cs| - 1]);
      assert next.attempts[..|mid.attempts|] == mid.attempts;
      assert next.attempts[..|st.attempts|] == mid.attempts[..|st.attempts|];
    }
  }

  /** A registered name sends nothing, whatever partition and replica settings the later
      construction asks for. */
  lemma RegisteredNameIgnoresSettings(st: ProvisionState, c: Construction)
    requires c.topicName in st.existingTopics
    ensures Provision(st, c) == st
  {
  }

  /** A failed creation leaves the name unregistered, so the next construction of that
      name sends a new request. */
  lemma FailedCreationIsRetried(st: ProvisionState, c: Construction, later: Construction)
    requires c.topicName !in st.existingTopics && c.answer.Raised?
    requires later.topicName == c.topicName
    ensures c.topicName !in Provision(st, c).existingTopics
    ensures |Provision(Provision(st, c), later).attempts| == |st.attempts| + 2
  {
  }

  /** Two constructions for one unregistered name, the first answered with success,
      send exactly one request. */
  lemma TwoConstructionsOneRequest(st: ProvisionState, first: Construction, second: Construction)
    requires first.topicName !in st.existingTopics && first.answer.Done?
    requires second.topicName == first.topicName
    ensures |Provision(Provision(st, first), second).attempts| == |st.attempts| + 1
  {
  }

  // ----- The objects of the running process -----

  /** The class attribute `existing_topics`, shared by every producer of the process. */
  class TopicRegistry {
    var existingTopics: set<string>

    constructor ()
      ensures existingTopics == {}
    {
      existingTopics := {};
    }
  }

  /** The broker's administrative interface: it records every creation request it gets
      and answers with one future per requested topic. */
  class Admin {
    var attempts: seq<Attempt>

    constructor ()
      ensures attempts == []
    {
      attempts := [];
    }

    method CreateTopics(request: NewTopic, answer: FutureResult) returns (futures: map<string, FutureResult>)
      modifies this
      ensures attempts == old(attempts) + [Attempt(request, answer)]
      ensures futures == map[request.topic := answer]
    {
      attempts := attempts + [Attempt(request, answer)];
      futures := map[request.topic := answer];
    }
  }

  /** The registry and the broker's log as one value. */
  function Snapshot(registry: TopicRegistry, admin: Admin): ProvisionState
    reads registry, admin
  {
    ProvisionState(registry.existingTopics, admin.attempts)
  }

  /** Wait on every future in turn and raise on the first failure; the exception raised
      is the broker's own, the corrected behaviour of the except branch. */
  method AwaitAll(futures: map<string, FutureResult>) returns (raised: Option<Exception>)
    ensures raised.None? <==> forall t :: t in futures ==> futures[t].Done?
    ensures raised.Some? ==> exists t :: t in futures && futures[t].Raised? &&
                                         raised.value == Reraised(t, futures[t].reason)
  {
    var remaining := futures.Keys;
    while remaining != {}
      invariant remaining <= futures.Keys
      invariant forall t :: t in futures && t !in remaining ==> futures[t].Done?
      decreases remaining
    {
      var topic :| topic in remaining;
      match futures[topic]
      case Raised(reason) =>
        return Some(Reraised(topic, reason));
      case Done =>
        remaining := remaining - {topic};
    }
    return None;
  }

  /** The Avro producer a producer object wraps; only its flushes are observed. */
  class AvroProducer {
    const defaultKeySchema: Option<Schema>
    const defaultValueSchema: Option<Schema>
    var flushes: nat

    constructor (defaultKeySchema: Option<Schema>, defaultValueSchema: Option<Schema>)
      ensures this.defaultKeySchema == defaultKeySchema
      ensures this.defaultValueSchema == defaultValueSchema
      ensures flushes == 0
    {
      this.defaultKeySchema := defaultKeySchema;
      this.defaultValueSchema := defaultValueSchema;
      flushes := 0;
    }

    method Flush()
      modifies this
      ensures flushes == old(flushes) + 1
    {
      flushes := flushes + 1;
    }
  }

  class Producer {
    const topicName: string
    const keySchema: Option<Schema>
    const valueSchema: Option<Schema>
    const numPartitions: int
    const numReplicas: int
    var producer: AvroProducer?

    /** The field assignments at the start of construction. */
    constructor Init(topicName: string, keySchema: Option<Schema>, valueSchema: Option<Schema>,
                     numPartitions: int, numReplicas: int)
      ensures this.topicName == topicName && this.keySchema == keySchema
      ensures this.valueSchema == valueSchema
      ensures this.numPartitions == numPartitions && this.numReplicas == numReplicas
      ensures producer == null
    {
      this.topicName := topicName;
      this.keySchema := keySchema;
      this.valueSchema := valueSchema;
      this.numPartitions := numPartitions;
      this.numReplicas := numReplicas;
      producer := null;
    }

    /** Send one creation request with this producer's settings and the compaction
        configuration, then raise if its future failed. */
    method CreateTopic(admin: Admin, answer: FutureResult) returns (raised: Option<Exception>)
      modifies admin
      ensures admin.attempts ==
        old(admin.attempts) + [Attempt(NewTopic(topicName, numPartitions, numReplicas, TopicConfig), answer)]
      ensures raised.None? <==> answer.Done?
      ensures answer.Raised? ==> raised == Some(BrokerError(answer.reason))
    {
      var futures := admin.CreateTopics(TopicRequest(topicName, numPartitions, numReplicas), answer);
      raised := AwaitAll(futures);
      assert topicName in futures && futures[topicName] == answer;
    }

    /** Construction: create the topic unless the registry has its name, register the
        name once creation succeeded, then build the Avro producer. A failed creation
        leaves the constructor by its exception, with the name unregistered. */
    static method New(registry: TopicRegistry, admin: Admin, answer: FutureResult,
                      topicName: string, keySchema: Option<Schema>,
                      valueSchema: Option<Schema> := None,
                      numPartitions: int := DefaultPartitions,
                      numReplicas: int := DefaultReplicas)
      returns (r: Result<Producer, Exception>)
      modifies registry, admin
      ensures Snapshot(registry, admin) ==
        Provision(old(Snapshot(registry, admin)), Construction(topicName, numPartitions, numReplicas, answer))
      ensures topicName in old(registry.existingTopics) ==> admin.attempts == old(admin.attempts)
      ensures r.Failure? <==> topicName !in old(registry.existingTopics) && answer.Raised?
      ensures r.Failure? ==> answer.Raised? && r.error == BrokerError(answer.reason)
      ensures r.Success? ==> topicName in registry.existingTopics
      ensures r.Success? ==>
        && fresh(r.value)
        && r.value.topicName == topicName
        && r.value.keySchema == keySchema && r.value.valueSchema == valueSchema
        && r.value.numPartitions == numPartitions && r.value.numReplicas == numReplicas
        && r.value.producer != null && fresh(r.value.producer)
        && r.value.producer.defaultKeySchema == keySchema
        && r.value.producer.defaultValueSchema == valueSchema
        && r.value.producer.flushes == 0
    {
      var p := new Producer.Init(topicName, keySchema, valueSchema, numPartitions, numReplicas);
      if p.topicName !in registry.existingTopics {
        var raised := p.CreateTopic(admin, answer);
        if raised.Some? {
          return Failure(raised.value);
        }
        registry.existingTopics := registry.existingTopics + {p.topicName};
      }
      p.producer := new AvroProducer(p.keySchema, p.valueSchema);
      return Success(p);
    }

    /** Flush the Avro producer, if there is one; the truthiness test of the source is
        taken as a test for a set field. */
    method Close()
      modifies producer
      ensures producer != null ==> producer.flushes == old(producer.flushes) + 1
    {
      if producer != null {
        producer.Flush();
      }
    }
  }
}
