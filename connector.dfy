/** Configuration of the Kafka Connect JDBC source connector for the stations table:
    look the connector up, and create it unless the lookup answered 200. */
module Connector {
  import Http

  const KafkaConnectUrl: string := "http://localhost:8083/connectors"
  /** The name the lookup uses. */
  const ConnectorName: string := "stations"
  /** The name the creation payload gives the connector. */
  const PayloadName: string := "cta"

  /** A request to the Kafka Connect REST interface; the payload's configuration map is
      represented by the connector name it carries. */
  datatype Request = Get(url: string) | Post(url: string, name: string)

  datatype Outcome =
    | AlreadyConfigured  // the lookup answered 200; nothing was posted
    | Created            // the creation was posted and its status passed
    | Exit(code: int)    // the creation's status failed; the process exits

  /** The requests one invocation sends and how it ends. */
  datatype Run = Run(requests: seq<Request>, outcome: Outcome)

  /** Look a connector up under `checked` and, unless the lookup answered exactly 200,
      post a creation under `created`; a failing creation status exits with status 1. */
  function CheckThenCreate(checked: string, created: string, getStatus: int, postStatus: int): (r: Run)
    ensures |r.requests| >= 1 && r.requests[0] == Get(KafkaConnectUrl + "/" + checked)
    ensures r.outcome == AlreadyConfigured <==> getStatus == 200
    ensures getStatus == 200 ==> |r.requests| == 1
    ensures getStatus != 200 ==> r.requests == [Get(KafkaConnectUrl + "/" + checked), Post(KafkaConnectUrl, created)]
    ensures r.outcome == Exit(1) <==> getStatus != 200 && Http.RaisesForStatus(postStatus)
    ensures r.outcome == Created <==> getStatus != 200 && !Http.RaisesForStatus(postStatus)
    ensures r.outcome.Exit? ==> r.outcome.code == 1
  {
    var lookup := Get(KafkaConnectUrl + "/" + checked);
    if getStatus == 200 then Run([lookup], AlreadyConfigured)
    else
      var creation := Post(KafkaConnectUrl, created);
      if Http.RaisesForStatus(postStatus) then Run([lookup, creation], Exit(1))
      else Run([lookup, creation], Created)
  }

  /** configure_connector as written: the lookup asks for "stations", the creation
      posts "cta". */
  function ConfigureConnector(getStatus: int, postStatus: int): (r: Run)
    ensures |r.requests| >= 1 && r.requests[0] == Get(KafkaConnectUrl + "/stations")
    ensures |r.requests| == 2 ==> r.requests[1] == Post(KafkaConnectUrl, "cta")
    ensures r.outcome == AlreadyConfigured <==> getStatus == 200
    ensures r.outcome == Exit(1) <==> getStatus != 200 && Http.RaisesForStatus(postStatus)
  {
    CheckThenCreate(ConnectorName, PayloadName, getStatus, postStatus)
  }

  /** configure_connector as evidently intended: look up the name that is created. */
  function ConfigureConnectorIntended(getStatus: int, postStatus: int): (r: Run)
    ensures |r.requests| >= 1 && r.requests[0] == Get(KafkaConnectUrl + "/cta")
    ensures |r.requests| == 2 ==> r.requests[1] == Post(KafkaConnectUrl, "cta")
    ensures r.outcome == AlreadyConfigured <==> getStatus == 200
  {
    CheckThenCreate(PayloadName, PayloadName, getStatus, postStatus)
  }

  // ----- A Kafka Connect service, to run invocations against -----

  /** Kafka Connect's REST interface as these requests see it, given the names of its
      connectors: a lookup answers 200 for a registered name and 404 otherwise; a
      creation answers 201 and registers a new name, and 409 for a name already taken. */
  function LookupStatus(connectors: set<string>, name: string): int {
    if name in connectors then 200 else 404
  }

  function CreationStatus(connectors: set<string>, name: string): int {
    if name in connectors then 409 else 201
  }

  /** One invocation that looks up `checked` and creates `created` against a service
      with `connectors`: the run and the service's connectors afterwards. */
  function RunAgainst(connectors: set<string>, checked: string, created: string): (Run, set<string>) {
    var run := CheckThenCreate(checked, created, LookupStatus(connectors, checked),
                               CreationStatus(connectors, created));
    (run, if run.outcome == Created then connectors + {created} else connectors)
  }

  /** As written, a successful creation never satisfies a later lookup: on a service
      without a "stations" connector every invocation posts again, and from the second
      on the service refuses the taken name, so the process exits with status 1. */
  lemma AsWrittenRepostsAndFails(connectors: set<string>)
    requires ConnectorName !in connectors
    ensures var (first, after) := RunAgainst(connectors, ConnectorName, PayloadName);
      && |first.requests| == 2
      && PayloadName in after && ConnectorName !in after
      && var (second, _) := RunAgainst(after, ConnectorName, PayloadName);
         |second.requests| == 2 && second.outcome == Exit(1)
  {
  }

  /** As intended, the second of any two invocations only looks up. */
  lemma IntendedIsIdempotent(connectors: set<string>)
    ensures var (_, after) := RunAgainst(connectors, PayloadName, PayloadName);
      var (second, _) := RunAgainst(after, PayloadName, PayloadName);
      second.outcome == AlreadyConfigured && |second.requests| == 1
  {
  }
}
