/** Configuration of KSQL: unless the summary table's topic exists, post the statement
    that creates the turnstile and turnstile summary tables. */
module Ksql {
  import Http
  import Connector

  const KsqlUrl: string := "http://localhost:8088"

  /** The two CREATE TABLE statements of the posted text, by the tables they name and the
      topic each reads. */
  datatype Statement =
    | CreateTable(name: string, kafkaTopic: string)
    | CreateTableAs(name: string, fromTable: string)

  const KsqlStatement: seq<Statement> := [
    CreateTable("turnstile", "turnstile"),
    CreateTableAs("turnstile_summary", "turnstile")]

  /** The topic name the existence check uses. */
  const CheckedTopic: string := "turnstile_summary"

  const StreamsProperties: map<string, string> := map["ksql.streams.auto.offset.reset" := "earliest"]

  datatype Request = Post(url: string, ksql: seq<Statement>, streamsProperties: map<string, string>)

  /** Every outcome returns normally; an HTTP error is only printed. */
  datatype Outcome =
    | AlreadyExecuted
    | Executed
    | ErrorPrinted(status: int)

  datatype Run = Run(requests: seq<Request>, outcome: Outcome)

  /** The existence check names the table the second statement creates, not the first. */
  lemma CheckTargetsSummaryTable()
    ensures CheckedTopic == KsqlStatement[1].name
    ensures CheckedTopic != KsqlStatement[0].name && CheckedTopic != KsqlStatement[0].kafkaTopic
  {
  }

  /** execute_statement, given the topic-existence oracle (`true` stands for the literal
      `True`, `false` for every other answer) and the status the post would get. */
  function ExecuteStatement(topicExists: string -> bool, postStatus: int): (r: Run)
    ensures topicExists(CheckedTopic) <==> r.requests == []
    ensures topicExists(CheckedTopic) ==> r.outcome == AlreadyExecuted
    ensures !topicExists(CheckedTopic) ==>
      r.requests == [Post(KsqlUrl + "/ksql", KsqlStatement, StreamsProperties)]
    ensures r.outcome.ErrorPrinted? <==> !topicExists(CheckedTopic) && Http.RaisesForStatus(postStatus)
    ensures r.outcome == Executed <==> !topicExists(CheckedTopic) && !Http.RaisesForStatus(postStatus)
  {
    if topicExists(CheckedTopic) then Run([], AlreadyExecuted)
    else
      var request := Post(KsqlUrl + "/ksql", KsqlStatement, StreamsProperties);
      if Http.RaisesForStatus(postStatus) then Run([request], ErrorPrinted(postStatus))
      else Run([request], Executed)
  }

  /** On the same failing creation status, KSQL configuration returns normally while
      connector configuration exits with status 1. */
  lemma ErrorPolicies(topicExists: string -> bool, getStatus: int, postStatus: int)
    requires !topicExists(CheckedTopic) && getStatus != 200 && Http.RaisesForStatus(postStatus)
    ensures ExecuteStatement(topicExists, postStatus).outcome == ErrorPrinted(postStatus)
    ensures Connector.ConfigureConnector(getStatus, postStatus).outcome == Connector.Exit(1)
  {
  }
}
