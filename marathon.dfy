/**
 * The records of the Marathon REST client (mesosphere.marathon.client.model.v2)
 * that the discovery client and the Ribbon server read.  Java `null` fields
 * the code tests for are `Option`s.
 */
module Marathon {
  import opened Wrappers

  /** One health-check result attached to a task (`HealthCheckResult.isAlive`). */
  datatype HealthCheckResult = HealthCheckResult(alive: bool)

  /** One health-check result as the Ribbon server keeps it (`HealthCheckResults.getAlive`). */
  datatype HealthCheckResults = HealthCheckResults(alive: bool)

  /** A running instance of an app. */
  datatype Task = Task(
    appId: string,
    host: string,
    ports: seq<int>,
    healthCheckResults: Option<seq<HealthCheckResult>>)

  /** An app definition with its tasks and labels. */
  datatype App = App(
    id: string,
    tasks: Option<seq<Task>>,
    labels: Option<map<string, string>>)

  /** The checked exception the Marathon client throws on a failed call. */
  datatype MarathonException = MarathonException(status: int, message: string)
}
