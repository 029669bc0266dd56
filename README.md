# Spring Cloud Marathon discovery, modelled in Dafny

This project models the discovery side of spring-cloud-marathon: the
`MarathonDiscoveryClient`, which turns a Marathon app (its tasks, their
health-check results and the app's labels) into Spring Cloud service
instances and lists all apps as service ids, and the Ribbon
`MarathonServer`, a load-balancer server that carries its task's health-check
results.

Modules:

- `Wrappers` (wrappers.dfy): `Option` for Java `null`, `Result` for a call that may throw.
- `Streams` (streams.dfy): the `java.util.stream` steps used (`allMatch`, `filter`, `map` with an ordered `toList` collector) over sequences, and the order-preservation lemmas for `filter`.
- `Marathon` (marathon.dfy): the Marathon client records `App`, `Task`, `HealthCheckResult`, `HealthCheckResults` and `MarathonException`.
- `DiscoveryClient` (discovery_client.dfy): `description`, `getLocalServiceInstance`, `getInstances` and `getServices`.
- `Ribbon` (marathon_server.dfy): the `MarathonServer` class.

The Marathon REST calls are inputs. `getApp` is a function parameter from
Marathon id to `Result<Option<App>, MarathonException>`, covering a
`MarathonException`, a null app and an app. The outcome of `getApps` is a value. The
`ServiceIdConverter` conversions (`toMarathonId`, `toServiceId`) are
uninterpreted function parameters: nothing is assumed about them.

`getInstances` is a method. It runs the filter/map pipeline as functions and
then copies the labels with a loop (`CopyLabels`), because the source
mutates each instance's metadata map in place. Its postcondition ties the
result to the specification function `Instances`, and the lemmas state what
`Instances` returns: exactly the healthy tasks in task order, each mapped
to (converted `appId`, host, first port or 0, not secure) with the app's
labels as metadata.

## Model

| member | source | states |
|---|---|---|
| DiscoveryClient.Description | autoconfigure/src/main/java/info/developerblog/spring/cloud/marathon/discovery/MarathonDiscoveryClient.java:23-36 | always returns the constant "Spring Cloud Marathon Discovery Client" |
| DiscoveryClient.LocalServiceInstance | autoconfigure/src/main/java/info/developerblog/spring/cloud/marathon/discovery/MarathonDiscoveryClient.java:38-41 | always returns null (None) |
| DiscoveryClient.Healthy | autoconfigure/src/main/java/info/developerblog/spring/cloud/marathon/discovery/MarathonDiscoveryClient.java:52-56 | a task is kept iff its health-check results are null or every result is alive; an empty result list is kept |
| DiscoveryClient.Instances | autoconfigure/src/main/java/info/developerblog/spring/cloud/marathon/discovery/MarathonDiscoveryClient.java:43-74 | a MarathonException, a null app or a null task list give the empty list; otherwise at most one instance per task |
| DiscoveryClient.CopyLabels | autoconfigure/src/main/java/info/developerblog/spring/cloud/marathon/discovery/MarathonDiscoveryClient.java:65-66 | every instance's metadata becomes its old metadata overwritten by all labels; each label key/value is then in every instance |
| DiscoveryClient.GetInstances | autoconfigure/src/main/java/info/developerblog/spring/cloud/marathon/discovery/MarathonDiscoveryClient.java:43-74 | fetches the app under the converted id and returns exactly Instances of that outcome, re-deriving each serviceId from the task's appId |
| DiscoveryClient.HealthyTaskCount | autoconfigure/src/main/java/info/developerblog/spring/cloud/marathon/discovery/MarathonDiscoveryClient.java:50-63 | there are exactly as many instances as healthy tasks; with Streams.FilterSelects (kept positions ascend, a position is kept iff its task is healthy) this gives task order preserved |
| DiscoveryClient.InstancesOfApp | autoconfigure/src/main/java/info/developerblog/spring/cloud/marathon/discovery/MarathonDiscoveryClient.java:57-66 | instance k comes from the k-th healthy task and has the converted task appId (not the requested id), the task host, the first port or 0, secure false, and the labels (or an empty map) as metadata |
| DiscoveryClient.InstancesAreHealthyTasksInOrder | autoconfigure/src/main/java/info/developerblog/spring/cloud/marathon/discovery/MarathonDiscoveryClient.java:48-66 | for a fetched app with tasks, the instances are exactly the healthy tasks in task order: positions ascend, a position is used iff its task is healthy, and instance k has the converted appId, host, first port or 0, secure false and the labels (or empty map) of the k-th healthy task |
| DiscoveryClient.LabelsInEveryInstance | autoconfigure/src/main/java/info/developerblog/spring/cloud/marathon/discovery/MarathonDiscoveryClient.java:65-66 | with labels, every label key/value is in every instance's metadata; without labels metadata stays empty |
| DiscoveryClient.UnhealthyTaskDropped | autoconfigure/src/main/java/info/developerblog/spring/cloud/marathon/discovery/MarathonDiscoveryClient.java:52-63 | a task with any non-alive result produces no instance (its position is not used), so there are fewer instances than tasks |
| DiscoveryClient.Services | autoconfigure/src/main/java/info/developerblog/spring/cloud/marathon/discovery/MarathonDiscoveryClient.java:76-89 | one service id per app in app order, each the converted app id; a MarathonException gives the empty list |
| Streams.AllMatch | autoconfigure/src/main/java/info/developerblog/spring/cloud/marathon/discovery/MarathonDiscoveryClient.java:53-55 | allMatch is true iff every element satisfies the predicate, vacuously on an empty stream |
| Streams.Filter | autoconfigure/src/main/java/info/developerblog/spring/cloud/marathon/discovery/MarathonDiscoveryClient.java:50-56 | the filtered list is no longer than the input and holds only input elements that satisfy the predicate |
| Streams.Map | autoconfigure/src/main/java/info/developerblog/spring/cloud/marathon/discovery/MarathonDiscoveryClient.java:57-63 | the mapped list has the input's length and element i is f of input element i |
| Streams.MatchingIndicesAscend | autoconfigure/src/main/java/info/developerblog/spring/cloud/marathon/discovery/MarathonDiscoveryClient.java:50-56 | the positions the filter keeps lie inside the task list and strictly ascend |
| Streams.MatchingIndicesExact | autoconfigure/src/main/java/info/developerblog/spring/cloud/marathon/discovery/MarathonDiscoveryClient.java:50-56 | a position is kept iff its element satisfies the predicate |
| Streams.FilterAtMatchingIndices | autoconfigure/src/main/java/info/developerblog/spring/cloud/marathon/discovery/MarathonDiscoveryClient.java:50-63 | the filtered list has one element per kept position, element k being the element at the k-th kept position |
| Streams.FilterSelects | autoconfigure/src/main/java/info/developerblog/spring/cloud/marathon/discovery/MarathonDiscoveryClient.java:50-63 | the ordered filter keeps exactly the matching elements in their original relative order |
| Ribbon.MarathonServer.constructor | autoconfigure/src/main/java/info/developerblog/spring/cloud/marathon/discovery/ribbon/MarathonServer.java:15-18 | host, port and health checks are recorded unchanged |
| Ribbon.MarathonServer.WithZone | autoconfigure/src/main/java/info/developerblog/spring/cloud/marathon/discovery/ribbon/MarathonServer.java:20-23 | sets the zone, returns the same object, and leaves host, port, health checks and the health verdict unchanged |
| Ribbon.MarathonServer.IsHealthChecksPassing | autoconfigure/src/main/java/info/developerblog/spring/cloud/marathon/discovery/ribbon/MarathonServer.java:25-28 | true iff every health-check result is alive; true when there are none |

## Left out

- The Marathon REST calls and their HTTP client (`RibbonMarathonClient`, Feign, Ribbon retry and failover): external libraries and I/O. Fetch outcomes are inputs.
- DiscoveryClient.Instances: only a `MarathonException` is turned into the empty list; any other exception from `client.getApp` (a Feign I/O `RetryableException`, a JSON decode error) propagates in the source, and the fetch-outcome type cannot express it.
- DiscoveryClient.GetInstances: as for `Instances`, a non-`MarathonException` failure of the `getApp` call is not modelled.
- DiscoveryClient.Services: only a `MarathonException` is turned into the empty list; any other exception from `client.getApps` propagates in the source, and the fetch-outcome type cannot express it.
- Logging of the caught `MarathonException` (`log.error`): a side effect with no result.
- `ServiceIdConverter`: it is not part of this model, so both conversions are uninterpreted parameters.
- Parallel streams: every collector is ordered, so the model evaluates sequentially and gets the same list.
- A null `ports` list, a null response wrapper from `getApp`, or a null list from `getApps`: the source throws `NullPointerException`, which is not caught. Ports are a sequence and the app list is a sequence.
- Ribbon.MarathonServer.constructor: a null health-check collection makes `isHealthChecksPassing` throw. Health checks are a sequence, and the zone's initial value and the other fields of the Ribbon `Server` superclass are not stated.
- The `MarathonDiscoveryClient` constructor only stores the client and an unused properties object. The client is a parameter of `GetInstances` (`getApp`), so the constructor has no counterpart.
- Instances are values, so two instances never share a metadata map. The model does not capture aliasing of the Java objects, and a later mutation by a caller is out of scope.
