/**
 * MarathonDiscoveryClient: the Spring Cloud `DiscoveryClient` over Marathon.
 * The REST calls are parameters (`getApp`) or values (the outcome of
 * `getApps`), and the `ServiceIdConverter` conversions are uninterpreted
 * function parameters.
 */
module DiscoveryClient {
  import opened Wrappers
  import opened Marathon
  import Streams

  const DESCRIPTION: string := "Spring Cloud Marathon Discovery Client"

  /** Spring's `DefaultServiceInstance`: metadata starts empty. */
  datatype ServiceInstance = ServiceInstance(
    serviceId: string,
    host: string,
    port: int,
    secure: bool,
    metadata: map<string, string>)

  /** `description()`: the fixed name of this client. */
  function Description(): (d: string)
    ensures d == "Spring Cloud Marathon Discovery Client"
  {
    DESCRIPTION
  }

  /** `getLocalServiceInstance()`: this client never registers itself. */
  function LocalServiceInstance(): (r: Option<ServiceInstance>)
    ensures r.None?
  {
    None
  }

  /** The health filter of `getInstances`: no results recorded, or all of them alive. */
  predicate Healthy(t: Task)
    ensures Healthy(t) <==>
      (t.healthCheckResults.None? ||
       forall i :: 0 <= i < |t.healthCheckResults.value| ==> t.healthCheckResults.value[i].alive)
    ensures t.healthCheckResults == Some([]) ==> Healthy(t)
  {
    match t.healthCheckResults
    case None => true
    case Some(results) => Streams.AllMatch(results, (h: HealthCheckResult) => h.alive)
  }

  /** The task-to-instance mapping of `getInstances`, before labels are copied. */
  function ToInstance(t: Task, toServiceId: string -> string): ServiceInstance
  {
    ServiceInstance(toServiceId(t.appId), t.host, if |t.ports| > 0 then t.ports[0] else 0, false, map[])
  }

  /** Every instance's metadata after `putAll(labels)`: a label overrides any existing metadata entry with the same key. */
  function PutAllMetadata(instances: seq<ServiceInstance>, labels: map<string, string>): seq<ServiceInstance>
  {
    seq(|instances|, i requires 0 <= i < |instances| =>
      instances[i].(metadata := instances[i].metadata + labels))
  }

  /** What `getInstances` returns, given the outcome of fetching the app. */
  function Instances(fetched: Result<Option<App>, MarathonException>, toServiceId: string -> string): (r: seq<ServiceInstance>)
    ensures fetched.Failure? ==> r == []
    ensures fetched == Success(None) ==> r == []
    ensures fetched.Success? && fetched.value.Some? && fetched.value.value.tasks.None? ==> r == []
    ensures fetched.Success? && fetched.value.Some? && fetched.value.value.tasks.Some? ==>
      |r| <= |fetched.value.value.tasks.value|
  {
    match fetched
    case Failure(_) => []
    case Success(None) => []
    case Success(Some(app)) =>
      if app.tasks.None? || app.tasks.value == [] then []
      else
        var instances := Streams.Map(Streams.Filter(app.tasks.value, Healthy), (t: Task) => ToInstance(t, toServiceId));
        if app.labels.Some? then PutAllMetadata(instances, app.labels.value) else instances
  }

  /** The line `instances.forEach(i -> i.getMetadata().putAll(labels))`, one instance at a time. */
  method CopyLabels(instances: seq<ServiceInstance>, labels: map<string, string>) returns (updated: seq<ServiceInstance>)
    ensures updated == PutAllMetadata(instances, labels)
    ensures forall i, k :: 0 <= i < |updated| && k in labels ==>
      k in updated[i].metadata && updated[i].metadata[k] == labels[k]
  {
    updated := instances;
    var i := 0;
    while i < |updated|
      invariant 0 <= i <= |updated| == |instances|
      invariant forall j :: 0 <= j < i ==> updated[j] == instances[j].(metadata := instances[j].metadata + labels)
      invariant forall j :: i <= j < |updated| ==> updated[j] == instances[j]
    {
      updated := updated[i := updated[i].(metadata := updated[i].metadata + labels)];
      i := i + 1;
    }
  }

  /**
   * `getInstances(serviceId)`: fetch the app under the converted id, absorb a
   * `MarathonException` as the empty list, keep the healthy tasks, turn each into
   * an instance and copy the app's labels into every instance's metadata.
   */
  method GetInstances(
    serviceId: string,
    toMarathonId: string -> string,
    getApp: string -> Result<Option<App>, MarathonException>,
    toServiceId: string -> string)
    returns (instances: seq<ServiceInstance>)
    ensures instances == Instances(getApp(toMarathonId(serviceId)), toServiceId)
  {
    var fetched := getApp(toMarathonId(serviceId));
    if fetched.Failure? {
      return [];
    }
    var app := fetched.value;
    if app.None? || app.value.tasks.None? || app.value.tasks.value == [] {
      return [];
    }
    instances := Streams.Map(Streams.Filter(app.value.tasks.value, Healthy), (t: Task) => ToInstance(t, toServiceId));
    if app.value.labels.Some? {
      instances := CopyLabels(instances, app.value.labels.value);
    }
  }

  /** `r` is the instance the pipeline makes of task `t` of an app with labels `labels`. */
  ghost predicate IsInstanceOf(r: ServiceInstance, t: Task, toServiceId: string -> string, labels: Option<map<string, string>>)
  {
    && r.serviceId == toServiceId(t.appId)
    && r.host == t.host
    && (|t.ports| > 0 ==> r.port == t.ports[0])
    && (|t.ports| == 0 ==> r.port == 0)
    && !r.secure
    && r.metadata == (if labels.Some? then labels.value else map[])
  }

  /**
   * For a fetched app with a task list, there is one instance per healthy task:
   * as many instances as matching positions (Streams.FilterSelects says those
   * positions ascend and are exactly the healthy tasks).
   */
  lemma HealthyTaskCount(app: App, toServiceId: string -> string)
    requires app.tasks.Some?
    ensures |Instances(Success(Some(app)), toServiceId)| == |Streams.MatchingIndices(app.tasks.value, Healthy, 0)|
  {
    var tasks := app.tasks.value;
    Streams.FilterSelects(tasks, Healthy);
    if tasks == [] {
      assert Streams.MatchingIndices(tasks, Healthy, 0) == [];
    }
  }

  /**
   * Instance k is made from the k-th healthy task: it has the converted appId,
   * the task's host, its first port or 0, is not secure, and carries the app's
   * labels (or empty metadata when the app has none).
   */
  lemma InstancesOfApp(app: App, toServiceId: string -> string)
    requires app.tasks.Some?
    ensures var tasks := app.tasks.value;
      var r := Instances(Success(Some(app)), toServiceId);
      var idx := Streams.MatchingIndices(tasks, Healthy, 0);
      forall k :: 0 <= k < |r| ==>
        k < |idx| && idx[k] < |tasks| && IsInstanceOf(r[k], tasks[idx[k]], toServiceId, app.labels)
  {
    var tasks := app.tasks.value;
    var r := Instances(Success(Some(app)), toServiceId);
    var idx := Streams.MatchingIndices(tasks, Healthy, 0);
    Streams.FilterSelects(tasks, Healthy);
    if tasks != [] {
      var kept := Streams.Filter(tasks, Healthy);
      var made := Streams.Map(kept, (t: Task) => ToInstance(t, toServiceId));
      assert r == if app.labels.Some? then PutAllMetadata(made, app.labels.value) else made;
      forall k | 0 <= k < |r|
        ensures k < |idx| && idx[k] < |tasks| && IsInstanceOf(r[k], tasks[idx[k]], toServiceId, app.labels)
      {
        assert made[k] == ToInstance(kept[k], toServiceId);
        assert kept[k] == tasks[idx[k]];
      }
    }
  }

  /**
   * What `getInstances` returns for a fetched app with a task list: exactly the
   * healthy tasks, in task order, each mapped to its instance.
   */
  lemma InstancesAreHealthyTasksInOrder(app: App, toServiceId: string -> string)
    requires app.tasks.Some?
    ensures var tasks := app.tasks.value;
      var r := Instances(Success(Some(app)), toServiceId);
      var idx := Streams.MatchingIndices(tasks, Healthy, 0);
      && |r| == |idx|
      && Streams.Ascending(idx)
      && (forall i :: 0 <= i < |tasks| ==> (i in idx <==> Healthy(tasks[i])))
      && (forall k :: 0 <= k < |r| ==> idx[k] < |tasks| && IsInstanceOf(r[k], tasks[idx[k]], toServiceId, app.labels))
  {
    HealthyTaskCount(app, toServiceId);
    Streams.FilterSelects(app.tasks.value, Healthy);
    InstancesOfApp(app, toServiceId);
  }

  /** Every label of the app is in the metadata of every instance; without labels metadata stays empty. */
  lemma LabelsInEveryInstance(app: App, toServiceId: string -> string)
    ensures var r := Instances(Success(Some(app)), toServiceId);
      forall i :: 0 <= i < |r| ==>
        if app.labels.Some? then
          forall k :: k in app.labels.value ==> k in r[i].metadata && r[i].metadata[k] == app.labels.value[k]
        else r[i].metadata == map[]
  {
  }

  /** A task with a failing health-check result never becomes an instance, so some task is lost. */
  lemma UnhealthyTaskDropped(app: App, toServiceId: string -> string, i: nat, j: nat)
    requires app.tasks.Some? && i < |app.tasks.value|
    requires app.tasks.value[i].healthCheckResults.Some?
    requires j < |app.tasks.value[i].healthCheckResults.value|
    requires !app.tasks.value[i].healthCheckResults.value[j].alive
    ensures i !in Streams.MatchingIndices(app.tasks.value, Healthy, 0)
    ensures |Instances(Success(Some(app)), toServiceId)| < |app.tasks.value|
  {
    var tasks := app.tasks.value;
    HealthyTaskCount(app, toServiceId);
    Streams.FilterSelects(tasks, Healthy);
    AscendingCovers(Streams.MatchingIndices(tasks, Healthy, 0), |tasks|);
  }

  /**
   * An ascending sequence of indices below `n` has at most `n` entries, and
   * with exactly `n` entries it holds every index below `n`.
   */
  lemma AscendingCovers(idx: seq<nat>, n: nat)
    requires Streams.Ascending(idx)
    requires forall k :: 0 <= k < |idx| ==> idx[k] < n
    ensures |idx| <= n
    ensures |idx| == n ==> forall m :: 0 <= m < n ==> m in idx
  {
    forall k | 0 <= k < |idx| ensures k <= idx[k] <= n - |idx| + k {
      AscendingGap(idx, 0, k);
      AscendingGap(idx, k, |idx| - 1);
    }
    if |idx| > 0 {
      assert |idx| - 1 <= idx[|idx| - 1] < n;
    }
    if |idx| == n {
      forall m | 0 <= m < n ensures m in idx {
        assert idx[m] == m;
      }
    }
  }

  /** Entries of an ascending index sequence grow by at least one per position. */
  lemma {:induction false} AscendingGap(idx: seq<nat>, k: nat, l: nat)
    requires Streams.Ascending(idx)
    requires k <= l < |idx|
    ensures idx[l] - idx[k] >= l - k
    decreases l - k
  {
    if k < l {
      AscendingGap(idx, k, l - 1);
    }
  }

  /**
   * `getServices()`: one service id per app, in app order, each converted from
   * the app's id; a `MarathonException` yields the empty list.
   */
  function Services(fetched: Result<seq<App>, MarathonException>, toServiceId: string -> string): (r: seq<string>)
    ensures fetched.Failure? ==> r == []
    ensures fetched.Success? ==>
      |r| == |fetched.value| && forall i :: 0 <= i < |r| ==> r[i] == toServiceId(fetched.value[i].id)
  {
    match fetched
    case Failure(_) => []
    case Success(apps) => Streams.Map(apps, (a: App) => toServiceId(a.id))
  }
}
