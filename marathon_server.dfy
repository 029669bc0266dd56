/**
 * MarathonServer: a Ribbon `Server` (host, port, zone) that also carries the
 * Marathon health-check results of its task.
 */
module Ribbon {
  import opened Marathon
  import Streams

  class MarathonServer {
    var host: string
    var port: int
    var zone: string
    var healthChecks: seq<HealthCheckResults>

    /** `new MarathonServer(host, port, healthChecks)`: records all three unchanged. */
    constructor (host: string, port: int, healthChecks: seq<HealthCheckResults>)
      ensures this.host == host && this.port == port && this.healthChecks == healthChecks
    {
      this.host := host;
      this.port := port;
      this.healthChecks := healthChecks;
    }

    /** `withZone(zone)`: sets the zone and returns this same server for chaining. */
    method WithZone(zone: string) returns (r: MarathonServer)
      modifies this`zone
      ensures r == this && this.zone == zone
      ensures host == old(host) && port == old(port) && healthChecks == old(healthChecks)
      ensures IsHealthChecksPassing() == old(IsHealthChecksPassing())
    {
      this.zone := zone;
      r := this;
    }

    /** `isHealthChecksPassing()`: every recorded result is alive; true when there are none. */
    function IsHealthChecksPassing(): (b: bool)
      reads this
      ensures b <==> forall i :: 0 <= i < |healthChecks| ==> healthChecks[i].alive
      ensures healthChecks == [] ==> b
    {
      Streams.AllMatch(healthChecks, (h: HealthCheckResults) => h.alive)
    }
  }
}
