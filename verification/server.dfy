/**
 * The server object: a host and port checked once at construction, a base
 * address, and the router's list of routes, to which registering a resource
 * appends its three URL templates. Running the application is I/O and is
 * not part of this model.
 */
module Server {
  import opened Wrappers
  import opened Values

  /** The two handlers a route can lead to. */
  datatype Endpoint = Collection | Item

  /** `add_route(verb, path, handler)`: a handler is named by the resource
      it was built for and the endpoint it serves. */
  datatype RouteEntry = RouteEntry(verb: string, pattern: string, resourceName: string, endpoint: Endpoint)

  const PortMessage := "Port should be in range 0 - 65535"

  /** The port check of the constructor: a port is accepted exactly when it
      lies in 0 .. 65535, both ends included. */
  function CheckPort(port: int): (r: Result<(), Exc>)
    ensures r.Success? <==> 0 <= port <= 65535
    ensures r.Failure? ==> r.error == ValueError(PortMessage)
  {
    if port < 0 || port > 65535 then Failure(ValueError(PortMessage)) else Success(())
  }

  /** The three routes `register_resource` adds, all for every verb: the
      collection under the resource URL with and without a trailing slash,
      and the item under the resource URL followed by an `{id}` segment. */
  function Templates(base: string, name: string): (routes: seq<RouteEntry>)
    ensures |routes| == 3
    ensures forall i :: 0 <= i < 3 ==> routes[i].verb == "*" && routes[i].resourceName == name
    ensures routes[0].pattern == base + "/" + name
    ensures forall i :: 0 <= i < 3 ==> base + "/" + name <= routes[i].pattern
    ensures forall i, j :: 0 <= i < j < 3 ==> routes[i].pattern != routes[j].pattern
    ensures routes[0].endpoint == Collection && routes[1].endpoint == Collection && routes[2].endpoint == Item
    ensures routes[1].pattern == routes[0].pattern + "/"
    ensures routes[2].pattern == routes[0].pattern + "/{id}"
  {
    var url := base + "/" + name;
    [RouteEntry("*", url, name, Collection),
     RouteEntry("*", url + "/", name, Collection),
     RouteEntry("*", url + "/{id}", name, Item)]
  }

  /** Under the default base address `'/'` every template begins with two
      slashes. */
  lemma DefaultBaseDoubleSlash(name: string)
    ensures forall r :: r in Templates("/", name) ==> "//" <= r.pattern
  {
    var routes := Templates("/", name);
    forall r | r in routes
      ensures "//" <= r.pattern
    {
      var i :| 0 <= i < 3 && routes[i] == r;
      assert "/" + "/" + name <= r.pattern;
      assert ("/" + "/" + name)[..2] == "//";
    }
  }

  /** A sequence of calls on a server after construction. */
  datatype ServerCall = Register(name: string) | SetBase(base: string)

  /** The base address and the routes after a sequence of calls. */
  function Run(base: string, routes: seq<RouteEntry>, calls: seq<ServerCall>): (seq<RouteEntry>, string) {
    if calls == [] then (routes, base)
    else
      var before := Run(base, routes, calls[..|calls| - 1]);
      match calls[|calls| - 1]
      case Register(name) => (before.0 + Templates(before.1, name), before.1)
      case SetBase(b) => (before.0, b)
  }

  /** Routes are only ever appended: a later `set_base_address` does not
      move the routes registered before it, and every route in the table
      begins with the base address that was in force when it was
      registered. */
  lemma {:induction false} RoutesKeepTheirBase(base: string, routes: seq<RouteEntry>, calls: seq<ServerCall>)
    ensures routes <= Run(base, routes, calls).0
    ensures forall i :: |routes| <= i < |Run(base, routes, calls).0| ==>
      exists k, b :: 0 <= k < |calls| && calls[k] == Register(Run(base, routes, calls).0[i].resourceName) &&
        b == Run(base, routes, calls[..k]).1 &&
        b + "/" + Run(base, routes, calls).0[i].resourceName <= Run(base, routes, calls).0[i].pattern
  {
    if calls != [] {
      var init := calls[..|calls| - 1];
      RoutesKeepTheirBase(base, routes, init);
      var before := Run(base, routes, init);
      var after := Run(base, routes, calls);
      assert calls[..|calls| - 1] == init;
      forall i | |routes| <= i < |after.0|
        ensures exists k, b :: (0 <= k < |calls| && calls[k] == Register(after.0[i].resourceName) &&
          b == Run(base, routes, calls[..k]).1 && b + "/" + after.0[i].resourceName <= after.0[i].pattern)
      {
        if i < |before.0| {
          assert after.0[i] == before.0[i];
          var k, b :| 0 <= k < |init| && init[k] == Register(before.0[i].resourceName) &&
            b == Run(base, routes, init[..k]).1 &&
            b + "/" + before.0[i].resourceName <= before.0[i].pattern;
          assert calls[..k] == init[..k];
          assert calls[k] == init[k];
        } else {
          var k := |calls| - 1;
          assert calls[..k] == init;
          var t := Templates(before.1, calls[k].name);
          assert after.0[i] == t[i - |before.0|];
        }
      }
    }
  }

  /** The server object. */
  class Server {
    const host: string
    const port: int
    const accessLogFormat: Option<string>
    var baseAddress: string
    var routes: seq<RouteEntry>

    /** The field assignments of `__init__`, once the port has passed the
        check; an empty router and the base address `'/'`. */
    constructor (host: string, port: int, accessLogFormat: Option<string>)
      ensures this.host == host && this.port == port && this.accessLogFormat == accessLogFormat
      ensures baseAddress == "/" && routes == []
    {
      this.host := host;
      this.port := port;
      this.accessLogFormat := accessLogFormat;
      baseAddress := "/";
      routes := [];
    }

    /** `Server(host="localhost", port=4444, access_log_format=None)`:
        `ValueError` for a port outside 0 .. 65535, otherwise a fresh server
        with the given host and port and no routes. */
    static method New(host: string := "localhost", port: int := 4444, accessLogFormat: Option<string> := None)
      returns (r: Result<Server, Exc>)
      ensures r.Failure? <==> CheckPort(port).Failure?
      ensures r.Failure? ==> r.error == ValueError(PortMessage)
      ensures r.Success? ==>
        fresh(r.value) && r.value.host == host && r.value.port == port &&
        r.value.accessLogFormat == accessLogFormat && r.value.baseAddress == "/" && r.value.routes == []
    {
      if port < 0 || port > 65535 {
        return Failure(ValueError(PortMessage));
      }
      var s := new Server(host, port, accessLogFormat);
      r := Success(s);
    }

    /** `register_resource(name, resource)`: the three templates under the
        current base address are appended; the base is unchanged. */
    method RegisterResource(name: string)
      modifies this
      ensures routes == old(routes) + Templates(baseAddress, name)
      ensures baseAddress == old(baseAddress)
      ensures (routes, baseAddress) == Run(old(baseAddress), old(routes), [Register(name)])
    {
      routes := routes + Templates(baseAddress, name);
    }

    /** `set_base_address(base)`: only the field changes; routes already
        registered keep the old base. */
    method SetBaseAddress(base: string)
      modifies this
      ensures baseAddress == base && routes == old(routes)
      ensures (routes, baseAddress) == Run(old(baseAddress), old(routes), [SetBase(base)])
    {
      baseAddress := base;
    }
  }
}
