/**
 * The server (server.go).  It owns a map of virtual hosts that always holds
 * the default host under the empty name.  Serving a request picks the host
 * named by the request's `Host` header with any port stripped, and falls
 * back to the default host; resources added to the server itself go to the
 * default host.
 */
module Servers {
  import opened Wrappers
  import opened Errors
  import opened GoStrings
  import opened Resources
  import opened Regexp
  import opened Http
  import opened Api
  import opened Hosts

  /** `defaultHostName`. */
  const DefaultHostName: HostName := ""

  class Server {
    const port: int
    var hosts: map<HostName, Host>

    /**
     * The default host is present, every host is filed under its own name
     * (so distinct names are distinct hosts), and every host is valid.
     */
    ghost predicate Valid()
      reads this, hosts.Values
    {
      && DefaultHostName in hosts
      && (forall k :: k in hosts ==> hosts[k].name == k)
      && (forall k :: k in hosts ==> hosts[k].Valid())
    }

    /** `NewServer`: the hosts map holds just a fresh default host. */
    constructor (port: int)
      ensures Valid()
      ensures hosts.Keys == {DefaultHostName}
      ensures fresh(hosts[DefaultHostName]) && hosts[DefaultHostName].resources == map[]
      ensures Port() == port
    {
      this.port := port;
      var h := new Host(DefaultHostName);
      hosts := map[DefaultHostName := h];
    }

    function Port(): int {
      port
    }

    /** `getDefaultHost`: the host filed under the empty name. */
    function DefaultHost(): (h: Host)
      requires Valid()
      reads this, hosts.Values
      ensures h in hosts.Values && h.name == DefaultHostName && h.Valid()
    {
      hosts[DefaultHostName]
    }

    /**
     * The host `Serve` hands a request to: the one filed under the header's
     * name without its port, or else the default host.
     */
    function ChooseHost(hostHeader: string): (h: Host)
      requires Valid()
      reads this, hosts.Values
      ensures h in hosts.Values && h.Valid()
      ensures StripPort(hostHeader) in hosts ==> h.name == StripPort(hostHeader)
      ensures StripPort(hostHeader) !in hosts ==> h.name == DefaultHostName
    {
      var stripped := StripPort(hostHeader);
      if stripped in hosts then hosts[stripped] else hosts[DefaultHostName]
    }

    /** `Serve`: exactly one host answers the request, the one `ChooseHost` picks. */
    method Serve(e: Engine, req: Request) returns (o: Outcome)
      requires GoRegexp(e)
      requires Valid()
      ensures o == ChooseHost(req.host).Answer(e, req)
    {
      var host := DefaultHost();
      var stripped := StripPort(req.host);
      if stripped in hosts {
        host := hosts[stripped];
      }
      o := host.Serve(e, req);
    }

    /** `AddResource`: the default host's `AddResource`, with its nil and duplicate checks. */
    method AddResource(r: Option<Resource>) returns (err: Option<Error>)
      requires Valid()
      modifies hosts[DefaultHostName]
      ensures Valid() && hosts == old(hosts)
      ensures var d := hosts[DefaultHostName];
              && (r.None? ==> err == Some(NilResource) && d.resources == old(d.resources))
              && (r.Some? && r.value.Name() in old(d.resources) ==>
                    err == Some(ResourceAlreadyExists(r.value.Name().String(), DefaultHostName)) && d.resources == old(d.resources))
              && (r.Some? && r.value.Name() !in old(d.resources) ==>
                    err.None? && d.resources == old(d.resources)[r.value.Name() := r.value])
    {
      var d := DefaultHost();
      err := d.AddResource(r);
    }

    /** `GetResource`: lookup among the default host's top-level resources. */
    function GetResource(n: ResourceName): (r: Option<Resource>)
      requires Valid()
      reads this, hosts.Values
      ensures r.Some? <==> n in DefaultHost().resources
      ensures r.Some? ==> r.value == DefaultHost().resources[n] && r.value.Name() == n
    {
      DefaultHost().GetResource(n)
    }

    /**
     * `AddHost`: a name already present is an error that returns no host and
     * leaves the map unchanged; otherwise a fresh, empty host is filed under
     * the name and returned.
     */
    method AddHost(name: HostName) returns (h: Host?, err: Option<Error>)
      requires Valid()
      modifies this
      ensures Valid()
      ensures name == DefaultHostName ==> h == null && err.Some?
      ensures name in old(hosts) ==> h == null && err == Some(HostAlreadyExists(name)) && hosts == old(hosts)
      ensures name !in old(hosts) ==>
                && h != null && fresh(h) && err.None?
                && h.name == name && h.resources == map[]
                && hosts == old(hosts)[name := h]
    {
      if name in hosts {
        return null, Some(HostAlreadyExists(name));
      }
      h := new Host(name);
      hosts := hosts[name := h];
      err := None;
    }

    /** `GetHost`: exact lookup by name. */
    function GetHost(name: HostName): (h: Option<Host>)
      requires Valid()
      reads this, hosts.Values
      ensures h.Some? <==> name in hosts
      ensures h.Some? ==> h.value == hosts[name] && h.value.name == name
    {
      if name in hosts then Some(hosts[name]) else None
    }
  }

  /** A port in the `Host` header does not change which host answers. */
  lemma HeaderPortIgnored(s: Server, h: HostName, p: string)
    requires s.Valid()
    requires ':' !in h
    ensures s.ChooseHost(h + ":" + p) == s.ChooseHost(h)
  {
    StripPortRemovesPort(h, p);
  }
}
