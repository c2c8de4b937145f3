/**
 * The part of the IIS object model (Microsoft.Web.Administration) the site
 * operations use. A ServerManager opened on a server reads its stored sites into
 * an in-memory collection; Sites.Add and Sites.Remove change that collection and
 * CommitChanges stores it. What is not committed when the manager is disposed is
 * lost.
 */
module WebAdministration {
  import opened Wrappers

  /** How a site is bound: by port alone (Sites.Add with a port), or by protocol and binding information. */
  datatype SiteBinding =
    | PortBinding(port: int)
    | ProtocolBinding(protocol: Option<string>, bindingInformation: Option<string>)

  /** A site as far as the operations see it; the settings SetMwaSite writes are in `settings`. */
  datatype Site = Site(name: string, physicalPath: Option<string>, bindings: seq<SiteBinding>, settings: seq<string>)

  /** What the server stores: its sites by name, and the names of its application pools. */
  datatype Server = Server(sites: map<string, Site>, applicationPools: set<string>)

  class ServerManager {
    /** The Sites collection as this manager holds it. */
    var sites: map<string, Site>
    /** What the server stores, as of the last CommitChanges. */
    var committed: map<string, Site>
    const applicationPools: set<string>

    /** `new ServerManager()`: the stored configuration, read. */
    constructor (server: Server)
      ensures sites == server.sites && committed == server.sites
      ensures applicationPools == server.applicationPools
    {
      sites := server.sites;
      committed := server.sites;
      applicationPools := server.applicationPools;
    }

    /** `Sites[name]`: the site, or null. */
    function FindSite(name: string): (site: Option<Site>)
      reads this
      ensures site.Some? <==> name in sites
      ensures site.Some? ==> site.value == sites[name]
    {
      if name in sites then Some(sites[name]) else None
    }

    /** `ApplicationPools[name] != null` */
    predicate HasApplicationPool(name: string)
    {
      name in applicationPools
    }

    /** `Sites.Add(name, physicalPath, port)` */
    method AddSite(name: string, physicalPath: Option<string>, port: int) returns (site: Site)
      requires name !in sites
      modifies this
      ensures site == Site(name, physicalPath, [PortBinding(port)], [])
      ensures sites == old(sites)[name := site] && committed == old(committed)
    {
      site := Site(name, physicalPath, [PortBinding(port)], []);
      sites := sites[name := site];
    }

    /** `Sites.Add(name, bindingProtocol, bindingInformation, physicalPath)` */
    method AddSiteWithBinding(name: string, protocol: Option<string>, bindingInformation: Option<string>, physicalPath: Option<string>)
      returns (site: Site)
      requires name !in sites
      modifies this
      ensures site == Site(name, physicalPath, [ProtocolBinding(protocol, bindingInformation)], [])
      ensures sites == old(sites)[name := site] && committed == old(committed)
    {
      site := Site(name, physicalPath, [ProtocolBinding(protocol, bindingInformation)], []);
      sites := sites[name := site];
    }

    /** The site object changed in place (by IisSiteConfiguration.SetMwaSite). */
    method UpdateSite(name: string, site: Site)
      requires name in sites
      modifies this
      ensures sites == old(sites)[name := site] && committed == old(committed)
    {
      sites := sites[name := site];
    }

    /** `Sites.Remove(site)` */
    method RemoveSite(name: string)
      requires name in sites
      modifies this
      ensures sites == old(sites) - {name} && committed == old(committed)
    {
      sites := sites - {name};
    }

    method CommitChanges()
      modifies this
      ensures committed == sites && sites == old(sites)
    {
      committed := sites;
    }
  }
}
