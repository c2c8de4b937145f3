/**
 * Ensure-Site, earlier revision: the same decisions as the current one, but a
 * site that has to be created is added from the template's binding protocol and
 * binding information, so creating never throws here.
 */
module EnsureIisSiteLegacy {
  import opened Wrappers
  import opened Diagnostics
  import opened DotNetText
  import opened Documentation
  import opened WebAdministration
  import opened IisSiteMessages

  datatype IisSiteConfiguration = IisSiteConfiguration(
    Name: string,
    Exists: bool,
    ApplicationPoolName: NString,
    VirtualDirectoryPhysicalPath: NString,
    BindingProtocol: NString,
    BindingInformation: NString)

  /** `new IisSiteConfiguration { Name = name, Exists = false }` */
  function AbsentSite(name: string): IisSiteConfiguration
  {
    IisSiteConfiguration(name, false, None, None, None, None)
  }

  /** What a configure run leaves stored on the server, and what it logged. */
  datatype Outcome = Outcome(stored: map<string, Site>, log: seq<LogEntry>)

  predicate PoolMissing(server: Server, t: IisSiteConfiguration)
  {
    t.Exists && !IsNullOrWhiteSpace(t.ApplicationPoolName) && t.ApplicationPoolName.value !in server.applicationPools
  }

  /** The site `Sites.Add(Name, BindingProtocol, BindingInformation, VirtualDirectoryPhysicalPath)` creates. */
  function NewSite(t: IisSiteConfiguration): Site
  {
    Site(t.Name, t.VirtualDirectoryPhysicalPath, [ProtocolBinding(t.BindingProtocol, t.BindingInformation)], [])
  }

  function AppliedLog(t: IisSiteConfiguration): seq<LogEntry>
  {
    [ApplyingMessage, CommittingMessage, DoneMessage(t.Name, t.Exists)]
  }

  /** RemoteConfigureAsync */
  function Reconciled(server: Server, t: IisSiteConfiguration, simulation: bool,
                      apply: (IisSiteConfiguration, Site) -> Site): Outcome
  {
    var rest := if t.Exists then Ensured(server, t, simulation, apply) else Removed(server, t, simulation);
    Outcome(rest.stored, [LookingMessage(t.Name)] + rest.log)
  }

  /** RemoteConfigureAsync after the lookup, when the site should exist. */
  function Ensured(server: Server, t: IisSiteConfiguration, simulation: bool,
                   apply: (IisSiteConfiguration, Site) -> Site): Outcome
  {
    if PoolMissing(server, t) then
      Outcome(server.sites, [PoolMissingMessage(t.ApplicationPoolName.value)])
    else if t.Name !in server.sites then
      var created := [CreatingMessage, AddedMessage(t.Name), ReloadingMessage] + AppliedLog(t);
      Outcome(if simulation then server.sites else server.sites[t.Name := apply(t, NewSite(t))], created)
    else
      var updated := if simulation then server.sites else server.sites[t.Name := apply(t, server.sites[t.Name])];
      Outcome(updated, AppliedLog(t))
  }

  /** RemoteConfigureAsync after the lookup, when the site should not exist. */
  function Removed(server: Server, t: IisSiteConfiguration, simulation: bool): Outcome
  {
    if t.Name !in server.sites then Outcome(server.sites, [NoSiteMessage])
    else
      var removed := if simulation then server.sites else server.sites - {t.Name};
      Outcome(removed, [CommittingMessage, DoneMessage(t.Name, t.Exists)])
  }

  /** RemoteConfigureAsync: what the server stores once the manager is disposed, and the log. */
  method RemoteConfigureAsync(server: Server, t: IisSiteConfiguration, simulation: bool,
                              apply: (IisSiteConfiguration, Site) -> Site)
    returns (stored: map<string, Site>, log: seq<LogEntry>)
    ensures Outcome(stored, log) == Reconciled(server, t, simulation, apply)
  {
    log := [LookingMessage(t.Name)];
    var manager := new ServerManager(server);
    var rest: seq<LogEntry>;
    if t.Exists {
      rest := EnsureExists(manager, t, simulation, apply);
    } else {
      rest := EnsureRemoved(manager, t, simulation);
    }
    stored, log := manager.committed, log + rest;
  }

  /** The `Template.Exists` branch, on a manager just opened. */
  method EnsureExists(manager: ServerManager, t: IisSiteConfiguration, simulation: bool,
                      apply: (IisSiteConfiguration, Site) -> Site)
    returns (log: seq<LogEntry>)
    requires t.Exists && manager.sites == manager.committed
    modifies manager
    ensures Outcome(manager.committed, log) == Ensured(Server(old(manager.committed), manager.applicationPools), t, simulation, apply)
  {
    ghost var server := Server(manager.committed, manager.applicationPools);
    var site := manager.FindSite(t.Name);
    log := [];
    if !IsNullOrWhiteSpace(t.ApplicationPoolName) {
      if !manager.HasApplicationPool(t.ApplicationPoolName.value) {
        log := log + [PoolMissingMessage(t.ApplicationPoolName.value)];
        return log;
      }
    }
    assert !PoolMissing(server, t);
    ghost var before := log;
    if site.None? {
      log := log + [CreatingMessage];
      if !simulation {
        var added := manager.AddSiteWithBinding(t.Name, t.BindingProtocol, t.BindingInformation, t.VirtualDirectoryPhysicalPath);
        site := Some(added);
        manager.CommitChanges();
      }
      log := log + [AddedMessage(t.Name), ReloadingMessage];
      site := manager.FindSite(t.Name);
      before := log;
    }
    log := log + [ApplyingMessage];
    if !simulation {
      manager.UpdateSite(t.Name, apply(t, site.value));
    }
    log := log + [CommittingMessage];
    if !simulation {
      manager.CommitChanges();
    }
    log := log + [DoneMessage(t.Name, t.Exists)];
    assert log == before + AppliedLog(t);
  }

  /** The `!Template.Exists` branch, on a manager just opened. */
  method EnsureRemoved(manager: ServerManager, t: IisSiteConfiguration, simulation: bool)
    returns (log: seq<LogEntry>)
    requires manager.sites == manager.committed
    modifies manager
    ensures Outcome(manager.committed, log) == Removed(Server(old(manager.committed), manager.applicationPools), t, simulation)
  {
    var site := manager.FindSite(t.Name);
    if site.None? {
      return [NoSiteMessage];
    }
    if !simulation {
      manager.RemoveSite(t.Name);
    }
    log := [CommittingMessage];
    if !simulation {
      manager.CommitChanges();
    }
    log := log + [DoneMessage(t.Name, t.Exists)];
  }

  /** RemoteCollectAsync: an absent site is reported as not existing; a present one as FromMwaSite reads it. */
  method RemoteCollectAsync(server: Server, t: IisSiteConfiguration,
                            fromMwaSite: (Site, IisSiteConfiguration) -> IisSiteConfiguration)
    returns (log: seq<LogEntry>, config: IisSiteConfiguration)
    ensures t.Name !in server.sites ==> config == AbsentSite(t.Name) && log == [LookingMessage(t.Name), AbsentMessage(t.Name)]
    ensures t.Name in server.sites ==> config == fromMwaSite(server.sites[t.Name], t) && log == [LookingMessage(t.Name)]
  {
    log := [LookingMessage(t.Name)];
    var manager := new ServerManager(server);
    var site := manager.FindSite(t.Name);
    if site.None? {
      log := log + [AbsentMessage(t.Name)];
      return log, AbsentSite(t.Name);
    }
    config := fromMwaSite(site.value, t);
  }

  /** GetDescription: "Ensure " and the highlighted site name, with no long description. */
  function GetDescription(config: map<string, string>): ExtendedRichDescription
  {
    ExtendedRichDescription(RichDescription([Plain("Ensure "), Hilite(ConfigValue(config, "Name"))]), None)
  }

  /** The description depends on the Name property alone, which it highlights. */
  lemma {:induction false} DescriptionNamesSiteOnly(c1: map<string, string>, c2: map<string, string>)
    requires ConfigValue(c1, "Name") == ConfigValue(c2, "Name")
    ensures GetDescription(c1) == GetDescription(c2)
    ensures GetDescription(c1).shortDescription.parts[1] == Hilite(ConfigValue(c1, "Name"))
    ensures GetDescription(c1).longDescription.None?
  {
  }

  // ===========================================================================
  // Properties of a configure run

  /** A simulation stores nothing. */
  lemma {:induction false} SimulationChangesNothing(server: Server, t: IisSiteConfiguration, apply: (IisSiteConfiguration, Site) -> Site)
    ensures Reconciled(server, t, true, apply).stored == server.sites
  {
  }

  /** Every site but the template's keeps its name and settings. */
  lemma {:induction false} OnlyNamedSiteChanges(server: Server, t: IisSiteConfiguration, simulation: bool,
                             apply: (IisSiteConfiguration, Site) -> Site)
    ensures Reconciled(server, t, simulation, apply).stored - {t.Name} == server.sites - {t.Name}
  {
  }

  /** A missing application pool is reported and nothing is stored. */
  lemma {:induction false} MissingPoolRefused(server: Server, t: IisSiteConfiguration, simulation: bool,
                           apply: (IisSiteConfiguration, Site) -> Site)
    requires PoolMissing(server, t)
    ensures Reconciled(server, t, simulation, apply)
            == Outcome(server.sites, [LookingMessage(t.Name), PoolMissingMessage(t.ApplicationPoolName.value)])
  {
  }

  /**
   * After a real run with an existing pool, the site exists exactly when the
   * template says it should; a created one is bound by the template's protocol
   * and binding information.
   */
  lemma {:induction false} ExistenceMatchesIntent(server: Server, t: IisSiteConfiguration, apply: (IisSiteConfiguration, Site) -> Site)
    requires !PoolMissing(server, t)
    ensures t.Name in Reconciled(server, t, false, apply).stored <==> t.Exists
    ensures t.Exists ==>
              Reconciled(server, t, false, apply).stored[t.Name]
              == apply(t, if t.Name in server.sites then server.sites[t.Name] else NewSite(t))
  {
  }

  /**
   * Running again on what the first run stored creates nothing, whatever applying
   * the settings does: with Exists the site is found and only re-applied; without
   * it the second run finds no site and warns.
   */
  lemma {:induction false} SecondRunNeverCreates(server: Server, t: IisSiteConfiguration, apply: (IisSiteConfiguration, Site) -> Site)
    requires !PoolMissing(server, t)
    ensures var first := Reconciled(server, t, false, apply);
            var second := Reconciled(Server(first.stored, server.applicationPools), t, false, apply);
            second.log == [LookingMessage(t.Name)] + (if t.Exists then AppliedLog(t) else [NoSiteMessage])
  {
    ExistenceMatchesIntent(server, t, apply);
  }

  /** When applying the settings twice is applying them once, a second run stores exactly what the first stored. */
  lemma {:induction false} SecondRunIsSteady(server: Server, t: IisSiteConfiguration, apply: (IisSiteConfiguration, Site) -> Site)
    requires !PoolMissing(server, t)
    requires forall site :: apply(t, apply(t, site)) == apply(t, site)
    ensures var first := Reconciled(server, t, false, apply);
            var second := Reconciled(Server(first.stored, server.applicationPools), t, false, apply);
            second.stored == first.stored
  {
    ExistenceMatchesIntent(server, t, apply);
  }
}
