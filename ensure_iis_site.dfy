/**
 * Ensure-Site, current revision: makes a named IIS site exist with the template's
 * settings, or makes it absent. A site that has to be created is added on the port
 * of the template's first binding.
 *
 * `Reconciled` is what one configure run does to the stored sites and the log;
 * `RemoteConfigureAsync` performs it on a ServerManager. SetMwaSite (writing the
 * template's settings into a site) and FromMwaSite (reading a site back into a
 * configuration) are parameters.
 */
module EnsureIisSite {
  import opened Wrappers
  import opened Diagnostics
  import opened DotNetText
  import opened Documentation
  import opened WebAdministration
  import opened IisSiteMessages

  /** One entry of the Bindings list, as BindingInfo.FromMap reads it. */
  datatype BindingInfo = BindingInfo(IPAddress: NString, Port: NString, HostName: NString, Protocol: NString)

  datatype IisSiteConfiguration = IisSiteConfiguration(
    Name: string,
    Exists: bool,
    ApplicationPoolName: NString,
    VirtualDirectoryPhysicalPath: NString,
    Bindings: seq<BindingInfo>)

  /** `new IisSiteConfiguration { Name = name, Exists = false }` */
  function AbsentSite(name: string): IisSiteConfiguration
  {
    IisSiteConfiguration(name, false, None, None, [])
  }

  /** Why creating a site throws: Bindings.First() on an empty list, or int.Parse on its port. */
  datatype SiteError = NoBindings | PortNotANumber(cause: ParseError)

  /** What a configure run leaves stored on the server, what it logged, and whether it threw. */
  datatype Outcome = Outcome(stored: map<string, Site>, log: seq<LogEntry>, result: Result<(), SiteError>)

  /** The template names an application pool the server does not have. */
  predicate PoolMissing(server: Server, t: IisSiteConfiguration)
  {
    t.Exists && !IsNullOrWhiteSpace(t.ApplicationPoolName) && t.ApplicationPoolName.value !in server.applicationPools
  }

  /** `int.Parse(BindingInfo.FromMap(Bindings.First()).Port)` */
  function CreationPort(t: IisSiteConfiguration): Result<int, SiteError>
  {
    if t.Bindings == [] then Err(NoBindings)
    else match Int32Parse(t.Bindings[0].Port)
      case Err(e) => Err(PortNotANumber(e))
      case Ok(port) => Ok(port)
  }

  /** The site Sites.Add creates for the template. */
  function NewSite(t: IisSiteConfiguration, port: int): Site
  {
    Site(t.Name, t.VirtualDirectoryPhysicalPath, [PortBinding(port)], [])
  }

  function AppliedLog(t: IisSiteConfiguration): seq<LogEntry>
  {
    [ApplyingMessage, CommittingMessage, DoneMessage(t.Name, t.Exists)]
  }

  /** RemoteConfigureAsync */
  function Reconciled(server: Server, t: IisSiteConfiguration, simulation: bool,
                      apply: (IisSiteConfiguration, Site) -> Site): Outcome
  {
    var rest := if t.Exists then Ensured(server, t, simulation, apply) else Removed(server, t, simulation);
    Outcome(rest.stored, [LookingMessage(t.Name)] + rest.log, rest.result)
  }

  /** RemoteConfigureAsync after the lookup, when the site should exist. */
  function Ensured(server: Server, t: IisSiteConfiguration, simulation: bool,
                   apply: (IisSiteConfiguration, Site) -> Site): Outcome
  {
    if PoolMissing(server, t) then
      Outcome(server.sites, [PoolMissingMessage(t.ApplicationPoolName.value)], Ok(()))
    else if t.Name !in server.sites then
      var created := [CreatingMessage, AddedMessage(t.Name), ReloadingMessage] + AppliedLog(t);
      if simulation then Outcome(server.sites, created, Ok(()))
      else match CreationPort(t)
        case Err(e) => Outcome(server.sites, [CreatingMessage], Err(e))
        case Ok(port) => Outcome(server.sites[t.Name := apply(t, NewSite(t, port))], created, Ok(()))
    else
      var updated := if simulation then server.sites else server.sites[t.Name := apply(t, server.sites[t.Name])];
      Outcome(updated, AppliedLog(t), Ok(()))
  }

  /** RemoteConfigureAsync after the lookup, when the site should not exist. */
  function Removed(server: Server, t: IisSiteConfiguration, simulation: bool): Outcome
  {
    if t.Name !in server.sites then Outcome(server.sites, [NoSiteMessage], Ok(()))
    else
      var removed := if simulation then server.sites else server.sites - {t.Name};
      Outcome(removed, [CommittingMessage, DoneMessage(t.Name, t.Exists)], Ok(()))
  }

  /** Ensured, branch by branch, as EnsureExists meets them. */
  lemma {:induction false} EnsuredCases(server: Server, t: IisSiteConfiguration, simulation: bool,
                     apply: (IisSiteConfiguration, Site) -> Site)
    ensures PoolMissing(server, t) ==>
              Ensured(server, t, simulation, apply) == Outcome(server.sites, [PoolMissingMessage(t.ApplicationPoolName.value)], Ok(()))
    ensures !PoolMissing(server, t) && t.Name !in server.sites && !simulation && CreationPort(t).Err? ==>
              Ensured(server, t, simulation, apply) == Outcome(server.sites, [CreatingMessage], Err(CreationPort(t).error))
    ensures !PoolMissing(server, t) && t.Name !in server.sites && (simulation || CreationPort(t).Ok?) ==>
              var created := if simulation then server.sites else server.sites[t.Name := apply(t, NewSite(t, CreationPort(t).value))];
              Ensured(server, t, simulation, apply)
              == Outcome(created, [CreatingMessage, AddedMessage(t.Name), ReloadingMessage] + AppliedLog(t), Ok(()))
    ensures !PoolMissing(server, t) && t.Name in server.sites ==>
              var updated := if simulation then server.sites else server.sites[t.Name := apply(t, server.sites[t.Name])];
              Ensured(server, t, simulation, apply) == Outcome(updated, AppliedLog(t), Ok(()))
  {
  }

  /** RemoteConfigureAsync: what the server stores once the manager is disposed, the log, and the exception if any. */
  method RemoteConfigureAsync(server: Server, t: IisSiteConfiguration, simulation: bool,
                              apply: (IisSiteConfiguration, Site) -> Site)
    returns (stored: map<string, Site>, log: seq<LogEntry>, r: Result<(), SiteError>)
    ensures Outcome(stored, log, r) == Reconciled(server, t, simulation, apply)
  {
    log := [LookingMessage(t.Name)];
    var manager := new ServerManager(server);
    var rest: seq<LogEntry>;
    if t.Exists {
      rest, r := EnsureExists(manager, t, simulation, apply);
    } else {
      rest, r := EnsureRemoved(manager, t, simulation);
    }
    stored, log := manager.committed, log + rest;
  }

  /** The `Template.Exists` branch, on a manager just opened. */
  method EnsureExists(manager: ServerManager, t: IisSiteConfiguration, simulation: bool,
                      apply: (IisSiteConfiguration, Site) -> Site)
    returns (log: seq<LogEntry>, r: Result<(), SiteError>)
    requires t.Exists && manager.sites == manager.committed
    modifies manager
    ensures Outcome(manager.committed, log, r)
            == Ensured(Server(old(manager.committed), manager.applicationPools), t, simulation, apply)
  {
    ghost var server := Server(manager.committed, manager.applicationPools);
    EnsuredCases(server, t, simulation, apply);
    var site := manager.FindSite(t.Name);
    log := [];
    if !IsNullOrWhiteSpace(t.ApplicationPoolName) {
      if !manager.HasApplicationPool(t.ApplicationPoolName.value) {
        log := log + [PoolMissingMessage(t.ApplicationPoolName.value)];
        return log, Ok(());
      }
    }
    assert !PoolMissing(server, t);
    if site.None? {
      var created;
      created, r := CreateSite(manager, t, simulation);
      log := log + created;
      if r.Err? {
        return log, r;
      }
      site := manager.FindSite(t.Name);
    }
    var applied := ApplyConfiguration(manager, t, simulation, apply, site);
    log := log + applied;
    r := Ok(());
  }

  /** Applying the template to the site found (not when simulating), then committing and logging the outcome. */
  method ApplyConfiguration(manager: ServerManager, t: IisSiteConfiguration, simulation: bool,
                            apply: (IisSiteConfiguration, Site) -> Site, site: Option<Site>)
    returns (log: seq<LogEntry>)
    requires !simulation ==> t.Name in manager.sites && site == Some(manager.sites[t.Name])
    modifies manager
    ensures log == AppliedLog(t)
    ensures simulation ==> manager.sites == old(manager.sites) && manager.committed == old(manager.committed)
    ensures !simulation ==> manager.sites == old(manager.sites)[t.Name := apply(t, site.value)]
                            && manager.committed == manager.sites
  {
    log := [ApplyingMessage];
    if !simulation {
      manager.UpdateSite(t.Name, apply(t, site.value));
    }
    log := log + [CommittingMessage];
    if !simulation {
      manager.CommitChanges();
    }
    log := log + [DoneMessage(t.Name, t.Exists)];
  }

  /** The `site == null` block: Sites.Add on the first binding's port, then a commit, unless simulating. */
  method CreateSite(manager: ServerManager, t: IisSiteConfiguration, simulation: bool)
    returns (log: seq<LogEntry>, r: Result<(), SiteError>)
    requires t.Name !in manager.sites && manager.sites == manager.committed
    modifies manager
    ensures r.Err? <==> !simulation && CreationPort(t).Err?
    ensures r.Err? ==> r.error == CreationPort(t).error && log == [CreatingMessage]
                       && manager.sites == old(manager.sites) && manager.committed == old(manager.committed)
    ensures r.Ok? ==> log == [CreatingMessage, AddedMessage(t.Name), ReloadingMessage]
                      && manager.committed == manager.sites
                      && manager.sites == if simulation then old(manager.sites)
                                          else old(manager.sites)[t.Name := NewSite(t, CreationPort(t).value)]
  {
    log := [CreatingMessage];
    if !simulation {
      if t.Bindings == [] {
        return log, Err(NoBindings);
      }
      var port := Int32Parse(t.Bindings[0].Port);
      if port.Err? {
        return log, Err(PortNotANumber(port.error));
      }
      var site := manager.AddSite(t.Name, t.VirtualDirectoryPhysicalPath, port.value);
      manager.CommitChanges();
    }
    log := log + [AddedMessage(t.Name), ReloadingMessage];
    r := Ok(());
  }

  /** The `!Template.Exists` branch, on a manager just opened. */
  method EnsureRemoved(manager: ServerManager, t: IisSiteConfiguration, simulation: bool)
    returns (log: seq<LogEntry>, r: Result<(), SiteError>)
    requires manager.sites == manager.committed
    modifies manager
    ensures Outcome(manager.committed, log, r) == Removed(Server(old(manager.committed), manager.applicationPools), t, simulation)
  {
    var site := manager.FindSite(t.Name);
    if site.None? {
      return [NoSiteMessage], Ok(());
    }
    if !simulation {
      manager.RemoveSite(t.Name);
    }
    log := [CommittingMessage];
    if !simulation {
      manager.CommitChanges();
    }
    log := log + [DoneMessage(t.Name, t.Exists)];
    r := Ok(());
  }

  /** RemoteCollectAsync: an absent site is reported as not existing; a present one as FromMwaSite reads it. */
  method RemoteCollectAsync(server: Server, t: IisSiteConfiguration,
                            fromMwaSite: (Site, IisSiteConfiguration) -> IisSiteConfiguration)
    returns (log: seq<LogEntry>, config: IisSiteConfiguration)
    ensures t.Name !in server.sites ==> config == AbsentSite(t.Name) && log == [LookingMessage(t.Name), AbsentMessage(t.Name)]
    ensures t.Name in server.sites ==> config == fromMwaSite(server.sites[t.Name], t) && log == [LookingMessage(t.Name)]
  {
    log := [LookingMessage(t.Name)];
    var manager := new ServerManager(server);
    var site := manager.FindSite(t.Name);
    if site.None? {
      log := log + [AbsentMessage(t.Name)];
      return log, AbsentSite(t.Name);
    }
    config := fromMwaSite(site.value, t);
  }

  // ===========================================================================
  // Description

  const DoesNotExistText: string := "does not exist"

  /** The description claims absence when the pool or the path is empty, or Exists reads "false" in any case. */
  predicate DescribedAsAbsent(config: map<string, string>)
  {
    IsNullOrEmpty(ConfigValue(config, "ApplicationPoolName"))
    || IsNullOrEmpty(ConfigValue(config, "VirtualDirectoryPhysicalPath"))
    || NullableEqualsIgnoreCase(ConfigValue(config, "Exists"), Some("false"))
  }

  /** GetDescription */
  function GetDescription(config: map<string, string>): ExtendedRichDescription
  {
    var shortDescription := RichDescription([Plain("Ensure IIS Site: "), Hilite(ConfigValue(config, "Name"))]);
    var appPool := ConfigValue(config, "ApplicationPoolName");
    var vdir := ConfigValue(config, "VirtualDirectoryPhysicalPath");
    if DescribedAsAbsent(config) then
      ExtendedRichDescription(shortDescription, Some(RichDescription([Plain(DoesNotExistText)])))
    else
      ExtendedRichDescription(shortDescription, Some(RichDescription(
        [Plain("application pool "), Hilite(appPool), Plain("; virtual directory path: "), Hilite(vdir)])))
  }

  /** The long description says "does not exist" exactly when the absence rule holds; otherwise it names the pool and the path. */
  lemma {:induction false} DescriptionSaysDoesNotExist(config: map<string, string>)
    ensures GetDescription(config).longDescription == Some(RichDescription([Plain(DoesNotExistText)]))
            <==> DescribedAsAbsent(config)
    ensures !DescribedAsAbsent(config) ==>
              var parts := GetDescription(config).longDescription.value.parts;
              parts[1] == Hilite(ConfigValue(config, "ApplicationPoolName"))
              && parts[3] == Hilite(ConfigValue(config, "VirtualDirectoryPhysicalPath"))
    ensures GetDescription(config).shortDescription.parts[1] == Hilite(ConfigValue(config, "Name"))
  {
  }

  // ===========================================================================
  // Properties of a configure run

  /** A simulation stores nothing and never throws. */
  lemma {:induction false} SimulationChangesNothing(server: Server, t: IisSiteConfiguration, apply: (IisSiteConfiguration, Site) -> Site)
    ensures Reconciled(server, t, true, apply).stored == server.sites
    ensures Reconciled(server, t, true, apply).result.Ok?
  {
  }

  /** Every site but the template's keeps its name and settings. */
  lemma {:induction false} OnlyNamedSiteChanges(server: Server, t: IisSiteConfiguration, simulation: bool,
                             apply: (IisSiteConfiguration, Site) -> Site)
    ensures Reconciled(server, t, simulation, apply).stored - {t.Name} == server.sites - {t.Name}
  {
  }

  /** A missing application pool is reported and nothing is stored. */
  lemma {:induction false} MissingPoolRefused(server: Server, t: IisSiteConfiguration, simulation: bool,
                           apply: (IisSiteConfiguration, Site) -> Site)
    requires PoolMissing(server, t)
    ensures Reconciled(server, t, simulation, apply)
            == Outcome(server.sites, [LookingMessage(t.Name), PoolMissingMessage(t.ApplicationPoolName.value)], Ok(()))
  {
  }

  /**
   * A run throws exactly when it has to create the site and the first binding's
   * port is missing or not a number; a run that throws stores nothing.
   */
  lemma {:induction false} FailureChangesNothing(server: Server, t: IisSiteConfiguration, simulation: bool,
                              apply: (IisSiteConfiguration, Site) -> Site)
    ensures Reconciled(server, t, simulation, apply).result.Err? <==>
            !simulation && t.Exists && !PoolMissing(server, t) && t.Name !in server.sites && CreationPort(t).Err?
    ensures Reconciled(server, t, simulation, apply).result.Err? ==>
            Reconciled(server, t, simulation, apply).stored == server.sites
            && Reconciled(server, t, simulation, apply).result.error == CreationPort(t).error
  {
  }

  /** After a real run that went through, the site exists exactly when the template says it should. */
  lemma {:induction false} ExistenceMatchesIntent(server: Server, t: IisSiteConfiguration, apply: (IisSiteConfiguration, Site) -> Site)
    requires !PoolMissing(server, t) && Reconciled(server, t, false, apply).result.Ok?
    ensures t.Name in Reconciled(server, t, false, apply).stored <==> t.Exists
    ensures t.Exists ==>
              Reconciled(server, t, false, apply).stored[t.Name]
              == apply(t, if t.Name in server.sites then server.sites[t.Name] else NewSite(t, CreationPort(t).value))
  {
  }

  /** A created site listens on the port its first binding writes in decimal. */
  lemma {:induction false} CreatedOnFirstBindingPort(server: Server, t: IisSiteConfiguration, apply: (IisSiteConfiguration, Site) -> Site, port: int)
    requires t.Exists && !PoolMissing(server, t) && t.Name !in server.sites
    requires t.Bindings != [] && Int32Min <= port <= Int32Max && t.Bindings[0].Port == Some(Int32ToString(port))
    ensures Reconciled(server, t, false, apply).stored
            == server.sites[t.Name := apply(t, Site(t.Name, t.VirtualDirectoryPhysicalPath, [PortBinding(port)], []))]
  {
    Int32RoundTrip(port);
  }

  /**
   * Running again on what the first run stored creates nothing, whatever applying
   * the settings does: with Exists the site is found and only re-applied; without
   * it the second run finds no site and warns.
   */
  lemma {:induction false} SecondRunNeverCreates(server: Server, t: IisSiteConfiguration, apply: (IisSiteConfiguration, Site) -> Site)
    requires !PoolMissing(server, t) && Reconciled(server, t, false, apply).result.Ok?
    ensures var first := Reconciled(server, t, false, apply);
            var second := Reconciled(Server(first.stored, server.applicationPools), t, false, apply);
            second.result.Ok? && second.log == [LookingMessage(t.Name)] + (if t.Exists then AppliedLog(t) else [NoSiteMessage])
  {
    ExistenceMatchesIntent(server, t, apply);
  }

  /** When applying the settings twice is applying them once, a second run stores exactly what the first stored. */
  lemma {:induction false} SecondRunIsSteady(server: Server, t: IisSiteConfiguration, apply: (IisSiteConfiguration, Site) -> Site)
    requires !PoolMissing(server, t) && Reconciled(server, t, false, apply).result.Ok?
    requires forall site :: apply(t, apply(t, site)) == apply(t, site)
    ensures var first := Reconciled(server, t, false, apply);
            var second := Reconciled(Server(first.stored, server.applicationPools), t, false, apply);
            second.stored == first.stored
  {
    ExistenceMatchesIntent(server, t, apply);
  }
}
